/** When the client goes deaf: a message over the limit stays in its stream until it is stopped,
    and nothing else keeps it from hearing the server again. */
module ClientHearing {
  import opened Options
  import opened ClientLink
  import opened ClientEvents
  import Framing

  // ----- Deaf

  predicate Deaf(c: Client) {
    Framing.Overlong(c.stream) && !c.link.hasStatus
  }

  lemma ReadingOverlong(c: Client, chunk: string, setup: Setup)
    requires Framing.Overlong(c.stream + chunk)
    ensures Deaf(Read(c, chunk, setup))
  {
    Framing.OverlongStays(setup.decode, c.stream + chunk);
  }

  lemma NextKeepsStream(c: Client, event: Event, setup: Setup)
    requires !event.Stopping? && !event.Reads?
    ensures Next(c, event, setup).stream == c.stream
  {}

  lemma UserLearnsNothing(c: Client, event: Event, setup: Setup)
    requires !c.link.hasStatus && OfUser(event)
    ensures !Next(c, event, setup).link.hasStatus
  {}

  lemma SocketLearnsNothing(c: Client, event: Event, setup: Setup)
    requires !c.link.hasStatus && OfSocket(event) && !event.Reads?
    ensures !Next(c, event, setup).link.hasStatus
  {}

  lemma NextLearnsNothing(c: Client, event: Event, setup: Setup)
    requires !c.link.hasStatus && !event.Reads?
    ensures !Next(c, event, setup).link.hasStatus
  {
    if OfUser(event) {
      UserLearnsNothing(c, event, setup);
    } else if OfSocket(event) {
      SocketLearnsNothing(c, event, setup);
    }
  }

  lemma NextKeepsDeaf(c: Client, event: Event, setup: Setup)
    requires Deaf(c) && event != Stopping
    ensures Deaf(Next(c, event, setup))
  {
    if event.Reads? {
      Framing.OverlongGrows(c.stream, event.chunk);
      ReadingOverlong(c, event.chunk, setup);
    } else {
      NextKeepsStream(c, event, setup);
      NextLearnsNothing(c, event, setup);
    }
  }

  predicate WithoutStop(events: seq<Event>) {
    forall i | 0 <= i < |events| :: events[i] != Stopping
  }

  lemma {:induction false} DeafUntilStopped(c: Client, events: seq<Event>, setup: Setup)
    requires Deaf(c) && Run(c, events, setup).Some? && WithoutStop(events)
    ensures Deaf(Run(c, events, setup).value) && !CanSend(Run(c, events, setup).value.link)
    decreases |events|
  {
    if events != [] {
      NextKeepsDeaf(c, events[0], setup);
      DeafUntilStopped(Next(c, events[0], setup), events[1..], setup);
    }
  }

  /** A read that makes a line or the rest of the stream exceed the limit deafens the client:
      whatever happens then, except a stop, it has no status to send a command on. */
  lemma OversizedDeafens(c: Client, chunk: string, events: seq<Event>, setup: Setup)
    requires Possible(c, Reads(chunk)) && Framing.Overlong(c.stream + chunk)
    requires Run(c, [Reads(chunk)] + events, setup).Some? && WithoutStop(events)
    ensures var end := Run(c, [Reads(chunk)] + events, setup).value;
            Deaf(end) && !CanSend(end.link)
  {
    assert ([Reads(chunk)] + events)[1..] == events;
    ReadingOverlong(c, chunk, setup);
    DeafUntilStopped(Read(c, chunk, setup), events, setup);
  }

  // ----- Hearing again

  lemma {:induction false} RunJoins(c: Client, first: seq<Event>, second: seq<Event>, setup: Setup)
    requires Run(c, first, setup).Some?
    ensures Run(c, first + second, setup) == Run(Run(c, first, setup).value, second, setup)
    decreases |first|
  {
    if first == [] {
      assert first + second == second;
    } else {
      assert (first + second)[0] == first[0] && (first + second)[1..] == first[1..] + second;
      RunJoins(Next(c, first[0], setup), first[1..], second, setup);
    }
  }

  lemma Then(c: Client, events: seq<Event>, d: Client, event: Event, setup: Setup) returns (more: seq<Event>)
    requires Run(c, events, setup) == Some(d) && WithoutStop(events) && Possible(d, event) && event != Stopping
    ensures Run(c, more, setup) == Some(Next(d, event, setup)) && WithoutStop(more)
  {
    more := events + [event];
    RunJoins(c, events, [event], setup);
    assert [event][1..] == [];
    assert Run(d, [event], setup) == Run(Next(d, event, setup), [event][1..], setup);
  }

  /** Active with a usable endpoint. */
  predicate Willing(c: Client) {
    c.link.active && c.link.endpoint.valid
  }

  /** A willing client that is neither connected nor trying gets connected again. */
  lemma Reconnects(c: Client, setup: Setup) returns (events: seq<Event>, d: Client)
    requires Ordered(c) && Willing(c) && c.link.socket == Unconnected && !c.link.connecting && !c.link.resolving
    ensures Run(c, events, setup) == Some(d) && WithoutStop(events)
    ensures Ordered(d) && Willing(d) && d.link.socket == Connected && d.stream == c.stream
  {
    var wait := if c.link.reconnect.value > c.link.now then c.link.reconnect.value - c.link.now else 0;
    d := c;
    assert Run(c, [], setup) == Some(c);
    events := Then(c, [], d, Passes(wait), setup);
    d := Next(d, Passes(wait), setup);
    events := Then(c, events, d, ReconnectFires, setup);
    d := Next(d, ReconnectFires, setup);
    if d.link.resolving {
      var generation := d.link.generation;
      events := Then(c, events, d, Resolves(generation, 1), setup);
      d := Next(d, Resolves(generation, 1), setup);
    }
    assert d.link.socket == Connecting;
    events := Then(c, events, d, Event.Connects, setup);
    d := Next(d, Event.Connects, setup);
    assert Run(c, events, setup) == Some(d);
    OrderedForever(c, events, setup);
  }

  lemma HandlingStaysWilling(c: Client, envelope: Envelope, delays: Delays)
    ensures Willing(HandleEnvelope(c, envelope, delays)) <==> Willing(c)
  {}

  lemma {:induction false} HandlingAllStaysWilling(c: Client, envelopes: seq<Envelope>, delays: Delays)
    ensures Willing(HandleAll(c, envelopes, delays)) <==> Willing(c)
  {
    if envelopes != [] {
      HandlingAllStaysWilling(c, envelopes[..|envelopes| - 1], delays);
      HandlingStaysWilling(HandleAll(c, envelopes[..|envelopes| - 1], delays), envelopes[|envelopes| - 1], delays);
    }
  }

  lemma ReadStaysWilling(c: Client, chunk: string, setup: Setup)
    requires Ordered(c) && Willing(c) && c.link.socket == Connected
    ensures var d := Read(c, chunk, setup);
            var drained := Framing.Drain(setup.decode, c.stream + chunk);
            && Ordered(d) && Willing(d) && d.stream == drained.rest
            && d.link.socket == (if drained.aborted then Unconnected else Connected)
            && (drained.aborted ==> !d.link.connecting && !d.link.resolving)
  {
    var drained := Framing.Drain(setup.decode, c.stream + chunk);
    ReadKeepsOrdered(c, chunk, setup);
    HandlingKeepsOrdered(c.(stream := ""), drained.envelopes, setup.delays);
    HandlingAllStaysWilling(c.(stream := ""), drained.envelopes, setup.delays);
    var handled := HandleAll(c.(stream := ""), drained.envelopes, setup.delays).(stream := drained.rest);
    if drained.aborted { AbortIsStaged(handled.link); }
  }

  /** Newline by newline the old contents of the stream are used up. */
  lemma {:induction false} UsesUp(c: Client, setup: Setup) returns (events: seq<Event>, d: Client)
    requires Ordered(c) && Willing(c) && c.link.socket == Connected && !Framing.Overlong(c.stream)
    ensures Run(c, events, setup) == Some(d) && WithoutStop(events)
    ensures Ordered(d) && Willing(d) && d.link.socket == Connected && d.stream == ""
    decreases |c.stream|
  {
    assert Run(c, [], setup) == Some(c);
    events := Then(c, [], c, Reads("\n"), setup);
    d := Read(c, "\n", setup);
    ReadStaysWilling(c, "\n", setup);
    Framing.NewlineEnds(setup.decode, c.stream);
    Framing.OthersShrink(setup.decode, c.stream + "\n");
    if Framing.Drain(setup.decode, c.stream + "\n").aborted {
      var again, e := Reconnects(d, setup);
      var rest, f := UsesUp(e, setup);
      RunJoins(c, events, again, setup);
      RunJoins(c, events + again, rest, setup);
      events, d := events + again + rest, f;
    }
  }

  /** A line that the client understands as a status. */
  predicate MeansStatus(line: string, setup: Setup) {
    && |line| <= Framing.LIMIT && Framing.LineLength(line) == |line|
    && !Framing.Blank(line) && setup.decode(Framing.Trim(line)) == Some(Status)
  }

  lemma StatusArrivesAgain(c: Client, line: string, setup: Setup)
    requires Ordered(c) && Willing(c) && c.link.socket == Connected && c.stream == "" && MeansStatus(line, setup)
    ensures CanSend(Read(c, line + "\n", setup).link)
  {
    var text := line + "\n";
    assert c.stream + text == text;
    Framing.LastLine(setup.decode, line);
    assert Framing.Drain(setup.decode, text) == Framing.Drained([Status], "", false);
    assert [Status][..0] == [];
    assert HandleAll(c, [], setup.delays) == c;
    assert HandleAll(c, [Status], setup.delays) == HandleEnvelope(c, Status, setup.delays);
  }

  /** For an active, connected client with a usable endpoint that has no status at the moment:
      some run without a stop lets it send commands again if and only if no line of its
      stream, and no unfinished one, is over the limit. */
  lemma HearsAgainExactly(c: Client, line: string, setup: Setup)
    requires Reached(c, setup) && Willing(c) && c.link.socket == Connected && !c.link.hasStatus
    requires MeansStatus(line, setup)
    ensures (exists events ::
               WithoutStop(events) && Run(c, events, setup).Some? && CanSend(Run(c, events, setup).value.link)) <==>
            !Framing.Overlong(c.stream)
  {
    ReachedIsOrdered(c, setup);
    if Framing.Overlong(c.stream) {
      forall events | WithoutStop(events) && Run(c, events, setup).Some?
        ensures !CanSend(Run(c, events, setup).value.link)
      {
        DeafUntilStopped(c, events, setup);
      }
    } else {
      var events, d := UsesUp(c, setup);
      StatusArrivesAgain(d, line, setup);
      var more := Then(c, events, d, Reads(line + "\n"), setup);
      assert CanSend(Run(c, more, setup).value.link);
    }
  }

  // ----- Stopping

  /** Stopping ends everything that is under way and empties the stream. */
  lemma StopEndsAll(c: Client, setup: Setup)
    requires Reached(c, setup)
    ensures var next := Next(c, Stopping, setup);
            && next.stream == "" && !next.link.active && next.link.socket == Unconnected
            && !next.link.connecting && !next.link.resolving && !next.link.hasStatus && !next.commands.busy
            && !next.link.refreshScheduled && next.link.endpoint == c.link.endpoint
            && next.link.reconnect.None? && next.link.connectWatchdog.None? && next.link.heartbeat.None?
            && next.link.heartbeatWatchdog.None? && next.commands.writeWatchdog.None?
            && next.commands.confirmation.None?
  {
    ReachedIsOrdered(c, setup);
    StopKeepsOrdered(c);
  }

  /** A client under way to a connection is connected by the answers it waits for. */
  lemma GetsConnected(c: Client, setup: Setup) returns (events: seq<Event>, d: Client)
    requires Ordered(c) && c.link.active && (c.link.resolving || c.link.connecting)
    requires c.link.connecting ==> c.link.socket == Connecting
    ensures Run(c, events, setup) == Some(d) && Ordered(d) && Willing(d) == Willing(c)
    ensures d.link.socket == Connected && d.stream == c.stream
  {
    d := c;
    events := [];
    assert Run(c, [], setup) == Some(c);
    if d.link.resolving {
      var generation := d.link.generation;
      events := Then(c, events, d, Resolves(generation, 1), setup);
      d := Next(d, Resolves(generation, 1), setup);
    }
    events := Then(c, events, d, Event.Connects, setup);
    d := Next(d, Event.Connects, setup);
    OrderedForever(c, events, setup);
  }

  lemma StartTries(c: Client, setup: Setup)
    requires Ordered(c) && !c.link.active && c.link.endpoint.valid
    ensures var next := Next(c, Starting, setup);
            && Ordered(next) && Willing(next) && (next.link.resolving || next.link.connecting)
            && (next.link.connecting ==> next.link.socket == Connecting) && next.stream == c.stream
  {
    NextKeepsOrdered(c, Starting, setup);
  }

  /** However deaf, a client with a usable endpoint that is stopped and started again can come to
      send commands. */
  lemma StopCures(c: Client, line: string, setup: Setup)
    requires Reached(c, setup) && c.link.endpoint.valid && MeansStatus(line, setup)
    ensures exists events ::
              Run(c, [Stopping, Starting] + events, setup).Some? &&
              CanSend(Run(c, [Stopping, Starting] + events, setup).value.link)
  {
    ReachedIsOrdered(c, setup);
    StopEndsAll(c, setup);
    var stopped := Next(c, Stopping, setup);
    var started := Next(stopped, Starting, setup);
    NextKeepsOrdered(c, Stopping, setup);
    StartTries(stopped, setup);
    var events, d := GetsConnected(started, setup);
    StatusArrivesAgain(d, line, setup);
    var all := events + [Reads(line + "\n")];
    RunJoins(started, events, [Reads(line + "\n")], setup);
    OneEvent(d, Reads(line + "\n"), setup);
    RestartFirst(c, all, setup);
    assert Run(c, [Stopping, Starting] + all, setup) == Some(Next(d, Reads(line + "\n"), setup));
  }

  lemma {:induction false} OneEvent(c: Client, event: Event, setup: Setup)
    requires Possible(c, event)
    ensures Run(c, [event], setup) == Some(Next(c, event, setup))
  {
    assert [event][1..] == [];
  }

  lemma {:induction false} RestartFirst(c: Client, rest: seq<Event>, setup: Setup)
    ensures Run(c, [Stopping, Starting] + rest, setup) ==
            Run(Next(Next(c, Stopping, setup), Starting, setup), rest, setup)
  {
    assert ([Stopping, Starting] + rest)[1..] == [Starting] + rest && ([Starting] + rest)[1..] == rest;
  }
}
