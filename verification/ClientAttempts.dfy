/** Attempts to connect, and what lets a request of the user be sent. */
module ClientAttempts {
  import opened Options
  import opened ClientCommands
  import opened ClientLink
  import opened ClientEvents
  import Framing

  // ----- Addresses

  /** The link after so many attempts failed one after the other. */
  function Failures(l: Link, n: nat): Link {
    if n == 0 then l else SocketError(Failures(l, n - 1), OtherFailure)
  }

  lemma FailedAttempt(l: Link)
    requires l.active && l.connecting && l.socket == Connecting
    ensures var next := SocketError(l, OtherFailure);
            && next.active
            && (if l.addresses > 0
                then next.connecting && next.socket == Connecting && next.addresses == l.addresses - 1
                else !next.connecting && next.socket == Unconnected && next.reconnect.Some? && !next.hasStatus)
  {}

  /** Every address found by a lookup is tried, one after the other; only when all have failed
      the client gives up and schedules the next attempt. */
  lemma {:induction false} AddressesAllTried(l: Link, found: nat, failed: nat)
    requires l.active && l.resolving && found > 0 && failed <= found
    ensures var next := Failures(LookedUp(l, l.generation, found), failed);
            && next.active
            && (if failed < found
                then next.connecting && next.socket == Connecting && next.addresses == found - 1 - failed
                else !next.connecting && next.socket == Unconnected && next.reconnect.Some? && !next.hasStatus)
  {
    if failed > 0 {
      AddressesAllTried(l, found, failed - 1);
      FailedAttempt(Failures(LookedUp(l, l.generation, found), failed - 1));
    }
  }

  /** An attempt that takes too long makes way for the next address like one that fails. */
  lemma TimeoutTriesNext(l: Link)
    requires l.active && l.connecting && l.socket == Connecting && !l.resolving
    ensures var timedOut, failed := ConnectTimesOut(l), SocketError(l, OtherFailure);
            timedOut.connecting == failed.connecting && timedOut.socket == failed.socket &&
            timedOut.addresses == failed.addresses && timedOut.reconnect == failed.reconnect
  {}

  /** An answer to a lookup that is not the last one changes nothing. */
  lemma OutdatedLookupIgnored(l: Link, generation: nat, found: nat)
    requires generation != l.generation
    ensures LookedUp(l, generation, found) == l
  {}

  /** What may happen to the lookup: a new one has a new number, and one that is given up leaves
      a higher number behind. */
  predicate LookupTold(l: Link, l': Link, answered: bool) {
    && l'.generation >= l.generation
    && (l'.resolving && !l.resolving ==> l'.generation > l.generation)
    && (l.resolving && !l'.resolving && !answered ==> l'.generation > l.generation)
  }

  lemma TryingTells(l: Link)
    ensures LookupTold(l, ConnectServer(l), false)
  {}

  lemma ReadingTells(c: Client, chunk: string, setup: Setup)
    ensures LookupTold(c.link, Read(c, chunk, setup).link, false)
  {
    var drained := Framing.Drain(setup.decode, c.stream + chunk);
    HandlingTells(c.(stream := ""), drained.envelopes, setup.delays);
  }

  lemma {:induction false} HandlingTells(c: Client, envelopes: seq<Envelope>, delays: Delays)
    ensures SameLookup(HandleAll(c, envelopes, delays).link, c.link)
    decreases |envelopes|
  {
    if envelopes != [] {
      var n := |envelopes| - 1;
      HandlingTells(c, envelopes[..n], delays);
      OneTells(HandleAll(c, envelopes[..n], delays), envelopes[n], delays);
    }
  }

  predicate SameLookup(l: Link, l': Link) {
    l.generation == l'.generation && l.resolving == l'.resolving
  }

  lemma OneTells(c: Client, envelope: Envelope, delays: Delays)
    ensures SameLookup(HandleEnvelope(c, envelope, delays).link, c.link)
  {
    match envelope
    case Alive => assert SameLookup(Pong(c.link, delays), c.link);
    case DeviceFailed => assert SameLookup(ConnectionFailed(c.link), c.link);
    case Trouble => assert SameLookup(ConnectionFailed(c.link), c.link);
    case _ =>
  }

  /** Numbers tell lookups apart: an answer to one that was given up is never taken for the
      answer to a later one. */
  lemma LookupsAreTold(c: Client, event: Event, setup: Setup)
    requires Ordered(c) && Possible(c, event)
    ensures LookupTold(c.link, Next(c, event, setup).link, event.Resolves?)
  {
    if OfUser(event) {
      UserTells(c, event, setup);
    } else if event.Reads? {
      ReadingTells(c, event.chunk, setup);
    } else if event.ReconnectFires? {
      TryingTells(c.link.(reconnect := None));
    } else {
      OthersTell(c, event, setup);
    }
  }

  lemma UserTells(c: Client, event: Event, setup: Setup)
    requires Ordered(c) && OfUser(event)
    ensures LookupTold(c.link, Next(c, event, setup).link, false)
  {
    var l := c.link;
    match event
    case Starting => TryingTells(l.(active := true, launchAttempted := false));
    case Stopping => StoppingTells(l);
    case Configuring(endpoint, changed) => RedirectingTells(l, endpoint, changed);
    case RefreshRuns => TryingTells(l.(refreshScheduled := false, reconnect := None));
    case _ =>
  }

  lemma StoppingTells(l: Link)
    ensures LookupTold(l, Abort(Deactivate(l)), false)
  {}

  lemma RedirectingTells(l: Link, endpoint: Endpoint, changed: bool)
    ensures LookupTold(l, Redirect(l, endpoint, changed), false)
    ensures changed && l.active ==>
              LookupTold(l, ConnectServer(Abort(Redirect(l, endpoint, changed)).(reconnect := None)), false)
  {
    TryingTells(Abort(Redirect(l, endpoint, changed)).(reconnect := None));
  }

  lemma OthersTell(c: Client, event: Event, setup: Setup)
    requires Ordered(c) && Possible(c, event) && !OfUser(event) && !event.Reads? && !event.ReconnectFires?
    ensures LookupTold(c.link, Next(c, event, setup).link, event.Resolves?)
  {}

  /** A new endpoint ends the connection, and a usable one is tried at once. */
  lemma NewEndpointIsTried(c: Client, setup: Setup, endpoint: Endpoint)
    requires Reached(c, setup) && c.link.active
    ensures var next := Next(c, Configuring(endpoint, true), setup);
            && next.link.endpoint == endpoint && next.link.socket != Connected && !next.commands.busy
            && (endpoint.valid ==> next.link.resolving || next.link.connecting)
  {
    ReachedIsOrdered(c, setup);
    AbortIsStaged(c.link);
  }

  /** Without a new endpoint, or while inactive, only the delay between attempts changes. */
  lemma SameEndpointKept(c: Client, setup: Setup, endpoint: Endpoint, changed: bool)
    requires !changed || !c.link.active
    ensures Next(c, Configuring(endpoint, changed), setup) == c.(link := c.link.(endpoint := endpoint))
  {}

  // ----- The test server

  /** A refused attempt launches the test server if there is one and none was launched yet. */
  lemma RefusalLaunches(l: Link, failure: Failure)
    requires l.active && l.socket != Connected
    ensures SocketError(l, failure).launchAttempted <==>
            l.launchAttempted || (failure.ConnectionRefused? && failure.server != NotConfigured)
  {}

  /** After that a refusal is a failure like any other. */
  lemma LaunchedOnce(l: Link, failure: Failure)
    requires l.launchAttempted && failure != RemoteClosed
    ensures SocketError(l, failure) == SocketError(l, OtherFailure)
  {}

  // ----- Knowing a status

  /** What the client hears decides whether it knows a status of a device in order. */
  lemma EnvelopeDecidesStatus(c: Client, envelope: Envelope, delays: Delays)
    ensures HandleEnvelope(c, envelope, delays).link.hasStatus <==>
            envelope == Status || (c.link.hasStatus && (envelope.Alive? || envelope.Irrelevant? || envelope.Answer?))
  {}

  /** A status is known only while connected. */
  predicate KnowsConnected(c: Client) {
    c.link.hasStatus ==> c.link.socket == Connected
  }

  lemma {:induction false} HandlingKeepsSocket(c: Client, envelopes: seq<Envelope>, delays: Delays)
    ensures SameSocket(HandleAll(c, envelopes, delays).link, c.link)
    decreases |envelopes|
  {
    if envelopes != [] {
      var before := HandleAll(c, envelopes[..|envelopes| - 1], delays);
      HandlingKeepsSocket(c, envelopes[..|envelopes| - 1], delays);
      OneKeepsSocket(before, envelopes[|envelopes| - 1], delays);
    }
  }

  lemma OneKeepsSocket(c: Client, envelope: Envelope, delays: Delays)
    ensures SameSocket(HandleEnvelope(c, envelope, delays).link, c.link)
  {
    match envelope
    case Alive => assert SameSocket(Pong(c.link, delays), c.link);
    case DeviceFailed => assert SameSocket(ConnectionFailed(c.link), c.link);
    case Trouble => assert SameSocket(ConnectionFailed(c.link), c.link);
    case _ =>
  }

  predicate SameSocket(l: Link, l': Link) {
    l.socket == l'.socket && l.active == l'.active && l.connecting == l'.connecting
  }

  lemma ReadKnowsConnected(c: Client, chunk: string, setup: Setup)
    requires Ordered(c) && c.link.socket == Connected
    ensures KnowsConnected(Read(c, chunk, setup))
  {
    var drained := Framing.Drain(setup.decode, c.stream + chunk);
    HandlingKeepsSocket(c.(stream := ""), drained.envelopes, setup.delays);
  }

  lemma UserKnowsConnected(c: Client, event: Event, setup: Setup)
    requires Ordered(c) && KnowsConnected(c) && OfUser(event)
    ensures KnowsConnected(Next(c, event, setup))
  {}

  lemma SocketKnowsConnected(c: Client, event: Event, setup: Setup)
    requires Ordered(c) && KnowsConnected(c) && OfSocket(event) && Possible(c, event)
    ensures KnowsConnected(Next(c, event, setup))
  {
    if event.Reads? { ReadKnowsConnected(c, event.chunk, setup); }
  }

  lemma TimerKnowsConnected(c: Client, event: Event, setup: Setup)
    requires Ordered(c) && KnowsConnected(c) && !OfUser(event) && !OfSocket(event) && Possible(c, event)
    ensures KnowsConnected(Next(c, event, setup))
  {}

  lemma {:induction false} KnowsConnectedForever(c: Client, events: seq<Event>, setup: Setup)
    requires Ordered(c) && KnowsConnected(c) && Run(c, events, setup).Some?
    ensures KnowsConnected(Run(c, events, setup).value)
    decreases |events|
  {
    if events != [] {
      NextKeepsOrdered(c, events[0], setup);
      if OfUser(events[0]) {
        UserKnowsConnected(c, events[0], setup);
      } else if OfSocket(events[0]) {
        SocketKnowsConnected(c, events[0], setup);
      } else {
        TimerKnowsConnected(c, events[0], setup);
      }
      KnowsConnectedForever(Next(c, events[0], setup), events[1..], setup);
    }
  }

  lemma KnownWhileConnected(c: Client, setup: Setup)
    requires Reached(c, setup)
    ensures c.link.hasStatus ==> c.link.socket == Connected
  {
    var endpoint, now, events :| Run(Idle(endpoint, now), events, setup) == Some(c);
    assert Reading([]) == Some(Free(0));
    KnowsConnectedForever(Idle(endpoint, now), events, setup);
  }

  /** In every reachable state: a request of the user is sent, with the next id, exactly if none
      is in progress, its values are acceptable, the endpoint is usable and a status is
      known; if none is in progress it is refused otherwise, and else passed over. */
  lemma SettingDecides(c: Client, setup: Setup, acceptable: bool)
    requires Reached(c, setup)
    ensures var next := Next(c, Setting(acceptable), setup);
            && next.link == c.link
            && next.commands.signals ==
               c.commands.signals +
               (if c.commands.busy then []
                else if acceptable && c.link.endpoint.valid && c.link.active && c.link.hasStatus
                then [Sent(Current(c.commands) + 1)] else [Refused])
  {
    ReachedIsOrdered(c, setup);
    KnownWhileConnected(c, setup);
  }

  // ----- What the server says of the device, and refreshing

  /** News that the device failed fail a command in progress; the status is not known any more,
      and an active client schedules an attempt.  What else the server says of itself or of
      the device leaves the command alone. */
  lemma DeviceNewsDecide(c: Client, envelope: Envelope, delays: Delays)
    ensures envelope == DeviceFailed ==>
              var next := HandleEnvelope(c, envelope, delays);
              && !next.commands.busy && !next.link.hasStatus && (c.link.active ==> next.link.reconnect.Some?)
              && next.commands.signals ==
                 c.commands.signals + (if c.commands.busy then [Failed(Current(c.commands))] else [])
    ensures envelope in {Alive, DeviceConnecting, Irrelevant, Trouble} ==>
              HandleEnvelope(c, envelope, delays).commands == c.commands
  {}

  /** A refresh is put off once, and never while a command is in progress; when its turn comes a
      client that is not connected tries at once, if its endpoint is usable. */
  lemma RefreshDecides(c: Client, setup: Setup)
    requires Reached(c, setup) && c.link.active
    ensures Next(c, Refreshing, setup) ==
            c.(link := c.link.(refreshScheduled := c.link.refreshScheduled || !c.commands.busy))
    ensures var next := Next(c, RefreshRuns, setup);
            && !next.link.refreshScheduled && next.commands == c.commands
            && (!c.commands.busy && c.link.socket != Connected && c.link.endpoint.valid ==>
                  next.link.resolving || next.link.connecting)
  {
    ReachedIsOrdered(c, setup);
  }

  /** The end of a connection leaves nothing of it: no status, no heartbeat, and the test server
      may be launched again; an active client schedules the next attempt. */
  lemma ConnectionEnds(c: Client, setup: Setup)
    requires Reached(c, setup) && c.link.socket == Connected
    ensures var next := Next(c, Disconnects, setup);
            && next.link.socket == Unconnected && !next.link.hasStatus && !next.link.launchAttempted
            && next.link.heartbeat.None? && next.link.heartbeatWatchdog.None? && !next.commands.busy
            && (c.link.active ==> next.link.reconnect.Some?)
  {
    ReachedIsOrdered(c, setup);
  }
}
