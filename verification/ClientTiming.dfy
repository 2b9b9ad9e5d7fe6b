/** How long a silence and a command can last if the timers of the client fire on time. */
module ClientTiming {
  import opened Options
  import opened ClientCommands
  import opened ClientLink
  import opened ClientEvents
  import Framing

  predicate NotPassed(timer: Option<nat>, now: nat) {
    timer.Some? ==> now <= timer.value
  }

  /** Time does not pass beyond an armed timer of the heartbeat or of the command. */
  predicate OnTime(c: Client, event: Event) {
    event.Passes? ==>
      && NotPassed(c.link.heartbeat, c.link.now + event.time)
      && NotPassed(c.link.heartbeatWatchdog, c.link.now + event.time)
      && NotPassed(c.commands.writeWatchdog, c.link.now + event.time)
      && NotPassed(c.commands.confirmation, c.link.now + event.time)
  }

  // ----- Silence

  /** The events that may start a heartbeat timer or let time pass. */
  predicate Beats(event: Event) {
    event.Connects? || event.Reads? || event.HeartbeatFires? || event.Passes?
  }

  lemma BeatKeepsPunctual(c: Client, event: Event, setup: Setup)
    requires Ordered(c) && Possible(c, event) && Punctual(c.link, setup.delays) && OnTime(c, event) && Beats(event)
    ensures Punctual(Next(c, event, setup).link, setup.delays)
  {
    match event
    case Connects => ConnectsIsSound(c.link, setup.delays);
    case Reads(chunk) => ReadKeepsOrdered(c, chunk, setup);
    case HeartbeatFires => SendHeartbeatIsSound(c.link, setup.delays);
    case Passes(time) =>
  }

  lemma UserKeepsBeat(c: Client, event: Event, setup: Setup)
    requires Ordered(c) && OfUser(event)
    ensures SameBeat(c.link, Next(c, event, setup).link)
  {
    match event
    case Starting => ConnectServerIsSound(c.link.(active := true, launchAttempted := false));
    case Stopping => StopKeepsOrdered(c);
    case Configuring(endpoint, changed) => ConfigureKeepsOrdered(c, endpoint, changed);
    case Refreshing =>
    case RefreshRuns => ConnectServerIsSound(c.link.(refreshScheduled := false, reconnect := None));
    case Setting(acceptable) => SettingKeepsOrdered(c, acceptable, setup.delays);
  }

  lemma OtherEventsKeepBeat(c: Client, event: Event, setup: Setup)
    requires Ordered(c) && Possible(c, event) && !Beats(event)
    ensures SameBeat(c.link, Next(c, event, setup).link)
  {
    if OfUser(event) {
      UserKeepsBeat(c, event, setup);
    } else {
      match event
      case Disconnects => AbortKeepsOrdered(c);
      case Breaks(failure) => SocketErrorIsSound(c.link, failure);
      case Resolves(generation, found) => LookedUpIsSound(c.link, generation, found);
      case ReconnectFires => ConnectServerIsSound(c.link.(reconnect := None));
      case ConnectWatchdogFires => ConnectTimesOutIsSound(c.link);
      case HeartbeatWatchdogFires => HeartbeatTimesOutIsSound(c.link);
      case _ =>
    }
  }

  lemma NextKeepsPunctual(c: Client, event: Event, setup: Setup)
    requires Ordered(c) && Possible(c, event) && Punctual(c.link, setup.delays) && OnTime(c, event)
    ensures Punctual(Next(c, event, setup).link, setup.delays)
  {
    if Beats(event) {
      BeatKeepsPunctual(c, event, setup);
    } else {
      OtherEventsKeepBeat(c, event, setup);
      SameBeatPunctual(c.link, Next(c, event, setup).link, setup.delays);
    }
  }

  // ----- Commands

  /** The timers of the command have not been missed and end it in time. */
  predicate Brisk(c: Client, delays: Delays) {
    && c.commands.since <= c.link.now
    && Within(c.commands.writeWatchdog, c.link.now, c.commands.since + delays.write)
    && Within(c.commands.confirmation, c.link.now, c.commands.since + delays.write + delays.confirmation)
  }

  lemma HandleKeepsBrisk(c: Client, envelope: Envelope, delays: Delays)
    requires Ordered(c) && Brisk(c, delays)
    ensures Brisk(HandleEnvelope(c, envelope, delays), delays)
  {}

  lemma {:induction false} HandlingKeepsBrisk(c: Client, envelopes: seq<Envelope>, delays: Delays)
    requires Ordered(c) && c.link.socket == Connected && Brisk(c, delays)
    ensures Brisk(HandleAll(c, envelopes, delays), delays)
  {
    if envelopes != [] {
      var before := envelopes[..|envelopes| - 1];
      HandlingKeepsOrdered(c, before, delays);
      HandlingKeepsBrisk(c, before, delays);
      HandleKeepsBrisk(HandleAll(c, before, delays), envelopes[|envelopes| - 1], delays);
    }
  }

  lemma ReadKeepsBrisk(c: Client, chunk: string, setup: Setup)
    requires Ordered(c) && c.link.socket == Connected && Brisk(c, setup.delays)
    ensures Brisk(Read(c, chunk, setup), setup.delays)
  {
    var drained := Framing.Drain(setup.decode, c.stream + chunk);
    HandlingKeepsOrdered(c.(stream := ""), drained.envelopes, setup.delays);
    HandlingKeepsBrisk(c.(stream := ""), drained.envelopes, setup.delays);
    if drained.aborted {
      AbortKeepsOrdered(HandleAll(c.(stream := ""), drained.envelopes, setup.delays).(stream := drained.rest));
    }
  }

  /** The command timers are untouched, or stopped with the command. */
  predicate SamePace(k: Commands, k': Commands) {
    && k'.since == k.since
    && (k'.writeWatchdog == k.writeWatchdog || k'.writeWatchdog.None?)
    && (k'.confirmation == k.confirmation || k'.confirmation.None?)
  }

  lemma OtherEventsKeepPace(c: Client, event: Event, setup: Setup)
    requires !event.Reads? && !event.Setting?
    ensures SamePace(c.commands, Next(c, event, setup).commands)
  {}

  lemma SettingKeepsBrisk(c: Client, acceptable: bool, setup: Setup)
    requires Brisk(c, setup.delays)
    ensures Brisk(SetPanelValues(c, acceptable, setup.delays), setup.delays)
  {}

  lemma PassingKeepsBrisk(c: Client, time: nat, setup: Setup)
    requires Brisk(c, setup.delays) && OnTime(c, Passes(time))
    ensures Brisk(Next(c, Passes(time), setup), setup.delays)
  {}

  lemma NextKeepsBrisk(c: Client, event: Event, setup: Setup)
    requires Ordered(c) && Possible(c, event) && Brisk(c, setup.delays) && OnTime(c, event)
    ensures Brisk(Next(c, event, setup), setup.delays)
  {
    match event
    case Reads(chunk) => ReadKeepsBrisk(c, chunk, setup);
    case Setting(acceptable) => SettingKeepsBrisk(c, acceptable, setup);
    case Passes(time) => PassingKeepsBrisk(c, time, setup);
    case _ =>
      OtherEventsKeepPace(c, event, setup);
      if !Beats(event) { OtherEventsKeepBeat(c, event, setup); }
  }

  // ----- Over every run on time

  predicate RunsOnTime(c: Client, events: seq<Event>, setup: Setup)
    decreases |events|
  {
    events == [] ||
    (Possible(c, events[0]) && OnTime(c, events[0]) && RunsOnTime(Next(c, events[0], setup), events[1..], setup))
  }

  lemma {:induction false} PunctualForever(c: Client, events: seq<Event>, setup: Setup)
    requires Ordered(c) && Punctual(c.link, setup.delays) && Brisk(c, setup.delays) && RunsOnTime(c, events, setup)
    ensures Run(c, events, setup).Some?
    ensures var end := Run(c, events, setup).value;
            Ordered(end) && Punctual(end.link, setup.delays) && Brisk(end, setup.delays)
    decreases |events|
  {
    if events != [] {
      NextKeepsOrdered(c, events[0], setup);
      NextKeepsPunctual(c, events[0], setup);
      NextKeepsBrisk(c, events[0], setup);
      PunctualForever(Next(c, events[0], setup), events[1..], setup);
    }
  }

  /** If the timers fire on time, a connection never lasts longer without a sign of life than
      the heartbeat interval and its timeout together, and no command stays in progress
      longer than the write timeout and the confirmation timeout together. */
  lemma NothingLastsTooLong(endpoint: Endpoint, now: nat, events: seq<Event>, setup: Setup)
    requires RunsOnTime(Idle(endpoint, now), events, setup)
    ensures Run(Idle(endpoint, now), events, setup).Some?
    ensures var c, delays := Run(Idle(endpoint, now), events, setup).value, setup.delays;
            && (c.link.socket == Connected ==>
                  c.link.now - c.link.lastLife <= delays.heartbeat + delays.heartbeatTimeout)
            && (c.commands.busy ==> c.link.now - c.commands.since <= delays.write + delays.confirmation)
  {
    var c := Idle(endpoint, now);
    assert Reading([]) == Some(Free(0));
    PunctualForever(c, events, setup);
    var l := Run(c, events, setup).value.link;
    if l.socket == Connected { SilenceBounded(l, setup.delays); }
  }
}
