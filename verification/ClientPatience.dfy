/** No timer of the client fires early: whenever one is set, it is set for the whole of its delay. */
module ClientPatience {
  import opened Options
  import opened ClientCommands
  import opened ClientLink
  import opened ClientEvents
  import Framing

  /** The timer is left alone, stopped, or set to fire after the delay. */
  predicate InFull(before: Option<nat>, after: Option<nat>, now: nat, delay: nat) {
    after == before || after.None? || after == Some(now + delay)
  }

  /** For an attempt that made way for the test server the next one comes soon. */
  predicate RetryInFull(l: Link, l': Link, launching: bool) {
    InFull(l.reconnect, l'.reconnect, l.now, l'.endpoint.reconnectDelay) ||
    (launching && l'.reconnect == Some(l.now + 100))
  }

  /** What may happen to the timers of the link at one moment; a heartbeat timer counts from the
      last sign of life. */
  predicate LinkPatient(l: Link, l': Link, delays: Delays, launching: bool) {
    && l'.now == l.now
    && InFull(l.heartbeat, l'.heartbeat, l.now, delays.heartbeat)
    && InFull(l.heartbeatWatchdog, l'.heartbeatWatchdog, l.now, delays.heartbeatTimeout)
    && InFull(l.connectWatchdog, l'.connectWatchdog, l.now, 3000)
    && RetryInFull(l, l', launching)
    && (FromLife(l, delays) ==> FromLife(l', delays))
  }

  predicate FromLife(l: Link, delays: Delays) {
    l.heartbeat.Some? ==> l.heartbeat.value == l.lastLife + delays.heartbeat
  }

  /** And to the timers of the command; the one for the reply counts from the send. */
  predicate CommandsPatient(k: Commands, k': Commands, now: nat, delays: Delays) {
    && InFull(k.writeWatchdog, k'.writeWatchdog, now, delays.write)
    && InFull(k.confirmation, k'.confirmation, now, delays.confirmation)
    && (FromSend(k, delays) ==> FromSend(k', delays))
  }

  predicate FromSend(k: Commands, delays: Delays) {
    k.writeWatchdog.Some? ==> k.writeWatchdog.value == k.since + delays.write
  }

  /** What an event may do to the timers. */
  predicate Patient(c: Client, c': Client, delays: Delays, launching: bool) {
    LinkPatient(c.link, c'.link, delays, launching) && CommandsPatient(c.commands, c'.commands, c.link.now, delays)
  }

  // ----- One event

  lemma LinkPatientTwice(l: Link, m: Link, r: Link, delays: Delays)
    requires LinkPatient(l, m, delays, false) && LinkPatient(m, r, delays, false) && r.endpoint == m.endpoint
    ensures LinkPatient(l, r, delays, false)
  {}

  lemma TryingIsPatient(l: Link, delays: Delays)
    ensures LinkPatient(l, TryNextAddress(l), delays, false) && TryNextAddress(l).endpoint == l.endpoint
    ensures LinkPatient(l, ConnectServer(l), delays, false) && ConnectServer(l).endpoint == l.endpoint
  {}

  lemma AbortIsPatient(l: Link, delays: Delays)
    ensures LinkPatient(l, Abort(l), delays, false) && Abort(l).endpoint == l.endpoint
  {}

  lemma LookedUpIsPatient(l: Link, generation: nat, found: nat, delays: Delays)
    ensures LinkPatient(l, LookedUp(l, generation, found), delays, false)
    ensures LookedUp(l, generation, found).endpoint == l.endpoint
  {}

  lemma TimingOutIsPatient(l: Link, delays: Delays)
    ensures LinkPatient(l, ConnectTimesOut(l), delays, false) && ConnectTimesOut(l).endpoint == l.endpoint
  {
    var fired := l.(connectWatchdog := None);
    AbortIsPatient(fired, delays);
    TryingIsPatient(Abort(fired), delays);
  }

  lemma FailingIsPatient(l: Link, delays: Delays)
    ensures LinkPatient(l, ConnectionFailed(l), delays, false) && ConnectionFailed(l).endpoint == l.endpoint
  {}

  lemma LaunchingIsPatient(l: Link, started: bool, delays: Delays)
    ensures LinkPatient(l, LaunchServer(l, started), delays, true) && LaunchServer(l, started).endpoint == l.endpoint
  {}

  /** What an attempt leaves when it is given up for an error. */
  lemma GivingUpIsPatient(l: Link, started: bool, delays: Delays)
    requires l.socket != Connected
    ensures var stopped := l.(connectWatchdog := None);
            && LinkPatient(l, TryNextAddress(Abort(stopped)), delays, false)
            && TryNextAddress(Abort(stopped)).endpoint == l.endpoint
            && LinkPatient(l, LaunchServer(Abort(stopped.(connecting := false)), started), delays, true)
            && LaunchServer(Abort(stopped.(connecting := false)), started).endpoint == l.endpoint
  {
    var stopped := l.(connectWatchdog := None);
    TryingIsPatient(Abort(stopped), delays);
    LaunchingIsPatient(Abort(stopped.(connecting := false)), started, delays);
  }

  /** The same for a connection. */
  lemma LosingIsPatient(l: Link, started: bool, delays: Delays)
    requires l.socket == Connected
    ensures var stopped := l.(connectWatchdog := None);
            && LinkPatient(l, TryNextAddress(Abort(stopped)), delays, false)
            && TryNextAddress(Abort(stopped)).endpoint == l.endpoint
            && LinkPatient(l, LaunchServer(Abort(stopped.(connecting := false)), started), delays, true)
            && LaunchServer(Abort(stopped.(connecting := false)), started).endpoint == l.endpoint
  {
    var stopped := l.(connectWatchdog := None);
    AbortIsPatient(stopped, delays);
    TryingIsPatient(Abort(stopped), delays);
    AbortIsPatient(stopped.(connecting := false), delays);
    LaunchingIsPatient(Abort(stopped.(connecting := false)), started, delays);
  }

  lemma ErrorIsPatient(l: Link, failure: Failure, delays: Delays)
    ensures LinkPatient(l, SocketError(l, failure), delays, true)
    ensures !(failure.ConnectionRefused? && failure.server != NotConfigured) ==>
              LinkPatient(l, SocketError(l, failure), delays, false)
    ensures SocketError(l, failure).endpoint == l.endpoint
  {
    var broken := if l.socket == Connecting then l.(socket := Unconnected) else l;
    if !l.active || failure == RemoteClosed {
    } else if l.connecting {
      AttemptErrorIsPatient(l, failure, delays);
    } else {
      LaunchingIsPatient(broken, failure.ConnectionRefused? && failure.server == Starts, delays);
      FailingIsPatient(broken, delays);
    }
  }

  lemma AttemptErrorIsPatient(l: Link, failure: Failure, delays: Delays)
    requires l.active && l.connecting && failure != RemoteClosed
    ensures LinkPatient(l, SocketError(l, failure), delays, Launches(l, failure))
    ensures SocketError(l, failure).endpoint == l.endpoint
  {
    var broken := if l.socket == Connecting then l.(socket := Unconnected) else l;
    var started := failure.ConnectionRefused? && failure.server == Starts;
    if broken.socket == Connected {
      LosingIsPatient(broken, started, delays);
    } else {
      GivingUpIsPatient(broken, started, delays);
    }
  }

  lemma PingIsPatient(l: Link, delays: Delays)
    ensures LinkPatient(l, SendHeartbeat(l, delays), delays, false) && SendHeartbeat(l, delays).endpoint == l.endpoint
  {}

  lemma SilenceIsPatient(l: Link, delays: Delays)
    ensures LinkPatient(l, HeartbeatTimesOut(l), delays, false) && HeartbeatTimesOut(l).endpoint == l.endpoint
  {
    var fired := l.(heartbeatWatchdog := None);
    FailingIsPatient(fired, delays);
    LinkPatientTwice(l, fired, ConnectionFailed(fired), delays);
    AbortIsPatient(ConnectionFailed(fired), delays);
    LinkPatientTwice(l, ConnectionFailed(fired), Abort(ConnectionFailed(fired)), delays);
  }

  lemma LifeIsPatient(l: Link, delays: Delays)
    ensures LinkPatient(l, Pong(l, delays), delays, false) && Pong(l, delays).endpoint == l.endpoint
    ensures LinkPatient(l, ClientLink.Connects(l, delays), delays, false)
  {}

  lemma StoppingIsPatient(l: Link, delays: Delays)
    ensures LinkPatient(l, Abort(Deactivate(l)), delays, false) && Abort(Deactivate(l)).endpoint == l.endpoint
  {}

  lemma RedirectingIsPatient(l: Link, endpoint: Endpoint, changed: bool, delays: Delays)
    ensures var renamed := Redirect(l, endpoint, changed);
            && LinkPatient(l, renamed, delays, false)
            && LinkPatient(l, ConnectServer(Abort(renamed).(reconnect := None)), delays, false)
            && renamed.endpoint == endpoint
            && ConnectServer(Abort(renamed).(reconnect := None)).endpoint == endpoint
  {
    var renamed := Redirect(l, endpoint, changed);
    AbortIsPatient(renamed, delays);
    LinkPatientTwice(l, renamed, Abort(renamed), delays);
    TryingIsPatient(Abort(renamed).(reconnect := None), delays);
  }

  lemma CommandIsPatient(k: Commands, now: nat, delays: Delays)
    ensures CommandsPatient(k, k, now, delays)
    ensures CommandsPatient(k, FailCommand(k), now, delays) && CommandsPatient(k, Interrupt(k), now, delays)
    ensures forall ready :: CommandsPatient(k, Launch(k, ready, now, delays.write), now, delays)
    ensures forall id, ok :: CommandsPatient(k, Reply(k, id, ok, now, delays.confirmation), now, delays)
    ensures CommandsPatient(k, StatusArrives(k), now, delays)
    ensures CommandsPatient(k, Interrupt(Forget(k)).(busy := false), now, delays)
    ensures CommandsPatient(k, Forget(k).(busy := false), now, delays)
  {}

  /** Handled at one moment, with the endpoint as it was. */
  predicate Handled(c: Client, c': Client, delays: Delays) {
    Patient(c, c', delays, false) && c'.link.endpoint == c.link.endpoint
  }

  lemma HandlingOneIsPatient(c: Client, envelope: Envelope, delays: Delays)
    ensures Handled(c, HandleEnvelope(c, envelope, delays), delays)
  {
    CommandIsPatient(c.commands, c.link.now, delays);
    LifeIsPatient(c.link, delays);
    FailingIsPatient(c.link, delays);
  }

  lemma {:induction false} HandlingIsPatient(c: Client, envelopes: seq<Envelope>, delays: Delays)
    ensures Handled(c, HandleAll(c, envelopes, delays), delays)
    decreases |envelopes|
  {
    if envelopes != [] {
      var n := |envelopes| - 1;
      HandlingIsPatient(c, envelopes[..n], delays);
      HandlingOneIsPatient(HandleAll(c, envelopes[..n], delays), envelopes[n], delays);
      LinkPatientTwice(c.link, HandleAll(c, envelopes[..n], delays).link, HandleAll(c, envelopes, delays).link, delays);
    }
  }

  lemma ClosingIsPatient(c: Client, delays: Delays)
    ensures Handled(c, AbortAll(c), delays)
  {
    CommandIsPatient(c.commands, c.link.now, delays);
    AbortIsPatient(c.link, delays);
  }

  lemma ReadIsPatient(c: Client, chunk: string, setup: Setup)
    ensures Handled(c, Read(c, chunk, setup), setup.delays)
  {
    var drained := Framing.Drain(setup.decode, c.stream + chunk);
    HandlingIsPatient(c.(stream := ""), drained.envelopes, setup.delays);
    var handled := HandleAll(c.(stream := ""), drained.envelopes, setup.delays).(stream := drained.rest);
    ClosingIsPatient(handled, setup.delays);
    LinkPatientTwice(c.link, handled.link, AbortAll(handled).link, setup.delays);
  }

  /** Time passes only in an event of its own; a refusal may launch a test server. */
  predicate Steps(c: Client, event: Event, next: Client, delays: Delays) {
    && (if event.Passes?
        then next == c.(link := c.link.(now := c.link.now + event.time))
        else Patient(c, next, delays, event.Breaks?))
    && next.link.endpoint == (if event.Configuring? then event.endpoint else c.link.endpoint)
    && (event.Breaks? && !(event.failure.ConnectionRefused? && event.failure.server != NotConfigured) ==>
          Patient(c, next, delays, false))
  }

  lemma ConnectingIsPatient(l: Link, delays: Delays)
    ensures LinkPatient(l, Start(l), delays, false) && Start(l).endpoint == l.endpoint
    ensures LinkPatient(l, ConnectServer(l.(refreshScheduled := false, reconnect := None)), delays, false)
    ensures ConnectServer(l.(refreshScheduled := false, reconnect := None)).endpoint == l.endpoint
  {
    TryingIsPatient(l.(active := true, launchAttempted := false), delays);
    TryingIsPatient(l.(refreshScheduled := false, reconnect := None), delays);
  }

  lemma SettingIsPatient(c: Client, acceptable: bool, delays: Delays)
    ensures Handled(c, SetPanelValues(c, acceptable, delays), delays)
  {
    CommandIsPatient(c.commands, c.link.now, delays);
  }

  lemma EndingIsPatient(c: Client, delays: Delays)
    ensures Handled(c, Stop(c), delays)
  {
    StoppingIsPatient(c.link, delays);
    CommandIsPatient(c.commands, c.link.now, delays);
  }

  lemma ConfiguringIsPatient(c: Client, endpoint: Endpoint, changed: bool, delays: Delays)
    ensures Patient(c, Configure(c, endpoint, changed), delays, false)
    ensures Configure(c, endpoint, changed).link.endpoint == endpoint
  {
    RedirectingIsPatient(c.link, endpoint, changed, delays);
    CommandIsPatient(c.commands, c.link.now, delays);
  }

  lemma UserIsPatient(c: Client, event: Event, setup: Setup)
    requires OfUser(event)
    ensures Steps(c, event, Next(c, event, setup), setup.delays)
  {
    match event
    case Starting => ConnectingIsPatient(c.link, setup.delays);
    case Stopping => EndingIsPatient(c, setup.delays);
    case Configuring(endpoint, changed) => ConfiguringIsPatient(c, endpoint, changed, setup.delays);
    case Refreshing =>
    case RefreshRuns => ConnectingIsPatient(c.link, setup.delays);
    case Setting(acceptable) => SettingIsPatient(c, acceptable, setup.delays);
  }

  lemma SocketIsPatient(c: Client, event: Event, setup: Setup)
    requires OfSocket(event)
    ensures Steps(c, event, Next(c, event, setup), setup.delays)
  {
    CommandIsPatient(c.commands, c.link.now, setup.delays);
    match event
    case Connects => LifeIsPatient(c.link, setup.delays);
    case Disconnects => ClosingIsPatient(c, setup.delays);
    case Breaks(failure) => ErrorIsPatient(c.link, failure, setup.delays);
    case Resolves(generation, found) => LookedUpIsPatient(c.link, generation, found, setup.delays);
    case Reads(chunk) => ReadIsPatient(c, chunk, setup);
  }

  lemma TimerIsPatient(c: Client, event: Event, setup: Setup)
    requires !OfUser(event) && !OfSocket(event)
    ensures Steps(c, event, Next(c, event, setup), setup.delays)
  {
    CommandIsPatient(c.commands, c.link.now, setup.delays);
    match event
    case ReconnectFires => TryingIsPatient(c.link.(reconnect := None), setup.delays);
    case ConnectWatchdogFires => TimingOutIsPatient(c.link, setup.delays);
    case HeartbeatFires => PingIsPatient(c.link, setup.delays);
    case HeartbeatWatchdogFires => SilenceIsPatient(c.link, setup.delays);
    case _ =>
  }

  /** Whatever happens, each timer is left alone, stopped, or set for the whole of its delay. */
  lemma NextIsPatient(c: Client, event: Event, setup: Setup)
    ensures Steps(c, event, Next(c, event, setup), setup.delays)
  {
    if OfUser(event) {
      UserIsPatient(c, event, setup);
    } else if OfSocket(event) {
      SocketIsPatient(c, event, setup);
    } else {
      TimerIsPatient(c, event, setup);
    }
  }

  // ----- Over every run

  /** An armed timer has the time still to come. */
  predicate NotBefore(timer: Option<nat>, earliest: nat) {
    timer.Some? ==> timer.value >= earliest
  }

  /** The timers not armed at the start are not armed for less than their delay later. */
  predicate Later(start: Client, c: Client, delays: Delays) {
    && start.link.now <= c.link.now
    && (start.commands.writeWatchdog.None? ==> NotBefore(c.commands.writeWatchdog, start.link.now + delays.write))
    && (start.commands.confirmation.None? ==>
          NotBefore(c.commands.confirmation, start.link.now + delays.confirmation))
    && (start.link.heartbeat.None? ==> NotBefore(c.link.heartbeat, start.link.now + delays.heartbeat))
    && (start.link.heartbeatWatchdog.None? ==>
          NotBefore(c.link.heartbeatWatchdog, start.link.now + delays.heartbeatTimeout))
    && (start.link.connectWatchdog.None? ==> NotBefore(c.link.connectWatchdog, start.link.now + 3000))
  }

  lemma {:induction false} LaterForever(start: Client, c: Client, events: seq<Event>, setup: Setup)
    requires Later(start, c, setup.delays) && Run(c, events, setup).Some?
    ensures Later(start, Run(c, events, setup).value, setup.delays)
    decreases |events|
  {
    if events != [] {
      NextIsPatient(c, events[0], setup);
      LaterForever(start, Next(c, events[0], setup), events[1..], setup);
    }
  }

  /** Every wait lasts its whole delay: a timer that is not armed at some moment cannot fire
      before that delay has passed since. */
  lemma NothingFiresEarly(c: Client, events: seq<Event>, setup: Setup)
    requires Run(c, events, setup).Some?
    ensures var end, delays := Run(c, events, setup).value, setup.delays;
            var passed := end.link.now - c.link.now;
            && (c.commands.writeWatchdog.None? && Possible(end, WriteWatchdogFires) ==> passed >= delays.write)
            && (c.commands.confirmation.None? && Possible(end, ConfirmationFires) ==> passed >= delays.confirmation)
            && (c.link.heartbeat.None? && Possible(end, HeartbeatFires) ==> passed >= delays.heartbeat)
            && (c.link.heartbeatWatchdog.None? && Possible(end, HeartbeatWatchdogFires) ==>
                  passed >= delays.heartbeatTimeout)
            && (c.link.connectWatchdog.None? && Possible(end, ConnectWatchdogFires) ==> passed >= 3000)
  {
    LaterForever(c, c, events, setup);
  }

  lemma {:induction false} CountedForever(c: Client, events: seq<Event>, setup: Setup)
    requires FromLife(c.link, setup.delays) && FromSend(c.commands, setup.delays) && Run(c, events, setup).Some?
    ensures var end := Run(c, events, setup).value;
            FromLife(end.link, setup.delays) && FromSend(end.commands, setup.delays)
    decreases |events|
  {
    if events != [] {
      NextIsPatient(c, events[0], setup);
      CountedForever(Next(c, events[0], setup), events[1..], setup);
    }
  }

  /** In every reachable state: a command is given up for want of a reply only after the whole
      write timeout since it was sent, and a ping is due only after the whole interval since
      the last sign of life. */
  lemma RepliesHaveTime(c: Client, setup: Setup)
    requires Reached(c, setup)
    ensures Possible(c, WriteWatchdogFires) ==> c.link.now - c.commands.since >= setup.delays.write
    ensures Possible(c, HeartbeatFires) ==> c.link.now - c.link.lastLife >= setup.delays.heartbeat
  {
    var endpoint, now, events :| Run(Idle(endpoint, now), events, setup) == Some(c);
    CountedForever(Idle(endpoint, now), events, setup);
  }

  // ----- The next attempt

  /** All endpoints given ask for at least this delay, and if it is more than 100 ms, no refusal
      launches a test server. */
  predicate Unhurried(event: Event, delay: nat) {
    && (event.Configuring? ==> event.endpoint.reconnectDelay >= delay)
    && (delay > 100 && event.Breaks? && event.failure.ConnectionRefused? ==> event.failure.server.NotConfigured?)
  }

  lemma RetryIsUnhurried(c: Client, event: Event, setup: Setup, delay: nat)
    requires c.link.endpoint.reconnectDelay >= delay && Unhurried(event, delay)
    ensures var next := Next(c, event, setup).link;
            && next.endpoint.reconnectDelay >= delay && next.now >= c.link.now
            && (next.reconnect == c.link.reconnect || NotBefore(next.reconnect, c.link.now + delay))
  {
    NextIsPatient(c, event, setup);
  }

  lemma {:induction false} RetriesForever(start: nat, c: Client, events: seq<Event>, setup: Setup, delay: nat)
    requires start <= c.link.now && NotBefore(c.link.reconnect, start + delay)
    requires c.link.endpoint.reconnectDelay >= delay && Run(c, events, setup).Some?
    requires forall i | 0 <= i < |events| :: Unhurried(events[i], delay)
    ensures NotBefore(Run(c, events, setup).value.link.reconnect, start + delay)
    decreases |events|
  {
    if events != [] {
      assert forall i | 0 <= i < |events[1..]| :: events[1..][i] == events[i + 1];
      RetryIsUnhurried(c, events[0], setup, delay);
      RetriesForever(start, Next(c, events[0], setup), events[1..], setup, delay);
    }
  }

  /** The next attempt after a failure waits for the whole delay the endpoints ask for; for the
      sake of a test server it waits for 100 ms at least. */
  lemma RetriesWait(c: Client, events: seq<Event>, setup: Setup, delay: nat)
    requires c.link.reconnect.None? && c.link.endpoint.reconnectDelay >= delay && Run(c, events, setup).Some?
    requires forall i | 0 <= i < |events| :: Unhurried(events[i], delay)
    ensures var end := Run(c, events, setup).value;
            Possible(end, ReconnectFires) ==> end.link.now - c.link.now >= delay
  {
    RetriesForever(c.link.now, c, events, setup, delay);
  }
}
