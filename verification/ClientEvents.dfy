/** The client as a state machine over everything that can happen to it: user actions, signals
    of the socket, answers to name lookups, bytes read, timers and the passing of time. */
module ClientEvents {
  import opened Options
  import opened ClientCommands
  import opened ClientLink
  import Framing

  /** What the client distinguishes among the messages of the server.  `Trouble` is an error
      message, an unknown one or a status without contents. */
  datatype Envelope =
    | Alive
    | DeviceFailed
    | DeviceConnecting
    | Irrelevant
    | Trouble
    | Answer(id: nat, ok: bool)
    | Status

  datatype Setup = Setup(delays: Delays, decode: string -> Option<Envelope>)

  datatype Client = Client(link: Link, commands: Commands, stream: string)

  datatype Event =
    | Starting
    | Stopping
    | Configuring(endpoint: Endpoint, changed: bool)
    | Refreshing
    | RefreshRuns
    | Setting(acceptable: bool)
    | Connects
    | Disconnects
    | Breaks(failure: Failure)
    | Resolves(generation: nat, found: nat)
    | Reads(chunk: string)
    | ReconnectFires
    | ConnectWatchdogFires
    | HeartbeatFires
    | HeartbeatWatchdogFires
    | WriteWatchdogFires
    | ConfirmationFires
    | Passes(time: nat)

  predicate OfUser(event: Event) {
    || event.Starting? || event.Stopping? || event.Configuring?
    || event.Refreshing? || event.RefreshRuns? || event.Setting?
  }

  predicate OfSocket(event: Event) {
    event.Connects? || event.Disconnects? || event.Breaks? || event.Resolves? || event.Reads?
  }

  predicate Due(timer: Option<nat>, now: nat) {
    timer.Some? && timer.value <= now
  }

  /** Timers fire when they are due, the socket reports what fits its state, and every lookup
      is answered once. */
  predicate Possible(c: Client, event: Event) {
    match event
    case Connects => c.link.socket == Connecting
    case Disconnects => c.link.socket == Connected
    case Resolves(generation, _) => generation == c.link.generation ==> c.link.resolving
    case Reads(_) => c.link.socket == Connected
    case ReconnectFires => Due(c.link.reconnect, c.link.now)
    case ConnectWatchdogFires => Due(c.link.connectWatchdog, c.link.now)
    case HeartbeatFires => Due(c.link.heartbeat, c.link.now)
    case HeartbeatWatchdogFires => Due(c.link.heartbeatWatchdog, c.link.now)
    case WriteWatchdogFires => Due(c.commands.writeWatchdog, c.link.now)
    case ConfirmationFires => Due(c.commands.confirmation, c.link.now)
    case _ => true
  }

  /** The command after the socket is closed: the end of a connection fails it. */
  function Dropped(c: Client): Commands {
    if c.link.socket == Connected && !c.link.connecting then Interrupt(c.commands) else c.commands
  }

  function AbortAll(c: Client): Client {
    c.(link := Abort(c.link), commands := Dropped(c))
  }

  function HandleEnvelope(c: Client, envelope: Envelope, delays: Delays): Client {
    match envelope
    case Alive => c.(link := Pong(c.link, delays))
    case DeviceFailed => c.(link := ConnectionFailed(c.link), commands := Interrupt(c.commands))
    case DeviceConnecting => c.(link := c.link.(hasStatus := false))
    case Irrelevant => c
    case Trouble => c.(link := ConnectionFailed(c.link))
    case Answer(id, ok) => c.(commands := Reply(c.commands, id, ok, c.link.now, delays.confirmation))
    case Status => c.(link := c.link.(hasStatus := true), commands := StatusArrives(c.commands))
  }

  function HandleAll(c: Client, envelopes: seq<Envelope>, delays: Delays): Client {
    if envelopes == [] then c
    else HandleEnvelope(HandleAll(c, envelopes[..|envelopes| - 1], delays), envelopes[|envelopes| - 1], delays)
  }

  function Read(c: Client, chunk: string, setup: Setup): Client {
    var drained := Framing.Drain(setup.decode, c.stream + chunk);
    var handled := HandleAll(c.(stream := ""), drained.envelopes, setup.delays).(stream := drained.rest);
    if !drained.aborted then handled
    else
      var closed := AbortAll(handled);
      closed.(link := ConnectionFailed(closed.link))
  }

  predicate CanSend(l: Link) {
    l.endpoint.valid && l.active && l.socket == Connected && l.hasStatus
  }

  function SetPanelValues(c: Client, acceptable: bool, delays: Delays): Client {
    if c.commands.busy then c
    else if !acceptable then c.(commands := FailCommand(c.commands))
    else c.(commands := Launch(c.commands, CanSend(c.link), c.link.now, delays.write))
  }

  function Stop(c: Client): Client {
    var closed := AbortAll(Client(Deactivate(c.link), Forget(c.commands), ""));
    closed.(commands := closed.commands.(busy := false))
  }

  function Configure(c: Client, endpoint: Endpoint, changed: bool): Client {
    var renamed := c.(link := Redirect(c.link, endpoint, changed));
    if !(changed && c.link.active) then renamed
    else
      var closed := AbortAll(renamed);
      closed.(link := ConnectServer(closed.link.(reconnect := None)))
  }

  function RunRefresh(c: Client): Client {
    var l := c.link.(refreshScheduled := false);
    c.(link := if !l.active || c.commands.busy || l.socket == Connected then l
               else ConnectServer(l.(reconnect := None)))
  }

  /** The connecting attempt that makes way for the test server is closed like a connection. */
  function Break(c: Client, failure: Failure): Client {
    var l := c.link;
    c.(link := SocketError(l, failure),
       commands := if && l.active && failure != RemoteClosed && l.connecting && Launches(l, failure)
                      && l.socket == Connected
                   then Interrupt(c.commands) else c.commands)
  }

  function Next(c: Client, event: Event, setup: Setup): Client {
    match event
    case Starting => c.(link := Start(c.link))
    case Stopping => Stop(c)
    case Configuring(endpoint, changed) => Configure(c, endpoint, changed)
    case Refreshing =>
      if !c.link.active || c.commands.busy || c.link.refreshScheduled then c
      else c.(link := c.link.(refreshScheduled := true))
    case RefreshRuns => RunRefresh(c)
    case Setting(acceptable) => SetPanelValues(c, acceptable, setup.delays)
    case Connects => c.(link := ClientLink.Connects(c.link, setup.delays))
    case Disconnects => AbortAll(c)
    case Breaks(failure) => Break(c, failure)
    case Resolves(generation, found) => c.(link := LookedUp(c.link, generation, found))
    case Reads(chunk) => Read(c, chunk, setup)
    case ReconnectFires => c.(link := ConnectServer(c.link.(reconnect := None)))
    case ConnectWatchdogFires =>
      c.(link := ConnectTimesOut(c.link), commands := if c.link.resolving then c.commands else Dropped(c))
    case HeartbeatFires => c.(link := SendHeartbeat(c.link, setup.delays))
    case HeartbeatWatchdogFires =>
      c.(link := HeartbeatTimesOut(c.link), commands := if c.link.active then Dropped(c) else c.commands)
    case WriteWatchdogFires => c.(commands := FailCommand(c.commands))
    case ConfirmationFires => c.(commands := FailCommand(c.commands))
    case Passes(time) => c.(link := c.link.(now := c.link.now + time))
  }

  /** A client with any endpoint that is not started yet and has said nothing. */
  function Idle(endpoint: Endpoint, now: nat): Client {
    Client(Link(false, Unconnected, false, false, 0, 0, false, false, endpoint, false,
                None, None, None, None, now, now),
           NO_COMMAND, "")
  }

  function Run(c: Client, events: seq<Event>, setup: Setup): Option<Client>
    decreases |events|
  {
    if events == [] then Some(c)
    else if Possible(c, events[0]) then Run(Next(c, events[0], setup), events[1..], setup)
    else None
  }

  // ----- What always holds

  /** The link and the command are each in order, and a command needs a connection. */
  predicate Ordered(c: Client) {
    Sound(c.link) && Coherent(c.commands) && (c.commands.busy ==> c.link.socket == Connected)
  }

  lemma AbortKeepsOrdered(c: Client)
    requires Ordered(c)
    ensures Ordered(AbortAll(c)) && !AbortAll(c).commands.busy && SameBeat(c.link, AbortAll(c).link)
  {
    AbortIsStaged(c.link);
    FailKeepsCoherent(c.commands);
  }

  lemma HandleKeepsCoherent(c: Client, envelope: Envelope, delays: Delays)
    requires Coherent(c.commands)
    ensures Coherent(HandleEnvelope(c, envelope, delays).commands)
  {
    match envelope
    case DeviceFailed => FailKeepsCoherent(c.commands);
    case Answer(id, ok) => ReplyKeepsCoherent(c.commands, id, ok, c.link.now, delays.confirmation);
    case Status => StatusKeepsCoherent(c.commands);
    case _ =>
  }

  lemma HandleKeepsLink(c: Client, envelope: Envelope, delays: Delays)
    requires Sound(c.link) && c.link.socket == Connected
    ensures var handled := HandleEnvelope(c, envelope, delays).link;
            Sound(handled) && handled.socket == Connected && (Punctual(c.link, delays) ==> Punctual(handled, delays))
  {
    match envelope
    case Alive => PongIsSound(c.link, delays);
    case DeviceFailed => FailedIsSound(c.link);
    case Trouble => FailedIsSound(c.link);
    case _ =>
  }

  lemma HandleKeepsOrdered(c: Client, envelope: Envelope, delays: Delays)
    requires Ordered(c) && c.link.socket == Connected
    ensures Ordered(HandleEnvelope(c, envelope, delays)) && HandleEnvelope(c, envelope, delays).link.socket == Connected
    ensures Punctual(c.link, delays) ==> Punctual(HandleEnvelope(c, envelope, delays).link, delays)
  {
    HandleKeepsCoherent(c, envelope, delays);
    HandleKeepsLink(c, envelope, delays);
  }

  lemma {:induction false} HandlingKeepsOrdered(c: Client, envelopes: seq<Envelope>, delays: Delays)
    requires Ordered(c) && c.link.socket == Connected
    ensures Ordered(HandleAll(c, envelopes, delays)) && HandleAll(c, envelopes, delays).link.socket == Connected
    ensures Punctual(c.link, delays) ==> Punctual(HandleAll(c, envelopes, delays).link, delays)
  {
    if envelopes != [] {
      var before := envelopes[..|envelopes| - 1];
      HandlingKeepsOrdered(c, before, delays);
      HandleKeepsOrdered(HandleAll(c, before, delays), envelopes[|envelopes| - 1], delays);
    }
  }

  lemma ReadKeepsOrdered(c: Client, chunk: string, setup: Setup)
    requires Ordered(c) && c.link.socket == Connected
    ensures Ordered(Read(c, chunk, setup))
    ensures Punctual(c.link, setup.delays) ==> Punctual(Read(c, chunk, setup).link, setup.delays)
  {
    var drained := Framing.Drain(setup.decode, c.stream + chunk);
    HandlingKeepsOrdered(c.(stream := ""), drained.envelopes, setup.delays);
    var handled := HandleAll(c.(stream := ""), drained.envelopes, setup.delays).(stream := drained.rest);
    if drained.aborted {
      AbortKeepsOrdered(handled);
      FailedIsSound(AbortAll(handled).link);
    }
  }

  /** Stopping fails a command in progress visibly: it never just forgets it. */
  lemma StopKeepsOrdered(c: Client)
    requires Ordered(c)
    ensures Ordered(Stop(c)) && SameBeat(c.link, Stop(c).link)
    ensures Stop(c).commands == Interrupt(c.commands)
  {
    DeactivateIsSound(c.link);
    FailKeepsCoherent(c.commands);
    ForgottenFails(c.commands);
  }

  lemma ConfigureKeepsOrdered(c: Client, endpoint: Endpoint, changed: bool)
    requires Ordered(c)
    ensures Ordered(Configure(c, endpoint, changed))
    ensures SameBeat(c.link, Configure(c, endpoint, changed).link)
  {
    RedirectIsSound(c.link, endpoint, changed);
    if changed && c.link.active {
      FailKeepsCoherent(c.commands);
      var closed := Abort(Redirect(c.link, endpoint, changed));
      ConnectServerIsSound(closed.(reconnect := None));
    }
  }

  lemma SettingKeepsOrdered(c: Client, acceptable: bool, delays: Delays)
    requires Ordered(c)
    ensures Ordered(SetPanelValues(c, acceptable, delays)) && SetPanelValues(c, acceptable, delays).link == c.link
  {
    FailKeepsCoherent(c.commands);
    LaunchKeepsCoherent(c.commands, CanSend(c.link), c.link.now, delays.write);
  }

  lemma UserKeepsOrdered(c: Client, event: Event, setup: Setup)
    requires Ordered(c) && OfUser(event)
    ensures Ordered(Next(c, event, setup))
  {
    match event
    case Starting => ConnectServerIsSound(c.link.(active := true, launchAttempted := false));
    case Stopping => StopKeepsOrdered(c);
    case Configuring(endpoint, changed) => ConfigureKeepsOrdered(c, endpoint, changed);
    case Refreshing =>
    case RefreshRuns => ConnectServerIsSound(c.link.(refreshScheduled := false, reconnect := None));
    case Setting(acceptable) => SettingKeepsOrdered(c, acceptable, setup.delays);
  }

  lemma SocketKeepsOrdered(c: Client, event: Event, setup: Setup)
    requires Ordered(c) && Possible(c, event) && OfSocket(event)
    ensures Ordered(Next(c, event, setup))
  {
    match event
    case Connects => ConnectsIsSound(c.link, setup.delays);
    case Disconnects => AbortKeepsOrdered(c);
    case Breaks(failure) => SocketErrorIsSound(c.link, failure);
    case Resolves(generation, found) => LookedUpIsSound(c.link, generation, found);
    case Reads(chunk) => ReadKeepsOrdered(c, chunk, setup);
  }

  lemma TimerKeepsOrdered(c: Client, event: Event, setup: Setup)
    requires Ordered(c) && Possible(c, event) && !OfUser(event) && !OfSocket(event)
    ensures Ordered(Next(c, event, setup))
  {
    match event
    case ReconnectFires => ConnectServerIsSound(c.link.(reconnect := None));
    case ConnectWatchdogFires => ConnectTimesOutIsSound(c.link);
    case HeartbeatFires => SendHeartbeatIsSound(c.link, setup.delays);
    case HeartbeatWatchdogFires =>
      HeartbeatTimesOutIsSound(c.link);
      FailKeepsCoherent(c.commands);
    case WriteWatchdogFires => FailKeepsCoherent(c.commands);
    case ConfirmationFires => FailKeepsCoherent(c.commands);
    case Passes(_) =>
  }

  lemma NextKeepsOrdered(c: Client, event: Event, setup: Setup)
    requires Ordered(c) && Possible(c, event)
    ensures Ordered(Next(c, event, setup))
  {
    if OfUser(event) {
      UserKeepsOrdered(c, event, setup);
    } else if OfSocket(event) {
      SocketKeepsOrdered(c, event, setup);
    } else {
      TimerKeepsOrdered(c, event, setup);
    }
  }

  // ----- Over every run

  lemma {:induction false} OrderedForever(c: Client, events: seq<Event>, setup: Setup)
    requires Ordered(c) && Run(c, events, setup).Some?
    ensures Ordered(Run(c, events, setup).value)
    decreases |events|
  {
    if events != [] {
      NextKeepsOrdered(c, events[0], setup);
      OrderedForever(Next(c, events[0], setup), events[1..], setup);
    }
  }

  /** Where a run from the beginning leads. */
  ghost predicate Reached(c: Client, setup: Setup) {
    exists endpoint, now, events :: Run(Idle(endpoint, now), events, setup) == Some(c)
  }

  lemma ReachedIsOrdered(c: Client, setup: Setup)
    requires Reached(c, setup)
    ensures Ordered(c)
  {
    var endpoint, now, events :| Run(Idle(endpoint, now), events, setup) == Some(c);
    assert Reading([]) == Some(Free(0));
    OrderedForever(Idle(endpoint, now), events, setup);
  }

  /** In every reachable state the client is busy exactly while a reply is pending or a
      confirmation is awaited, never both; the write watchdog is armed exactly in the
      first case and the confirmation timer exactly in the second. */
  lemma BusyMeansOne(c: Client, setup: Setup)
    requires Reached(c, setup)
    ensures var k := c.commands;
            && (k.busy <==> (k.pendingId != 0) != k.awaiting)
            && !(k.pendingId != 0 && k.awaiting)
            && (k.writeWatchdog.Some? <==> k.busy && k.pendingId != 0)
            && (k.confirmation.Some? <==> k.busy && k.awaiting)
  {
    ReachedIsOrdered(c, setup);
  }

  /** Every command sent has ended exactly once, confirmed or failed, or is the last one sent
      and still in progress; and only an accepted command was confirmed. */
  lemma EveryCommandEnds(c: Client, setup: Setup, i: nat)
    requires Reached(c, setup)
    requires i < |c.commands.signals| && c.commands.signals[i].Sent?
    ensures var signals, id := c.commands.signals, c.commands.signals[i].id;
            if exists k :: i < k < |signals| && ClientCommands.Ends(signals[k], id)
            then exists k :: i < k < |signals| && ClientCommands.Ends(signals[k], id) &&
                             (signals[k].Confirmed? ==> Accepted(id) in signals[..k]) &&
                             forall other | 0 <= other < |signals| && ClientCommands.Ends(signals[other], id) ::
                               other == k
            else c.commands.busy && id == Current(c.commands)
  {
    ReachedIsOrdered(c, setup);
    var signals, id := c.commands.signals, c.commands.signals[i].id;
    if k :| i < k < |signals| && ClientCommands.Ends(signals[k], id) {
      EndsOnce(signals, k, id);
    } else {
      OpenUntilEnd(signals, i, |signals|);
      assert signals[..|signals|] == signals;
    }
  }

  /** Ids are strictly ascending, one send each; between a send and the next send, refusal or
      status shown lies the end of the command. */
  lemma CommandsAreSeparate(c: Client, setup: Setup, i: nat, j: nat)
    requires Reached(c, setup)
    requires i < j < |c.commands.signals| && c.commands.signals[i].Sent?
    ensures var signals := c.commands.signals;
            && (signals[j].Sent? ==> signals[i].id < signals[j].id)
            && (signals[j].Sent? || signals[j].Published? || signals[j].Refused? ==>
                  exists k :: i < k < j && ClientCommands.Ends(signals[k], signals[i].id))
  {
    ReachedIsOrdered(c, setup);
    var signals := c.commands.signals;
    if signals[j].Sent? { SendsAscend(signals, i, j); }
    if signals[j].Sent? || signals[j].Published? || signals[j].Refused? { NothingBetween(signals, i, j); }
  }

  /** A reply to any other than the command in progress changes nothing at all. */
  lemma OldRepliesIgnored(c: Client, setup: Setup, id: nat, ok: bool)
    requires Reached(c, setup) && (id != Current(c.commands) || !c.commands.busy || c.commands.awaiting)
    ensures HandleEnvelope(c, Answer(id, ok), setup.delays) == c
  {
    ReachedIsOrdered(c, setup);
  }

  /** The reply to the command in progress decides it: with ok it is accepted and the client
      waits for a status, without ok it fails at once. */
  lemma ReplyDecides(c: Client, setup: Setup, ok: bool)
    requires Reached(c, setup) && c.commands.busy && !c.commands.awaiting
    ensures var id := Current(c.commands);
            var next := HandleEnvelope(c, Answer(id, ok), setup.delays).commands;
            && next.signals == c.commands.signals + [if ok then Accepted(id) else Failed(id)]
            && next.busy == ok && next.awaiting == ok
  {
    ReachedIsOrdered(c, setup);
  }

  /** A status confirms an accepted command and is shown; it is swallowed while a reply is
      pending, and else just shown. */
  lemma StatusDecides(c: Client, setup: Setup)
    requires Reached(c, setup)
    ensures var k, next := c.commands, HandleEnvelope(c, Status, setup.delays).commands;
            next.signals ==
            k.signals + (if k.pendingId != 0 then []
                         else if k.awaiting then [Confirmed(Current(k)), Published]
                         else [Published])
    ensures HandleEnvelope(c, Status, setup.delays).commands.busy <==> c.commands.pendingId != 0
  {
    ReachedIsOrdered(c, setup);
  }

  /** An active client is connected and watches the heartbeat, or has an attempt to connect
      under a watchdog, or has the next attempt scheduled. */
  lemma NeverStuck(c: Client, setup: Setup)
    requires Reached(c, setup) && c.link.active
    ensures var l := c.link;
            if l.socket == Connected then l.heartbeat.Some? != l.heartbeatWatchdog.Some?
            else if l.connecting || l.resolving then l.connectWatchdog.Some?
            else l.reconnect.Some?
  {
    ReachedIsOrdered(c, setup);
  }
}
