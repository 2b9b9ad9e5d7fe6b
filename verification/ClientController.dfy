/** The client as the object whose slots the events call.  The connection and the command in
    progress, fields of the one class in the program, are objects of their own here. */
module ClientController {
  import opened Options
  import opened ClientCommands
  import opened ClientLink
  import opened ClientEvents
  import Framing

  class Connection {
    var active: bool
    var socket: Socket
    var resolving: bool
    var connecting: bool
    var addresses: nat
    var generation: nat
    var refreshScheduled: bool
    var hasStatus: bool
    var endpoint: Endpoint
    var launchAttempted: bool
    var reconnect: Option<nat>
    var connectWatchdog: Option<nat>
    var heartbeat: Option<nat>
    var heartbeatWatchdog: Option<nat>
    var now: nat
    var lastLife: nat

    ghost function View(): Link
      reads this
    {
      Link(active, socket, resolving, connecting, addresses, generation, refreshScheduled, hasStatus,
           endpoint, launchAttempted, reconnect, connectWatchdog, heartbeat, heartbeatWatchdog, now, lastLife)
    }

    constructor (endpoint: Endpoint, now: nat)
      ensures View() == Idle(endpoint, now).link
    {
      active, socket, resolving, connecting, addresses, generation := false, Unconnected, false, false, 0, 0;
      refreshScheduled, hasStatus := false, false;
      launchAttempted := false;
      this.endpoint, reconnect, connectWatchdog := endpoint, None, None;
      heartbeat, heartbeatWatchdog := None, None;
      this.now, lastLife := now, now;
    }

    method Fail()
      modifies `hasStatus, `reconnect
      ensures View() == ConnectionFailed(old(View()))
    {
      hasStatus := false;
      if active && reconnect.None? { reconnect := Some(now + endpoint.reconnectDelay); }
    }

    method TryNext()
      modifies `hasStatus, `reconnect, `connecting, `addresses, `connectWatchdog, `socket
      ensures View() == TryNextAddress(old(View()))
    {
      if !active { return; }
      if addresses == 0 {
        connecting := false;
        Fail();
        return;
      }
      addresses, connecting := addresses - 1, true;
      connectWatchdog := Some(now + CONNECT_LIMIT);
      socket := Connecting;
    }

    method Connect()
      modifies `hasStatus, `reconnect, `connecting, `addresses, `connectWatchdog, `socket, `resolving, `generation
      ensures View() == ConnectServer(old(View()))
    {
      if !active || resolving || connecting || socket != Unconnected { return; }
      if !endpoint.valid {
        Fail();
        return;
      }
      if endpoint.numeric {
        addresses := 1;
        TryNext();
        return;
      }
      resolving, generation := true, generation + 1;
      connectWatchdog := Some(now + CONNECT_LIMIT);
    }

    method Activate()
      modifies `active, `launchAttempted, `hasStatus, `reconnect, `connecting, `addresses
      modifies `connectWatchdog, `socket, `resolving,
               `generation
      ensures View() == ClientLink.Start(old(View()))
    {
      if active { return; }
      active, launchAttempted := true, false;
      Connect();
    }

    method Reconnect()
      modifies `hasStatus, `reconnect, `connecting, `addresses, `connectWatchdog, `socket, `resolving, `generation
      ensures View() == ConnectServer(old(View()).(reconnect := None))
    {
      reconnect := None;
      Connect();
    }

    /** The socket left the attempt to connect. */
    method LeaveAttempt()
      modifies `socket
      ensures View() == if old(socket) == Connecting then old(View()).(socket := Unconnected) else old(View())
    {
      if socket == Connecting { socket := Unconnected; }
    }

    method StopWatchdog()
      modifies `connectWatchdog
      ensures View() == old(View()).(connectWatchdog := None)
    {
      connectWatchdog := None;
    }

    method Launch(started: bool)
      modifies `launchAttempted, `hasStatus, `reconnect
      ensures View() == LaunchServer(old(View()), started)
    {
      launchAttempted := true;
      if !started { Fail(); }
      reconnect := Some(now + LAUNCH_DELAY);
    }

    method OnRefusal(failure: Failure)
      modifies `launchAttempted, `hasStatus, `reconnect
      ensures View() == if Launches(old(View()), failure) then LaunchServer(old(View()), failure.server == Starts)
                        else ConnectionFailed(old(View()))
    {
      if !launchAttempted && failure.ConnectionRefused? && failure.server != NotConfigured {
        Launch(failure.server == Starts);
      } else {
        Fail();
      }
    }

    method OnLookedUp(ofGeneration: nat, found: nat)
      modifies `hasStatus, `reconnect, `connecting, `addresses, `connectWatchdog, `socket, `resolving
      ensures View() == LookedUp(old(View()), ofGeneration, found)
    {
      if !active || ofGeneration != generation { return; }
      resolving, connectWatchdog := false, None;
      if found == 0 {
        Fail();
        return;
      }
      addresses := found;
      TryNext();
    }

    method StartBeating(delays: Delays)
      modifies `heartbeat, `heartbeatWatchdog, `lastLife
      ensures View() == old(View()).(heartbeatWatchdog := None, heartbeat := Some(now + delays.heartbeat),
                                     lastLife := now)
    {
      heartbeatWatchdog, heartbeat, lastLife := None, Some(now + delays.heartbeat), now;
    }

    method OnConnected(delays: Delays)
      modifies `socket, `connectWatchdog, `connecting, `addresses, `heartbeat, `heartbeatWatchdog, `lastLife
      ensures View() == ClientLink.Connects(old(View()), delays)
    {
      socket := Connected;
      connectWatchdog, connecting, addresses := None, false, 0;
      StartBeating(delays);
    }

    method ForgetAttempt()
      modifies `generation, `resolving, `connecting, `addresses
      ensures View() == old(View()).(generation := old(generation) + 1, resolving := false, connecting := false,
                                     addresses := 0)
    {
      generation, resolving, connecting, addresses := generation + 1, false, false, 0;
    }

    method GiveUpLookup()
      modifies `generation, `resolving, `hasStatus, `reconnect
      ensures View() == ConnectionFailed(old(View()).(resolving := false, generation := old(generation) + 1))
    {
      resolving, generation := false, generation + 1;
      Fail();
    }

    method StopWatching()
      modifies `connectWatchdog, `heartbeat, `heartbeatWatchdog, `hasStatus
      ensures View() == old(View()).(connectWatchdog := None, heartbeat := None, heartbeatWatchdog := None,
                                     hasStatus := false)
    {
      connectWatchdog, heartbeat, heartbeatWatchdog, hasStatus := None, None, None, false;
    }

    method Beat(delays: Delays)
      modifies `heartbeat, `heartbeatWatchdog
      ensures View() == SendHeartbeat(old(View()), delays)
    {
      heartbeat := None;
      if !active || socket != Connected { return; }
      heartbeatWatchdog := Some(now + delays.heartbeatTimeout);
    }

    method OnPong(delays: Delays)
      modifies `heartbeat, `heartbeatWatchdog, `lastLife
      ensures View() == Pong(old(View()), delays)
    {
      heartbeatWatchdog := None;
      if active && socket == Connected { StartBeating(delays); }
    }

    method Clear()
      modifies this
      ensures View() == Deactivate(old(View()))
    {
      ForgetAttempt();
      StopWatching();
      active, refreshScheduled, reconnect := false, false, None;
    }

    method Rename(endpoint: Endpoint, changed: bool)
      modifies `endpoint, `generation, `resolving, `connecting, `addresses,
               `connectWatchdog
      ensures View() == Redirect(old(View()), endpoint, changed)
    {
      this.endpoint := endpoint;
      if changed && active {
        ForgetAttempt();
        connectWatchdog := None;
      }
    }
  }

  class CommandSlot {
    var busy: bool
    var awaiting: bool
    var pendingId: nat
    var nextId: nat
    var writeWatchdog: Option<nat>
    var confirmation: Option<nat>
    ghost var since: nat
    ghost var signals: seq<Signal>

    ghost function View(): Commands
      reads this
    {
      Commands(busy, awaiting, pendingId, nextId, writeWatchdog, confirmation, since, signals)
    }

    constructor ()
      ensures View() == NO_COMMAND
    {
      busy, awaiting, pendingId, nextId, writeWatchdog, confirmation := false, false, 0, 1, None, None;
      since, signals := 0, [];
    }

    method Fail()
      modifies this
      ensures View() == FailCommand(old(View()))
    {
      signals := signals + [if busy then Failed(Current(View())) else Refused];
      pendingId, awaiting, writeWatchdog, confirmation, busy := 0, false, None, None, false;
    }

    method Write(ready: bool, now: nat, limit: nat)
      modifies this
      ensures View() == Launch(old(View()), ready, now, limit)
    {
      if busy { return; }
      if !ready {
        Fail();
        return;
      }
      awaiting := false;
      signals := signals + [Sent(nextId)];
      pendingId, nextId := nextId, nextId + 1;
      busy, writeWatchdog, since := true, Some(now + limit), now;
    }

    method OnReply(id: nat, ok: bool, now: nat, limit: nat)
      modifies this
      ensures View() == Reply(old(View()), id, ok, now, limit)
    {
      if !busy || id == 0 || id != pendingId { return; }
      writeWatchdog, pendingId := None, 0;
      if !ok {
        Fail();
        return;
      }
      awaiting, confirmation := true, Some(now + limit);
      signals := signals + [Accepted(id)];
    }

    method OnStatus()
      modifies this
      ensures View() == StatusArrives(old(View()))
    {
      if busy && !awaiting { return; }
      if awaiting {
        signals := signals + [Confirmed(Current(View()))];
        awaiting, confirmation, busy := false, None, false;
      }
      signals := signals + [Published];
    }

    method OnInterruption()
      modifies this
      ensures View() == Interrupt(old(View()))
    {
      if busy { Fail(); }
    }

    method Clear()
      modifies this
      ensures View() == Forget(old(View()))
    {
      writeWatchdog, confirmation, awaiting, pendingId := None, None, false, 0;
    }
  }

  class Controller {
    const setup: Setup
    const connection: Connection
    const command: CommandSlot
    var stream: string

    ghost function View(): Client
      reads this, connection, command
    {
      Client(connection.View(), command.View(), stream)
    }

    constructor (setup: Setup, endpoint: Endpoint, now: nat)
      ensures this.setup == setup && View() == Idle(endpoint, now)
      ensures fresh(connection) && fresh(command)
    {
      this.setup, stream := setup, "";
      connection := new Connection(endpoint, now);
      command := new CommandSlot();
    }

    // ----- Closing the socket

    method OnDisconnected()
      requires connection.socket == Unconnected
      modifies connection, command
      ensures connection.View() == ClientLink.Disconnects(old(connection.View()))
      ensures command.View() ==
              if old(connection.connecting) then old(command.View()) else Interrupt(old(command.View()))
    {
      if connection.connecting { return; }
      connection.StopWatching();
      connection.launchAttempted := false;
      command.OnInterruption();
      if connection.active { connection.Fail(); }
    }

    /** An established connection reports its end before this returns. */
    method Abort()
      modifies connection, command
      ensures View() == AbortAll(old(View()))
    {
      var established := connection.socket == Connected;
      connection.socket := Unconnected;
      if established { OnDisconnected(); }
    }

    method OnConnectTimeout()
      modifies connection, command
      ensures View() == Next(old(View()), ConnectWatchdogFires, setup)
    {
      connection.connectWatchdog := None;
      if connection.resolving {
        connection.GiveUpLookup();
        return;
      }
      var attempt := connection.connecting;
      Abort();
      if attempt { connection.TryNext(); } else { connection.Fail(); }
    }

    method OnError(failure: Failure)
      modifies connection, command
      ensures View() == Next(old(View()), Breaks(failure), setup)
    {
      connection.LeaveAttempt();
      if !connection.active || failure == RemoteClosed { return; }
      if connection.connecting {
        connection.StopWatchdog();
        OnFailedAttempt(failure);
      } else {
        connection.OnRefusal(failure);
      }
    }

    /** The attempt failed: start the test server and retry soon, or try the next address. */
    method OnFailedAttempt(failure: Failure)
      requires connection.connecting && connection.socket != Connecting
      modifies connection, command
      ensures connection.View() == if Launches(old(connection.View()), failure)
                                   then LaunchServer(ClientLink.Abort(old(connection.View()).(connecting := false)),
                                                     failure.server == Starts)
                                   else TryNextAddress(ClientLink.Abort(old(connection.View())))
      ensures command.View() == if Launches(old(connection.View()), failure) && old(connection.socket) == Connected
                                then Interrupt(old(command.View())) else old(command.View())
    {
      if !connection.launchAttempted && failure.ConnectionRefused? && failure.server != NotConfigured {
        connection.connecting := false;
        Abort();
        connection.Launch(failure.server == Starts);
      } else {
        Abort();
        connection.TryNext();
      }
    }

    method OnHeartbeatTimeout()
      modifies connection, command
      ensures View() == Next(old(View()), HeartbeatWatchdogFires, setup)
    {
      connection.heartbeatWatchdog := None;
      if !connection.active || connection.socket != Connected { return; }
      connection.Fail();
      Abort();
    }

    method Stop()
      modifies this, connection, command
      ensures View() == ClientEvents.Stop(old(View()))
    {
      connection.Clear();
      command.Clear();
      stream := "";
      Abort();
      command.busy := false;
    }

    method Configure(endpoint: Endpoint, changed: bool)
      modifies connection, command
      ensures View() == ClientEvents.Configure(old(View()), endpoint, changed)
    {
      connection.Rename(endpoint, changed);
      if changed && connection.active {
        Abort();
        connection.Reconnect();
      }
    }

    // ----- Requests of the user

    method Start()
      modifies connection
      ensures View() == Next(old(View()), Starting, setup)
    {
      connection.Activate();
    }

    method Refresh()
      modifies connection
      ensures View() == Next(old(View()), Refreshing, setup)
    {
      if !connection.active || command.busy || connection.refreshScheduled { return; }
      connection.refreshScheduled := true;
    }

    method OnRefresh()
      modifies connection
      ensures View() == RunRefresh(old(View()))
    {
      connection.refreshScheduled := false;
      if !connection.active || command.busy || connection.socket == Connected { return; }
      connection.Reconnect();
    }

    method SetPanelValues(acceptable: bool)
      modifies command
      ensures View() == ClientEvents.SetPanelValues(old(View()), acceptable, setup.delays)
    {
      if command.busy { return; }
      if !acceptable {
        command.Fail();
        return;
      }
      var ready := connection.endpoint.valid && connection.active && connection.socket == Connected &&
        connection.hasStatus;
      command.Write(ready, connection.now, setup.delays.write);
    }

    // ----- Messages of the server

    method HandleEnvelope(envelope: Envelope)
      modifies connection, command
      ensures View() == ClientEvents.HandleEnvelope(old(View()), envelope, setup.delays)
    {
      match envelope
      case Alive => connection.OnPong(setup.delays);
      case DeviceFailed =>
        command.OnInterruption();
        connection.Fail();
      case DeviceConnecting => connection.hasStatus := false;
      case Irrelevant =>
      case Trouble => connection.Fail();
      case Answer(id, ok) => command.OnReply(id, ok, connection.now, setup.delays.confirmation);
      case Status =>
        connection.hasStatus := true;
        command.OnStatus();
    }

    /** The socket is closed on a bad message. */
    method Reject()
      modifies connection, command
      ensures View() == AbortAll(old(View())).(link := ConnectionFailed(AbortAll(old(View())).link))
    {
      Abort();
      connection.Fail();
    }

    method ReadServer(chunk: string)
      modifies this, connection, command
      ensures View() == Read(old(View()), chunk, setup)
    {
      stream := stream + chunk;
      var ok := ReadLines();
      if !ok { Reject(); }
    }

    /** The drain `whole`, begun at `start`, has delivered so far and goes on with the stream. */
    ghost predicate Draining(start: Client, whole: Framing.Drained<Envelope>, delivered: seq<Envelope>)
      reads this, connection, command
    {
      && Delivers(whole, delivered, Framing.Drain(setup.decode, stream))
      && View() == HandleAll(start, delivered, setup.delays).(stream := stream)
    }

    /** Take one line off the stream and handle it. */
    method ReadLine(newline: nat, ghost start: Client, ghost whole: Framing.Drained<Envelope>,
                    ghost delivered: seq<Envelope>)
      returns (ok: bool, ghost more: seq<Envelope>)
      requires newline == Framing.LineLength(stream) < |stream| && newline <= Framing.LIMIT
      requires Draining(start, whole, delivered)
      modifies this, connection, command
      ensures ok ==> Draining(start, whole, more) && |stream| < old(|stream|)
      ensures !ok ==> whole == Framing.Drained(more, stream, true) &&
                      View() == HandleAll(start, more, setup.delays).(stream := stream)
    {
      more := delivered;
      var line := Framing.Trim(stream[..newline]);
      DrainGoesOn(setup.decode, stream, whole, delivered);
      stream := stream[newline + 1..];
      if line == "" { return true, more; }
      var envelope := setup.decode(line);
      if envelope.None? { return false, more; }
      HandleAllMore(start, delivered, envelope.value, stream, setup.delays);
      HandleEnvelope(envelope.value);
      ok, more := true, delivered + [envelope.value];
    }

    /** Handle the lines of the stream up to a bad one. */
    method ReadLines() returns (ok: bool)
      modifies this, connection, command
      ensures var drained := Framing.Drain(setup.decode, old(stream));
              ok == !drained.aborted &&
              View() == HandleAll(old(View()).(stream := ""), drained.envelopes, setup.delays).(stream := drained.rest)
    {
      ghost var start, delivered := View().(stream := ""), [];
      ghost var whole := Framing.Drain(setup.decode, stream);
      var newline := Framing.LineLength(stream);
      while newline < |stream|
        invariant newline == Framing.LineLength(stream) && Draining(start, whole, delivered)
        decreases |stream|
      {
        if newline > Framing.LIMIT {
          assert delivered + [] == delivered;
          return false;
        }
        ok, delivered := ReadLine(newline, start, whole, delivered);
        if !ok { return; }
        newline := Framing.LineLength(stream);
      }
      assert delivered + [] == delivered;
      ok := |stream| <= Framing.LIMIT;
    }

    // ----- Events

    method OnSocket(event: Event)
      requires event.Connects? || event.Disconnects? || event.Breaks? || event.Resolves? || event.Reads?
      modifies this, connection, command
      ensures View() == Next(old(View()), event, setup)
    {
      match event
      case Connects => connection.OnConnected(setup.delays);
      case Disconnects => Abort();
      case Breaks(failure) => OnError(failure);
      case Resolves(generation, found) => connection.OnLookedUp(generation, found);
      case Reads(chunk) => ReadServer(chunk);
    }

    method OnTimer(event: Event)
      requires event.ReconnectFires? || event.ConnectWatchdogFires? || event.HeartbeatFires? ||
               event.HeartbeatWatchdogFires?
      modifies connection, command
      ensures View() == Next(old(View()), event, setup)
    {
      match event
      case ReconnectFires => connection.Reconnect();
      case ConnectWatchdogFires => OnConnectTimeout();
      case HeartbeatFires => connection.Beat(setup.delays);
      case HeartbeatWatchdogFires => OnHeartbeatTimeout();
    }

    method OnCommandTimer(event: Event)
      requires event.WriteWatchdogFires? || event.ConfirmationFires?
      modifies command
      ensures View() == Next(old(View()), event, setup)
    {
      command.Fail();
    }

    method Pass(time: nat)
      modifies connection`now
      ensures View() == Next(old(View()), Passes(time), setup)
    {
      connection.now := connection.now + time;
    }

    method OnRequest(event: Event)
      requires event.Starting? || event.Stopping? || event.Configuring? || event.Refreshing? || event.RefreshRuns? ||
               event.Setting?
      modifies this, connection, command
      ensures View() == Next(old(View()), event, setup)
    {
      match event
      case Starting => Start();
      case Stopping => Stop();
      case Configuring(endpoint, changed) => Configure(endpoint, changed);
      case Refreshing => Refresh();
      case RefreshRuns => OnRefresh();
      case Setting(acceptable) => SetPanelValues(acceptable);
    }

    /** Every run of the object is the run of its value. */
    method Execute(events: seq<Event>)
      requires Run(View(), events, setup).Some?
      modifies this, connection, command
      ensures Some(View()) == Run(old(View()), events, setup)
    {
      for i := 0 to |events|
        invariant Run(View(), events[i..], setup) == Run(old(View()), events, setup)
      {
        assert events[i..][1..] == events[i + 1..];
        match events[i] {
          case Connects | Disconnects | Breaks(_) | Resolves(_, _) | Reads(_) => OnSocket(events[i]);
          case Starting | Stopping | Configuring(_, _) | Refreshing | RefreshRuns | Setting(_) =>
            OnRequest(events[i]);
          case WriteWatchdogFires | ConfirmationFires => OnCommandTimer(events[i]);
          case Passes(time) => Pass(time);
          case _ => OnTimer(events[i]);
        }
      }
    }
  }

  /** The whole drain is what was delivered and then the rest. */
  predicate Delivers(whole: Framing.Drained<Envelope>, delivered: seq<Envelope>, rest: Framing.Drained<Envelope>) {
    whole == Framing.Drained(delivered + rest.envelopes, rest.rest, rest.aborted)
  }

  /** One line of the loop. */
  lemma DrainGoesOn(decode: string -> Option<Envelope>, stream: string, whole: Framing.Drained<Envelope>,
                    delivered: seq<Envelope>)
    requires Framing.LineLength(stream) < |stream| && Framing.LineLength(stream) <= Framing.LIMIT
    requires Delivers(whole, delivered, Framing.Drain(decode, stream))
    ensures var n := Framing.LineLength(stream);
            var line, rest := Framing.Trim(stream[..n]), stream[n + 1..];
            if line == "" then Delivers(whole, delivered, Framing.Drain(decode, rest))
            else if decode(line).None? then whole == Framing.Drained(delivered, rest, true)
            else Delivers(whole, delivered + [decode(line).value], Framing.Drain(decode, rest))
  {
    var n := Framing.LineLength(stream);
    var line, rest := Framing.Trim(stream[..n]), stream[n + 1..];
    if line != "" && decode(line).Some? {
      var after := Framing.Drain(decode, rest).envelopes;
      assert delivered + ([decode(line).value] + after) == delivered + [decode(line).value] + after;
    }
  }

  /** Handling one more envelope; the stream plays no part. */
  lemma HandleAllMore(c: Client, envelopes: seq<Envelope>, envelope: Envelope, stream: string, delays: Delays)
    ensures ClientEvents.HandleEnvelope(HandleAll(c, envelopes, delays).(stream := stream), envelope, delays) ==
            HandleAll(c, envelopes + [envelope], delays).(stream := stream)
  {
    assert (envelopes + [envelope])[..|envelopes|] == envelopes;
  }
}
