/** The connection of the client to its server: name lookup, connecting, reconnecting and the
    heartbeat, on a clock that counts milliseconds. */
module ClientLink {
  import opened Options

  datatype Socket = Unconnected | Connecting | Connected

  /** Delays that stay the same while the client is active. */
  datatype Delays = Delays(heartbeat: nat, heartbeatTimeout: nat, write: nat, confirmation: nat)

  /** Where to connect: whether name and port are usable, whether the name is an address, and
      how long to wait before the next attempt. */
  datatype Endpoint = Endpoint(valid: bool, numeric: bool, reconnectDelay: nat)

  /** A timer is the time at which it fires.  `addresses` counts the addresses not tried yet;
      `lastLife` is the time of the last connect or pong. */
  datatype Link = Link(
    active: bool,
    socket: Socket,
    resolving: bool,
    connecting: bool,
    addresses: nat,
    generation: nat,
    refreshScheduled: bool,
    hasStatus: bool,
    endpoint: Endpoint,
    launchAttempted: bool,
    reconnect: Option<nat>,
    connectWatchdog: Option<nat>,
    heartbeat: Option<nat>,
    heartbeatWatchdog: Option<nat>,
    now: nat,
    lastLife: nat)

  const CONNECT_LIMIT := 3000

  function ConnectionFailed(l: Link): Link {
    l.(hasStatus := false,
       reconnect := if l.active && l.reconnect.None? then Some(l.now + l.endpoint.reconnectDelay) else l.reconnect)
  }

  function TryNextAddress(l: Link): (r: Link)
    ensures r.hasStatus ==> l.hasStatus
  {
    if !l.active then l
    else if l.addresses == 0 then ConnectionFailed(l.(connecting := false))
    else l.(addresses := l.addresses - 1, connecting := true, connectWatchdog := Some(l.now + CONNECT_LIMIT),
            socket := Connecting)
  }

  function ConnectServer(l: Link): (r: Link)
    ensures r.hasStatus ==> l.hasStatus
  {
    if !l.active || l.resolving || l.connecting || l.socket != Unconnected then l
    else if !l.endpoint.valid then ConnectionFailed(l)
    else if l.endpoint.numeric then TryNextAddress(l.(addresses := 1))
    else l.(resolving := true, generation := l.generation + 1, connectWatchdog := Some(l.now + CONNECT_LIMIT))
  }

  /** The answer to the lookup of that generation. */
  function LookedUp(l: Link, generation: nat, found: nat): (r: Link)
    ensures r.hasStatus ==> l.hasStatus
  {
    if !l.active || generation != l.generation then l
    else
      var resolved := l.(resolving := false, connectWatchdog := None);
      if found == 0 then ConnectionFailed(resolved) else TryNextAddress(resolved.(addresses := found))
  }

  function Connects(l: Link, delays: Delays): Link {
    l.(socket := Connected, connectWatchdog := None, connecting := false, addresses := 0, heartbeatWatchdog := None,
       heartbeat := Some(l.now + delays.heartbeat), lastLife := l.now)
  }

  /** The end of an established connection, and what follows from it. */
  function Disconnects(l: Link): Link {
    var closed := l.(socket := Unconnected);
    if l.connecting then closed
    else
      var quiet := closed.(connectWatchdog := None, heartbeat := None, heartbeatWatchdog := None, hasStatus := false,
                              launchAttempted := false);
      if l.active then ConnectionFailed(quiet) else quiet
  }

  /** Closing the socket at once; an established connection reports its end before this
      returns, any other attempt just stops. */
  function Abort(l: Link): (r: Link)
    ensures r.hasStatus ==> l.hasStatus
  {
    if l.socket == Connected then Disconnects(l) else l.(socket := Unconnected)
  }

  function ConnectTimesOut(l: Link): (r: Link)
    ensures r.hasStatus ==> l.hasStatus
  {
    var fired := l.(connectWatchdog := None);
    if l.resolving then ConnectionFailed(fired.(resolving := false, generation := l.generation + 1))
    else if l.connecting then TryNextAddress(Abort(fired))
    else ConnectionFailed(Abort(fired))
  }

  /** What becomes of the test server when a connection is refused. */
  datatype TestServer = NotConfigured | Starts | StartFails

  /** What the socket reports as an error. */
  datatype Failure = RemoteClosed | ConnectionRefused(server: TestServer) | OtherFailure

  const LAUNCH_DELAY := 100

  predicate Launches(l: Link, failure: Failure) {
    !l.launchAttempted && failure.ConnectionRefused? && failure.server != NotConfigured
  }

  /** Start the test server once and try again soon. */
  function LaunchServer(l: Link, started: bool): (r: Link)
    ensures r.hasStatus ==> l.hasStatus
  {
    var launched := l.(launchAttempted := true);
    (if started then launched else ConnectionFailed(launched)).(reconnect := Some(l.now + LAUNCH_DELAY))
  }

  /** A failed attempt leaves the socket unconnected. */
  function SocketError(l: Link, failure: Failure): (r: Link)
    ensures r.hasStatus ==> l.hasStatus
  {
    var broken := if l.socket == Connecting then l.(socket := Unconnected) else l;
    if !l.active || failure == RemoteClosed then broken
    else if l.connecting then
      var stopped := broken.(connectWatchdog := None);
      if Launches(l, failure) then LaunchServer(Abort(stopped.(connecting := false)), failure.server == Starts)
      else TryNextAddress(Abort(stopped))
    else if Launches(l, failure) then LaunchServer(broken, failure.server == Starts)
    else ConnectionFailed(broken)
  }

  function SendHeartbeat(l: Link, delays: Delays): Link {
    var fired := l.(heartbeat := None);
    if !l.active || l.socket != Connected then fired
    else fired.(heartbeatWatchdog := Some(l.now + delays.heartbeatTimeout))
  }

  function HeartbeatTimesOut(l: Link): (r: Link)
    ensures r.hasStatus ==> l.hasStatus
  {
    var fired := l.(heartbeatWatchdog := None);
    if !l.active || l.socket != Connected then fired else Abort(ConnectionFailed(fired))
  }

  function Pong(l: Link, delays: Delays): Link {
    var answered := l.(heartbeatWatchdog := None);
    if !l.active || l.socket != Connected then answered
    else answered.(heartbeat := Some(l.now + delays.heartbeat), lastLife := l.now)
  }

  function Start(l: Link): Link {
    if l.active then l else ConnectServer(l.(active := true, launchAttempted := false))
  }

  /** Stopping, up to the abort. */
  function Deactivate(l: Link): Link {
    l.(active := false, generation := l.generation + 1, resolving := false, connecting := false, addresses := 0,
       refreshScheduled := false, reconnect := None, connectWatchdog := None, heartbeat := None,
       heartbeatWatchdog := None, hasStatus := false)
  }

  /** A new endpoint, up to the abort. */
  function Redirect(l: Link, endpoint: Endpoint, changed: bool): (r: Link)
    ensures r.hasStatus ==> l.hasStatus
  {
    var renamed := l.(endpoint := endpoint);
    if changed && l.active then
      renamed.(generation := l.generation + 1, resolving := false, connecting := false, addresses := 0,
               connectWatchdog := None)
    else renamed
  }

  // ----- What always holds

  /** Exactly one of the heartbeat timers is armed while connected, none otherwise. */
  predicate Beating(l: Link) {
    && (l.socket == Connected <==> l.heartbeat.Some? || l.heartbeatWatchdog.Some?)
    && !(l.heartbeat.Some? && l.heartbeatWatchdog.Some?)
  }

  /** The stages of connecting exclude each other and each has its watchdog; an inactive
      client is in none of them. */
  predicate Staged(l: Link) {
    && (l.socket == Connecting ==> l.connecting)
    && (l.connecting ==> l.socket != Connected && !l.resolving)
    && (l.resolving ==> l.socket == Unconnected)
    && (l.connectWatchdog.Some? <==> l.resolving || l.connecting)
    && (!l.active ==> l.socket == Unconnected && !l.resolving && !l.connecting && l.reconnect.None?)
  }

  /** An active client that is not connected, not connecting and not looking up a name has
      its next attempt scheduled: it never gets stuck. */
  predicate Progressing(l: Link) {
    l.active && l.socket != Connected && !l.resolving && !l.connecting ==> l.reconnect.Some?
  }

  predicate Sound(l: Link) {
    Beating(l) && Staged(l) && Progressing(l)
  }

  predicate Within(timer: Option<nat>, now: nat, latest: nat) {
    timer.Some? ==> now <= timer.value <= latest
  }

  /** The heartbeat timers have not been missed and fire before the silence gets too long. */
  predicate Punctual(l: Link, delays: Delays) {
    && l.lastLife <= l.now
    && Within(l.heartbeat, l.now, l.lastLife + delays.heartbeat)
    && Within(l.heartbeatWatchdog, l.now, l.lastLife + delays.heartbeat + delays.heartbeatTimeout)
  }

  /** Silence on a link that is connected and punctual is bounded. */
  lemma SilenceBounded(l: Link, delays: Delays)
    requires Beating(l) && Punctual(l, delays) && l.socket == Connected
    ensures l.now - l.lastLife <= delays.heartbeat + delays.heartbeatTimeout
  {}

  /** The heartbeat timers are untouched, or stopped with the connection. */
  predicate SameBeat(l: Link, l': Link) {
    && l'.now == l.now && l'.lastLife == l.lastLife
    && (l'.heartbeat == l.heartbeat || l'.heartbeat.None?)
    && (l'.heartbeatWatchdog == l.heartbeatWatchdog || l'.heartbeatWatchdog.None?)
  }

  lemma SameBeatPunctual(l: Link, l': Link, delays: Delays)
    requires Punctual(l, delays) && SameBeat(l, l')
    ensures Punctual(l', delays)
  {}

  lemma FailedIsSound(l: Link)
    requires Beating(l) && Staged(l)
    ensures Sound(ConnectionFailed(l)) && SameBeat(l, ConnectionFailed(l))
  {}

  lemma TryingIsSound(l: Link)
    requires Beating(l) && l.active && l.socket == Unconnected && !l.resolving
    requires l.addresses == 0 ==> l.connectWatchdog.None?
    ensures Sound(TryNextAddress(l)) && SameBeat(l, TryNextAddress(l))
  {
    if l.addresses == 0 { FailedIsSound(l.(connecting := false)); }
  }

  lemma ConnectServerIsSound(l: Link)
    requires Beating(l) && Staged(l)
    ensures Sound(ConnectServer(l)) && SameBeat(l, ConnectServer(l))
  {
    if l.active && !l.resolving && !l.connecting && l.socket == Unconnected {
      if !l.endpoint.valid {
        FailedIsSound(l);
      } else if l.endpoint.numeric {
        TryingIsSound(l.(addresses := 1));
      }
    }
  }

  lemma LookedUpIsSound(l: Link, generation: nat, found: nat)
    requires Sound(l) && (generation == l.generation ==> l.resolving)
    ensures Sound(LookedUp(l, generation, found)) && SameBeat(l, LookedUp(l, generation, found))
  {
    if l.active && generation == l.generation {
      var resolved := l.(resolving := false, connectWatchdog := None);
      if found == 0 { FailedIsSound(resolved); } else { TryingIsSound(resolved.(addresses := found)); }
    }
  }

  lemma ConnectsIsSound(l: Link, delays: Delays)
    requires Sound(l) && l.socket == Connecting
    ensures Sound(Connects(l, delays)) && Punctual(Connects(l, delays), delays)
  {}

  lemma AbortIsStaged(l: Link)
    requires Sound(l)
    ensures Beating(Abort(l)) && Staged(Abort(l)) && SameBeat(l, Abort(l))
    ensures Abort(l).socket == Unconnected && Abort(l).connecting == l.connecting && Abort(l).resolving == l.resolving
    ensures Abort(l).active == l.active && Sound(Abort(l))
  {
    if l.socket == Connected && l.active {
      FailedIsSound(l.(socket := Unconnected, connectWatchdog := None, heartbeat := None, heartbeatWatchdog := None,
                       hasStatus := false, launchAttempted := false));
    }
  }

  lemma ConnectTimesOutIsSound(l: Link)
    requires Sound(l) && l.connectWatchdog.Some?
    ensures Sound(ConnectTimesOut(l)) && SameBeat(l, ConnectTimesOut(l))
  {
    var fired := l.(connectWatchdog := None);
    if l.resolving {
      FailedIsSound(fired.(resolving := false, generation := l.generation + 1));
    } else {
      assert l.connecting && Abort(fired) == fired.(socket := Unconnected);
      TryingIsSound(Abort(fired));
    }
  }

  lemma LaunchingIsSound(l: Link, started: bool)
    requires Beating(l) && Staged(l) && l.active
    ensures Sound(LaunchServer(l, started)) && SameBeat(l, LaunchServer(l, started))
  {
    FailedIsSound(l.(launchAttempted := true));
  }

  lemma SocketErrorIsSound(l: Link, failure: Failure)
    requires Sound(l)
    ensures Sound(SocketError(l, failure)) && SameBeat(l, SocketError(l, failure))
    ensures SocketError(l, failure).socket == Connected <==> l.socket == Connected
  {
    var broken := if l.socket == Connecting then l.(socket := Unconnected) else l;
    if l.active && failure != RemoteClosed {
      if l.connecting {
        var stopped := broken.(connectWatchdog := None);
        assert Abort(stopped) == stopped.(socket := Unconnected);
        if Launches(l, failure) {
          assert Abort(stopped.(connecting := false)) == stopped.(connecting := false, socket := Unconnected);
          LaunchingIsSound(Abort(stopped.(connecting := false)), failure.server == Starts);
        } else {
          TryingIsSound(Abort(stopped));
        }
      } else if Launches(l, failure) {
        LaunchingIsSound(broken, failure.server == Starts);
      } else {
        FailedIsSound(broken);
      }
    }
  }

  lemma SendHeartbeatIsSound(l: Link, delays: Delays)
    requires Sound(l) && l.heartbeat.Some? && l.heartbeat.value <= l.now
    ensures Sound(SendHeartbeat(l, delays)) && (Punctual(l, delays) ==> Punctual(SendHeartbeat(l, delays), delays))
  {}

  lemma HeartbeatTimesOutIsSound(l: Link)
    requires Sound(l) && l.heartbeatWatchdog.Some?
    ensures Sound(HeartbeatTimesOut(l)) && SameBeat(l, HeartbeatTimesOut(l))
    ensures HeartbeatTimesOut(l).socket == Unconnected
  {
    var reported := ConnectionFailed(l.(heartbeatWatchdog := None));
    var closed := reported.(socket := Unconnected, connectWatchdog := None, heartbeat := None,
                            heartbeatWatchdog := None, hasStatus := false, launchAttempted := false);
    FailedIsSound(closed);
  }

  lemma PongIsSound(l: Link, delays: Delays)
    requires Sound(l) && l.socket == Connected
    ensures Sound(Pong(l, delays)) && Punctual(Pong(l, delays), delays)
  {}

  lemma DeactivateIsSound(l: Link)
    requires Sound(l)
    ensures Sound(Abort(Deactivate(l))) && SameBeat(l, Abort(Deactivate(l)))
  {}

  lemma RedirectIsSound(l: Link, endpoint: Endpoint, changed: bool)
    requires Sound(l)
    ensures var renamed := Redirect(l, endpoint, changed);
            if changed && l.active
            then Beating(Abort(renamed)) && Staged(Abort(renamed)) && SameBeat(l, Abort(renamed))
            else Sound(renamed) && SameBeat(l, renamed)
  {
    var renamed := Redirect(l, endpoint, changed);
    if changed && l.active && l.socket == Connected {
      FailedIsSound(renamed.(socket := Unconnected, connectWatchdog := None, heartbeat := None,
                             heartbeatWatchdog := None, hasStatus := false, launchAttempted := false));
    }
  }
}
