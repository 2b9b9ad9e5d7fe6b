/** The loops of the worker thread, on the object it shares with the main thread.  Between two
    accesses of the worker the main thread takes any steps; both together take exactly the
    steps of `Protocol`, and every run of `Protocol` arises in this way. */
module DeviceLoop {
  import opened Options
  import opened Protocol
  import opened EventQueue
  import opened Scenarios

  // ----- Interleavings

  /** What the device does in a step of the worker, and what the main thread starts after it. */
  datatype Turn = Turn(device: Device, requests: seq<Request>)

  /** The device fails where it cannot do what is chosen. */
  function Choice(w: Worker, h: Shared, device: Device): Device {
    if WorkerNext(w, h, device).Some? then device else Fails
  }

  function Worked(s: Server, device: Device): Server {
    match WorkerNext(s.worker, s.shared, Choice(s.worker, s.shared, device))
    case Some(worker) => Server(WorkerEffect(s.worker, s.shared), worker, s.main)
    case None => s
  }

  /** The main thread skips what is not possible. */
  function Serving(s: Server, requests: seq<Request>): Server
    decreases |requests|
  {
    if requests == [] then s
    else Serving(if Possible(s.main, requests[0]) then Next(s, Serve(requests[0])).value else s, requests[1..])
  }

  function Turned(s: Server, turn: Turn): Server {
    Serving(Worked(s, turn.device), turn.requests)
  }

  /** The state after some turns, if the main thread began with the first requests. */
  function AfterTurns(first: seq<Request>, turns: seq<Turn>): Server
    decreases |turns|
  {
    if turns == [] then Serving(INITIAL, first)
    else Turned(AfterTurns(first, turns[..|turns| - 1]), turns[|turns| - 1])
  }

  lemma AlwaysMoves(w: Worker, h: Shared, device: Device)
    ensures WorkerNext(w, h, Choice(w, h, device)).Some? <==> !w.place.Ended?
  {}

  /** Where the device has no say. */
  predicate Alone(place: Place) {
    !place.Connecting? && !place.Observing? && !place.Calling? && !place.Ended?
  }

  lemma DeviceSilent(s: Server, device: Device)
    requires Alone(s.worker.place)
    ensures WorkerNext(s.worker, s.shared, Proceeds).Some?
    ensures Worked(s, device).worker == WorkerNext(s.worker, s.shared, Proceeds).value
  {}

  lemma {:induction false} ServingKeepsWorker(s: Server, requests: seq<Request>)
    ensures Serving(s, requests).worker == s.worker
    decreases |requests|
  {
    if requests != [] {
      ServingKeepsWorker(if Possible(s.main, requests[0]) then Next(s, Serve(requests[0])).value else s, requests[1..]);
    }
  }

  lemma NextTurn(first: seq<Request>, schedule: seq<Turn>, n: nat)
    requires n <= |schedule| && AfterTurns(first, schedule).worker.place.Ended?
    requires !AfterTurns(first, schedule[..n]).worker.place.Ended?
    ensures n < |schedule|
    ensures AfterTurns(first, schedule[..n + 1]) == Turned(AfterTurns(first, schedule[..n]), schedule[n])
  {
    assert schedule[..|schedule|] == schedule;
    AfterOneMore(first, schedule[..n], schedule[n]);
    assert schedule[..n + 1] == schedule[..n] + [schedule[n]];
  }

  lemma WorkedExactly(s: Server, device: Device)
    requires !s.worker.place.Ended?
    ensures var next := Worked(s, device);
            && next.main == s.main && next.shared == WorkerEffect(s.worker, s.shared)
            && next.worker.session == if s.worker.place.Opening? then s.worker.session + 1 else s.worker.session
  {
    AlwaysMoves(s.worker, s.shared, device);
  }

  // ----- Interleavings and runs

  lemma {:induction false} ServingIsRun(origin: Server, s: Server, requests: seq<Request>)
    requires ByRun(origin, s)
    ensures ByRun(origin, Serving(s, requests))
    decreases |requests|
  {
    if requests != [] {
      var request := requests[0];
      if Possible(s.main, request) {
        ByRunStep(origin, s, Serve(request));
        ServingIsRun(origin, Next(s, Serve(request)).value, requests[1..]);
      } else {
        ServingIsRun(origin, s, requests[1..]);
      }
    }
  }

  /** Whatever the turns, their state is reached by a run. */
  lemma {:induction false} AfterIsRun(first: seq<Request>, turns: seq<Turn>)
    ensures ByRun(INITIAL, AfterTurns(first, turns))
    decreases |turns|
  {
    if turns == [] {
      assert Run(INITIAL, []) == Some(INITIAL);
      ServingIsRun(INITIAL, INITIAL, first);
    } else {
      var s, turn := AfterTurns(first, turns[..|turns| - 1]), turns[|turns| - 1];
      AfterIsRun(first, turns[..|turns| - 1]);
      if !s.worker.place.Ended? { ByRunStep(INITIAL, s, Work(Choice(s.worker, s.shared, turn.device))); }
      ServingIsRun(INITIAL, Worked(s, turn.device), turn.requests);
    }
  }

  lemma {:induction false} ServingMore(s: Server, requests: seq<Request>, request: Request)
    requires Possible(Serving(s, requests).main, request)
    ensures Serving(s, requests + [request]) == Next(Serving(s, requests), Serve(request)).value
    decreases |requests|
  {
    if requests == [] {
      assert requests + [request] == [request];
      assert Serving(Next(s, Serve(request)).value, []) == Next(s, Serve(request)).value;
    } else {
      assert (requests + [request])[1..] == requests[1..] + [request];
      var next := if Possible(s.main, requests[0]) then Next(s, Serve(requests[0])).value else s;
      ServingMore(next, requests[1..], request);
    }
  }

  lemma AfterOneMore(first: seq<Request>, turns: seq<Turn>, turn: Turn)
    ensures AfterTurns(first, turns + [turn]) == Turned(AfterTurns(first, turns), turn)
  {
    assert (turns + [turn])[..|turns|] == turns;
  }

  /** One more step of either thread, as one more turn or one more request in the last. */
  lemma TurnsStep(first: seq<Request>, turns: seq<Turn>, action: Action)
    returns (first': seq<Request>, turns': seq<Turn>)
    requires Next(AfterTurns(first, turns), action).Some?
    ensures AfterTurns(first', turns') == Next(AfterTurns(first, turns), action).value
  {
    first', turns' := first, turns;
    match action {
      case Work(device) =>
        turns' := turns + [Turn(device, [])];
        AfterOneMore(first, turns, Turn(device, []));
      case Serve(request) =>
        if turns == [] {
          first' := first + [request];
          ServingMore(INITIAL, first, request);
        } else {
          var shorter, last := turns[..|turns| - 1], turns[|turns| - 1];
          var longer := Turn(last.device, last.requests + [request]);
          turns' := shorter + [longer];
          ServingMore(Worked(AfterTurns(first, shorter), last.device), last.requests, request);
          AfterOneMore(first, shorter, longer);
        }
    }
  }

  /** Every run is the run of some turns. */
  lemma {:induction false} RunIsTurns(actions: seq<Action>) returns (first: seq<Request>, turns: seq<Turn>)
    requires Run(INITIAL, actions).Some?
    ensures AfterTurns(first, turns) == Run(INITIAL, actions).value
    decreases |actions|
  {
    if actions == [] {
      first, turns := [], [];
    } else {
      var n := |actions| - 1;
      assert actions == actions[..n] + [actions[n]];
      RunBefore(INITIAL, actions[..n], actions[n]);
      RunThenStep(INITIAL, actions[..n], actions[n]);
      first, turns := RunIsTurns(actions[..n]);
      first, turns := TurnsStep(first, turns, actions[n]);
    }
  }

  lemma {:induction false} RunBefore(s: Server, actions: seq<Action>, action: Action)
    requires Run(s, actions + [action]).Some?
    ensures Run(s, actions).Some? && Next(Run(s, actions).value, action).Some?
    decreases |actions|
  {
    if actions != [] {
      assert (actions + [action])[1..] == actions[1..] + [action];
      RunBefore(Next(s, actions[0]).value, actions[1..], action);
    }
  }

  // ----- The end of the worker

  /** How far the worker is from its end if the device fails and the program stops. */
  function Distance(place: Place, queue: nat): nat {
    match place
    case Ended => 0
    case OuterTop => 1
    case Closing => 2
    case Pausing | DrainDone | InnerTop | StopCheck => 3
    case Answering(_, _) | Observed => 4
    case Calling(_) | Called(_, _) => 5
    case Taking => 6
    case Draining => 4 + 2 * queue
    case DrainAnswering(_) => 5 + 2 * queue
    case BrokenPosting => 6 + 2 * queue
    case Broken => 7 + 2 * queue
    case Connecting | Observing => 8 + 2 * queue
    case Starting | CheckReconnect | StatusStored(_) => 9 + 2 * queue
    case Opening | Polling | StatusArrived(_) => 10 + 2 * queue
  }

  lemma StopNears(w: Worker, h: Shared)
    requires h.stopping && !w.place.Ended?
    ensures WorkerNext(w, h, Fails).Some?
    ensures Distance(WorkerNext(w, h, Fails).value.place, |WorkerEffect(w, h).commands|) <
            Distance(w.place, |h.commands|)
  {}

  lemma FailingTurn(s: Server)
    requires !s.worker.place.Ended?
    ensures WorkerNext(s.worker, s.shared, Fails).Some?
    ensures Turned(s, Turn(Fails, [])) ==
            Server(WorkerEffect(s.worker, s.shared), WorkerNext(s.worker, s.shared, Fails).value, s.main)
    ensures WorkerEffect(s.worker, s.shared).stopping == s.shared.stopping
  {
    AlwaysMoves(s.worker, s.shared, Fails);
  }

  lemma {:induction false} StopEnds(first: seq<Request>, turns: seq<Turn>, s: Server) returns (more: seq<Turn>)
    requires s == AfterTurns(first, turns) && s.shared.stopping
    ensures AfterTurns(first, turns + more).worker.place.Ended?
    decreases Distance(s.worker.place, |s.shared.commands|)
  {
    if s.worker.place.Ended? {
      more := [];
      assert turns + more == turns;
    } else {
      var turn := Turn(Fails, []);
      AfterOneMore(first, turns, turn);
      FailingTurn(s);
      StopNears(s.worker, s.shared);
      more := StopEnds(first, turns + [turn], Turned(s, turn));
      assert turns + ([turn] + more) == turns + [turn] + more;
      more := [turn] + more;
    }
  }

  predicate StopsWhenDown(s: Server) {
    s.main.phase.ShutdownLock? || s.main.phase.Down? ==> s.shared.stopping
  }

  lemma {:induction false} StopsWhenDownForever(s: Server, actions: seq<Action>)
    requires StopsWhenDown(s) && Run(s, actions).Some?
    ensures StopsWhenDown(Run(s, actions).value)
    decreases |actions|
  {
    if actions != [] { StopsWhenDownForever(Next(s, actions[0]).value, actions[1..]); }
  }

  /** How far the main thread is from being able to stop. */
  function Busy(m: MainThread, h: Shared): nat {
    |m.batch| +
    match m.phase
    case Idle | ShutdownLock | Down => 0
    case Pushing(_, _, _, _) => 1
    case RefreshAnswering(swapped) => 1 + |swapped|
    case RefreshLock => 2 + |h.commands|
    case RefreshStore => 3 + |h.commands|
  }

  /** Finish the operation and the batch, then stop. */
  function Ending(m: MainThread): Request {
    if m.phase != Idle then Proceed else if m.batch != [] then ProcessEvent else Shutdown
  }

  lemma EndingNears(s: Server)
    requires StopsWhenDown(s) && !s.shared.stopping
    ensures Possible(s.main, Ending(s.main))
    ensures var next := Next(s, Serve(Ending(s.main))).value;
            StopsWhenDown(next) && (next.shared.stopping || Busy(next.main, next.shared) < Busy(s.main, s.shared))
  {}

  lemma {:induction false} CanStop(s: Server) returns (requests: seq<Request>)
    requires StopsWhenDown(s)
    ensures Serving(s, requests).shared.stopping
    decreases Busy(s.main, s.shared)
  {
    requests := [];
    if !s.shared.stopping {
      EndingNears(s);
      var next := Next(s, Serve(Ending(s.main))).value;
      if next.shared.stopping {
        requests := [Ending(s.main)];
        assert Serving(next, []) == next;
      } else {
        requests := CanStop(next);
        requests := [Ending(s.main)] + requests;
      }
    }
  }

  lemma WorkedKeepsMain(s: Server, device: Device)
    ensures Worked(s, device).main == s.main && Worked(s, device).shared.stopping == s.shared.stopping
  {}

  /** Turns that reach the state of the run can go on until the worker has ended. */
  lemma RunCanEnd(actions: seq<Action>, first: seq<Request>, turns: seq<Turn>) returns (more: seq<Turn>)
    requires Run(INITIAL, actions) == Some(AfterTurns(first, turns))
    ensures AfterTurns(first, turns + more).worker.place.Ended?
  {
    var s := AfterTurns(first, turns);
    StopsWhenDownForever(INITIAL, actions);
    WorkedKeepsMain(s, Fails);
    var requests := CanStop(Worked(s, Fails));
    AfterOneMore(first, turns, Turn(Fails, requests));
    more := StopEnds(first, turns + [Turn(Fails, requests)], AfterTurns(first, turns + [Turn(Fails, requests)]));
    assert turns + ([Turn(Fails, requests)] + more) == turns + [Turn(Fails, requests)] + more;
    more := [Turn(Fails, requests)] + more;
  }

  /** The loops below pass through the state of every run, under a schedule that lets them end. */
  lemma EveryRunScheduled(actions: seq<Action>)
    requires Run(INITIAL, actions).Some?
    ensures exists first, turns, more ::
              && AfterTurns(first, turns) == Run(INITIAL, actions).value
              && AfterTurns(first, turns + more).worker.place.Ended?
  {
    var first, turns := RunIsTurns(actions);
    var more := RunCanEnd(actions, first, turns);
  }

  // ----- The object

  class AirCtrlServer {
    const first: seq<Request>
    const schedule: seq<Turn>
    // Of both threads.
    var shared: Shared
    // Of the main thread, which acts by the schedule.
    var main: MainThread
    // Of the worker: where it stands is told by the methods below, and by the ghost here.
    var session: nat
    ghost var worker: Worker
    // The accesses of the worker so far.
    var clock: nat

    ghost function View(): Server
      reads this
    {
      Server(shared, worker, main)
    }

    /** The state is that of the turns so far, under a schedule in which the worker ends. */
    ghost predicate Valid()
      reads this
    {
      && clock <= |schedule| && View() == AfterTurns(first, schedule[..clock]) && session == worker.session
      && AfterTurns(first, schedule).worker.place.Ended?
    }

    constructor (first: seq<Request>, schedule: seq<Turn>)
      requires AfterTurns(first, schedule).worker.place.Ended?
      ensures Valid() && this.first == first && this.schedule == schedule && clock == 0 && worker.place.OuterTop?
    {
      this.first, this.schedule := first, schedule;
      var s := Serving(INITIAL, first);
      shared, main, session, worker, clock := s.shared, s.main, 0, INITIAL.worker, 0;
      new;
      ServingKeepsWorker(INITIAL, first);
    }

    /** The access of the worker is done; the main thread acts. */
    method Yield(ghost before: Server)
      requires clock <= |schedule| && before == AfterTurns(first, schedule[..clock])
      requires AfterTurns(first, schedule).worker.place.Ended?
      requires !before.worker.place.Ended? && main == before.main
      requires shared == WorkerEffect(before.worker, before.shared)
      requires session == if before.worker.place.Opening? then before.worker.session + 1 else before.worker.session
      modifies this
      ensures Valid() && old(clock) < |schedule| && clock == old(clock) + 1
      ensures worker == Worked(before, schedule[old(clock)].device).worker
    {
      NextTurn(first, schedule, clock);
      ghost var next := Worked(before, schedule[clock].device);
      WorkedExactly(before, schedule[clock].device);
      ServingKeepsWorker(next, schedule[clock].requests);
      worker := next.worker;
      ServeRequests(schedule[clock].requests);
      clock := clock + 1;
    }

    /** The same where the device has no say. */
    method Advance(ghost before: Server)
      requires clock <= |schedule| && before == AfterTurns(first, schedule[..clock])
      requires AfterTurns(first, schedule).worker.place.Ended?
      requires Alone(before.worker.place) && main == before.main
      requires shared == WorkerEffect(before.worker, before.shared)
      requires session == if before.worker.place.Opening? then before.worker.session + 1 else before.worker.session
      modifies this
      ensures Valid() && clock == old(clock) + 1
      ensures WorkerNext(before.worker, before.shared, Proceeds) == Some(worker)
    {
      Yield(before);
      DeviceSilent(before, schedule[clock - 1].device);
    }

    method ServeRequests(requests: seq<Request>)
      modifies `shared, `main
      ensures View() == Serving(old(View()), requests)
    {
      for i := 0 to |requests|
        invariant worker == old(worker) && Serving(old(View()), requests) == Serving(View(), requests[i..])
      {
        assert requests[i..][1..] == requests[i + 1..];
        if Possible(main, requests[i]) {
          shared, main := MainEffect(main, shared, requests[i]), MainNext(main, shared, requests[i]);
        }
      }
    }

    // ----- Accesses of the worker

    method LoadStopping() returns (stopping: bool)
      requires Valid()
      requires worker.place.OuterTop? || worker.place.InnerTop? || worker.place.StopCheck? || worker.place.DrainDone?
      modifies this
      ensures Valid() && clock == old(clock) + 1
      ensures worker == old(worker).(place :=
                match old(worker.place)
                case OuterTop => if stopping then Ended else Opening
                case InnerTop => if stopping then Closing else Polling
                case StopCheck => if stopping then Closing else Taking
                case _ => if stopping then Closing else Pausing)
    {
      stopping := shared.stopping;
      Advance(View());
    }

    method ReconnectIsRequested() returns (reconnect: bool)
      requires Valid() && (worker.place.CheckReconnect? || worker.place.Observed? || worker.place.Called?)
      modifies this
      ensures Valid() && clock == old(clock) + 1
      ensures worker == old(worker).(place :=
                match old(worker.place)
                case CheckReconnect => if reconnect then Closing else Observing
                case Observed => if reconnect then Closing else StopCheck
                case Called(command, accepted) => Answering(command, accepted && !reconnect)
                case other => other)
    {
      reconnect := shared.reconnectRequested;
      Advance(View());
    }

    method IsInterrupted(commandsInterrupt: bool) returns (interrupted: bool)
      requires Valid() && worker.place.Polling? && commandsInterrupt == !worker.statusRequired
      modifies this
      ensures Valid() && clock == old(clock) + 1
      ensures worker == old(worker).(place := if interrupted then CheckReconnect else Observing)
    {
      interrupted := shared.stopping || shared.reconnectRequested || (commandsInterrupt && shared.commands != []);
      Advance(View());
    }

    method ClearReconnect()
      requires Valid() && worker.place.Opening?
      modifies this
      ensures Valid() && clock == old(clock) + 1 && worker.place.Starting?
    {
      ghost var before := View();
      shared := shared.(reconnectRequested := false);
      session := session + 1;
      Advance(before);
    }

    method SetReady()
      requires Valid() && worker.place.StatusArrived?
      modifies this
      ensures Valid() && clock == old(clock) + 1
      ensures worker == old(worker).(place := StatusStored(old(worker.place.data)))
    {
      ghost var before := View();
      shared := shared.(deviceReady := true);
      Advance(before);
    }

    method ClearReady()
      requires Valid() && (worker.place.Broken? || worker.place.Closing?)
      modifies this
      ensures Valid() && clock == old(clock) + 1
      ensures worker == old(worker).(place := if old(worker.place.Broken?) then BrokenPosting else OuterTop)
    {
      ghost var before := View();
      shared := shared.(deviceReady := false);
      Advance(before);
    }

    method PostEvent(event: Event)
      requires Valid() && Posting(worker) == Some(event)
      modifies this
      ensures Valid() && clock == old(clock) + 1
      ensures worker == old(worker).(place :=
                match old(worker.place)
                case Starting => Connecting
                case StatusStored(_) => Observing
                case Answering(_, _) => InnerTop
                case _ => Draining)
    {
      ghost var before := View();
      shared := Post(shared, event);
      Advance(before);
    }

    method TakeCommand() returns (taken: Option<Command>)
      requires Valid() && (worker.place.Taking? || worker.place.Draining?)
      modifies this
      ensures Valid() && clock == old(clock) + 1
      ensures old(worker.place.Taking?) ==>
                worker == if taken.None? then old(worker).(place := InnerTop)
                          else old(worker).(place := Calling(taken.value), statusRequired := true)
      ensures old(worker.place.Draining?) ==>
                worker == old(worker).(place := if taken.None? then DrainDone else DrainAnswering(taken.value))
    {
      ghost var before := View();
      if shared.commands == [] {
        taken := None;
      } else {
        taken := Some(shared.commands[0]);
        shared := Pop(shared);
      }
      Advance(before);
    }

    // ----- The device

    method Connect() returns (failed: bool)
      requires Valid() && worker.place.Connecting?
      modifies this
      ensures Valid() && clock == old(clock) + 1 && worker.session == old(worker.session)
      ensures worker.place == if failed then Broken else InnerTop
      ensures !failed ==> !worker.statusRequired
    {
      Due();
      failed := schedule[clock].device.Fails?;
      Yield(View());
    }

    /** What observing does next: call back, end as its stop predicate holds, or fail. */
    method AwaitDevice(commandsInterrupt: bool) returns (device: Device)
      requires Valid() && worker.place.Observing? && commandsInterrupt == !worker.statusRequired
      modifies this
      ensures Valid() && clock == old(clock) + 1 && worker.session == old(worker.session)
      ensures match device
              case Reports(data) => worker.place == StatusArrived(data) && !worker.statusRequired
              case Stops => worker.place == Observed && worker.statusRequired == old(worker.statusRequired)
              case Fails => worker.place == Broken
              case _ => false
    {
      Due();
      device := schedule[clock].device;
      match device {
        case Reports(_) | Fails =>
        case Stops => if !Interrupted(shared, commandsInterrupt) { device := Fails; }
        case _ => device := Fails;
      }
      Yield(View());
    }

    method SetControlValues(command: Command) returns (device: Device)
      requires Valid() && worker.place == Calling(command)
      modifies this
      ensures Valid() && clock == old(clock) + 1
      ensures worker.statusRequired == old(worker.statusRequired) && worker.session == old(worker.session)
      ensures match device
              case Accepts => worker.place == Called(command, true)
              case Refuses => worker.place == Called(command, false)
              case Fails => worker.place == Answering(command, false)
              case _ => false
    {
      Due();
      device := schedule[clock].device;
      if !device.Accepts? && !device.Refuses? { device := Fails; }
      Yield(View());
    }

    method WaitReconnect()
      requires Valid() && worker.place.Pausing?
      modifies this
      ensures Valid() && clock == old(clock) + 1 && worker.place.Closing?
    {
      Advance(View());
    }

    /** While the worker has not ended there is a turn left. */
    lemma Due()
      requires Valid() && !worker.place.Ended?
      ensures clock < |schedule|
    {
      assert schedule[..|schedule|] == schedule;
    }

    // ----- The loops

    /** Observing until a command or the main thread interrupts it, or the device fails. */
    method ObserveStatus(statusRequired: bool) returns (failed: bool, required: bool)
      requires Valid() && worker.place.Observing? && worker.statusRequired == statusRequired
      modifies this
      ensures Valid() && clock > old(clock)
      ensures if failed then worker.place.Broken? else worker.place.Observed? && worker.statusRequired == required
    {
      required := statusRequired;
      while true
        invariant Valid() && clock >= old(clock)
        invariant worker.place.Observing? && worker.statusRequired == required
        decreases |schedule| - clock
      {
        var device := AwaitDevice(!required);
        match device {
          case Reports(data) =>
            required := false;
            SetReady();
            PostEvent(Status(data, session));
          case Stops => return false, required;
          case _ => return true, required;
        }
      }
    }

    /** One command on the device, and its answer. */
    method RunCommand(command: Command)
      requires Valid() && worker.place == Calling(command)
      modifies this
      ensures Valid() && clock > old(clock)
      ensures worker.place.InnerTop? && worker.statusRequired == old(worker.statusRequired)
    {
      var device := SetControlValues(command);
      if device.Fails? {
        PostEvent(Control(command, false, session));
      } else {
        var renewed := ReconnectIsRequested();
        PostEvent(Control(command, device.Accepts? && !renewed, session));
      }
    }

    /** A round of a session: observe, then run a command; tells whether the session goes on. */
    method Round(statusRequired: bool) returns (failed: bool, over: bool, required: bool)
      requires Valid() && worker.place.Polling? && worker.statusRequired == statusRequired
      modifies this
      ensures Valid() && clock > old(clock)
      ensures if failed then worker.place.Broken?
              else if over then worker.place.Closing?
              else worker.place.InnerTop? && worker.statusRequired == required
    {
      failed, over, required := false, false, statusRequired;
      var interrupted := IsInterrupted(!required);
      if interrupted {
        over := ReconnectIsRequested();
        if over { return; }
      }
      failed, required := ObserveStatus(required);
      if failed { return; }
      over := ReconnectIsRequested();
      if over { return; }
      over := LoadStopping();
      if over { return; }
      var taken := TakeCommand();
      if taken.Some? {
        required := true;
        RunCommand(taken.value);
      }
    }

    /** A session with the device. */
    method Session() returns (failed: bool)
      requires Valid() && worker.place.Connecting?
      modifies this
      ensures Valid() && clock > old(clock)
      ensures worker.place == if failed then Broken else Closing
    {
      failed := Connect();
      if failed { return; }
      var statusRequired, over := false, false;
      var stopping := LoadStopping();
      while !stopping
        invariant Valid() && clock > old(clock)
        invariant !failed && worker.place == if stopping then Closing else Polling
        invariant !stopping ==> worker.statusRequired == statusRequired
        decreases |schedule| - clock
      {
        failed, over, statusRequired := Round(statusRequired);
        if failed || over { return; }
        stopping := LoadStopping();
      }
    }

    /** The queue is emptied after a failure. */
    method Drain()
      requires Valid() && worker.place.Draining?
      modifies this
      ensures Valid() && clock > old(clock) && worker.place.DrainDone?
    {
      var taken := TakeCommand();
      while taken.Some?
        invariant Valid() && clock > old(clock)
        invariant worker.place == if taken.Some? then DrainAnswering(taken.value) else DrainDone
        decreases |schedule| - clock
      {
        PostEvent(Control(taken.value, false, session));
        taken := TakeCommand();
      }
    }

    method HandleFailure()
      requires Valid() && worker.place.Broken?
      modifies this
      ensures Valid() && clock > old(clock) && worker.place.Closing?
    {
      ClearReady();
      PostEvent(StateError);
      Drain();
      var stopping := LoadStopping();
      if !stopping { WaitReconnect(); }
    }

    /** The worker from its beginning to its end. */
    method DeviceLoop()
      requires Valid() && worker.place.OuterTop?
      modifies this
      ensures Valid() && worker.place.Ended? && View() == AfterTurns(first, schedule[..clock])
    {
      var stopping := LoadStopping();
      while !stopping
        invariant Valid() && worker.place == if stopping then Ended else Opening
        decreases |schedule| - clock
      {
        ClearReconnect();
        PostEvent(Start);
        var failed := Session();
        if failed { HandleFailure(); }
        ClearReady();
        stopping := LoadStopping();
      }
    }
  }
}
