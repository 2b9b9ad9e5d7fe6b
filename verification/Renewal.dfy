/** What a failure and a refresh do to the commands that wait, and how the main thread learns of
    what the device did. */
module Renewal {
  import opened Options
  import opened Protocol
  import opened Serialization
  import opened Conservation
  import opened EventQueue
  import opened Confirmation
  import opened Answers

  // ----- Commands that wait when the device fails

  /** The worker is about to empty the queue. */
  predicate Failing(place: Place) {
    place.Broken? || place.BrokenPosting? || place.Draining? || place.DrainAnswering?
  }

  /** The command with that serial is not attempted, and will not be. */
  predicate Doomed(w: Worker, h: Shared, n: nat) {
    && n < |h.queued| && n !in w.attempts
    && (forall i | 0 <= i < |h.commands| && h.commands[i].serial == n :: Failing(w.place))
    && (w.place.Calling? ==> w.place.command.serial != n)
  }

  lemma WorkerKeepsDoomed(w: Worker, h: Shared, device: Device, n: nat)
    requires Doomed(w, h, n) && WorkerNext(w, h, device).Some?
    ensures Doomed(WorkerNext(w, h, device).value, WorkerEffect(w, h), n)
  {
    WorkerShifts(w, h);
    if !w.place.Calling? {
      AttemptsStay(w, h, device);
      FailingEmptiesQueue(w, h, device);
    }
  }

  /** The worker takes commands for the device only when it is not failing, and it fails on
      until the queue is empty. */
  lemma FailingEmptiesQueue(w: Worker, h: Shared, device: Device)
    requires WorkerNext(w, h, device).Some?
    ensures var next := WorkerNext(w, h, device).value.place;
            && (next.Calling? ==> w.place.Taking? && h.commands != [] && next.command == h.commands[0])
            && (Failing(w.place) && !Failing(next) ==> h.commands == [])
  {}

  lemma MainKeepsDoomed(w: Worker, m: MainThread, h: Shared, request: Request, n: nat)
    requires Doomed(w, h, n) && Possible(m, request)
    ensures Doomed(w, MainEffect(m, h, request), n)
  {}

  lemma {:induction false} DoomedForever(s: Server, actions: seq<Action>, n: nat)
    requires Doomed(s.worker, s.shared, n) && Run(s, actions).Some?
    ensures Doomed(Run(s, actions).value.worker, Run(s, actions).value.shared, n)
    decreases |actions|
  {
    if actions != [] {
      match actions[0] {
        case Work(device) => WorkerKeepsDoomed(s.worker, s.shared, device, n);
        case Serve(request) => MainKeepsDoomed(s.worker, s.main, s.shared, request, n);
      }
      DoomedForever(Next(s, actions[0]).value, actions[1..], n);
    }
  }

  /** The run does not reach an attempt of the command, nor an answer that it was accepted. */
  predicate NeverDone(end: Server, command: Command) {
    && command.serial !in end.worker.attempts
    && forall i | 0 <= i < |end.shared.posted| && end.shared.posted[i].Control? &&
                  end.shared.posted[i].command == command :: !end.shared.posted[i].ok
  }

  lemma DoomedIsNeverDone(s: Server, actions: seq<Action>, command: Command)
    requires Honest(s) && AttemptsAscend(s.worker) && Ordered(s) && Doomed(s.worker, s.shared, command.serial)
    requires Run(s, actions).Some?
    ensures NeverDone(Run(s, actions).value, command)
  {
    HonestForever(s, actions);
    AscendForever(s, actions);
    DoomedForever(s, actions, command.serial);
    var end := Run(s, actions).value;
    NotMarked(end.worker, command.serial);
  }

  lemma NotMarked(w: Worker, n: nat)
    requires AttemptsAscend(w) && n !in w.attempts
    ensures Attempt(n, true) !in w.marks
  {
    forall k | 0 <= k < |w.marks| ensures w.marks[k] != Attempt(n, true) {}
  }

  lemma AlwaysHonest(actions: seq<Action>)
    requires Run(INITIAL, actions).Some?
    ensures var s := Run(INITIAL, actions).value;
            Honest(s) && AttemptsAscend(s.worker) && Ordered(s)
  {
    HonestForever(INITIAL, actions);
    AscendForever(INITIAL, actions);
    OrderedForever(INITIAL, actions);
  }

  /** A command that waits when the device fails is never attempted, whatever happens later, and
      whatever is answered says so. */
  lemma FailureGivesUpQueue(actions: seq<Action>, command: Command, more: seq<Action>)
    requires Run(INITIAL, actions).Some?
    requires var s := Run(INITIAL, actions).value;
             && (s.worker.place.Broken? || s.worker.place.BrokenPosting? || s.worker.place.Draining?)
             && command in s.shared.commands && Run(s, more).Some?
    ensures NeverDone(Run(Run(INITIAL, actions).value, more).value, command)
  {
    var s := Run(INITIAL, actions).value;
    AlwaysHonest(actions);
    WaitingIsNotAttempted(s, command);
    DoomedIsNeverDone(s, more, command);
  }

  lemma WaitingIsNotAttempted(s: Server, command: Command)
    requires Ordered(s) && command in s.shared.commands
    ensures command.serial < |s.shared.queued| && command.serial !in s.worker.attempts
  {
    var j :| 0 <= j < |s.shared.commands| && s.shared.commands[j] == command;
    assert Serials(s.shared.commands)[j] == command.serial;
  }

  /** Nor is a command that waits when the main thread takes the queue out for a refresh. */
  lemma RefreshGivesUpQueue(actions: seq<Action>, command: Command, more: seq<Action>)
    requires Run(INITIAL, actions).Some?
    requires var s := Run(INITIAL, actions).value;
             && s.main.phase.RefreshLock? && command in s.shared.commands
             && Run(s, [Serve(Proceed)] + more).Some?
    ensures NeverDone(Run(Run(INITIAL, actions).value, [Serve(Proceed)] + more).value, command)
  {
    var s := Run(INITIAL, actions).value;
    AlwaysHonest(actions);
    WaitingIsNotAttempted(s, command);
    WaitingIsNotInHand(s, command);
    var next := Next(s, Serve(Proceed)).value;
    assert ([Serve(Proceed)] + more)[1..] == more;
    HonestForever(s, [Serve(Proceed)]);
    OrderedStep(s, Serve(Proceed));
    assert Run(next, []) == Some(next);
    assert [Serve(Proceed)][1..] == [];
    DoomedIsNeverDone(next, more, command);
  }

  lemma WaitingIsNotInHand(s: Server, command: Command)
    requires Ordered(s) && command in s.shared.commands
    ensures s.worker.place.Calling? ==> s.worker.place.command.serial != command.serial
  {
    var j :| 0 <= j < |s.shared.commands| && s.shared.commands[j] == command;
    assert Serials(s.shared.commands)[j] == command.serial;
  }

  // ----- Readiness and failures

  /** The device is called ready only in a session, up to the moment its end is noticed. */
  predicate ReadyInSession(w: Worker, h: Shared) {
    h.deviceReady ==> InSession(w.place) || w.place.Broken? || w.place.Closing?
  }

  /** The main thread was told of the failure before the queue is emptied, and was told of no
      failure while a session is on. */
  ghost predicate FailureTold(w: Worker, h: Shared) {
    (AfterFailure(w.place) ==> Halted(h.posted)) && (AfterStart(w.place) ==> !Halted(h.posted))
  }

  lemma WorkerKeepsReadiness(w: Worker, h: Shared, device: Device)
    requires ReadyInSession(w, h) && WorkerNext(w, h, device).Some?
    ensures ReadyInSession(WorkerNext(w, h, device).value, WorkerEffect(w, h))
  {}

  lemma WorkerKeepsFailureTold(w: Worker, h: Shared, device: Device)
    requires FailureTold(w, h) && WorkerNext(w, h, device).Some?
    ensures FailureTold(WorkerNext(w, h, device).value, WorkerEffect(w, h))
  {
    WorkerPosts(w, h);
    TellingStep(w, h, device);
    if Posting(w).Some? { HaltedMore(h.posted, Posting(w).value); }
  }

  /** The places before a start is posted and after a failure is. */
  predicate AfterFailure(place: Place) {
    place.Draining? || place.DrainAnswering? || place.DrainDone? || place.Pausing?
  }

  predicate AfterStart(place: Place) {
    place.Connecting? || InSession(place) || place.Broken? || place.BrokenPosting?
  }

  lemma TellingStep(w: Worker, h: Shared, device: Device)
    requires WorkerNext(w, h, device).Some?
    ensures var next := WorkerNext(w, h, device).value.place;
            && (AfterFailure(next) ==> AfterFailure(w.place) || Posting(w) == Some(StateError))
            && (AfterStart(next) ==> AfterStart(w.place) || Posting(w) == Some(Start))
            && (Posting(w) == Some(StateError) ==> AfterFailure(next))
            && (Posting(w) == Some(Start) ==> AfterStart(next))
  {}

  lemma MainKeepsTold(w: Worker, m: MainThread, h: Shared, request: Request)
    requires FailureTold(w, h) && ReadyInSession(w, h) && Possible(m, request)
    ensures FailureTold(w, MainEffect(m, h, request)) && ReadyInSession(w, MainEffect(m, h, request))
  {
    MainPosts(m, h, request);
    if MainPosting(m, request).Some? { HaltedMore(h.posted, MainPosting(m, request).value); }
  }

  lemma {:induction false} ToldForever(s: Server, actions: seq<Action>)
    requires ReadyInSession(s.worker, s.shared) && FailureTold(s.worker, s.shared) && Run(s, actions).Some?
    ensures var end := Run(s, actions).value;
            ReadyInSession(end.worker, end.shared) && FailureTold(end.worker, end.shared)
    decreases |actions|
  {
    if actions != [] {
      match actions[0] {
        case Work(device) =>
          WorkerKeepsReadiness(s.worker, s.shared, device);
          WorkerKeepsFailureTold(s.worker, s.shared, device);
        case Serve(request) => MainKeepsTold(s.worker, s.main, s.shared, request);
      }
      ToldForever(Next(s, actions[0]).value, actions[1..]);
    }
  }

  /** In every reachable state the device is called ready only in a session, and a failure is
      known to the main thread from the moment the queue is being emptied until the next
      session starts. */
  lemma FailuresAreTold(actions: seq<Action>)
    requires Run(INITIAL, actions).Some?
    ensures var s := Run(INITIAL, actions).value;
            ReadyInSession(s.worker, s.shared) && FailureTold(s.worker, s.shared)
  {
    ToldForever(INITIAL, actions);
  }

  /** Observing may end normally exactly when the program stops, a new session is asked for, or a
      command waits and no status is required first; and any status makes the device ready. */
  lemma ObservingEndsExactly(w: Worker, h: Shared)
    ensures w.place.Observing? ==>
              (WorkerNext(w, h, Stops).Some? <==>
                 h.stopping || h.reconnectRequested || (h.commands != [] && !w.statusRequired))
    ensures w.place.StatusArrived? ==> WorkerEffect(w, h) == h.(deviceReady := true)
  {}

  // ----- Statuses

  /** The statuses posted, in order. */
  function StatusData(events: seq<Event>): seq<Settings> {
    if events == [] then []
    else
      var last := events[|events| - 1];
      StatusData(events[..|events| - 1]) + if last.Status? then [last.data] else []
  }

  lemma StatusDataMore(events: seq<Event>, event: Event)
    ensures StatusData(events + [event]) == StatusData(events) + if event.Status? then [event.data] else []
  {
    assert (events + [event])[..|events|] == events;
  }

  /** What the device reports over a run, in order. */
  function ReportedData(s: Server, actions: seq<Action>): seq<Settings>
    decreases |actions|
  {
    if actions == [] || Next(s, actions[0]).None? then []
    else
      ReportedNow(s, actions[0]) + ReportedData(Next(s, actions[0]).value, actions[1..])
  }

  function ReportedNow(s: Server, action: Action): seq<Settings> {
    if s.worker.place.Observing? && action.Work? && action.device.Reports? then [action.device.data] else []
  }

  /** The status the worker is about to post. */
  function Carrying(place: Place): seq<Settings> {
    match place
    case StatusArrived(data) => [data]
    case StatusStored(data) => [data]
    case _ => []
  }

  lemma WorkerCarries(w: Worker, h: Shared, device: Device)
    requires WorkerNext(w, h, device).Some?
    ensures StatusData(WorkerEffect(w, h).posted) + Carrying(WorkerNext(w, h, device).value.place) ==
            StatusData(h.posted) + Carrying(w.place) +
            if w.place.Observing? && device.Reports? then [device.data] else []
  {
    WorkerPosts(w, h);
    CarryingStep(w, h, device);
    if Posting(w).Some? { StatusDataMore(h.posted, Posting(w).value); }
  }

  lemma CarryingStep(w: Worker, h: Shared, device: Device)
    requires WorkerNext(w, h, device).Some?
    ensures var next := WorkerNext(w, h, device).value.place;
            if Posting(w).Some? && Posting(w).value.Status?
            then Carrying(w.place) == [Posting(w).value.data] && Carrying(next) == []
            else Carrying(next) == Carrying(w.place) +
                                   if w.place.Observing? && device.Reports? then [device.data] else []
    ensures Posting(w).Some? ==> !w.place.Observing?
  {}

  lemma MainCarries(m: MainThread, h: Shared, request: Request)
    ensures StatusData(MainEffect(m, h, request).posted) == StatusData(h.posted)
  {
    MainPosts(m, h, request);
    if MainPosting(m, request).Some? { StatusDataMore(h.posted, MainPosting(m, request).value); }
  }

  /** What the main thread was told and what the worker is about to tell it. */
  function Told(s: Server): seq<Settings> {
    StatusData(s.shared.posted) + Carrying(s.worker.place)
  }

  lemma NextCarries(s: Server, action: Action)
    requires Next(s, action).Some?
    ensures Told(Next(s, action).value) == Told(s) + ReportedNow(s, action)
  {
    match action
    case Work(device) => WorkerCarries(s.worker, s.shared, device);
    case Serve(request) => MainCarries(s.main, s.shared, request);
  }

  lemma {:induction false} CarriedForever(s: Server, actions: seq<Action>)
    requires Run(s, actions).Some?
    ensures Told(Run(s, actions).value) == Told(s) + ReportedData(s, actions)
    decreases |actions|
  {
    if actions != [] {
      var next := Next(s, actions[0]).value;
      NextCarries(s, actions[0]);
      CarriedForever(next, actions[1..]);
      AppendedTwice(Told(s), ReportedNow(s, actions[0]), ReportedData(next, actions[1..]));
    }
  }

  /** The main thread is told exactly what the device reported, each status once, in order and
      as it was, but for one still in the hands of the worker. */
  lemma StatusesAreReported(actions: seq<Action>)
    requires Run(INITIAL, actions).Some?
    ensures var s := Run(INITIAL, actions).value;
            ReportedData(INITIAL, actions) == StatusData(s.shared.posted) + Carrying(s.worker.place)
  {
    CarriedForever(INITIAL, actions);
  }

  // ----- Answers in a session that is renewed

  /** Over the actions the main thread asks for a new session. */
  predicate Renewed(s: Server, actions: seq<Action>)
    decreases |actions|
  {
    actions != [] && Next(s, actions[0]).Some? &&
    ((actions[0] == Serve(Proceed) && (s.main.phase.RefreshLock? || s.main.phase.ShutdownLock?)) ||
     Renewed(Next(s, actions[0]).value, actions[1..]))
  }

  lemma SessionsGoOn(s: Server, action: Action)
    requires Next(s, action).Some?
    ensures var next := Next(s, action).value;
            next.worker.session == s.worker.session + if action.Work? && s.worker.place.Opening? then 1 else 0
    ensures var next := Next(s, action).value;
            !(action.Work? && s.worker.place.Opening?) ==>
              (next.shared.reconnectRequested <==>
                 s.shared.reconnectRequested ||
                 (action == Serve(Proceed) && (s.main.phase.RefreshLock? || s.main.phase.ShutdownLock?)))
  {}

  lemma {:induction false} SessionsNeverGoBack(s: Server, actions: seq<Action>)
    requires Run(s, actions).Some?
    ensures s.worker.session <= Run(s, actions).value.worker.session
    decreases |actions|
  {
    if actions != [] {
      SessionsGoOn(s, actions[0]);
      SessionsNeverGoBack(Next(s, actions[0]).value, actions[1..]);
    }
  }

  lemma {:induction false} RenewedInSession(s: Server, actions: seq<Action>)
    requires Run(s, actions).Some? && Run(s, actions).value.worker.session == s.worker.session
    ensures Run(s, actions).value.shared.reconnectRequested <==> s.shared.reconnectRequested || Renewed(s, actions)
    decreases |actions|
  {
    if actions != [] {
      SessionsGoOn(s, actions[0]);
      SessionsNeverGoBack(Next(s, actions[0]).value, actions[1..]);
      RenewedInSession(Next(s, actions[0]).value, actions[1..]);
    }
  }

  /** The worker calls a command accepted exactly if the device accepted it and the main thread
      did not ask for a new session since this one begun. */
  lemma AnswerExactly(s: Server, opening: Device, actions: seq<Action>, device: Device)
    requires s.worker.place.Opening? && Run(Next(s, Work(opening)).value, actions).Some?
    requires var t := Run(Next(s, Work(opening)).value, actions).value;
             t.worker.place.Called? && t.worker.session == s.worker.session + 1
    ensures var begun := Next(s, Work(opening)).value;
            var t := Run(begun, actions).value;
            && Next(t, Work(device)).Some?
            && Next(t, Work(device)).value.worker.place ==
               Answering(t.worker.place.command, t.worker.place.accepted && !Renewed(begun, actions))
  {
    var begun := Next(s, Work(opening)).value;
    RenewedInSession(begun, actions);
  }

  // ----- A refresh

  function FailedAnswers(commands: seq<Command>): (answers: seq<Event>)
    ensures |answers| == |commands|
    ensures forall i | 0 <= i < |commands| :: answers[i] == Control(commands[i], false, 0)
    decreases |commands|
  {
    if commands == [] then [] else [Control(commands[0], false, 0)] + FailedAnswers(commands[1..])
  }

  /** The shared state after the commands were answered as failed. */
  function Answered(h: Shared, commands: seq<Command>): Shared {
    h.(events := h.events + FailedAnswers(commands), posted := h.posted + FailedAnswers(commands),
       answered := h.answered + commands)
  }

  lemma AppendedTwice<T>(a: seq<T>, b: seq<T>, c: seq<T>)
    ensures a + b + c == a + (b + c)
  {}

  lemma {:induction false} AnsweredMore(h: Shared, commands: seq<Command>)
    requires commands != []
    ensures Answered(Post(h, Control(commands[0], false, 0)), commands[1..]) == Answered(h, commands)
  {
    var first, rest := [Control(commands[0], false, 0)], FailedAnswers(commands[1..]);
    assert FailedAnswers(commands) == first + rest;
    assert [commands[0]] + commands[1..] == commands;
    AppendedTwice(h.events, first, rest);
    AppendedTwice(h.posted, first, rest);
    AppendedTwice(h.answered, [commands[0]], commands[1..]);
  }

  lemma AnswersNext(s: Server)
    requires s.main.phase.RefreshAnswering?
    ensures var swapped := s.main.phase.swapped;
            Next(s, Serve(Proceed)) ==
            Some(if swapped == [] then s.(main := s.main.(phase := Idle))
                 else Server(Post(s.shared, Control(swapped[0], false, 0)), s.worker,
                             s.main.(phase := RefreshAnswering(swapped[1..]))))
  {}

  lemma FirstOf(s: Server, action: Action, rest: seq<Action>)
    requires Next(s, action).Some?
    ensures Run(s, [action] + rest) == Run(Next(s, action).value, rest)
  {
    assert ([action] + rest)[0] == action && ([action] + rest)[1..] == rest;
  }

  lemma {:induction false} AnswersSwapped(s: Server) returns (actions: seq<Action>)
    requires s.main.phase.RefreshAnswering?
    ensures forall i | 0 <= i < |actions| :: actions[i] == Serve(Proceed)
    ensures Run(s, actions) ==
            Some(Server(Answered(s.shared, s.main.phase.swapped), s.worker, s.main.(phase := Idle)))
    decreases |s.main.phase.swapped|
  {
    var swapped, next := s.main.phase.swapped, Next(s, Serve(Proceed)).value;
    AnswersNext(s);
    if swapped == [] {
      actions := [Serve(Proceed)];
      FirstOf(s, Serve(Proceed), []);
      assert [Serve(Proceed)] + [] == [Serve(Proceed)];
      assert Answered(s.shared, []) == s.shared;
    } else {
      var rest := AnswersSwapped(next);
      actions := [Serve(Proceed)] + rest;
      FirstOf(s, Serve(Proceed), rest);
      AnsweredMore(s.shared, swapped);
    }
  }

  /** A refresh, if none is scheduled: the device is not ready, a new session is asked for, the
      queue is empty, and each command of it is answered as failed, in order.  If one is
      scheduled, nothing happens. */
  lemma RefreshExactly(s: Server) returns (actions: seq<Action>)
    requires Possible(s.main, RefreshRequest)
    ensures forall i | 0 <= i < |actions| :: actions[i] == Serve(Proceed)
    ensures Run(s, [Serve(RefreshRequest)] + actions) ==
            Some(if s.main.refreshScheduled then s
                 else Server(Answered(s.shared.(deviceReady := false, reconnectRequested := true, commands := []),
                                      s.shared.commands),
                             s.worker, s.main.(refreshScheduled := true)))
  {
    var begun := Next(s, Serve(RefreshRequest)).value;
    if s.main.refreshScheduled {
      actions := [];
    } else {
      var stored := Next(begun, Serve(Proceed)).value;
      var locked := Next(stored, Serve(Proceed)).value;
      var rest := AnswersSwapped(locked);
      actions := [Serve(Proceed)] + ([Serve(Proceed)] + rest);
      FirstOf(begun, Serve(Proceed), [Serve(Proceed)] + rest);
      FirstOf(stored, Serve(Proceed), rest);
    }
    FirstOf(s, Serve(RefreshRequest), actions);
  }

  /** A refresh stays scheduled until the next session is known to have started. */
  lemma RefreshScheduledExactly(m: MainThread, h: Shared, request: Request)
    requires Possible(m, request)
    ensures MainNext(m, h, request).refreshScheduled <==>
            request.RefreshRequest? || (m.refreshScheduled && !(request.ProcessEvent? && m.batch[0].Start?))
  {}
}
