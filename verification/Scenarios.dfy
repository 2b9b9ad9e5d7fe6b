/** Runs that show where the guarantees stop: at the end of a session, and at a status without
    contents. */
module Scenarios {
  import opened Options
  import opened Protocol
  import opened Serialization

  /** A set of states that no step leaves. */
  ghost predicate Closed(reach: iset<Server>) {
    forall s, action | s in reach && Next(s, action).Some? :: Next(s, action).value in reach
  }

  lemma Do(reach: iset<Server>, s: Server, action: Action) returns (t: Server)
    requires Closed(reach) && s in reach && Next(s, action).Some?
    ensures t == Next(s, action).value && t in reach
  {
    t := Next(s, action).value;
  }

  /** A worker step that only moves on. */
  lemma Advance(reach: iset<Server>, s: Server, device: Device, place: Place) returns (t: Server)
    requires Closed(reach) && s in reach
    requires WorkerNext(s.worker, s.shared, device) == Some(s.worker.(place := place))
    requires WorkerEffect(s.worker, s.shared) == s.shared
    ensures t == s.(worker := s.worker.(place := place)) && t in reach
  {
    t := Do(reach, s, Work(device));
  }

  /** A session opens and observes. */
  lemma OpenSession(reach: iset<Server>, s: Server) returns (t: Server)
    requires Closed(reach) && s in reach && s.worker.place.OuterTop? && !s.shared.stopping
    ensures t in reach && t.main == s.main
    ensures t.shared == Post(s.shared.(reconnectRequested := false), Start)
    ensures t.worker == s.worker.(place := Observing, statusRequired := false, session := s.worker.session + 1,
                                  marks := s.worker.marks + [SessionOpened])
  {
    t := Do(reach, s, Work(Proceeds));
    t := FinishOpening(reach, t);
  }

  lemma FinishOpening(reach: iset<Server>, s: Server) returns (t: Server)
    requires Closed(reach) && s in reach && s.worker.place.Opening? && !s.shared.stopping
    ensures t in reach && t.main == s.main
    ensures t.shared == Post(s.shared.(reconnectRequested := false), Start)
    ensures t.worker == s.worker.(place := Observing, statusRequired := false, session := s.worker.session + 1,
                                  marks := s.worker.marks + [SessionOpened])
  {
    t := Do(reach, s, Work(Proceeds));
    t := Do(reach, t, Work(Proceeds));
    t := Do(reach, t, Work(Proceeds));
    t := Observe(reach, t);
  }

  /** The worker starts to observe, whether commands wait or not. */
  lemma Observe(reach: iset<Server>, s: Server) returns (t: Server)
    requires Closed(reach) && s in reach && s.worker.place.InnerTop? && !s.shared.stopping &&
             !s.shared.reconnectRequested
    ensures t in reach && t.main == s.main && t.shared == s.shared && t.worker == s.worker.(place := Observing)
  {
    t := Do(reach, s, Work(Proceeds));
    t := Do(reach, t, Work(Proceeds));
    if t.worker.place.CheckReconnect? { t := Do(reach, t, Work(Proceeds)); }
  }

  /** A status comes in while the worker observes. */
  lemma Report(reach: iset<Server>, s: Server, data: Settings) returns (t: Server)
    requires Closed(reach) && s in reach && s.worker.place.Observing?
    ensures t in reach && t.main == s.main
    ensures t.shared == Post(s.shared.(deviceReady := true), Status(data, s.worker.session))
    ensures t.worker == s.worker.(statusRequired := false, marks := s.worker.marks + [StatusReceived(data != map[])])
  {
    t := Do(reach, s, Work(Reports(data)));
    t := Do(reach, t, Work(Proceeds));
    t := Do(reach, t, Work(Proceeds));
  }

  /** The worker stops observing for the first command and calls the device. */
  lemma Attempts(reach: iset<Server>, s: Server) returns (t: Server)
    requires Closed(reach) && s in reach && s.worker.place.Observing? && !s.worker.statusRequired
    requires s.shared.commands != [] && !s.shared.stopping && !s.shared.reconnectRequested
    ensures t in reach && t.main == s.main && t.shared == Pop(s.shared)
    ensures var command := s.shared.commands[0];
            t.worker == s.worker.(place := Called(command, true), statusRequired := true,
                                  marks := s.worker.marks + [Attempt(command.serial, true)],
                                  attempts := s.worker.attempts + [command.serial])
  {
    t := Advance(reach, s, Stops, Observed);
    t := Advance(reach, t, Proceeds, StopCheck);
    t := Advance(reach, t, Proceeds, Taking);
    t := Do(reach, t, Work(Proceeds));
    t := Do(reach, t, Work(Accepts));
  }

  /** The worker answers the accepted command and observes again. */
  lemma Answers(reach: iset<Server>, s: Server) returns (t: Server)
    requires Closed(reach) && s in reach && s.worker.place.Called? && s.worker.place.accepted
    requires !s.shared.stopping && !s.shared.reconnectRequested
    ensures t in reach && t.main == s.main
    ensures t.shared == Post(s.shared, Control(s.worker.place.command, true, s.worker.session))
    ensures t.worker == s.worker.(place := Observing)
  {
    t := Do(reach, s, Work(Proceeds));
    t := Do(reach, t, Work(Proceeds));
    t := Observe(reach, t);
  }

  /** The main thread queues a command of a client or of the automation. */
  lemma Queues(reach: iset<Server>, s: Server, request: Request) returns (t: Server)
    requires Closed(reach) && s in reach && Possible(s.main, request) &&
             (request.ControlRequest? || request.AutomationAction?)
    requires MainNext(s.main, s.shared, request).phase.Pushing?
    requires request.AutomationAction? ==> !AutomationBusy(s.main, s.shared)
    ensures t in reach && t.worker == s.worker
    ensures request.ControlRequest? ==>
              && t.main == s.main
              && t.shared == Push(s.shared, request.client, request.id, request.values, false)
    ensures request.AutomationAction? ==>
              && t.main == s.main.(nextAutomationId := s.main.nextAutomationId + 1)
              && t.shared == Push(s.shared, 0, s.main.nextAutomationId, request.values, true)
  {
    t := Do(reach, s, Serve(request));
    assert t.shared == s.shared && t.worker == s.worker && t.main == s.main.(phase := t.main.phase);
    t := Do(reach, t, Serve(Proceed));
  }

  /** The device fails while the worker observes and no command waits: the worker gives up
      the session, but has not yet looked at the queue again. */
  lemma Breaks(reach: iset<Server>, s: Server) returns (t: Server)
    requires Closed(reach) && s in reach && s.worker.place.Observing? && s.shared.commands == []
    ensures t in reach && t.main == s.main
    ensures t.shared == Post(s.shared.(deviceReady := false), StateError)
    ensures t.worker == s.worker.(place := DrainDone)
  {
    t := Advance(reach, s, Fails, Broken);
    t := Do(reach, t, Work(Proceeds));
    t := Do(reach, t, Work(Proceeds));
    t := Advance(reach, t, Proceeds, DrainDone);
  }

  /** From there it comes back to the top of its outer loop. */
  lemma ComesBack(reach: iset<Server>, s: Server) returns (t: Server)
    requires Closed(reach) && s in reach && (s.worker.place.DrainDone? || s.worker.place.Closing?) && !s.shared.stopping
    ensures t in reach && t.main == s.main && t.shared == s.shared.(deviceReady := false)
    ensures t.worker == s.worker.(place := OuterTop)
  {
    t := s;
    if t.worker.place.DrainDone? {
      t := Advance(reach, t, Proceeds, Pausing);
      t := Advance(reach, t, Proceeds, Closing);
    }
    t := Do(reach, t, Work(Proceeds));
  }

  const ON: Settings := map["pwr" := "1"]
  const OFF: Settings := map["pwr" := "0"]

  /** Two control attempts with a new session but no status between them: the second command
      passes the test for readiness before the session breaks and is queued after the
      worker emptied the queue. */
  lemma AttemptedWithoutStatus(reach: iset<Server>)
    requires Closed(reach) && INITIAL in reach
    ensures exists s: Server ::
              s in reach &&
              s.worker.marks == [SessionOpened, StatusReceived(true), Attempt(0, true), SessionOpened, Attempt(1, true)]
  {
    assert "pwr" in ON && "pwr" in OFF;
    var s := OpenSession(reach, INITIAL);
    s := Report(reach, s, OFF);
    s := Queues(reach, s, ControlRequest(1, 1, ON));
    s := Attempts(reach, s);
    s := Answers(reach, s);
    s := Do(reach, s, Serve(ControlRequest(1, 2, OFF)));
    s := Breaks(reach, s);
    s := Do(reach, s, Serve(Proceed));
    s := ComesBack(reach, s);
    s := OpenSession(reach, s);
    s := Attempts(reach, s);
    assert s.worker.marks == [SessionOpened, StatusReceived(true), Attempt(0, true), SessionOpened, Attempt(1, true)];
  }

  /** The main thread applies the only event in the queue and no script reacts. */
  lemma Applies(reach: iset<Server>, s: Server) returns (t: Server)
    requires Closed(reach) && s in reach && s.main.phase.Idle? && s.main.batch == [] && s.shared.events != []
    ensures t in reach && t.worker == s.worker && t.shared == s.shared.(events := [])
    ensures var m, event := s.main, s.shared.events[0];
            t.main == Applied(m.(batch := s.shared.events[1..], handled := m.handled + [event],
                                 luaMayAct := event.Status? && event.data != map[]), event)
  {
    t := Do(reach, s, Serve(SwapEvents));
    t := Do(reach, t, Serve(ProcessEvent));
  }

  lemma AppliesNext(reach: iset<Server>, s: Server) returns (t: Server)
    requires Closed(reach) && s in reach && s.main.phase.Idle? && s.main.batch != []
    ensures t in reach && t.worker == s.worker && t.shared == s.shared
    ensures var m, event := s.main, s.main.batch[0];
            t.main == Applied(m.(batch := m.batch[1..], handled := m.handled + [event],
                                 luaMayAct := event.Status? && event.data != map[]), event)
  {
    t := Do(reach, s, Serve(ProcessEvent));
  }

  /** The worker sees the request to reconnect between two commands. */
  lemma Reconnects(reach: iset<Server>, s: Server) returns (t: Server)
    requires Closed(reach) && s in reach && s.worker.place.InnerTop? && !s.shared.stopping &&
             s.shared.reconnectRequested
    ensures t in reach && t.main == s.main && t.shared == s.shared.(deviceReady := false)
    ensures t.worker == s.worker.(place := OuterTop)
  {
    t := Advance(reach, s, Proceeds, Polling);
    t := Advance(reach, t, Proceeds, CheckReconnect);
    t := Advance(reach, t, Proceeds, Closing);
    t := ComesBack(reach, t);
  }

  const FIRST := Command(0, 0, 1, ON, true)
  const SECOND := Command(1, 0, 2, ON, true)

  /** The common beginning: the device reports that it is off, and the automation has queued
      the command to turn it on. */
  lemma Begins(reach: iset<Server>) returns (s: Server)
    requires Closed(reach) && INITIAL in reach
    ensures s in reach
    ensures s.shared == Shared([FIRST], [], true, false, false, [FIRST], [Start, Status(OFF, 1)], [])
    ensures s.worker == Worker(Observing, false, 1, [SessionOpened, StatusReceived(true)], [])
    ensures s.main == MainThread(Idle, [], true, false, OFF, None, 2, [Start, Status(OFF, 1)], [], [], [], [])
  {
    assert "pwr" in ON && "pwr" in OFF;
    s := OpenSession(reach, INITIAL);
    s := Report(reach, s, OFF);
    s := Applies(reach, s);
    s := AppliesNext(reach, s);
    s := Queues(reach, s, AutomationAction(ON));
  }

  /** The refresh falls between the readiness stored by a status and its own lock: the first
      command is accepted in the old session, and the second is queued while the acceptance
      of the first is on its way. */
  lemma RefreshRaces(reach: iset<Server>) returns (s: Server)
    requires Closed(reach) && INITIAL in reach
    ensures s in reach
    ensures var h := s.shared;
            h.commands == [SECOND] && h.events == [] && h.reconnectRequested && !h.stopping
    ensures s.worker.place == Answering(FIRST, true) && s.worker.session == 1
    ensures s.main.phase == Idle && s.main.batch == [] && s.main.pending == None && s.main.lost == []
    ensures ContentsOnly(s.worker.marks)
  {
    s := Begins(reach);
    s := Do(reach, s, Serve(RefreshRequest));
    s := Do(reach, s, Serve(Proceed));
    assert "pwr" in OFF;
    s := Report(reach, s, OFF);
    s := Attempts(reach, s);
    s := Advance(reach, s, Proceeds, Answering(FIRST, true));
    s := Do(reach, s, Serve(Proceed));
    s := Do(reach, s, Serve(Proceed));
    s := Applies(reach, s);
    s := Queues(reach, s, AutomationAction(ON));
  }

  /** The second command is attempted in the new session without a status, and its acceptance
      overwrites the confirmation of the first one. */
  lemma ConfirmationOverwritten(reach: iset<Server>)
    requires Closed(reach) && INITIAL in reach
    ensures exists s: Server ::
              s in reach && s.main.lost == [(Pending(FIRST, 1), Pending(SECOND, 2))] && ContentsOnly(s.worker.marks)
  {
    var s := RefreshRaces(reach);
    s := Do(reach, s, Work(Proceeds));
    s := Reconnects(reach, s);
    s := OpenSession(reach, s);
    s := Attempts(reach, s);
    s := Answers(reach, s);
    s := Applies(reach, s);
    s := AppliesNext(reach, s);
    s := AppliesNext(reach, s);
    assert s.main.lost == [(Pending(FIRST, 1), Pending(SECOND, 2))];
  }

  /** A refresh after the acceptance, when the confirmation waits for a status. */
  lemma RefreshedWhileWaiting(reach: iset<Server>) returns (s: Server)
    requires Closed(reach) && INITIAL in reach
    ensures s in reach
    ensures var h := s.shared;
            h.events == [] && h.commands == [] && h.reconnectRequested && !h.stopping
    ensures s.worker == Worker(Observing, true, 1, [SessionOpened, StatusReceived(true), Attempt(0, true)], [0])
    ensures s.main.phase == Idle && s.main.batch == [] && s.main.outcomes == []
    ensures s.main.pending == Some(Pending(FIRST, 1))
  {
    s := Begins(reach);
    s := Attempts(reach, s);
    s := Answers(reach, s);
    s := Applies(reach, s);
    s := Do(reach, s, Serve(RefreshRequest));
    s := Do(reach, s, Serve(Proceed));
    s := Do(reach, s, Serve(Proceed));
    s := Do(reach, s, Serve(Proceed));
  }

  /** The first status after the attempt comes from the new session, and it confirms the
      command of the old one. */
  lemma OldCommandConfirmed(reach: iset<Server>)
    requires Closed(reach) && INITIAL in reach
    ensures exists s: Server ::
              s in reach && s.main.outcomes == [Outcome(FIRST, true)] &&
              s.worker.marks ==
              [SessionOpened, StatusReceived(true), Attempt(0, true), SessionOpened, StatusReceived(true)]
  {
    var s := RefreshedWhileWaiting(reach);
    s := Advance(reach, s, Stops, Observed);
    s := Advance(reach, s, Proceeds, Closing);
    s := ComesBack(reach, s);
    s := OpenSession(reach, s);
    assert "pwr" in ON;
    s := Report(reach, s, ON);
    s := Applies(reach, s);
    s := AppliesNext(reach, s);
    assert s.main.outcomes == [Outcome(FIRST, true)];
  }

  /** Within one session: an empty status lets the worker go on, but the main thread ignores it.
      The second command is queued while the acceptance of the first is on its way. */
  lemma OverwrittenWithinSession(reach: iset<Server>)
    requires Closed(reach) && INITIAL in reach
    ensures exists s: Server ::
              s in reach && s.main.lost == [(Pending(FIRST, 1), Pending(SECOND, 1))] &&
              s.worker.marks ==
              [SessionOpened, StatusReceived(true), Attempt(0, true), StatusReceived(false), Attempt(1, true)]
  {
    assert "pwr" in ON && "pwr" in OFF;
    var s := Begins(reach);
    s := Attempts(reach, s);
    s := Answers(reach, s);
    s := Report(reach, s, map[]);
    s := Queues(reach, s, AutomationAction(ON));
    s := Attempts(reach, s);
    s := Answers(reach, s);
    s := Applies(reach, s);
    s := AppliesNext(reach, s);
    s := AppliesNext(reach, s);
    assert s.main.lost == [(Pending(FIRST, 1), Pending(SECOND, 1))];
  }

  // ----- As runs of the program

  ghost predicate ByRun(origin: Server, s: Server) {
    exists actions: seq<Action> :: Run(origin, actions) == Some(s)
  }

  lemma {:induction false} RunThenStep(s: Server, actions: seq<Action>, action: Action)
    requires Run(s, actions).Some?
    ensures Run(s, actions + [action]) == Next(Run(s, actions).value, action)
    decreases |actions|
  {
    var longer := actions + [action];
    if actions == [] {
      assert longer[0] == action && longer[1..] == [];
    } else {
      assert longer[0] == actions[0] && longer[1..] == actions[1..] + [action];
      RunThenStep(Next(s, actions[0]).value, actions[1..], action);
    }
  }

  lemma ByRunStep(origin: Server, s: Server, action: Action)
    requires ByRun(origin, s) && Next(s, action).Some?
    ensures ByRun(origin, Next(s, action).value)
  {
    var actions: seq<Action> :| Run(origin, actions) == Some(s);
    RunThenStep(origin, actions, action);
    assert Run(origin, actions + [action]) == Next(s, action);
  }

  lemma ReachedByRuns(origin: Server) returns (reach: iset<Server>)
    ensures Closed(reach) && origin in reach && forall s | s in reach :: ByRun(origin, s)
  {
    reach := iset s: Server | ByRun(origin, s);
    assert Run(origin, []) == Some(origin);
    forall s, action | s in reach && Next(s, action).Some?
      ensures Next(s, action).value in reach
    {
      ByRunStep(origin, s, action);
    }
  }

  /** Two attempts with a new session but no status between them. */
  lemma NoStatusAcrossSessions()
    ensures exists actions, s: Server ::
              Run(INITIAL, actions) == Some(s) &&
              s.worker.marks ==
              [SessionOpened, StatusReceived(true), Attempt(0, true), SessionOpened, Attempt(1, true)]
  {
    var reach := ReachedByRuns(INITIAL);
    AttemptedWithoutStatus(reach);
  }

  /** A confirmation overwritten by that of a command of the next session, although every
      status has contents. */
  lemma ConfirmationLostAcrossSessions()
    ensures exists actions, s: Server ::
              Run(INITIAL, actions) == Some(s) && ContentsOnly(s.worker.marks) &&
              s.main.lost == [(Pending(FIRST, 1), Pending(SECOND, 2))]
  {
    var reach := ReachedByRuns(INITIAL);
    ConfirmationOverwritten(reach);
  }

  /** A command of the old session confirmed by a status of the new one. */
  lemma ConfirmedByNewSession()
    ensures exists actions, s: Server ::
              Run(INITIAL, actions) == Some(s) && s.main.outcomes == [Outcome(FIRST, true)] &&
              s.worker.marks ==
              [SessionOpened, StatusReceived(true), Attempt(0, true), SessionOpened, StatusReceived(true)]
  {
    var reach := ReachedByRuns(INITIAL);
    OldCommandConfirmed(reach);
  }

  /** A confirmation overwritten within one session after a status without contents. */
  lemma ConfirmationLostToEmptyStatus()
    ensures exists actions, s: Server ::
              Run(INITIAL, actions) == Some(s) &&
              s.main.lost == [(Pending(FIRST, 1), Pending(SECOND, 1))] &&
              s.worker.marks ==
              [SessionOpened, StatusReceived(true), Attempt(0, true), StatusReceived(false), Attempt(1, true)]
  {
    var reach := ReachedByRuns(INITIAL);
    OverwrittenWithinSession(reach);
  }
}
