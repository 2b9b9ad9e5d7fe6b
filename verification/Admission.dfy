/** Which commands get into the queue: none before the device has reported, and of the
    automation one at a time. */
module Admission {
  import opened Options
  import opened Protocol
  import opened Conservation
  import opened EventQueue
  import opened Answers

  /** No two automated commands. */
  predicate OneAutomated(commands: seq<Command>) {
    forall i, j | 0 <= i < j < |commands| :: !(commands[i].automated && commands[j].automated)
  }

  /** Automated commands carry strictly ascending ids below the next one. */
  predicate AutomatedAscend(queued: seq<Command>, next: nat) {
    && (forall i | 0 <= i < |queued| && queued[i].automated :: queued[i].id < next)
    && (forall i, j | 0 <= i < j < |queued| && queued[i].automated && queued[j].automated ::
        queued[i].id < queued[j].id)
  }

  /** A command of the automation on its way to the queue carries the next id. */
  predicate NextIdUnderway(m: MainThread) {
    m.phase.Pushing? && m.phase.automated ==> m.phase.id == m.nextAutomationId
  }

  predicate Admitted(m: MainThread, h: Shared) {
    OneAutomated(h.commands) && AutomatedAscend(h.queued, m.nextAutomationId) && NextIdUnderway(m)
  }

  /** What a move does to the queue, beside where it puts the command. */
  lemma MoveKeepsAdmitted(move: Move, m: MainThread, h: Shared, place: Place, h': Shared, place': Place, m': MainThread)
    requires Admitted(m, h) && Moves(move, h, place, m.phase, h', place', m'.phase)
    requires move.Enqueue? && move.command.automated ==>
               !AutomationBusy(m, h) && move.command.id == m.nextAutomationId &&
                 m'.nextAutomationId == m.nextAutomationId + 1
    requires !(move.Enqueue? && move.command.automated) ==> m'.nextAutomationId == m.nextAutomationId
    ensures OneAutomated(h'.commands) && AutomatedAscend(h'.queued, m'.nextAutomationId)
  {}

  lemma MainIdsAdvance(m: MainThread, h: Shared, request: Request)
    requires Possible(m, request) && NextIdUnderway(m)
    ensures var next, move := MainNext(m, h, request), MainMove(m, h, request);
            && NextIdUnderway(next)
            && (if move.Enqueue? && move.command.automated
                then !AutomationBusy(m, h) && move.command.id == m.nextAutomationId &&
                  next.nextAutomationId == m.nextAutomationId + 1
                else next.nextAutomationId == m.nextAutomationId)
  {}

  /** The device has reported a status at least once. */
  predicate Reported(w: Worker) {
    exists i :: 0 <= i < |w.marks| && w.marks[i].StatusReceived?
  }

  predicate NothingEarly(w: Worker, m: MainThread, h: Shared) {
    h.deviceReady || w.place.StatusArrived? || m.phase.Pushing? || h.queued != [] ==> Reported(w)
  }

  lemma WorkerNotEarly(w: Worker, m: MainThread, h: Shared, device: Device)
    requires NothingEarly(w, m, h) && WorkerNext(w, h, device).Some?
    ensures NothingEarly(WorkerNext(w, h, device).value, m, WorkerEffect(w, h))
  {
    MarksGrow(w, h, device);
    WorkerShifts(w, h);
    ReadyComesLate(w, h, device);
  }

  lemma ReadyComesLate(w: Worker, h: Shared, device: Device)
    requires WorkerNext(w, h, device).Some?
    ensures WorkerNext(w, h, device).value.place.StatusArrived? ==> Reported(WorkerNext(w, h, device).value)
    ensures WorkerEffect(w, h).deviceReady ==> h.deviceReady || w.place.StatusArrived?
  {
    if w.place.Observing? && device.Reports? {
      assert WorkerNext(w, h, device).value.marks[|w.marks|].StatusReceived?;
    }
  }

  lemma MainNotEarly(w: Worker, m: MainThread, h: Shared, request: Request)
    requires NothingEarly(w, m, h) && Possible(m, request)
    ensures NothingEarly(w, MainNext(m, h, request), MainEffect(m, h, request))
  {
    if request == ProcessEvent { ProcessingMovesNothing(m, h); }
  }

  predicate Ordinary(s: Server) {
    Admitted(s.main, s.shared) && NothingEarly(s.worker, s.main, s.shared)
  }

  lemma NextKeepsOrdinary(s: Server, action: Action)
    requires Ordinary(s) && Next(s, action).Some?
    ensures Ordinary(Next(s, action).value)
  {
    var next := Next(s, action).value;
    match action {
      case Work(device) =>
        WorkerMoves(s.worker, s.shared, device, s.main.phase);
        MoveKeepsAdmitted(WorkerMove(s.worker, s.shared), s.main, s.shared, s.worker.place, next.shared,
                          next.worker.place, s.main);
        WorkerNotEarly(s.worker, s.main, s.shared, device);
      case Serve(request) =>
        MainMoves(s.worker.place, s.main, s.shared, request);
        MainIdsAdvance(s.main, s.shared, request);
        MoveKeepsAdmitted(MainMove(s.main, s.shared, request), s.main, s.shared, s.worker.place, next.shared,
                          s.worker.place, next.main);
        MainNotEarly(s.worker, s.main, s.shared, request);
    }
  }

  lemma {:induction false} OrdinaryForever(s: Server, actions: seq<Action>)
    requires Ordinary(s) && Run(s, actions).Some?
    ensures Ordinary(Run(s, actions).value)
    decreases |actions|
  {
    if actions != [] {
      NextKeepsOrdinary(s, actions[0]);
      OrdinaryForever(Next(s, actions[0]).value, actions[1..]);
    }
  }

  /** In every reachable state at most one automated command is in the queue, and of all
      commands of the automation ever queued the ids strictly ascend. */
  lemma OneAutomatedQueued(actions: seq<Action>)
    requires Run(INITIAL, actions).Some?
    ensures var s := Run(INITIAL, actions).value;
            OneAutomated(s.shared.commands) && AutomatedAscend(s.shared.queued, s.main.nextAutomationId)
  {
    OrdinaryForever(INITIAL, actions);
  }

  /** Nothing is queued, nor is the device called ready, before it has reported a status. */
  lemma NothingBeforeFirstStatus(actions: seq<Action>)
    requires Run(INITIAL, actions).Some?
    ensures var s := Run(INITIAL, actions).value;
            s.shared.deviceReady || s.shared.queued != [] ==> Reported(s.worker)
  {
    OrdinaryForever(INITIAL, actions);
  }

  // ----- What a request leads to

  /** The event is the last status with contents. */
  predicate LatestStatus(events: seq<Event>, k: nat) {
    && k < |events| && events[k].Status? && events[k].data != map[]
    && forall j | k < j < |events| :: !(events[j].Status? && events[j].data != map[])
  }

  /** What the server knows of the device is what it reported last. */
  ghost predicate Informed(m: MainThread) {
    if exists k: nat :: LatestStatus(m.handled, k)
    then exists k: nat :: LatestStatus(m.handled, k) && m.lastStatus == m.handled[k].data
    else m.lastStatus == map[]
  }

  lemma StatusLater(events: seq<Event>, event: Event, k: nat)
    ensures LatestStatus(events + [event], k) <==>
            if event.Status? && event.data != map[] then k == |events| else LatestStatus(events, k)
  {
    var grown, n := events + [event], |events|;
    assert grown[n] == event;
    assert forall j | 0 <= j < n :: grown[j] == events[j];
  }

  lemma MainStaysInformed(m: MainThread, h: Shared, request: Request)
    requires Informed(m) && Possible(m, request)
    ensures Informed(MainNext(m, h, request))
  {
    var next := MainNext(m, h, request);
    if request == ProcessEvent {
      var event := m.batch[0];
      ProcessingHandles(m, h);
      forall k: nat
        ensures LatestStatus(next.handled, k) <==>
                if event.Status? && event.data != map[] then k == |m.handled| else LatestStatus(m.handled, k)
      {
        StatusLater(m.handled, event, k);
      }
      ProcessingInforms(m, h);
      if event.Status? && event.data != map[] {
        assert LatestStatus(next.handled, |m.handled|);
      } else if k: nat :| LatestStatus(m.handled, k) && m.lastStatus == m.handled[k].data {
        assert LatestStatus(next.handled, k) && next.handled[k] == m.handled[k];
      }
    } else {
      OthersInformNothing(m, h, request);
    }
  }

  lemma ProcessingInforms(m: MainThread, h: Shared)
    requires Possible(m, ProcessEvent)
    ensures MainNext(m, h, ProcessEvent).lastStatus ==
            if m.batch[0].Status? && m.batch[0].data != map[] then m.batch[0].data else m.lastStatus
  {}

  lemma OthersInformNothing(m: MainThread, h: Shared, request: Request)
    requires Possible(m, request) && request != ProcessEvent
    ensures MainNext(m, h, request).lastStatus == m.lastStatus && MainNext(m, h, request).handled == m.handled
  {}

  lemma {:induction false} InformedForever(s: Server, actions: seq<Action>)
    requires Informed(s.main) && Run(s, actions).Some?
    ensures Informed(Run(s, actions).value.main)
    decreases |actions|
  {
    if actions != [] {
      if actions[0].Serve? { MainStaysInformed(s.main, s.shared, actions[0].request); }
      InformedForever(Next(s, actions[0]).value, actions[1..]);
    }
  }

  /** The last status with contents reports every setting as wanted. */
  ghost predicate AlreadySo(events: seq<Event>, values: Settings) {
    exists k: nat ::
      LatestStatus(events, k) &&
      forall key | key in values :: key in events[k].data && events[k].data[key] == values[key]
  }

  /** What the main thread has done once it carried the request out. */
  function Carried(s: Server, request: Request): Option<Server> {
    match Next(s, Serve(request))
    case None => None
    case Some(begun) => if begun.main.phase.Pushing? then Next(begun, Serve(Proceed)) else Some(begun)
  }

  /** The script queues a command exactly if the device is ready, does not report all settings
      as wanted already, no automated command waits for its confirmation, and none is in the
      queue; the command carries just the settings wanted.  Else nothing is queued. */
  lemma ActionQueuesExactly(actions: seq<Action>, values: Settings)
    requires Run(INITIAL, actions).Some? && Possible(Run(INITIAL, actions).value.main, AutomationAction(values))
    ensures var s := Run(INITIAL, actions).value;
            var end := Carried(s, AutomationAction(values));
            && end.Some?
            && end.value.shared.commands ==
               s.shared.commands +
               if && s.shared.deviceReady && !AlreadySo(s.main.handled, values) && s.main.pending.None?
                  && forall i | 0 <= i < |s.shared.commands| :: !s.shared.commands[i].automated
               then [Command(|s.shared.queued|, 0, s.main.nextAutomationId, values, true)] else []
  {
    InformedForever(INITIAL, actions);
    var s := Run(INITIAL, actions).value;
    KnownAlready(s.main, values);
  }

  lemma KnownAlready(m: MainThread, values: Settings)
    requires Informed(m)
    ensures AlreadySo(m.handled, values) <==> m.lastStatus != map[] && Confirms(m.lastStatus, values)
  {
    if k: nat :| LatestStatus(m.handled, k) && m.lastStatus == m.handled[k].data {
      assert forall j: nat | LatestStatus(m.handled, j) :: j == k;
    }
  }

  /** A client's command is queued with just the settings asked for if the device is ready, and
      else refused at once. */
  lemma ControlQueuesExactly(s: Server, client: nat, id: nat, values: Settings)
    requires Possible(s.main, ControlRequest(client, id, values))
    ensures var end := Carried(s, ControlRequest(client, id, values));
            && end.Some? && end.value.main.phase.Idle?
            && end.value.shared.commands ==
               s.shared.commands +
               (if s.shared.deviceReady then [Command(|s.shared.queued|, client, id, values, false)] else [])
            && end.value.main.refusals ==
               s.main.refusals + (if s.shared.deviceReady then [] else [Reply(client, id, false)])
  {}

  /** A script acts within a batch only when it was told a status. */
  predicate ActsWhenTold(m: MainThread) {
    m.luaMayAct ==>
      m.handled != [] && m.handled[|m.handled| - 1].Status? && m.handled[|m.handled| - 1].data != map[]
  }

  lemma MainKeepsTelling(m: MainThread, h: Shared, request: Request)
    requires ActsWhenTold(m) && Possible(m, request)
    ensures ActsWhenTold(MainNext(m, h, request))
  {
    if request == ProcessEvent {
      ProcessingHandles(m, h);
      ProcessingAllows(m, h);
    }
  }

  lemma ProcessingAllows(m: MainThread, h: Shared)
    requires Possible(m, ProcessEvent)
    ensures MainNext(m, h, ProcessEvent).luaMayAct <==> m.batch[0].Status? && m.batch[0].data != map[]
  {}

  lemma {:induction false} TellingForever(s: Server, actions: seq<Action>)
    requires ActsWhenTold(s.main) && Run(s, actions).Some?
    ensures ActsWhenTold(Run(s, actions).value.main)
    decreases |actions|
  {
    if actions != [] {
      if actions[0].Serve? { MainKeepsTelling(s.main, s.shared, actions[0].request); }
      TellingForever(Next(s, actions[0]).value, actions[1..]);
    }
  }

  /** In every reachable state: between the events of a batch a script can act only if the event
      handled last is a status with contents. */
  lemma ActionsFollowStatus(actions: seq<Action>, values: Settings)
    requires Run(INITIAL, actions).Some?
    requires var m := Run(INITIAL, actions).value.main;
             m.batch != [] && Possible(m, AutomationAction(values))
    ensures var handled := Run(INITIAL, actions).value.main.handled;
            handled != [] && handled[|handled| - 1].Status? && handled[|handled| - 1].data != map[]
  {
    TellingForever(INITIAL, actions);
  }
}
