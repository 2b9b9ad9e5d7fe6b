/** Exactly when a session can overwrite a confirmation that waits as it opens, although every
    status has contents. */
module Overwriting {
  import opened Options
  import opened Protocol
  import opened Serialization
  import opened Conservation
  import opened EventQueue
  import opened Confirmation
  import opened Answers
  import opened Scenarios
  import opened Sessions
  import opened DeviceLoop

  /** The command the new session attempts first is an automated one. */
  predicate FirstAutomated(m: MainThread, h: Shared) {
    if h.commands != [] then h.commands[0].automated else WillQueue(m, h) && m.phase.automated
  }

  /** The statuses from the n-th mark on have contents. */
  predicate LaterContents(marks: seq<Mark>, n: nat) {
    forall k | n <= k < |marks| && marks[k].StatusReceived? :: marks[k].contents
  }

  /** A command of the session has taken the place of one that waited. */
  predicate Overwrites(m: MainThread, session: nat) {
    exists i :: 0 <= i < |m.lost| && m.lost[i].1.session == session
  }

  // ----- A session that overwrites nothing

  /** No command of the session was accepted while another one was unresolved. */
  ghost predicate FreeIn(events: seq<Event>, session: nat) {
    forall b | 0 <= b < |events| && AcceptedAutomated(events[b]) && events[b].session == session ::
      Unresolved(events[..b]).None?
  }

  lemma FreeMore(events: seq<Event>, event: Event, session: nat)
    requires FreeIn(events, session)
    requires AcceptedAutomated(event) && event.session == session ==> Unresolved(events).None?
    ensures FreeIn(events + [event], session)
  {
    var grown := events + [event];
    forall b | 0 <= b < |grown| && AcceptedAutomated(grown[b]) && grown[b].session == session
      ensures Unresolved(grown[..b]).None?
    {
      assert grown[..b] == events[..b];
      assert events[..|events|] == events;
    }
  }

  predicate Underway(place: Place) {
    InSession(place) || place.Starting? || place.Connecting?
  }

  /** The last mark is a status. */
  predicate JustHeard(marks: seq<Mark>) {
    marks != [] && marks[|marks| - 1].StatusReceived?
  }

  predicate StatusInHand(place: Place) {
    place.StatusArrived? || place.StatusStored?
  }

  /** In the session: before its first mark the first command to come is not automated, or
      nothing waits; and whatever waits was not followed by a status, except one in hand,
      nor is an automated command in hand meanwhile. */
  predicate Watchful(w: Worker, m: MainThread, h: Shared, open: Option<Pending>) {
    && w.marks != []
    && (StatusInHand(w.place) ==> w.marks[|w.marks| - 1] == StatusReceived(true) && w.place.data != map[])
    && (JustOpened(w.marks) && !w.place.Calling? ==> !h.deviceReady && (open.Some? ==> !FirstAutomated(m, h)))
    && (JustOpened(w.marks) && w.place.Calling? && open.Some? ==> !w.place.command.automated)
    && (open.Some? ==>
          && (Holding(w.place) ==> !w.place.command.automated)
          && (JustHeard(w.marks) ==> StatusInHand(w.place)))
  }

  /** Where a run stands with respect to the session: before, in it, or after it. */
  predicate Standing(s: Server, session: nat, open: Option<Pending>) {
    || (s.worker.place.Opening? && s.worker.session + 1 == session && !s.shared.deviceReady &&
        (open.Some? ==> !FirstAutomated(s.main, s.shared)))
    || (s.worker.session == session && Underway(s.worker.place) && Watchful(s.worker, s.main, s.shared, open))
    || (s.worker.session == session && !Underway(s.worker.place))
    || s.worker.session > session
  }

  ghost predicate Spares(s: Server, session: nat, n: nat) {
    && n <= |s.worker.marks| && Serialized(s.worker, s.shared) && AttemptLast(s.worker)
    && FreeIn(s.shared.posted, session) && Standing(s, session, Unresolved(s.shared.posted))
  }

  lemma MainKeepsUnautomated(m: MainThread, h: Shared, request: Request)
    requires Possible(m, request) && !h.deviceReady && !FirstAutomated(m, h)
    ensures !FirstAutomated(MainNext(m, h, request), MainEffect(m, h, request))
  {
    if request == ProcessEvent { ProcessingMovesNothing(m, h); }
  }

  lemma MainKeepsStanding(s: Server, request: Request, session: nat, open: Option<Pending>)
    requires Standing(s, session, open) && Possible(s.main, request)
    ensures Standing(Next(s, Serve(request)).value, session, open)
  {
    if !s.shared.deviceReady {
      MainKeepsUnready(s.main, s.shared, request);
      if !FirstAutomated(s.main, s.shared) { MainKeepsUnautomated(s.main, s.shared, request); }
    }
  }

  lemma MainSpares(s: Server, request: Request, session: nat, n: nat)
    requires Spares(s, session, n) && Possible(s.main, request)
    ensures Spares(Next(s, Serve(request)).value, session, n)
  {
    MainKeepsSerialized(s.worker, s.main, s.shared, request);
    MainKeepsUnresolved(s.main, s.shared, request);
    MainKeepsStanding(s, request, session, Unresolved(s.shared.posted));
    MainPosts(s.main, s.shared, request);
    if MainPosting(s.main, request).Some? {
      FreeMore(s.shared.posted, MainPosting(s.main, request).value, session);
    }
  }

  lemma MarkingStands(s: Server, device: Device, session: nat, n: nat, open: Option<Pending>)
    requires Standing(s, session, open) && Serialized(s.worker, s.shared) && n <= |s.worker.marks|
    requires Marks(s.worker.place) && Next(s, Work(device)).Some?
    requires LaterContents(Next(s, Work(device)).value.worker.marks, n)
    ensures Standing(Next(s, Work(device)).value, session, open)
  {
    MarkingStep(s.worker, s.shared, device);
    var next, mark := Next(s, Work(device)).value, Marking(s.worker, device);
    if mark.Some? { assert next.worker.marks[|s.worker.marks|] == mark.value; }
  }

  lemma QuietStands(s: Server, device: Device, session: nat, open: Option<Pending>)
    requires Standing(s, session, open) && !Marks(s.worker.place) && Posting(s.worker).None?
    requires Next(s, Work(device)).Some?
    ensures Standing(Next(s, Work(device)).value, session, open)
  {
    QuietStaysOut(s.worker, s.shared, device);
    if Underway(s.worker.place) && Watchful(s.worker, s.main, s.shared, open) {
      QuietStaysWatchful(s.worker, s.main, s.shared, device, open);
    }
  }

  lemma QuietStaysOut(w: Worker, h: Shared, device: Device)
    requires !Marks(w.place) && Posting(w).None? && WorkerNext(w, h, device).Some?
    ensures var next := WorkerNext(w, h, device).value;
            next.session == w.session && (Underway(next.place) ==> Underway(w.place))
  {}

  lemma QuietStaysWatchful(w: Worker, m: MainThread, h: Shared, device: Device, open: Option<Pending>)
    requires Watchful(w, m, h, open) && Underway(w.place)
    requires !Marks(w.place) && Posting(w).None? && WorkerNext(w, h, device).Some?
    ensures Underway(WorkerNext(w, h, device).value.place) ==>
              Watchful(WorkerNext(w, h, device).value, m, WorkerEffect(w, h), open)
  {}

  lemma PostingStands(s: Server, device: Device, session: nat, open: Option<Pending>)
    requires Standing(s, session, open) && AttemptLast(s.worker) && Posting(s.worker).Some?
    requires Next(s, Work(device)).Some?
    ensures Standing(Next(s, Work(device)).value, session, After(open, Posting(s.worker).value))
    ensures AcceptedAutomated(Posting(s.worker).value) && Posting(s.worker).value.session == session ==> open.None?
  {}

  lemma WorkerSpares(s: Server, device: Device, session: nat, n: nat)
    requires Spares(s, session, n) && Next(s, Work(device)).Some?
    requires LaterContents(Next(s, Work(device)).value.worker.marks, n)
    ensures Spares(Next(s, Work(device)).value, session, n)
  {
    var w, h, open := s.worker, s.shared, Unresolved(s.shared.posted);
    WorkerPosts(w, h);
    WorkerKeepsSerialized(w, h, device);
    WorkerKeepsAttemptLast(w, h, device);
    MarksGrow(w, h, device);
    if Posting(w).Some? {
      PostingStands(s, device, session, open);
      UnresolvedGrows(h.posted, Posting(w).value);
      FreeMore(h.posted, Posting(w).value, session);
    } else if Marks(w.place) {
      MarkingStands(s, device, session, n, open);
    } else {
      QuietStands(s, device, session, open);
    }
  }

  lemma {:induction false} MarksGrowForever(s: Server, actions: seq<Action>)
    requires Run(s, actions).Some?
    ensures s.worker.marks <= Run(s, actions).value.worker.marks
    decreases |actions|
  {
    if actions != [] {
      if actions[0].Work? { MarksGrow(s.worker, s.shared, actions[0].device); }
      MarksGrowForever(Next(s, actions[0]).value, actions[1..]);
    }
  }

  lemma {:induction false} SparesForever(s: Server, actions: seq<Action>, session: nat, n: nat)
    requires Spares(s, session, n) && Run(s, actions).Some?
    requires LaterContents(Run(s, actions).value.worker.marks, n)
    ensures Spares(Run(s, actions).value, session, n)
    decreases |actions|
  {
    if actions != [] {
      var next, end := Next(s, actions[0]).value, Run(s, actions).value;
      match actions[0] {
        case Work(device) =>
          MarksGrowForever(next, actions[1..]);
          assert forall k | n <= k < |next.worker.marks| :: next.worker.marks[k] == end.worker.marks[k];
          WorkerSpares(s, device, session, n);
        case Serve(request) => MainSpares(s, request, session, n);
      }
      SparesForever(next, actions[1..], session, n);
    }
  }

  /** No accepted answer is of a session that did not open yet. */
  lemma OpeningSpares(s: Server)
    requires Confirmed(s) && s.worker.place.Opening? && !s.shared.deviceReady
    requires Serialized(s.worker, s.shared)
    requires Unresolved(s.shared.posted).Some? ==> !FirstAutomated(s.main, s.shared)
    ensures Spares(s, s.worker.session + 1, |s.worker.marks|)
  {
    var posted := s.shared.posted;
    forall b | 0 <= b < |posted| && AcceptedAutomated(posted[b]) ensures posted[b].session <= s.worker.session {
      assert FromSession(posted[b]);
      assert posted[..|posted|] == posted;
      StartsBetween(posted, b, |posted|);
    }
  }

  lemma FreeIsSpared(s: Server, session: nat)
    requires Confirmed(s) && FreeIn(s.shared.posted, session)
    ensures !Overwrites(s.main, session)
  {
    var handled, posted := s.main.handled, s.shared.posted;
    assert forall b | 0 <= b < |handled| :: posted[b] == handled[b] && posted[..b] == handled[..b];
    forall i | 0 <= i < |s.main.lost| ensures s.main.lost[i].1.session != session {
      var first, second := s.main.lost[i].0, s.main.lost[i].1;
      assert (first, second) in s.main.lost;
      var b: nat :| LostAt(handled, b, first, second);
    }
  }

  // ----- A session that does

  /** How much of an operation is left. */
  function Left(phase: Phase, queue: nat): nat {
    match phase
    case Idle | ShutdownLock | Down => 0
    case Pushing(_, _, _, _) => 1
    case RefreshAnswering(swapped) => 1 + |swapped|
    case RefreshLock => 2 + queue
    case RefreshStore => 3 + queue
  }

  /** The main thread finishes its operation and handles all events. */
  lemma {:induction false} Drains(reach: iset<Server>, s: Server) returns (t: Server)
    requires Closed(reach) && s in reach && !s.main.phase.ShutdownLock? && !s.main.phase.Down?
    ensures t in reach && t.worker == s.worker && t.main.batch == [] && t.shared.events == []
    ensures s.shared.posted <= t.shared.posted
    decreases Left(s.main.phase, |s.shared.commands|), |s.shared.events|, |s.main.batch|
  {
    t := s;
    if s.main.phase != Idle {
      ProceedNears(s);
      t := Do(reach, s, Serve(Proceed));
      t := Drains(reach, t);
    } else if s.main.batch != [] {
      ProcessingHandles(s.main, s.shared);
      ProcessingStaysIdle(s.main, s.shared);
      t := Do(reach, s, Serve(ProcessEvent));
      t := Drains(reach, t);
    } else if s.shared.events != [] {
      t := Do(reach, s, Serve(SwapEvents));
      t := Drains(reach, t);
    }
  }

  lemma ProceedNears(s: Server)
    requires s.main.phase != Idle && !s.main.phase.ShutdownLock? && !s.main.phase.Down?
    ensures var next := Next(s, Serve(Proceed));
            && next.Some? && next.value.worker == s.worker && s.shared.posted <= next.value.shared.posted
            && !next.value.main.phase.ShutdownLock? && !next.value.main.phase.Down?
            && Left(next.value.main.phase, |next.value.shared.commands|) < Left(s.main.phase, |s.shared.commands|)
  {}

  lemma ProcessingStaysIdle(m: MainThread, h: Shared)
    requires Possible(m, ProcessEvent)
    ensures MainNext(m, h, ProcessEvent).phase == Idle
  {}

  /** The first command of the new session is attempted before any status and accepted. */
  lemma FirstIsAccepted(reach: iset<Server>, s: Server) returns (t: Server)
    requires Closed(reach) && s in reach && s.worker.place.Opening? && !s.shared.stopping
    requires FirstAutomated(s.main, s.shared)
    ensures t in reach && !t.shared.stopping
    ensures t.main.phase == s.main.phase || t.main.phase == Idle
    ensures |t.worker.marks| == |s.worker.marks| + 2 && s.worker.marks <= t.worker.marks
    ensures t.worker.marks[|s.worker.marks|].SessionOpened? && t.worker.marks[|s.worker.marks| + 1].Attempt?
    ensures exists command: Command ::
              command.automated &&
              t.shared.posted == s.shared.posted + [Start, Control(command, true, s.worker.session + 1)]
  {
    t := s;
    if t.shared.commands == [] {
      t := Do(reach, t, Serve(Proceed));
      assert t.worker == s.worker && t.shared.commands != [] && !t.shared.stopping && t.main.phase == Idle;
      assert t.shared.posted == s.shared.posted && t.shared.commands[0].automated;
    }
    var command := t.shared.commands[0];
    t := FinishOpening(reach, t);
    assert t.shared.posted == s.shared.posted + [Start];
    t := Attempts(reach, t);
    t := Scenarios.Answers(reach, t);
    assert t.shared.posted == s.shared.posted + [Start, Control(command, true, s.worker.session + 1)];
  }

  lemma OverwritingEvents(handled: seq<Event>, posted: seq<Event>, command: Command, session: nat)
    requires Unresolved(posted).Some? && command.automated
    requires posted + [Start, Control(command, true, session)] <= handled
    ensures LostAt(handled, |posted| + 1, Unresolved(posted).value, Pending(command, session))
  {
    var b := |posted| + 1;
    assert handled[..b] == posted + [Start] && handled[b] == Control(command, true, session);
    UnresolvedGrows(posted, Start);
  }

  lemma LostOverwrites(m: MainThread, b: nat, first: Pending, second: Pending)
    requires Recorded(m) && LostAt(m.handled, b, first, second)
    ensures Overwrites(m, second.session)
  {
    assert (first, second) in m.lost;
  }

  lemma AcceptedOverwrites(s: Server, posted: seq<Event>, command: Command, session: nat)
    requires Recorded(s.main) && Fifo(s.main, s.shared) && s.main.batch == [] && s.shared.events == []
    requires Unresolved(posted).Some? && command.automated
    requires posted + [Start, Control(command, true, session)] <= s.shared.posted
    ensures Overwrites(s.main, session)
  {
    assert s.main.handled == s.shared.posted;
    OverwritingEvents(s.main.handled, posted, command, session);
    LostOverwrites(s.main, |posted| + 1, Unresolved(posted).value, Pending(command, session));
  }

  /** A session can overwrite a confirmation, although all statuses from its opening on have
      contents, if and only if, as it opens, an accepted command is unresolved and the
      command at the head of the queue, or else the one on its way to the empty queue, is
      automated. */
  lemma OverwritingExactly(actions: seq<Action>)
    requires Run(INITIAL, actions).Some?
    requires var s := Run(INITIAL, actions).value;
             s.worker.place.Opening? && !s.shared.stopping
    ensures var s := Run(INITIAL, actions).value;
            (exists more, t: Server ::
               && Run(s, more) == Some(t) && LaterContents(t.worker.marks, |s.worker.marks|)
               && Overwrites(t.main, s.worker.session + 1)) <==>
            Unresolved(s.shared.posted).Some? && FirstAutomated(s.main, s.shared)
  {
    var s := Run(INITIAL, actions).value;
    AlwaysConfirmed(actions);
    if Unresolved(s.shared.posted).Some? && FirstAutomated(s.main, s.shared) {
      StopsWhenDownForever(INITIAL, actions);
      var more, t := OverwritingRun(s);
    } else {
      UnreadyForever(INITIAL, actions);
      SerializedForever(INITIAL, actions);
      OpeningSpares(s);
      forall more, t: Server | Run(s, more) == Some(t) && LaterContents(t.worker.marks, |s.worker.marks|)
        ensures !Overwrites(t.main, s.worker.session + 1)
      {
        SparedRun(s, more);
      }
    }
  }

  lemma SparedRun(s: Server, more: seq<Action>)
    requires Confirmed(s) && Spares(s, s.worker.session + 1, |s.worker.marks|) && Run(s, more).Some?
    requires LaterContents(Run(s, more).value.worker.marks, |s.worker.marks|)
    ensures !Overwrites(Run(s, more).value.main, s.worker.session + 1)
  {
    SparesForever(s, more, s.worker.session + 1, |s.worker.marks|);
    ConfirmedForever(s, more);
    FreeIsSpared(Run(s, more).value, s.worker.session + 1);
  }

  /** The session attempts the command, and the main thread handles what was posted. */
  lemma OverwritingState(reach: iset<Server>, s: Server) returns (t: Server, command: Command)
    requires Closed(reach) && s in reach && StopsWhenDown(s) && s.worker.place.Opening? && !s.shared.stopping
    requires FirstAutomated(s.main, s.shared)
    ensures t in reach && LaterContents(t.worker.marks, |s.worker.marks|)
    ensures t.main.batch == [] && t.shared.events == [] && command.automated
    ensures s.shared.posted + [Start, Control(command, true, s.worker.session + 1)] <= t.shared.posted
  {
    t := FirstIsAccepted(reach, s);
    command :| command.automated &&
      t.shared.posted == s.shared.posted + [Start, Control(command, true, s.worker.session + 1)];
    t := Drains(reach, t);
  }

  lemma RunTo(s: Server, t: Server) returns (more: seq<Action>)
    requires ByRun(s, t)
    ensures Run(s, more) == Some(t)
  {
    more :| Run(s, more) == Some(t);
  }

  lemma OverwritingRun(s: Server) returns (more: seq<Action>, t: Server)
    requires Confirmed(s) && StopsWhenDown(s) && s.worker.place.Opening? && !s.shared.stopping
    requires Unresolved(s.shared.posted).Some? && FirstAutomated(s.main, s.shared)
    ensures Run(s, more) == Some(t) && LaterContents(t.worker.marks, |s.worker.marks|)
    ensures Overwrites(t.main, s.worker.session + 1)
  {
    var reach := ReachedByRuns(s);
    var command;
    t, command := OverwritingState(reach, s);
    more := RunTo(s, t);
    ConfirmedForever(s, more);
    AcceptedOverwrites(t, s.shared.posted, command, s.worker.session + 1);
  }
}
