/** Exactly when the guarantees reach across sessions: when a session opens with nothing in the
    queue and nothing on its way there. */
module Sessions {
  import opened Options
  import opened Protocol
  import opened Serialization
  import opened Conservation
  import opened EventQueue
  import opened Answers
  import opened Scenarios

  /** The main thread is about to queue a command, and nothing will keep it from that. */
  predicate WillQueue(m: MainThread, h: Shared) {
    m.phase.Pushing? && (m.phase.automated ==> !AutomationBusy(m, h))
  }

  predicate CleanOpening(s: Server) {
    s.shared.commands == [] && !WillQueue(s.main, s.shared)
  }

  predicate JustOpened(marks: seq<Mark>) {
    marks != [] && marks[|marks| - 1].SessionOpened?
  }

  /** The device is not called ready between sessions, and before the first status of a session
      nothing is in the queue or will be. */
  predicate Fresh(s: Server) {
    && (s.worker.place.OuterTop? || s.worker.place.Opening? ==> !s.shared.deviceReady)
    && (s.worker.place.StatusArrived? || s.worker.place.StatusStored? || s.worker.place.Calling? ==>
          !JustOpened(s.worker.marks))
    && (JustOpened(s.worker.marks) ==> CleanOpening(s) && !s.shared.deviceReady)
  }

  lemma WorkerKeepsFresh(s: Server, device: Device)
    requires Fresh(s) && Next(s, Work(device)).Some? && !s.worker.place.Opening?
    ensures Fresh(Next(s, Work(device)).value)
  {
    if Marks(s.worker.place) {
    } else {
      OtherStepMarksNothing(s.worker, s.shared, device);
      WorkerShifts(s.worker, s.shared);
    }
  }

  lemma OpeningKeepsFresh(s: Server, device: Device)
    requires Fresh(s) && s.worker.place.Opening? && CleanOpening(s)
    ensures Next(s, Work(device)).Some? && Fresh(Next(s, Work(device)).value)
    ensures Next(s, Work(device)).value.worker.marks == s.worker.marks + [SessionOpened]
  {}

  /** Nothing new starts for the queue while the device is not ready. */
  lemma MainKeepsClean(m: MainThread, h: Shared, request: Request)
    requires Possible(m, request) && h.commands == [] && !WillQueue(m, h) && !h.deviceReady
    ensures var next, h' := MainNext(m, h, request), MainEffect(m, h, request);
            h'.commands == [] && !WillQueue(next, h') && !h'.deviceReady
  {
    if request == ProcessEvent { ProcessingMovesNothing(m, h); }
  }

  lemma MainKeepsUnready(m: MainThread, h: Shared, request: Request)
    requires !h.deviceReady
    ensures !MainEffect(m, h, request).deviceReady
  {}

  lemma MainKeepsFresh(s: Server, request: Request)
    requires Fresh(s) && Possible(s.main, request)
    ensures Fresh(Next(s, Serve(request)).value)
  {
    if !s.shared.deviceReady { MainKeepsUnready(s.main, s.shared, request); }
    if JustOpened(s.worker.marks) { MainKeepsClean(s.main, s.shared, request); }
  }

  // ----- Runs with clean openings

  /** Every session of the run opens clean. */
  predicate OpensClean(s: Server, actions: seq<Action>)
    decreases |actions|
  {
    actions == [] ||
    (Next(s, actions[0]).Some? && (actions[0].Work? && s.worker.place.Opening? ==> CleanOpening(s)) &&
     OpensClean(Next(s, actions[0]).value, actions[1..]))
  }

  /** Each attempt directly follows a status. */
  predicate AttemptsFollowStatus(marks: seq<Mark>) {
    forall j | 0 <= j < |marks| && marks[j].Attempt? :: j > 0 && marks[j - 1].StatusReceived?
  }

  ghost predicate Prompt(s: Server) {
    && Fresh(s) && Serialized(s.worker, s.shared) && AttemptsFollowStatus(s.worker.marks)
    && (InSession(s.worker.place) ==> s.worker.marks != [])
    && (s.worker.place.Calling? ==> s.worker.marks[|s.worker.marks| - 1].StatusReceived?)
    && (s.worker.place.Starting? || s.worker.place.Connecting? ==> s.worker.marks != [])
  }

  lemma MarkingStepStaysPrompt(s: Server, device: Device)
    requires Prompt(s) && Marks(s.worker.place) && Next(s, Work(device)).Some?
    ensures var next := Next(s, Work(device)).value;
            AttemptsFollowStatus(next.worker.marks) && next.worker.marks != [] && !next.worker.place.Calling?
  {}

  lemma OtherStepStaysPrompt(s: Server, device: Device)
    requires Prompt(s) && !Marks(s.worker.place) && Next(s, Work(device)).Some?
    ensures var w := Next(s, Work(device)).value.worker;
            && w.marks == s.worker.marks
            && (InSession(w.place) || w.place.Starting? || w.place.Connecting? ==> w.marks != [])
            && (w.place.Calling? ==> w.marks[|w.marks| - 1].StatusReceived?)
  {
    OtherStepMarksNothing(s.worker, s.shared, device);
  }

  lemma WorkerStaysPrompt(s: Server, device: Device)
    requires Prompt(s) && Next(s, Work(device)).Some? && (s.worker.place.Opening? ==> CleanOpening(s))
    ensures Prompt(Next(s, Work(device)).value)
  {
    WorkerKeepsSerialized(s.worker, s.shared, device);
    if s.worker.place.Opening? { OpeningKeepsFresh(s, device); } else { WorkerKeepsFresh(s, device); }
    if Marks(s.worker.place) { MarkingStepStaysPrompt(s, device); } else { OtherStepStaysPrompt(s, device); }
  }

  lemma MainStaysPrompt(s: Server, request: Request)
    requires Prompt(s) && Possible(s.main, request)
    ensures Prompt(Next(s, Serve(request)).value)
  {
    MainKeepsFresh(s, request);
    MainKeepsSerialized(s.worker, s.main, s.shared, request);
  }

  // ----- No confirmation lost

  /** No status with contents since the last attempt or since the session opened. */
  predicate Unheard(marks: seq<Mark>) {
    marks != [] &&
    match marks[|marks| - 1]
    case SessionOpened => true
    case StatusReceived(contents) => !contents && Unheard(marks[..|marks| - 1])
    case Attempt(_, _) => true
  }

  lemma UnheardMore(marks: seq<Mark>, mark: Mark)
    ensures Unheard(marks + [mark]) <==>
            match mark
            case SessionOpened => true
            case StatusReceived(contents) => !contents && Unheard(marks)
            case Attempt(_, _) => true
  {
    assert (marks + [mark])[..|marks|] == marks;
  }

  /** While any accepted command is unresolved in the posted events, no status with contents was
      heard since, except one underway. */
  predicate Alert(w: Worker, open: Option<Pending>) {
    open.Some? ==>
      && !w.place.Called? && !w.place.Answering?
      && (InSession(w.place) || w.place.Starting? || w.place.Connecting? ==>
            Unheard(w.marks) || StatusUnderway(w.place))
  }

  /** No accepted automated command meets an unresolved one. */
  ghost predicate Apart(events: seq<Event>) {
    forall j | 0 <= j < |events| && AcceptedAutomated(events[j]) :: Unresolved(events[..j]).None?
  }

  lemma ApartGrows(events: seq<Event>, event: Event)
    requires Apart(events) && (AcceptedAutomated(event) ==> Unresolved(events).None?)
    ensures Apart(events + [event])
  {
    var grown := events + [event];
    forall j | 0 <= j < |grown| && AcceptedAutomated(grown[j])
      ensures Unresolved(grown[..j]).None?
    {
      assert grown[..j] == events[..j];
      assert events[..|events|] == events;
    }
  }

  /** Attempts are called for only when a status with contents was the last mark. */
  lemma MarkingStaysAlert(w: Worker, h: Shared, device: Device, open: Option<Pending>)
    requires Alert(w, open) && Marks(w.place) && WorkerNext(w, h, device).Some?
    requires w.place.Calling? ==> w.marks != [] && w.marks[|w.marks| - 1] == StatusReceived(true)
    ensures Alert(WorkerNext(w, h, device).value, open)
  {
    match w.place
    case Opening => UnheardMore(w.marks, SessionOpened);
    case Observing =>
      if device.Reports? { UnheardMore(w.marks, StatusReceived(device.data != map[])); }
    case Calling(command) => UnheardMore(w.marks, Attempt(command.serial, device.Accepts?));
  }

  lemma QuietStaysAlert(w: Worker, h: Shared, device: Device, open: Option<Pending>)
    requires Alert(w, open) && !Marks(w.place) && Posting(w) == None && WorkerNext(w, h, device).Some?
    ensures Alert(WorkerNext(w, h, device).value, open)
  {}

  /** The command in hand was attempted last. */
  predicate AttemptLast(w: Worker) {
    w.place.Called? || w.place.Answering? ==> JustAttempted(w.marks)
  }

  lemma WorkerKeepsAttemptLast(w: Worker, h: Shared, device: Device)
    requires AttemptLast(w) && WorkerNext(w, h, device).Some?
    ensures AttemptLast(WorkerNext(w, h, device).value)
  {}

  lemma PostingStaysAlert(w: Worker, h: Shared, device: Device, open: Option<Pending>)
    requires Alert(w, open) && AttemptLast(w) && Posting(w).Some? && WorkerNext(w, h, device).Some?
    ensures Alert(WorkerNext(w, h, device).value, After(open, Posting(w).value))
    ensures AcceptedAutomated(Posting(w).value) ==> open.None?
  {}

  ghost predicate Lossless(s: Server) {
    && Alert(s.worker, Unresolved(s.shared.posted)) && AttemptLast(s.worker)
    && Apart(s.shared.posted) && Fifo(s.main, s.shared)
    && s.main.pending == Unresolved(s.main.handled) && s.main.lost == []
  }

  lemma MainPostsApart(m: MainThread, h: Shared, request: Request)
    requires Apart(h.posted)
    ensures Apart(MainEffect(m, h, request).posted)
    ensures Unresolved(MainEffect(m, h, request).posted) == Unresolved(h.posted)
  {
    MainPosts(m, h, request);
    if MainPosting(m, request).Some? {
      UnresolvedGrows(h.posted, MainPosting(m, request).value);
      ApartGrows(h.posted, MainPosting(m, request).value);
    }
  }

  lemma MainStaysLossless(s: Server, request: Request)
    requires Lossless(s) && Possible(s.main, request)
    ensures Lossless(Next(s, Serve(request)).value)
  {
    var m, h := s.main, s.shared;
    MainKeepsFifo(m, h, request);
    MainPostsApart(m, h, request);
    if request == ProcessEvent {
      ProcessingLosesNothing(m, h);
    } else {
      OnlyProcessingHandles(m, h, request);
    }
  }

  lemma ProcessingLosesNothing(m: MainThread, h: Shared)
    requires Possible(m, ProcessEvent) && Fifo(m, h) && Apart(h.posted)
    requires m.pending == Unresolved(m.handled) && m.lost == []
    ensures var next := MainNext(m, h, ProcessEvent);
            next.pending == Unresolved(next.handled) && next.lost == []
  {
    ProcessingHandles(m, h);
    UnresolvedGrows(m.handled, m.batch[0]);
    assert h.posted[|m.handled|] == m.batch[0] && h.posted[..|m.handled|] == m.handled;
  }

  lemma WorkerStaysLossless(s: Server, device: Device)
    requires Lossless(s) && Prompt(s) && ContentsOnly(s.worker.marks) && Next(s, Work(device)).Some?
    ensures Lossless(Next(s, Work(device)).value)
  {
    var w, h, open := s.worker, s.shared, Unresolved(s.shared.posted);
    WorkerPosts(w, h);
    WorkerKeepsAttemptLast(w, h, device);
    if Posting(w).Some? {
      var event := Posting(w).value;
      PostingStaysAlert(w, h, device, open);
      UnresolvedGrows(h.posted, event);
      ApartGrows(h.posted, event);
      assert s.main.handled + s.main.batch + (h.events + [event]) == h.posted + [event];
    } else if Marks(w.place) {
      MarkingStaysAlert(w, h, device, open);
    } else {
      QuietStaysAlert(w, h, device, open);
    }
  }

  // ----- Over runs with clean openings

  ghost predicate Promising(s: Server) {
    Prompt(s) && (ContentsOnly(s.worker.marks) ==> Lossless(s))
  }

  lemma FewerMarksAreContents(s: Server, device: Device)
    requires Next(s, Work(device)).Some? && ContentsOnly(Next(s, Work(device)).value.worker.marks)
    ensures ContentsOnly(s.worker.marks)
  {
    var next := Next(s, Work(device)).value.worker.marks;
    if Marks(s.worker.place) {
      assert s.worker.marks <= next;
      assert forall i | 0 <= i < |s.worker.marks| :: s.worker.marks[i] == next[i];
    } else {
      OtherStepMarksNothing(s.worker, s.shared, device);
    }
  }

  lemma {:induction false} PromisingForever(s: Server, actions: seq<Action>)
    requires Promising(s) && OpensClean(s, actions)
    ensures Run(s, actions).Some? && Promising(Run(s, actions).value)
    decreases |actions|
  {
    if actions != [] {
      var next := Next(s, actions[0]).value;
      match actions[0] {
        case Work(device) =>
          WorkerStaysPrompt(s, device);
          if ContentsOnly(next.worker.marks) {
            FewerMarksAreContents(s, device);
            WorkerStaysLossless(s, device);
          }
        case Serve(request) =>
          MainStaysPrompt(s, request);
          if ContentsOnly(s.worker.marks) { MainStaysLossless(s, request); }
      }
      PromisingForever(next, actions[1..]);
    }
  }

  /** If every session opens with nothing in the queue and nothing on its way there, the
      promises hold over the whole run and not only within sessions: each attempt directly
      follows a status, and, if all statuses have contents, no confirmation is lost. */
  lemma CleanOpeningsSuffice(actions: seq<Action>)
    requires OpensClean(INITIAL, actions)
    ensures Run(INITIAL, actions).Some?
    ensures var s := Run(INITIAL, actions).value;
            AttemptsFollowStatus(s.worker.marks) && (ContentsOnly(s.worker.marks) ==> s.main.lost == [])
  {
    PromisingForever(INITIAL, actions);
  }

  // ----- An opening that is not clean

  lemma {:induction false} UnreadyForever(s: Server, actions: seq<Action>)
    requires s.worker.place.OuterTop? || s.worker.place.Opening? ==> !s.shared.deviceReady
    requires Run(s, actions).Some?
    ensures var end := Run(s, actions).value;
            end.worker.place.OuterTop? || end.worker.place.Opening? ==> !end.shared.deviceReady
    decreases |actions|
  {
    if actions != [] {
      match actions[0] {
        case Work(device) => UnreadyBetween(s.worker, s.shared, device);
        case Serve(request) =>
          if !s.shared.deviceReady { MainKeepsUnready(s.main, s.shared, request); }
      }
      UnreadyForever(Next(s, actions[0]).value, actions[1..]);
    }
  }

  lemma UnreadyBetween(w: Worker, h: Shared, device: Device)
    requires w.place.OuterTop? || w.place.Opening? ==> !h.deviceReady
    requires WorkerNext(w, h, device).Some?
    ensures var place := WorkerNext(w, h, device).value.place;
            place.OuterTop? || place.Opening? ==> !WorkerEffect(w, h).deviceReady
  {}

  /** The run is still before the opening, or right after it, or a mark other than an attempt
      followed the opening. */
  ghost predicate Quiet(s: Server, base: seq<Mark>) {
    || (s.worker.marks == base && s.worker.place.Opening? && CleanOpening(s) && !s.shared.deviceReady)
    || (s.worker.marks == base + [SessionOpened] && Fresh(s))
    || (|s.worker.marks| > |base| + 1 && !s.worker.marks[|base| + 1].Attempt?)
  }

  lemma WorkerStaysQuiet(s: Server, device: Device, base: seq<Mark>)
    requires Quiet(s, base) && Next(s, Work(device)).Some?
    ensures Quiet(Next(s, Work(device)).value, base)
  {
    MarksGrow(s.worker, s.shared, device);
    if |s.worker.marks| <= |base| + 1 {
      if s.worker.marks == base && s.worker.place.Opening? {
      } else if s.worker.place.Opening? {
      } else {
        WorkerKeepsFresh(s, device);
        if !Marks(s.worker.place) { OtherStepMarksNothing(s.worker, s.shared, device); }
      }
    }
  }

  lemma MainStaysQuiet(s: Server, request: Request, base: seq<Mark>)
    requires Quiet(s, base) && Possible(s.main, request)
    ensures Quiet(Next(s, Serve(request)).value, base)
  {
    if |s.worker.marks| <= |base| + 1 {
      if s.worker.marks == base && s.worker.place.Opening? {
        MainKeepsClean(s.main, s.shared, request);
      } else {
        MainKeepsFresh(s, request);
      }
    }
  }

  lemma {:induction false} QuietForever(s: Server, actions: seq<Action>, base: seq<Mark>)
    requires Quiet(s, base) && Run(s, actions).Some?
    ensures Quiet(Run(s, actions).value, base)
    decreases |actions|
  {
    if actions != [] {
      match actions[0] {
        case Work(device) => WorkerStaysQuiet(s, device, base);
        case Serve(request) => MainStaysQuiet(s, request, base);
      }
      QuietForever(Next(s, actions[0]).value, actions[1..], base);
    }
  }

  /** The marks of a session that attempts a command before any status. */
  predicate AttemptsFirst(before: seq<Mark>, after: seq<Mark>) {
    |after| == |before| + 2 && after[|before| + 1].Attempt? && after == before + [SessionOpened, after[|before| + 1]]
  }

  /** What waits or will be queued is attempted in the new session at once. */
  lemma UncleanAttempts(reach: iset<Server>, s: Server) returns (t: Server)
    requires Closed(reach) && s in reach && s.worker.place.Opening? && !s.shared.stopping && !CleanOpening(s)
    ensures t in reach && AttemptsFirst(s.worker.marks, t.worker.marks)
  {
    t := s;
    if t.shared.commands == [] {
      t := Do(reach, t, Serve(Proceed));
      assert t.worker == s.worker && t.shared.commands != [] && !t.shared.stopping;
    }
    t := FinishOpening(reach, t);
    t := Attempts(reach, t);
    var mark := Attempt(t.worker.attempts[|t.worker.attempts| - 1], true);
    assert t.worker.marks == s.worker.marks + [SessionOpened, mark];
  }

  /** The condition is exact: of a reachable state in which a session is about to open and the
      program is not stopping, some continuation attempts a command before any status of
      that session if and only if the opening is not clean. */
  lemma OpeningExactly(actions: seq<Action>)
    requires Run(INITIAL, actions).Some?
    requires var s := Run(INITIAL, actions).value;
             s.worker.place.Opening? && !s.shared.stopping
    ensures var s := Run(INITIAL, actions).value;
            (exists more, t: Server :: Run(s, more) == Some(t) && AttemptsFirst(s.worker.marks, t.worker.marks)) <==>
            !CleanOpening(s)
  {
    var s := Run(INITIAL, actions).value;
    UnreadyForever(INITIAL, actions);
    if CleanOpening(s) {
      forall more, t: Server | Run(s, more) == Some(t)
        ensures !AttemptsFirst(s.worker.marks, t.worker.marks)
      {
        QuietForever(s, more, s.worker.marks);
      }
    } else {
      var reach := ReachedByRuns(s);
      var t := UncleanAttempts(reach, s);
      assert ByRun(s, t);
      var more: seq<Action> :| Run(s, more) == Some(t);
      assert Run(s, more) == Some(t) && AttemptsFirst(s.worker.marks, t.worker.marks);
    }
  }

  // ----- Confirmation by a later session

  /** A status that is about to settle the command in waiting comes from a later session than
      the command if and only if a start was applied while the command waited. */
  lemma LaterSessionExactly(actions: seq<Action>)
    requires Run(INITIAL, actions).Some?
    requires var m := Run(INITIAL, actions).value.main;
             m.batch != [] && m.batch[0].Status? && m.pending.Some?
    ensures var m := Run(INITIAL, actions).value.main;
            m.pending.value.session < m.batch[0].session <==>
            exists a: nat, k: nat ::
              a < k < |m.handled| && AcceptedAt(m.handled, a, m.pending.value) && m.handled[k].Start?
  {
    TracedForever(INITIAL, actions);
    var s := Run(INITIAL, actions).value;
    var handled, posted, n := s.main.handled, s.shared.posted, |s.main.handled|;
    assert posted[n] == s.main.batch[0] && posted[..n] == handled;
    var a := LastAccepted(handled);
    AcceptedBefore(handled, posted, a, s.main.pending.value);
    StartsBetween(handled, a, n);
    assert handled[..n] == handled && !handled[a].Start?;
    if other: nat, k: nat :| other < k < n && AcceptedAt(handled, other, s.main.pending.value) && handled[k].Start? {
      AcceptedBefore(handled, posted, other, s.main.pending.value);
      StartsBetween(handled, other, n);
    }
  }


}
