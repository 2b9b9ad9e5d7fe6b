/** An automated command is judged at most once, and none is judged that was not answered. */
module Verdicts {
  import opened Options
  import opened Protocol
  import opened Conservation
  import opened EventQueue

  predicate Answers(event: Event, c: Command) {
    event.Control? && event.command == c
  }

  /** How often the events answer the command. */
  function Answered(c: Command, events: seq<Event>): nat {
    if events == [] then 0
    else Answered(c, events[..|events| - 1]) + if Answers(events[|events| - 1], c) then 1 else 0
  }

  function Judged(c: Command, outcomes: seq<Outcome>): nat {
    if outcomes == [] then 0
    else Judged(c, outcomes[..|outcomes| - 1]) + if outcomes[|outcomes| - 1].command == c then 1 else 0
  }

  function Overwritten(c: Command, lost: seq<(Pending, Pending)>): nat {
    if lost == [] then 0
    else Overwritten(c, lost[..|lost| - 1]) + if lost[|lost| - 1].0.command == c then 1 else 0
  }

  function Waiting(c: Command, pending: Option<Pending>): nat {
    if pending.Some? && pending.value.command == c then 1 else 0
  }

  /** What became of the answers to an automated command. */
  function Fates(c: Command, m: MainThread): nat {
    Judged(c, m.outcomes) + Overwritten(c, m.lost) + Waiting(c, m.pending)
  }

  lemma AnsweredMore(c: Command, events: seq<Event>, event: Event)
    ensures Answered(c, events + [event]) == Answered(c, events) + if Answers(event, c) then 1 else 0
  {
    assert (events + [event])[..|events|] == events;
  }

  lemma {:induction false} AnsweredPrefix(c: Command, events: seq<Event>, n: nat)
    requires n <= |events|
    ensures Answered(c, events[..n]) <= Answered(c, events)
    decreases |events|
  {
    if n == |events| {
      assert events[..n] == events;
    } else {
      AnsweredPrefix(c, events[..|events| - 1], n);
      assert events[..|events| - 1][..n] == events[..n];
    }
  }

  lemma JudgedMore(c: Command, outcomes: seq<Outcome>, outcome: Outcome)
    ensures Judged(c, outcomes + [outcome]) == Judged(c, outcomes) + if outcome.command == c then 1 else 0
  {
    assert (outcomes + [outcome])[..|outcomes|] == outcomes;
  }

  lemma OverwrittenMore(c: Command, lost: seq<(Pending, Pending)>, loss: (Pending, Pending))
    ensures Overwritten(c, lost + [loss]) == Overwritten(c, lost) + if loss.0.command == c then 1 else 0
  {
    assert (lost + [loss])[..|lost|] == lost;
  }

  /** Settling turns the waiting into a verdict. */
  lemma SettledOnce(c: Command, m: MainThread, confirmed: bool)
    ensures Fates(c, Settle(m, confirmed)) == Fates(c, m)
  {
    if m.pending.Some? { JudgedMore(c, m.outcomes, Outcome(m.pending.value.command, confirmed)); }
  }

  lemma ControlCountsOnce(c: Command, m: MainThread, command: Command, ok: bool, session: nat)
    ensures Fates(c, ApplyControl(m, command, ok, session)) ==
            Fates(c, m) + if c.automated && command == c then 1 else 0
  {
    if command.automated && !ok {
      JudgedMore(c, m.outcomes, Outcome(command, false));
    } else if command.automated && m.pending.Some? {
      OverwrittenMore(c, m.lost, (m.pending.value, Pending(command, session)));
    }
  }

  /** The answer to an automated command is judged, or waits; nothing else is. */
  lemma AnswerCountsOnce(c: Command, m: MainThread, event: Event)
    ensures Fates(c, Applied(m, event)) == Fates(c, m) + if c.automated && Answers(event, c) then 1 else 0
  {
    match event
    case Start =>
    case StateError => SettledOnce(c, m, false);
    case Status(data, _) =>
      var confirmed := m.pending.Some? && Confirms(data, m.pending.value.command.values);
      SettledOnce(c, m, confirmed);
    case Control(command, ok, session) => ControlCountsOnce(c, m, command, ok, session);
  }

  lemma OnlyProcessingJudges(m: MainThread, h: Shared, request: Request)
    requires Possible(m, request) && request != ProcessEvent
    ensures var next := MainNext(m, h, request);
            next.handled == m.handled && next.outcomes == m.outcomes && next.lost == m.lost && next.pending == m.pending
  {}

  lemma ProcessingJudges(c: Command, m: MainThread, h: Shared)
    requires Possible(m, ProcessEvent)
    ensures var next := MainNext(m, h, ProcessEvent);
            next.handled == m.handled + [m.batch[0]] &&
            Fates(c, next) == Fates(c, m) + if c.automated && Answers(m.batch[0], c) then 1 else 0
  {
    var event := m.batch[0];
    var moved := m.(batch := m.batch[1..], handled := m.handled + [event],
                    luaMayAct := event.Status? && event.data != map[]);
    AnswerCountsOnce(c, moved, event);
    AppliedSettles(moved, event);
  }

  /** Every handled answer to an automated command has one fate, and no other command has. */
  predicate OneFate(c: Command, m: MainThread) {
    Fates(c, m) == if c.automated then Answered(c, m.handled) else 0
  }

  predicate AnswersPosted(c: Command, h: Shared) {
    Times(c, h.answered) == Answered(c, h.posted)
  }

  lemma MainKeepsFates(c: Command, m: MainThread, h: Shared, request: Request)
    requires OneFate(c, m) && Possible(m, request)
    ensures OneFate(c, MainNext(m, h, request))
  {
    if request == ProcessEvent {
      ProcessingJudges(c, m, h);
      AnsweredMore(c, m.handled, m.batch[0]);
    } else {
      OnlyProcessingJudges(m, h, request);
    }
  }

  lemma PostCounts(c: Command, h: Shared, h': Shared, event: Event)
    requires AnswersPosted(c, h) && h'.posted == h.posted + [event]
    requires h'.answered == if event.Control? then h.answered + [event.command] else h.answered
    ensures AnswersPosted(c, h')
  {
    AnsweredMore(c, h.posted, event);
    if event.Control? { TimesGrow(c, h.answered, event.command); }
  }

  lemma WorkerAnswers(w: Worker, h: Shared)
    ensures WorkerEffect(w, h).answered ==
            if Posting(w).Some? && Posting(w).value.Control? then h.answered + [Posting(w).value.command]
            else h.answered
  {}

  lemma MainAnswers(m: MainThread, h: Shared, request: Request)
    ensures MainEffect(m, h, request).answered ==
            if MainPosting(m, request).Some? then h.answered + [MainPosting(m, request).value.command] else h.answered
  {}

  predicate Counted(c: Command, s: Server) {
    OneFate(c, s.main) && AnswersPosted(c, s.shared) && Fifo(s.main, s.shared)
  }

  lemma NextKeepsCounted(c: Command, s: Server, action: Action)
    requires Counted(c, s) && Next(s, action).Some?
    ensures Counted(c, Next(s, action).value)
  {
    var h := s.shared;
    match action {
      case Work(device) =>
        WorkerPosts(s.worker, h);
        WorkerAnswers(s.worker, h);
        if Posting(s.worker).Some? {
          var event := Posting(s.worker).value;
          PostCounts(c, h, WorkerEffect(s.worker, h), event);
          assert s.main.handled + s.main.batch + (h.events + [event]) == h.posted + [event];
        }
      case Serve(request) =>
        MainKeepsFates(c, s.main, h, request);
        MainKeepsFifo(s.main, h, request);
        MainPosts(s.main, h, request);
        MainAnswers(s.main, h, request);
        if MainPosting(s.main, request).Some? {
          PostCounts(c, h, MainEffect(s.main, h, request), MainPosting(s.main, request).value);
        }
    }
  }

  lemma {:induction false} CountedForever(c: Command, s: Server, actions: seq<Action>)
    requires Counted(c, s) && Run(s, actions).Some?
    ensures Counted(c, Run(s, actions).value)
    decreases |actions|
  {
    if actions != [] {
      NextKeepsCounted(c, s, actions[0]);
      CountedForever(c, Next(s, actions[0]).value, actions[1..]);
    }
  }

  /** In every reachable state, whatever happened across sessions: an automated command has at
      most one of a verdict, a confirmation it waits for and a confirmation overwritten; and
      it has one exactly if its answer was handled.  No other command has any. */
  lemma JudgedAtMostOnce(actions: seq<Action>, c: Command)
    requires Run(INITIAL, actions).Some?
    ensures var m := Run(INITIAL, actions).value.main;
            && Fates(c, m) <= 1
            && (Fates(c, m) == 1 <==> c.automated && exists i :: 0 <= i < |m.handled| && Answers(m.handled[i], c))
  {
    CountedForever(c, INITIAL, actions);
    EachCommandOnce(actions, c);
    var s := Run(INITIAL, actions).value;
    assert s.shared.posted[..|s.main.handled|] == s.main.handled;
    AnsweredPrefix(c, s.shared.posted, |s.main.handled|);
    AnsweredSomewhere(c, s.main.handled);
  }

  lemma {:induction false} AnsweredSomewhere(c: Command, events: seq<Event>)
    ensures Answered(c, events) > 0 <==> exists i :: 0 <= i < |events| && Answers(events[i], c)
    decreases |events|
  {
    if events != [] {
      var shorter := events[..|events| - 1];
      AnsweredSomewhere(c, shorter);
      if i :| 0 <= i < |shorter| && Answers(shorter[i], c) {
        assert Answers(events[i], c);
      }
      if i :| 0 <= i < |events| && Answers(events[i], c) {
        assert i == |events| - 1 || Answers(shorter[i], c);
      }
    }
  }
}
