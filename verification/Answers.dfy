/** What the server tells about a command is true: of the device, of the client that asked,
    and of the status that confirms it. */
module Answers {
  import opened Protocol
  import opened EventQueue

  // ----- Acceptance

  /** Only commands the device accepted are posted as such, or about to be. */
  predicate Truthful(w: Worker, h: Shared) {
    && (forall i | 0 <= i < |h.posted| && h.posted[i].Control? && h.posted[i].ok ::
          Attempt(h.posted[i].command.serial, true) in w.marks)
    && (w.place.Called? && w.place.accepted ==> Attempt(w.place.command.serial, true) in w.marks)
    && (w.place.Answering? && w.place.ok ==> Attempt(w.place.command.serial, true) in w.marks)
  }

  lemma MarksGrow(w: Worker, h: Shared, device: Device)
    requires WorkerNext(w, h, device).Some?
    ensures w.marks <= WorkerNext(w, h, device).value.marks
  {}

  lemma AcceptanceIsMarked(w: Worker, h: Shared, device: Device)
    requires Truthful(w, h) && WorkerNext(w, h, device).Some?
    ensures var next := WorkerNext(w, h, device).value;
            && (next.place.Called? && next.place.accepted ==> Attempt(next.place.command.serial, true) in next.marks)
            && (next.place.Answering? && next.place.ok ==> Attempt(next.place.command.serial, true) in next.marks)
  {}

  lemma WorkerKeepsTruthful(w: Worker, h: Shared, device: Device)
    requires Truthful(w, h) && WorkerNext(w, h, device).Some?
    ensures Truthful(WorkerNext(w, h, device).value, WorkerEffect(w, h))
  {
    MarksGrow(w, h, device);
    AcceptanceIsMarked(w, h, device);
    WorkerPosts(w, h);
  }

  lemma MainKeepsTruthful(w: Worker, m: MainThread, h: Shared, request: Request)
    requires Truthful(w, h)
    ensures Truthful(w, MainEffect(m, h, request))
  {
    MainPosts(m, h, request);
  }

  // ----- Replies to clients

  /** The replies the handled events call for, in order. */
  function Due(events: seq<Event>): seq<Reply> {
    if events == [] then []
    else
      var last := events[|events| - 1];
      Due(events[..|events| - 1]) +
      if last.Control? && !last.command.automated then [Reply(last.command.client, last.command.id, last.ok)] else []
  }

  lemma DueMore(events: seq<Event>, event: Event)
    ensures Due(events + [event]) ==
            Due(events) +
            if event.Control? && !event.command.automated
            then [Reply(event.command.client, event.command.id, event.ok)] else []
  {
    assert (events + [event])[..|events|] == events;
  }

  // ----- Confirmations

  /** The device accepted the command, and a status handled later shows its settings. */
  predicate Witnessed(events: seq<Event>, command: Command) {
    exists a, b :: 0 <= a < b < |events| && SaysAccepted(events[a], command) && Shows(events[b], command)
  }

  predicate SaysAccepted(event: Event, command: Command) {
    event.Control? && event.ok && event.command == command
  }

  predicate Shows(event: Event, command: Command) {
    event.Status? && event.data != map[] && Confirms(event.data, command.values)
  }

  /** What waits was accepted; what is confirmed has its witness. */
  ghost predicate Justified(m: MainThread) {
    && (m.pending.Some? ==> exists a :: 0 <= a < |m.handled| && SaysAccepted(m.handled[a], m.pending.value.command))
    && (forall i | 0 <= i < |m.outcomes| && m.outcomes[i].confirmed :: Witnessed(m.handled, m.outcomes[i].command))
  }

  lemma WitnessedMore(events: seq<Event>, event: Event, command: Command)
    requires Witnessed(events, command)
    ensures Witnessed(events + [event], command)
  {
    var a, b :| 0 <= a < b < |events| && SaysAccepted(events[a], command) && Shows(events[b], command);
    assert SaysAccepted((events + [event])[a], command) && Shows((events + [event])[b], command);
  }

  lemma ShownNow(events: seq<Event>, event: Event, command: Command, a: nat)
    requires a < |events| && SaysAccepted(events[a], command) && Shows(event, command)
    ensures Witnessed(events + [event], command)
  {
    var grown := events + [event];
    assert SaysAccepted(grown[a], command) && Shows(grown[|events|], command);
  }

  /** The only outcome an event may add; it is a confirmation exactly if the event is a status in
      which every setting the waiting command asked for has the value asked for. */
  lemma AppliedConcludes(m: MainThread, event: Event)
    ensures var next := Applied(m, event);
            next.outcomes == m.outcomes ||
            exists outcome: Outcome :: next.outcomes == m.outcomes + [outcome] &&
              (outcome.confirmed ==> m.pending.Some? && outcome.command == m.pending.value.command) &&
              (outcome.confirmed <==>
                 && event.Status? && event.data != map[]
                 && forall key | key in outcome.command.values ::
                      key in event.data && event.data[key] == outcome.command.values[key])
  {
    match event
    case Start =>
    case StateError =>
      if m.pending.Some? {
        assert Applied(m, event).outcomes == m.outcomes + [Outcome(m.pending.value.command, false)];
      }
    case Status(data, _) =>
      if data != map[] && m.pending.Some? {
        var command := m.pending.value.command;
        assert Applied(m, event).outcomes == m.outcomes + [Outcome(command, Confirms(data, command.values))];
      }
    case Control(command, ok, _) =>
      if command.automated && !ok { assert Applied(m, event).outcomes == m.outcomes + [Outcome(command, false)]; }
  }

  /** Handling an event, apart from where it comes from. */
  function Taken(m: MainThread): MainThread
    requires m.batch != []
  {
    m.(batch := m.batch[1..], handled := m.handled + [m.batch[0]],
       luaMayAct := m.batch[0].Status? && m.batch[0].data != map[])
  }

  lemma ProcessingKeepsJustified(m: MainThread, h: Shared)
    requires Justified(m) && Possible(m, ProcessEvent)
    ensures Justified(MainNext(m, h, ProcessEvent))
  {
    var event, next := m.batch[0], Applied(Taken(m), m.batch[0]);
    AppliedSettles(Taken(m), event);
    AppliedConcludes(Taken(m), event);
    if next.pending.Some? { WaitingWasAccepted(m, event, next.pending.value.command); }
    forall i | 0 <= i < |next.outcomes| && next.outcomes[i].confirmed
      ensures Witnessed(next.handled, next.outcomes[i].command)
    {
      if i < |m.outcomes| {
        WitnessedMore(m.handled, event, m.outcomes[i].command);
      } else {
        var a :| 0 <= a < |m.handled| && SaysAccepted(m.handled[a], m.pending.value.command);
        ShownNow(m.handled, event, m.pending.value.command, a);
      }
    }
  }

  lemma WaitingWasAccepted(m: MainThread, event: Event, command: Command)
    requires Justified(m) && After(m.pending, event).Some? && After(m.pending, event).value.command == command
    ensures exists a :: 0 <= a < |m.handled + [event]| && SaysAccepted((m.handled + [event])[a], command)
  {
    var grown := m.handled + [event];
    if AcceptedAutomated(event) {
      assert SaysAccepted(grown[|m.handled|], command);
    } else {
      var a :| 0 <= a < |m.handled| && SaysAccepted(m.handled[a], m.pending.value.command);
      assert SaysAccepted(grown[a], command);
    }
  }

  lemma RepliesApplied(m: MainThread, event: Event)
    ensures Applied(m, event).replies ==
            m.replies +
            if event.Control? && !event.command.automated
            then [Reply(event.command.client, event.command.id, event.ok)] else []
  {}

  lemma OnlyProcessingTells(m: MainThread, h: Shared, request: Request)
    requires Possible(m, request) && request != ProcessEvent
    ensures var next := MainNext(m, h, request);
            next.handled == m.handled && next.pending == m.pending && next.outcomes == m.outcomes &&
              next.replies == m.replies
  {}

  // ----- Over every run

  ghost predicate Honest(s: Server) {
    Truthful(s.worker, s.shared) && Fifo(s.main, s.shared) && Justified(s.main) && s.main.replies == Due(s.main.handled)
  }

  lemma MainKeepsHonest(m: MainThread, h: Shared, request: Request)
    requires Justified(m) && m.replies == Due(m.handled) && Possible(m, request)
    ensures var next := MainNext(m, h, request);
            Justified(next) && next.replies == Due(next.handled)
  {
    if request == ProcessEvent {
      ProcessingKeepsJustified(m, h);
      RepliesApplied(Taken(m), m.batch[0]);
      DueMore(m.handled, m.batch[0]);
      AppliedSettles(Taken(m), m.batch[0]);
    } else {
      OnlyProcessingTells(m, h, request);
    }
  }

  lemma {:induction false} HonestForever(s: Server, actions: seq<Action>)
    requires Honest(s) && Run(s, actions).Some?
    ensures Honest(Run(s, actions).value)
    decreases |actions|
  {
    if actions != [] {
      match actions[0] {
        case Work(device) =>
          WorkerKeepsTruthful(s.worker, s.shared, device);
          WorkerKeepsFifo(s.main, s.worker, s.shared);
        case Serve(request) =>
          MainKeepsTruthful(s.worker, s.main, s.shared, request);
          MainKeepsFifo(s.main, s.shared, request);
          MainKeepsHonest(s.main, s.shared, request);
      }
      HonestForever(Next(s, actions[0]).value, actions[1..]);
    }
  }

  /** A command is reported as accepted only if the device was given it and accepted it. */
  lemma AcceptedByDevice(actions: seq<Action>, command: Command, session: nat)
    requires Run(INITIAL, actions).Some?
    requires Control(command, true, session) in Run(INITIAL, actions).value.shared.posted
    ensures Attempt(command.serial, true) in Run(INITIAL, actions).value.worker.marks
  {
    HonestForever(INITIAL, actions);
  }

  /** The replies are exactly one for each handled answer to a client's command, in order, to
      that client, with its id and with the outcome posted. */
  lemma RepliesExact(actions: seq<Action>)
    requires Run(INITIAL, actions).Some?
    ensures var m := Run(INITIAL, actions).value.main;
            m.replies == Due(m.handled)
  {
    HonestForever(INITIAL, actions);
  }

  /** An automated command is confirmed only if the device accepted it and a status handled
      after the acceptance shows all the settings it asked for. */
  lemma ConfirmedByLaterStatus(actions: seq<Action>, command: Command)
    requires Run(INITIAL, actions).Some?
    requires Outcome(command, true) in Run(INITIAL, actions).value.main.outcomes
    ensures Witnessed(Run(INITIAL, actions).value.main.handled, command)
    ensures Attempt(command.serial, true) in Run(INITIAL, actions).value.worker.marks
  {
    HonestForever(INITIAL, actions);
    var s := Run(INITIAL, actions).value;
    var a, b :| 0 <= a < b < |s.main.handled| && SaysAccepted(s.main.handled[a], command) &&
      Shows(s.main.handled[b], command);
    assert s.shared.posted[a] == s.main.handled[a];
  }
}
