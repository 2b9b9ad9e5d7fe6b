/** How automated commands are judged: confirmed exactly by the first status with contents that
    reports every setting asked for. */
module Judgement {
  import opened Options
  import opened Protocol
  import opened EventQueue
  import opened Confirmation
  import opened Verdicts

  /** The event settles the command that waits, as confirmed exactly if it is a status in which
      each setting asked for has the value asked for, whatever else it holds. */
  predicate SettledAt(events: seq<Event>, b: nat, outcome: Outcome) {
    && b < |events| && Concludes(events[b])
    && Unresolved(events[..b]).Some? && Unresolved(events[..b]).value.command == outcome.command
    && (outcome.confirmed <==>
          && events[b].Status?
          && forall key | key in outcome.command.values ::
               key in events[b].data && events[b].data[key] == outcome.command.values[key])
  }

  /** The event says that the device did not take the command. */
  predicate RefusedAt(events: seq<Event>, b: nat, outcome: Outcome) {
    && b < |events| && events[b].Control? && events[b].command == outcome.command
    && outcome.command.automated && !events[b].ok && !outcome.confirmed
  }

  predicate JudgedAt(events: seq<Event>, b: nat, outcome: Outcome) {
    SettledAt(events, b, outcome) || RefusedAt(events, b, outcome)
  }

  /** The verdicts are those the handled events call for. */
  ghost predicate Just(m: MainThread) {
    forall outcome :: outcome in m.outcomes <==> exists b: nat :: JudgedAt(m.handled, b, outcome)
  }

  /** The event judges the command in waiting, or the one it answers. */
  predicate Judges(open: Option<Pending>, event: Event, outcome: Outcome) {
    || (Concludes(event) && open.Some? && open.value.command == outcome.command &&
        (outcome.confirmed <==>
           && event.Status?
           && forall key | key in outcome.command.values ::
                key in event.data && event.data[key] == outcome.command.values[key]))
    || (event.Control? && event.command == outcome.command && outcome.command.automated && !event.ok &&
        !outcome.confirmed)
  }

  lemma JudgedLater(events: seq<Event>, event: Event, outcome: Outcome)
    ensures (exists b: nat :: JudgedAt(events + [event], b, outcome)) <==>
            (exists b: nat :: JudgedAt(events, b, outcome)) || Judges(Unresolved(events), event, outcome)
  {
    var grown, n := events + [event], |events|;
    assert grown[..n] == events;
    if b: nat :| JudgedAt(grown, b, outcome) {
      if b < n {
        assert grown[..b] == events[..b];
        assert JudgedAt(events, b, outcome);
      }
    }
    if b: nat :| JudgedAt(events, b, outcome) {
      assert grown[..b] == events[..b];
      assert JudgedAt(grown, b, outcome);
    }
    if Judges(Unresolved(events), event, outcome) {
      assert JudgedAt(grown, n, outcome);
    }
  }

  lemma AppliedJudges(m: MainThread, event: Event, outcome: Outcome)
    ensures outcome in Applied(m, event).outcomes <==> outcome in m.outcomes || Judges(m.pending, event, outcome)
  {}

  lemma ProcessingStaysJust(m: MainThread, h: Shared)
    requires Possible(m, ProcessEvent) && Just(m) && m.pending == Unresolved(m.handled)
    ensures Just(MainNext(m, h, ProcessEvent))
  {
    var next, event := MainNext(m, h, ProcessEvent), m.batch[0];
    ProcessingHandles(m, h);
    var taken := m.(batch := m.batch[1..], handled := m.handled + [event],
                    luaMayAct := event.Status? && event.data != map[]);
    forall outcome ensures outcome in next.outcomes <==> exists b: nat :: JudgedAt(next.handled, b, outcome) {
      AppliedJudges(taken, event, outcome);
      JudgedLater(m.handled, event, outcome);
    }
  }

  lemma {:induction false} JustForever(s: Server, actions: seq<Action>)
    requires Just(s.main) && s.main.pending == Unresolved(s.main.handled) && Run(s, actions).Some?
    ensures Just(Run(s, actions).value.main)
    decreases |actions|
  {
    if actions != [] {
      if actions[0].Serve? {
        PendingFollows(s.main, s.shared, actions[0].request);
        if actions[0].request == ProcessEvent {
          ProcessingStaysJust(s.main, s.shared);
        } else {
          OnlyProcessingJudges(s.main, s.shared, actions[0].request);
        }
      }
      JustForever(Next(s, actions[0]).value, actions[1..]);
    }
  }

  /** No command is judged twice. */
  lemma {:induction false} OneVerdict(outcomes: seq<Outcome>, c: Command)
    requires Judged(c, outcomes) <= 1
    ensures forall i, j | 0 <= i < j < |outcomes| :: !(outcomes[i].command == c && outcomes[j].command == c)
    decreases |outcomes|
  {
    if outcomes != [] {
      var n := |outcomes| - 1;
      var shorter := outcomes[..n];
      OneVerdict(shorter, c);
      if outcomes[n].command == c {
        NoVerdict(shorter, c);
        assert forall i | 0 <= i < n :: outcomes[i] == shorter[i];
      }
      assert forall i, j | 0 <= i < j < n :: outcomes[i] == shorter[i] && outcomes[j] == shorter[j];
    }
  }

  lemma NotBoth(outcomes: seq<Outcome>, c: Command)
    requires Judged(c, outcomes) <= 1
    ensures !(Outcome(c, true) in outcomes && Outcome(c, false) in outcomes)
  {
    OneVerdict(outcomes, c);
  }

  lemma {:induction false} NoVerdict(outcomes: seq<Outcome>, c: Command)
    requires Judged(c, outcomes) == 0
    ensures forall i | 0 <= i < |outcomes| :: outcomes[i].command != c
    decreases |outcomes|
  {
    if outcomes != [] { NoVerdict(outcomes[..|outcomes| - 1], c); }
  }

  /** Over every run: an accepted automated command that the next concluding event finds
      waiting is judged by it alone: confirmed if and only if that event is a status in
      which every setting asked for has the value asked for. */
  lemma VerdictExactly(actions: seq<Action>, a: nat, b: nat, pending: Pending)
    requires Run(INITIAL, actions).Some?
    requires var handled := Run(INITIAL, actions).value.main.handled;
             && a < b < |handled| && AcceptedAt(handled, a, pending) && Concludes(handled[b])
             && NothingConcludes(handled, a, b) && NothingAccepted(handled, a, b)
    ensures var m, command := Run(INITIAL, actions).value.main, pending.command;
            && (Outcome(command, true) in m.outcomes <==>
                  && m.handled[b].Status?
                  && forall key | key in command.values ::
                       key in m.handled[b].data && m.handled[b].data[key] == command.values[key])
            && (Outcome(command, false) in m.outcomes <==> Outcome(command, true) !in m.outcomes)
  {
    var m := Run(INITIAL, actions).value.main;
    JustForever(INITIAL, actions);
    JudgedAtMostOnce(actions, pending.command);
    NotBoth(m.outcomes, pending.command);
    OpenBetween(m.handled, a, b, pending);
    var shown := m.handled[b].Status? &&
      forall key | key in pending.command.values ::
        key in m.handled[b].data && m.handled[b].data[key] == pending.command.values[key];
    assert JudgedAt(m.handled, b, Outcome(pending.command, shown));
  }

  /** Over every run: an automated command the device did not take is judged as failed. */
  lemma RefusedIsFailed(actions: seq<Action>, b: nat)
    requires Run(INITIAL, actions).Some?
    requires var handled := Run(INITIAL, actions).value.main.handled;
             b < |handled| && handled[b].Control? && handled[b].command.automated && !handled[b].ok
    ensures var m := Run(INITIAL, actions).value.main;
            && Outcome(m.handled[b].command, false) in m.outcomes
            && Outcome(m.handled[b].command, true) !in m.outcomes
  {
    var m := Run(INITIAL, actions).value.main;
    JustForever(INITIAL, actions);
    JudgedAtMostOnce(actions, m.handled[b].command);
    NotBoth(m.outcomes, m.handled[b].command);
    assert JudgedAt(m.handled, b, Outcome(m.handled[b].command, false));
  }
}
