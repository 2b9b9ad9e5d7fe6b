/** The single place for a confirmation in waiting: exactly which confirmations are overwritten
    in it, told by the events handled and, within a session, by what the device saw. */
module Confirmation {
  import opened Options
  import opened Protocol
  import opened Serialization
  import opened Conservation
  import opened EventQueue

  // ----- Which confirmations are lost

  /** The confirmation of the first command was waiting when the second one took its place. */
  predicate LostAt(events: seq<Event>, b: nat, first: Pending, second: Pending) {
    AcceptedAt(events, b, second) && Unresolved(events[..b]) == Some(first)
  }

  /** The list of lost confirmations is complete and names nothing else. */
  ghost predicate Recorded(m: MainThread) {
    forall first, second :: (first, second) in m.lost <==> exists b: nat :: LostAt(m.handled, b, first, second)
  }

  lemma LostLater(events: seq<Event>, event: Event, first: Pending, second: Pending)
    ensures (exists b: nat :: LostAt(events + [event], b, first, second)) <==>
            (exists b: nat :: LostAt(events, b, first, second)) ||
            (Unresolved(events) == Some(first) && event == Control(second.command, true, second.session) &&
             second.command.automated)
  {
    var grown, n := events + [event], |events|;
    assert grown[..n] == events;
    if b: nat :| LostAt(grown, b, first, second) {
      if b < n {
        assert grown[..b] == events[..b];
        assert LostAt(events, b, first, second);
      }
    }
    if b: nat :| LostAt(events, b, first, second) {
      assert grown[..b] == events[..b];
      assert LostAt(grown, b, first, second);
    }
    if Unresolved(events) == Some(first) && event == Control(second.command, true, second.session) &&
       second.command.automated {
      assert LostAt(grown, n, first, second);
    }
  }

  lemma ProcessingRecords(m: MainThread, h: Shared)
    requires Possible(m, ProcessEvent) && Recorded(m) && m.pending == Unresolved(m.handled)
    ensures Recorded(MainNext(m, h, ProcessEvent))
  {
    var next, event := MainNext(m, h, ProcessEvent), m.batch[0];
    ProcessingHandles(m, h);
    forall first, second
      ensures (first, second) in next.lost <==> exists b: nat :: LostAt(next.handled, b, first, second)
    {
      LostLater(m.handled, event, first, second);
    }
  }

  lemma {:induction false} RecordedForever(s: Server, actions: seq<Action>)
    requires Recorded(s.main) && s.main.pending == Unresolved(s.main.handled) && Run(s, actions).Some?
    ensures Recorded(Run(s, actions).value.main)
    decreases |actions|
  {
    if actions != [] {
      if actions[0].Serve? {
        PendingFollows(s.main, s.shared, actions[0].request);
        if actions[0].request == ProcessEvent {
          ProcessingRecords(s.main, s.shared);
        } else {
          OnlyProcessingHandles(s.main, s.shared, actions[0].request);
        }
      }
      RecordedForever(Next(s, actions[0]).value, actions[1..]);
    }
  }

  /** The event settles whatever waits. */
  predicate Concludes(event: Event) {
    event.StateError? || (event.Status? && event.data != map[])
  }

  /** From one place to another no event settles a confirmation. */
  predicate NothingConcludes(events: seq<Event>, a: nat, b: nat) {
    b <= |events| && forall k | a < k < b :: !Concludes(events[k])
  }

  predicate NothingAccepted(events: seq<Event>, a: nat, b: nat) {
    b <= |events| && forall k | a < k < b :: !AcceptedAutomated(events[k])
  }

  /** What waits was accepted, and nothing settled or replaced it since. */
  lemma {:induction false} UnresolvedExactly(events: seq<Event>, open: Pending)
    ensures Unresolved(events) == Some(open) <==>
            exists a: nat :: AcceptedAt(events, a, open) && NothingConcludes(events, a, |events|) &&
                             NothingAccepted(events, a, |events|)
    decreases |events|
  {
    if events != [] {
      var n := |events| - 1;
      var shorter := events[..n];
      UnresolvedExactly(shorter, open);
      if Unresolved(events) == Some(open) {
        if AcceptedAutomated(events[n]) {
          assert AcceptedAt(events, n, open);
        } else {
          var a: nat :| AcceptedAt(shorter, a, open) && NothingConcludes(shorter, a, n) &&
            NothingAccepted(shorter, a, n);
          assert AcceptedAt(events, a, open) && NothingConcludes(events, a, n + 1) && NothingAccepted(events, a, n + 1);
        }
      }
      if a: nat :| AcceptedAt(events, a, open) && NothingConcludes(events, a, n + 1) &&
                   NothingAccepted(events, a, n + 1) {
        if a < n {
          assert AcceptedAt(shorter, a, open) && NothingConcludes(shorter, a, n) && NothingAccepted(shorter, a, n);
        }
      }
    }
  }

  /** Two accepted commands, nothing settled between. */
  predicate Unsettled(events: seq<Event>, a: nat, b: nat, first: Pending, second: Pending) {
    a < b && AcceptedAt(events, a, first) && AcceptedAt(events, b, second) && NothingConcludes(events, a, b)
  }

  lemma LossRecorded(m: MainThread, first: Pending, second: Pending)
    requires Recorded(m)
    ensures (first, second) in m.lost <==>
            exists a: nat, b: nat :: Unsettled(m.handled, a, b, first, second) && NothingAccepted(m.handled, a, b)
  {
    if (first, second) in m.lost {
      var b: nat :| LostAt(m.handled, b, first, second);
      UnresolvedExactly(m.handled[..b], first);
      var a: nat :| AcceptedAt(m.handled[..b], a, first) && NothingConcludes(m.handled[..b], a, b) &&
        NothingAccepted(m.handled[..b], a, b);
      assert forall k | a <= k < b :: m.handled[..b][k] == m.handled[k];
      assert Unsettled(m.handled, a, b, first, second) && NothingAccepted(m.handled, a, b);
    }
    if a: nat, b: nat :| Unsettled(m.handled, a, b, first, second) && NothingAccepted(m.handled, a, b) {
      OpenBetween(m.handled, a, b, first);
      assert LostAt(m.handled, b, first, second);
    }
  }

  /** One command's confirmation is lost to another exactly if both were handled as accepted,
      the other one next, and nothing was handled between them that settles one. */
  lemma LossExactly(actions: seq<Action>, first: Pending, second: Pending)
    requires Run(INITIAL, actions).Some?
    ensures var m := Run(INITIAL, actions).value.main;
            (first, second) in m.lost <==>
            exists a: nat, b: nat :: Unsettled(m.handled, a, b, first, second) && NothingAccepted(m.handled, a, b)
  {
    RecordedForever(INITIAL, actions);
    LossRecorded(Run(INITIAL, actions).value.main, first, second);
  }

  lemma OpenBetween(events: seq<Event>, a: nat, b: nat, first: Pending)
    requires a < b && AcceptedAt(events, a, first) && NothingConcludes(events, a, b) && NothingAccepted(events, a, b)
    ensures Unresolved(events[..b]) == Some(first)
  {
    assert forall k | a <= k < b :: events[..b][k] == events[k];
    assert AcceptedAt(events[..b], a, first) && NothingConcludes(events[..b], a, b) &&
      NothingAccepted(events[..b], a, b);
    UnresolvedExactly(events[..b], first);
  }

  /** Whatever was accepted between, some confirmation is lost at the second place or before,
      to a command accepted after the first place. */
  lemma {:induction false} SomeIsLost(events: seq<Event>, a: nat, b: nat, first: Pending, second: Pending)
    returns (c: nat, d: nat, lost: Pending, winner: Pending)
    requires Unsettled(events, a, b, first, second)
    ensures a <= c < d <= b && Unsettled(events, c, d, lost, winner) && NothingAccepted(events, c, d)
    decreases b
  {
    if k :| a < k < b && AcceptedAutomated(events[k]) {
      c, d, lost, winner := SomeIsLost(events, a, k, first, Pending(events[k].command, events[k].session));
    } else {
      c, d, lost, winner := a, b, first, second;
    }
  }

  // ----- What the device saw

  /** The sessions and statuses among the events. */
  function EventFrames(events: seq<Event>): seq<Mark> {
    if events == [] then []
    else
      EventFrames(events[..|events| - 1]) +
      match events[|events| - 1]
      case Start => [SessionOpened]
      case Status(data, _) => [StatusReceived(data != map[])]
      case _ => []
  }

  /** The marks without the attempts. */
  function MarkFrames(marks: seq<Mark>): seq<Mark> {
    if marks == [] then []
    else
      var last := marks[|marks| - 1];
      MarkFrames(marks[..|marks| - 1]) + if last.Attempt? then [] else [last]
  }

  lemma EventFramesMore(events: seq<Event>, event: Event)
    ensures EventFrames(events + [event]) ==
            EventFrames(events) +
            match event
            case Start => [SessionOpened]
            case Status(data, _) => [StatusReceived(data != map[])]
            case _ => []
  {
    assert (events + [event])[..|events|] == events;
  }

  lemma MarkFramesMore(marks: seq<Mark>, mark: Mark)
    ensures MarkFrames(marks + [mark]) == MarkFrames(marks) + if mark.Attempt? then [] else [mark]
  {
    assert (marks + [mark])[..|marks|] == marks;
  }

  /** Marked, but not posted yet. */
  function InFlight(place: Place): seq<Mark> {
    match place
    case Starting => [SessionOpened]
    case StatusArrived(data) => [StatusReceived(data != map[])]
    case StatusStored(data) => [StatusReceived(data != map[])]
    case _ => []
  }

  predicate Holding(place: Place) {
    place.Called? || place.Answering?
  }

  /** The command in hand was attempted last. */
  predicate AttemptInHand(w: Worker) {
    Holding(w.place) ==>
      && w.marks != []
      && var accepted := if w.place.Called? then w.place.accepted else w.place.ok;
         var last := w.marks[|w.marks| - 1];
         last.Attempt? && last.serial == w.place.command.serial && (accepted ==> last.accepted)
  }

  /** The attempts of the accepted commands, in the order of their answers, each after the
      sessions and statuses posted before the answer. */
  predicate Located(marks: seq<Mark>, posted: seq<Event>, places: seq<nat>, bound: int) {
    && |places| == |posted|
    && (forall a | 0 <= a < |posted| && AcceptedAutomated(posted[a]) ::
          && places[a] < bound <= |marks| && marks[places[a]] == Attempt(posted[a].command.serial, true)
          && MarkFrames(marks[..places[a]]) == EventFrames(posted[..a]))
    && (forall a, b | 0 <= a < b < |posted| && AcceptedAutomated(posted[a]) && AcceptedAutomated(posted[b]) ::
          places[a] < places[b])
  }

  function Bound(w: Worker): int {
    |w.marks| - if Holding(w.place) then 1 else 0
  }

  ghost predicate Aligned(w: Worker, posted: seq<Event>) {
    && MarkFrames(w.marks) == EventFrames(posted) + InFlight(w.place)
    && AttemptInHand(w)
    && exists places :: Located(w.marks, posted, places, Bound(w))
  }

  lemma LocatedUnder(marks: seq<Mark>, posted: seq<Event>, places: seq<nat>, bound: int, longer: seq<Mark>, higher: int)
    requires Located(marks, posted, places, bound) && marks <= longer && bound <= higher <= |longer|
    ensures Located(longer, posted, places, higher)
  {
    forall a | 0 <= a < |posted| && AcceptedAutomated(posted[a])
      ensures MarkFrames(longer[..places[a]]) == EventFrames(posted[..a])
    {
      assert longer[..places[a]] == marks[..places[a]];
    }
  }

  lemma LocatedMore(marks: seq<Mark>, posted: seq<Event>, places: seq<nat>, bound: int, event: Event, place: nat)
    requires Located(marks, posted, places, bound) && bound <= |marks|
    requires AcceptedAutomated(event) ==>
               && bound == place < |marks| && marks[place] == Attempt(event.command.serial, true)
               && MarkFrames(marks[..place]) == EventFrames(posted)
    ensures Located(marks, posted + [event], places + [place], |marks|)
  {
    var grown := posted + [event];
    forall a | 0 <= a < |grown| && AcceptedAutomated(grown[a])
      ensures MarkFrames(marks[..(places + [place])[a]]) == EventFrames(grown[..a])
    {
      assert grown[..a] == posted[..a];
      assert posted[..|posted|] == posted;
    }
  }

  /** The mark a worker step makes. */
  function Marking(w: Worker, device: Device): Option<Mark> {
    match w.place
    case Opening => Some(SessionOpened)
    case Observing => if device.Reports? then Some(StatusReceived(device.data != map[])) else None
    case Calling(command) => Some(Attempt(command.serial, device.Accepts?))
    case _ => None
  }

  /** The next state of a worker that only makes the mark. */
  predicate Follows(w: Worker, next: Worker, mark: Option<Mark>) {
    && next.marks == w.marks + (if mark.Some? then [mark.value] else [])
    && InFlight(w.place) == [] && !Holding(w.place) && AttemptInHand(next)
    && InFlight(next.place) == (if mark.Some? && !mark.value.Attempt? then [mark.value] else [])
    && (Holding(next.place) ==> mark.Some?)
  }

  lemma MarkingStep(w: Worker, h: Shared, device: Device)
    requires Marks(w.place) && WorkerNext(w, h, device).Some?
    ensures Follows(w, WorkerNext(w, h, device).value, Marking(w, device))
    ensures WorkerEffect(w, h).posted == h.posted
  {}

  lemma MarkAligns(w: Worker, posted: seq<Event>, next: Worker, mark: Option<Mark>)
    requires Aligned(w, posted) && Follows(w, next, mark)
    ensures Aligned(next, posted)
  {
    if mark.Some? { MarkFramesMore(w.marks, mark.value); } else { assert next.marks == w.marks; }
    assert MarkFrames(next.marks) == EventFrames(posted) + InFlight(next.place);
    var places :| Located(w.marks, posted, places, Bound(w));
    LocatedUnder(w.marks, posted, places, Bound(w), next.marks, Bound(next));
    assert Located(next.marks, posted, places, Bound(next));
  }

  lemma MarkingStaysAligned(w: Worker, h: Shared, device: Device)
    requires Aligned(w, h.posted) && Marks(w.place) && WorkerNext(w, h, device).Some?
    ensures Aligned(WorkerNext(w, h, device).value, WorkerEffect(w, h).posted)
  {
    MarkingStep(w, h, device);
    MarkAligns(w, h.posted, WorkerNext(w, h, device).value, Marking(w, device));
  }

  lemma QuietStaysAligned(w: Worker, h: Shared, device: Device)
    requires Aligned(w, h.posted) && !Marks(w.place) && Posting(w).None? && WorkerNext(w, h, device).Some?
    ensures Aligned(WorkerNext(w, h, device).value, WorkerEffect(w, h).posted)
  {
    WorkerPosts(w, h);
    var next := WorkerNext(w, h, device).value;
    QuietStep(w, h, device);
    var places :| Located(w.marks, h.posted, places, Bound(w));
    assert Located(next.marks, h.posted, places, Bound(next));
  }

  lemma QuietStep(w: Worker, h: Shared, device: Device)
    requires !Marks(w.place) && Posting(w).None? && WorkerNext(w, h, device).Some? && AttemptInHand(w)
    ensures var next := WorkerNext(w, h, device).value;
            && next.marks == w.marks && InFlight(next.place) == InFlight(w.place)
            && Bound(next) == Bound(w) && AttemptInHand(next)
  {}

  /** The next state of a worker that posts the event. */
  predicate Posts(w: Worker, next: Worker, event: Event) {
    && next.marks == w.marks && InFlight(next.place) == [] && !Holding(next.place)
    && (Holding(w.place) ==> w.place.Answering? && InFlight(w.place) == [])
    && (AcceptedAutomated(event) ==> w.place.Answering? && w.place.ok && event.command == w.place.command)
  }

  lemma PostingStep(w: Worker, h: Shared, device: Device)
    requires Posting(w).Some? && WorkerNext(w, h, device).Some?
    ensures Posts(w, WorkerNext(w, h, device).value, Posting(w).value)
  {}

  lemma PostingFlies(w: Worker, posted: seq<Event>)
    requires Posting(w).Some?
    ensures EventFrames(posted + [Posting(w).value]) == EventFrames(posted) + InFlight(w.place)
  {
    EventFramesMore(posted, Posting(w).value);
  }

  lemma AttemptIsNoFrame(w: Worker)
    requires AttemptInHand(w) && Holding(w.place)
    ensures MarkFrames(w.marks[..|w.marks| - 1]) == MarkFrames(w.marks)
  {
    var n := |w.marks| - 1;
    assert w.marks == w.marks[..n] + [w.marks[n]];
    MarkFramesMore(w.marks[..n], w.marks[n]);
  }

  lemma PostAligns(w: Worker, posted: seq<Event>, next: Worker, event: Event)
    requires Aligned(w, posted) && Posts(w, next, event)
    requires EventFrames(posted + [event]) == EventFrames(posted) + InFlight(w.place)
    ensures Aligned(next, posted + [event])
  {
    var places :| Located(w.marks, posted, places, Bound(w));
    var place: nat := if Holding(w.place) then |w.marks| - 1 else 0;
    if Holding(w.place) { AttemptIsNoFrame(w); }
    LocatedMore(w.marks, posted, places, Bound(w), event, place);
    assert Located(next.marks, posted + [event], places + [place], Bound(next));
  }

  lemma PostingStaysAligned(w: Worker, h: Shared, device: Device)
    requires Aligned(w, h.posted) && Posting(w).Some? && WorkerNext(w, h, device).Some?
    ensures Aligned(WorkerNext(w, h, device).value, WorkerEffect(w, h).posted)
  {
    WorkerPosts(w, h);
    PostingStep(w, h, device);
    PostingFlies(w, h.posted);
    PostAligns(w, h.posted, WorkerNext(w, h, device).value, Posting(w).value);
  }

  lemma WorkerStaysAligned(w: Worker, h: Shared, device: Device)
    requires Aligned(w, h.posted) && WorkerNext(w, h, device).Some?
    ensures Aligned(WorkerNext(w, h, device).value, WorkerEffect(w, h).posted)
  {
    if Marks(w.place) {
      MarkingStaysAligned(w, h, device);
    } else if Posting(w).None? {
      QuietStaysAligned(w, h, device);
    } else {
      PostingStaysAligned(w, h, device);
    }
  }

  lemma MainStaysAligned(w: Worker, m: MainThread, h: Shared, request: Request)
    requires Aligned(w, h.posted)
    ensures Aligned(w, MainEffect(m, h, request).posted)
  {
    MainPosts(m, h, request);
    if MainPosting(m, request).Some? { RefusalAligns(w, h.posted, MainPosting(m, request).value); }
  }

  lemma RefusalAligns(w: Worker, posted: seq<Event>, event: Event)
    requires Aligned(w, posted) && event.Control? && !event.ok
    ensures Aligned(w, posted + [event])
  {
    EventFramesMore(posted, event);
    var places :| Located(w.marks, posted, places, Bound(w));
    LocatedQuietly(w.marks, posted, places, Bound(w), event);
  }

  lemma LocatedQuietly(marks: seq<Mark>, posted: seq<Event>, places: seq<nat>, bound: int, event: Event)
    requires Located(marks, posted, places, bound) && !AcceptedAutomated(event)
    ensures Located(marks, posted + [event], places + [0], bound)
  {
    var grown := posted + [event];
    forall a | 0 <= a < |grown| && AcceptedAutomated(grown[a])
      ensures MarkFrames(marks[..(places + [0])[a]]) == EventFrames(grown[..a])
    {
      assert grown[..a] == posted[..a];
    }
  }

  lemma {:induction false} AlignedForever(s: Server, actions: seq<Action>)
    requires Aligned(s.worker, s.shared.posted) && Run(s, actions).Some?
    ensures Aligned(Run(s, actions).value.worker, Run(s, actions).value.shared.posted)
    decreases |actions|
  {
    if actions != [] {
      match actions[0] {
        case Work(device) => WorkerStaysAligned(s.worker, s.shared, device);
        case Serve(request) => MainStaysAligned(s.worker, s.main, s.shared, request);
      }
      AlignedForever(Next(s, actions[0]).value, actions[1..]);
    }
  }

  // ----- Attempts are told apart by their serials

  predicate AttemptsAscend(w: Worker) {
    && (forall i | 0 <= i < |w.marks| && w.marks[i].Attempt? :: w.marks[i].serial in w.attempts)
    && (forall i, j | 0 <= i < j < |w.marks| && w.marks[i].Attempt? && w.marks[j].Attempt? ::
          w.marks[i].serial < w.marks[j].serial)
  }

  lemma WorkerKeepsAscending(w: Worker, h: Shared, device: Device)
    requires AttemptsAscend(w) && InOrder(w, h) && WorkerNext(w, h, device).Some?
    ensures AttemptsAscend(WorkerNext(w, h, device).value)
  {
    if w.place.Calling? {
    } else if Marks(w.place) {
    } else {
      OtherStepMarksNothing(w, h, device);
      AttemptsStay(w, h, device);
    }
  }

  lemma AttemptsStay(w: Worker, h: Shared, device: Device)
    requires !w.place.Calling? && WorkerNext(w, h, device).Some?
    ensures WorkerNext(w, h, device).value.attempts == w.attempts
  {}

  lemma {:induction false} AscendForever(s: Server, actions: seq<Action>)
    requires AttemptsAscend(s.worker) && Ordered(s) && Run(s, actions).Some?
    ensures AttemptsAscend(Run(s, actions).value.worker)
    decreases |actions|
  {
    if actions != [] {
      if actions[0].Work? { WorkerKeepsAscending(s.worker, s.shared, actions[0].device); }
      OrderedStep(s, actions[0]);
      AscendForever(Next(s, actions[0]).value, actions[1..]);
    }
  }

  // ----- A failure ends the session

  /** Since the last start there was a failure. */
  function Halted(events: seq<Event>): bool {
    if events == [] then false
    else
      match events[|events| - 1]
      case Start => false
      case StateError => true
      case _ => Halted(events[..|events| - 1])
  }

  lemma HaltedMore(events: seq<Event>, event: Event)
    ensures Halted(events + [event]) <==> event.StateError? || (!event.Start? && Halted(events))
  {
    assert (events + [event])[..|events|] == events;
  }

  lemma {:induction false} StartAfterHalt(events: seq<Event>, k: nat, b: nat) returns (j: nat)
    requires k < b <= |events| && events[k].StateError? && !Halted(events[..b])
    ensures k < j < b && events[j].Start?
    decreases b
  {
    assert events[..b] == events[..b - 1] + [events[b - 1]];
    HaltedMore(events[..b - 1], events[b - 1]);
    if events[b - 1].Start? { j := b - 1; } else { j := StartAfterHalt(events, k, b - 1); }
  }

  predicate Off(place: Place) {
    place.Draining? || place.DrainAnswering? || place.DrainDone? || place.Pausing? || place.Closing? ||
    place.OuterTop? || place.Opening? || place.Starting? || place.Ended?
  }

  /** Commands are accepted only in sessions that have not failed. */
  ghost predicate Live(w: Worker, h: Shared) {
    && (Halted(h.posted) ==> Off(w.place))
    && forall b | 0 <= b < |h.posted| && AcceptedAutomated(h.posted[b]) :: !Halted(h.posted[..b])
  }

  lemma LiveMore(posted: seq<Event>, event: Event)
    requires forall b | 0 <= b < |posted| && AcceptedAutomated(posted[b]) :: !Halted(posted[..b])
    requires AcceptedAutomated(event) ==> !Halted(posted)
    ensures var grown := posted + [event];
            forall b | 0 <= b < |grown| && AcceptedAutomated(grown[b]) :: !Halted(grown[..b])
  {
    var grown := posted + [event];
    forall b | 0 <= b < |grown| && AcceptedAutomated(grown[b]) ensures !Halted(grown[..b]) {
      assert grown[..b] == posted[..b];
      assert posted[..|posted|] == posted;
    }
  }

  lemma OffStays(w: Worker, h: Shared, device: Device)
    requires WorkerNext(w, h, device).Some?
    ensures Off(w.place) && !w.place.Starting? ==> Off(WorkerNext(w, h, device).value.place)
    ensures w.place.BrokenPosting? ==> Off(WorkerNext(w, h, device).value.place)
    ensures Posting(w) == Some(StateError) <==> w.place.BrokenPosting?
    ensures Posting(w) == Some(Start) <==> w.place.Starting?
  {}

  lemma WorkerStaysLive(w: Worker, h: Shared, device: Device)
    requires Live(w, h) && WorkerNext(w, h, device).Some?
    ensures Live(WorkerNext(w, h, device).value, WorkerEffect(w, h))
  {
    WorkerPosts(w, h);
    OffStays(w, h, device);
    if Posting(w).Some? {
      PostingStep(w, h, device);
      HaltedMore(h.posted, Posting(w).value);
      LiveMore(h.posted, Posting(w).value);
    }
  }

  lemma MainStaysLive(w: Worker, m: MainThread, h: Shared, request: Request)
    requires Live(w, h)
    ensures Live(w, MainEffect(m, h, request))
  {
    MainPosts(m, h, request);
    if MainPosting(m, request).Some? {
      HaltedMore(h.posted, MainPosting(m, request).value);
      LiveMore(h.posted, MainPosting(m, request).value);
    }
  }

  lemma {:induction false} LiveForever(s: Server, actions: seq<Action>)
    requires Live(s.worker, s.shared) && Run(s, actions).Some?
    ensures Live(Run(s, actions).value.worker, Run(s, actions).value.shared)
    decreases |actions|
  {
    if actions != [] {
      match actions[0] {
        case Work(device) => WorkerStaysLive(s.worker, s.shared, device);
        case Serve(request) => MainStaysLive(s.worker, s.main, s.shared, request);
      }
      LiveForever(Next(s, actions[0]).value, actions[1..]);
    }
  }

  // ----- Within a session

  /** No session opens and no status with contents comes between two marks. */
  predicate NothingHeard(marks: seq<Mark>, i: nat, j: nat) {
    j <= |marks| && forall k | i < k < j :: marks[k] != SessionOpened && marks[k] != StatusReceived(true)
  }

  /** The device accepted the first command and later the second one, and between reported
      nothing but statuses without contents. */
  predicate BlankBetween(marks: seq<Mark>, first: nat, second: nat) {
    exists i, j ::
      0 <= i < j < |marks| && marks[i] == Attempt(first, true) && marks[j] == Attempt(second, true) &&
      NothingHeard(marks, i, j)
  }

  predicate BlankFrom(frames: seq<Mark>, from: nat) {
    forall k | from <= k < |frames| :: frames[k] == StatusReceived(false)
  }

  lemma {:induction false} MarkFramesBetween(marks: seq<Mark>, i: nat, j: nat)
    requires i <= j <= |marks|
    ensures MarkFrames(marks[..i]) <= MarkFrames(marks[..j])
    ensures BlankFrom(MarkFrames(marks[..j]), |MarkFrames(marks[..i])|) <==>
            forall k | i <= k < j :: marks[k] != SessionOpened && marks[k] != StatusReceived(true)
    decreases j
  {
    if i < j {
      MarkFramesBetween(marks, i, j - 1);
      assert marks[..j] == marks[..j - 1] + [marks[j - 1]];
      MarkFramesMore(marks[..j - 1], marks[j - 1]);
      BlankFromMore(MarkFrames(marks[..j - 1]), MarkFrames(marks[..j]), |MarkFrames(marks[..i])|);
    }
  }

  lemma BlankFromMore(frames: seq<Mark>, longer: seq<Mark>, from: nat)
    requires frames <= longer && from <= |frames| && |longer| <= |frames| + 1
    ensures BlankFrom(longer, from) <==>
            BlankFrom(frames, from) && (|longer| > |frames| ==> longer[|frames|] == StatusReceived(false))
  {}

  /** A session starts, or a status with contents comes. */
  predicate Told(event: Event) {
    event.Start? || (event.Status? && event.data != map[])
  }

  lemma {:induction false} EventFramesBetween(events: seq<Event>, a: nat, b: nat)
    requires a <= b <= |events|
    ensures EventFrames(events[..a]) <= EventFrames(events[..b])
    ensures BlankFrom(EventFrames(events[..b]), |EventFrames(events[..a])|) <==>
            forall k | a <= k < b :: !Told(events[k])
    decreases b
  {
    if a < b {
      EventFramesBetween(events, a, b - 1);
      assert events[..b] == events[..b - 1] + [events[b - 1]];
      EventFramesMore(events[..b - 1], events[b - 1]);
      BlankFromMore(EventFrames(events[..b - 1]), EventFrames(events[..b]), |EventFrames(events[..a])|);
    }
  }

  /** Between the answers the same was posted as the device reported between the attempts. */
  lemma SeenBetween(marks: seq<Mark>, posted: seq<Event>, places: seq<nat>, bound: int, a: nat, b: nat)
    requires Located(marks, posted, places, bound)
    requires a < b < |posted| && AcceptedAutomated(posted[a]) && AcceptedAutomated(posted[b])
    ensures NothingHeard(marks, places[a], places[b]) <==> forall k | a < k < b :: !Told(posted[k])
  {
    MarkFramesBetween(marks, places[a], places[b]);
    EventFramesBetween(posted, a, b);
  }

  /** Two accepted commands are of one session, with nothing settled between, exactly if the
      device reported nothing between. */
  lemma SameSessionSeen(marks: seq<Mark>, posted: seq<Event>, places: seq<nat>, bound: int, a: nat, b: nat)
    requires Located(marks, posted, places, bound) && Stamped(posted)
    requires a < b < |posted| && AcceptedAutomated(posted[a]) && AcceptedAutomated(posted[b])
    requires !Halted(posted[..b])
    ensures posted[a].session <= posted[b].session
    ensures posted[a].session == posted[b].session && NothingConcludes(posted, a, b) <==>
            NothingHeard(marks, places[a], places[b])
  {
    SeenBetween(marks, posted, places, bound, a, b);
    StartsBetween(posted, a, b);
    if (forall k | a < k < b :: !Told(posted[k])) && !NothingConcludes(posted, a, b) {
      var k :| a < k < b && Concludes(posted[k]);
      var j := StartAfterHalt(posted, k, b);
    }
  }

  /** The attempts of two commands are found by their serials. */
  lemma BlankAt(w: Worker, i: nat, j: nat, first: nat, second: nat)
    requires AttemptsAscend(w) && i < |w.marks| && j < |w.marks|
    requires w.marks[i] == Attempt(first, true) && w.marks[j] == Attempt(second, true)
    ensures BlankBetween(w.marks, first, second) <==> i < j && NothingHeard(w.marks, i, j)
  {}

  /** What every run keeps. */
  ghost predicate Confirmed(s: Server) {
    && Aligned(s.worker, s.shared.posted) && AttemptsAscend(s.worker) && Ordered(s)
    && Live(s.worker, s.shared) && Traced(s) && Recorded(s.main)
  }

  /** Before anything happened. */
  lemma NothingYet(s: Server)
    requires s.worker == Worker(OuterTop, false, 0, [], [])
    requires s.shared.commands == [] && s.shared.queued == [] && s.shared.posted == [] && s.shared.events == []
    requires s.main.handled == [] && s.main.batch == [] && s.main.lost == [] && s.main.pending.None?
    ensures Confirmed(s)
  {
    assert Located(s.worker.marks, s.shared.posted, [], Bound(s.worker));
    assert Aligned(s.worker, s.shared.posted);
    assert Live(s.worker, s.shared);
    assert Recorded(s.main);
  }

  lemma ConfirmedForever(s: Server, actions: seq<Action>)
    requires Confirmed(s) && Run(s, actions).Some?
    ensures Confirmed(Run(s, actions).value)
  {
    AlignedForever(s, actions);
    AscendForever(s, actions);
    OrderedForever(s, actions);
    LiveForever(s, actions);
    TracedForever(s, actions);
    RecordedForever(s, actions);
  }

  /** For two accepted answers in the order posted. */
  lemma SameSession(s: Server, a: nat, b: nat)
    requires Confirmed(s)
    requires a < b < |s.shared.posted|
    requires AcceptedAutomated(s.shared.posted[a]) && AcceptedAutomated(s.shared.posted[b])
    ensures var first, second := s.shared.posted[a], s.shared.posted[b];
            && first.session <= second.session
            && (first.session == second.session && NothingConcludes(s.shared.posted, a, b) <==>
                  BlankBetween(s.worker.marks, first.command.serial, second.command.serial))
  {
    var w, posted := s.worker, s.shared.posted;
    var places :| Located(w.marks, posted, places, Bound(w));
    SameSessionSeen(w.marks, posted, places, Bound(w), a, b);
    BlankAt(w, places[a], places[b], posted[a].command.serial, posted[b].command.serial);
  }

  lemma AlwaysConfirmed(actions: seq<Action>)
    requires Run(INITIAL, actions).Some?
    ensures Confirmed(Run(INITIAL, actions).value)
  {
    NothingYet(INITIAL);
    ConfirmedForever(INITIAL, actions);
  }

  /** The first of two commands is of an earlier session, or else, and only then, the device
      reported nothing but statuses without contents between the two. */
  predicate OnlyAfterBlank(marks: seq<Mark>, first: Pending, second: Pending) {
    && first.session <= second.session
    && (first.session == second.session <==> BlankBetween(marks, first.command.serial, second.command.serial))
  }

  lemma WaitingIsOlder(s: Server)
    requires Confirmed(s)
    requires s.main.batch != [] && AcceptedAutomated(s.main.batch[0]) && s.main.pending.Some?
    ensures OnlyAfterBlank(s.worker.marks, s.main.pending.value,
                           Pending(s.main.batch[0].command, s.main.batch[0].session))
  {
    var n, posted, handled := |s.main.handled|, s.shared.posted, s.main.handled;
    assert posted[..n] == handled && posted[n] == s.main.batch[0];
    UnresolvedExactly(handled, s.main.pending.value);
    var a: nat :| AcceptedAt(handled, a, s.main.pending.value) && NothingConcludes(handled, a, n);
    assert forall k | a <= k < n :: posted[k] == handled[k];
    SameSession(s, a, n);
  }

  /** When an accepted automated command is about to be put in waiting while another one
      waits: that one is of an earlier session, or the device reported nothing but statuses
      without contents between the two. */
  lemma PlaceIsFree(actions: seq<Action>)
    requires Run(INITIAL, actions).Some?
    requires var m := Run(INITIAL, actions).value.main;
             m.batch != [] && AcceptedAutomated(m.batch[0]) && m.pending.Some?
    ensures var s := Run(INITIAL, actions).value;
            OnlyAfterBlank(s.worker.marks, s.main.pending.value,
                           Pending(s.main.batch[0].command, s.main.batch[0].session))
  {
    AlwaysConfirmed(actions);
    WaitingIsOlder(Run(INITIAL, actions).value);
  }

  lemma LostIsOlder(s: Server, first: Pending, second: Pending)
    requires Confirmed(s) && (first, second) in s.main.lost
    ensures OnlyAfterBlank(s.worker.marks, first, second)
  {
    LossRecorded(s.main, first, second);
    var a: nat, b: nat :| Unsettled(s.main.handled, a, b, first, second);
    assert forall k | a <= k <= b :: s.shared.posted[k] == s.main.handled[k];
    SameSession(s, a, b);
  }

  /** A confirmation is lost to a command of the same session only, and then surely, if the
      device reported nothing but statuses without contents between the two. */
  lemma NoLossWithinSession(actions: seq<Action>, first: Pending, second: Pending)
    requires Run(INITIAL, actions).Some? && (first, second) in Run(INITIAL, actions).value.main.lost
    ensures OnlyAfterBlank(Run(INITIAL, actions).value.worker.marks, first, second)
  {
    AlwaysConfirmed(actions);
    LostIsOlder(Run(INITIAL, actions).value, first, second);
  }

  /** Two commands of the session were handled as accepted, and between their attempts the
      device reported nothing but statuses without contents. */
  predicate BothHandled(events: seq<Event>, marks: seq<Mark>, a: nat, b: nat, session: nat) {
    && a < |events| && AcceptedAutomated(events[a]) && events[a].session == session
    && b < |events| && AcceptedAutomated(events[b]) && events[b].session == session
    && BlankBetween(marks, events[a].command.serial, events[b].command.serial)
  }

  predicate LostWithin(m: MainThread, session: nat) {
    exists i :: 0 <= i < |m.lost| && m.lost[i].0.session == session && m.lost[i].1.session == session
  }

  lemma LossIsBlank(s: Server, first: Pending, second: Pending)
    requires Confirmed(s) && (first, second) in s.main.lost && first.session == second.session
    ensures exists a: nat, b: nat :: BothHandled(s.main.handled, s.worker.marks, a, b, first.session)
  {
    LostIsOlder(s, first, second);
    LossRecorded(s.main, first, second);
    var a: nat, b: nat :| Unsettled(s.main.handled, a, b, first, second);
    assert BothHandled(s.main.handled, s.worker.marks, a, b, first.session);
  }

  lemma BlankInOrder(s: Server, a: nat, b: nat)
    requires Confirmed(s) && a < |s.shared.posted| && b < |s.shared.posted|
    requires AcceptedAutomated(s.shared.posted[a]) && AcceptedAutomated(s.shared.posted[b])
    requires BlankBetween(s.worker.marks, s.shared.posted[a].command.serial, s.shared.posted[b].command.serial)
    ensures a < b
  {
    var w, posted := s.worker, s.shared.posted;
    var places :| Located(w.marks, posted, places, Bound(w));
    BlankAt(w, places[a], places[b], posted[a].command.serial, posted[b].command.serial);
  }

  /** Sessions never go back between accepted answers. */
  lemma SessionsAscend(posted: seq<Event>, a: nat, b: nat)
    requires Stamped(posted) && a <= b < |posted|
    requires AcceptedAutomated(posted[a]) && AcceptedAutomated(posted[b])
    ensures posted[a].session <= posted[b].session
  {
    assert FromSession(posted[a]) && FromSession(posted[b]);
    StartsBetween(posted, a, b);
  }

  lemma BlankUnsettled(s: Server, a: nat, b: nat, session: nat)
    requires Confirmed(s) && BothHandled(s.main.handled, s.worker.marks, a, b, session)
    ensures Unsettled(s.main.handled, a, b, Pending(s.main.handled[a].command, session),
                      Pending(s.main.handled[b].command, session))
  {
    var handled, posted := s.main.handled, s.shared.posted;
    assert forall k | 0 <= k < |handled| :: posted[k] == handled[k];
    BlankInOrder(s, a, b);
    SameSession(s, a, b);
  }

  lemma BlankLoses(s: Server, a: nat, b: nat, session: nat)
    requires Confirmed(s) && BothHandled(s.main.handled, s.worker.marks, a, b, session)
    ensures LostWithin(s.main, session)
  {
    var handled, posted := s.main.handled, s.shared.posted;
    BlankUnsettled(s, a, b, session);
    var first, second := Pending(handled[a].command, session), Pending(handled[b].command, session);
    var c, d, lost, winner := SomeIsLost(handled, a, b, first, second);
    LossRecorded(s.main, lost, winner);
    assert posted[a] == handled[a] && posted[b] == handled[b] && posted[c] == handled[c] && posted[d] == handled[d];
    SessionsAscend(posted, a, c);
    SessionsAscend(posted, c, d);
    SessionsAscend(posted, d, b);
  }

  /** A session loses a confirmation to a command of its own exactly if the device accepted two
      of its automated commands with nothing but statuses without contents between, and
      both acceptances were handled. */
  lemma SessionLosesExactly(actions: seq<Action>, session: nat)
    requires Run(INITIAL, actions).Some?
    ensures var s := Run(INITIAL, actions).value;
            LostWithin(s.main, session) <==>
            exists a: nat, b: nat :: BothHandled(s.main.handled, s.worker.marks, a, b, session)
  {
    AlwaysConfirmed(actions);
    var s := Run(INITIAL, actions).value;
    if i :| 0 <= i < |s.main.lost| && s.main.lost[i].0.session == session && s.main.lost[i].1.session == session {
      assert (s.main.lost[i].0, s.main.lost[i].1) in s.main.lost;
      LossIsBlank(s, s.main.lost[i].0, s.main.lost[i].1);
    }
    if a: nat, b: nat :| BothHandled(s.main.handled, s.worker.marks, a, b, session) {
      BlankLoses(s, a, b, session);
    }
  }

  /** That needs a status without contents. */
  lemma NoBlankWithContents(actions: seq<Action>, first: nat, second: nat)
    requires Run(INITIAL, actions).Some?
    requires forall i | 0 <= i < |actions| :: WithContents(actions[i])
    ensures !BlankBetween(Run(INITIAL, actions).value.worker.marks, first, second)
  {
    ContentsForever(INITIAL, actions);
    StatusBetweenAttempts(actions);
    var marks := Run(INITIAL, actions).value.worker.marks;
    forall i, j | 0 <= i < j < |marks| && marks[i].Attempt? && marks[j].Attempt?
      ensures !NothingHeard(marks, i, j)
    {
      if forall k | i < k < j :: !marks[k].SessionOpened? {
        var k :| i < k < j && marks[k].StatusReceived?;
        assert marks[k] == StatusReceived(true);
      }
    }
  }
}
