/** The events between the two threads: they are handled in the order posted, they leave one
    confirmation open at a time, and they tell the session they come from. */
module EventQueue {
  import opened Options
  import opened Protocol

  predicate AcceptedAutomated(event: Event) {
    event.Control? && event.ok && event.command.automated
  }

  /** What waits for confirmation after one more event. */
  function After(open: Option<Pending>, event: Event): Option<Pending> {
    match event
    case Start => open
    case StateError => None
    case Status(data, _) => if data == map[] then open else None
    case Control(command, ok, session) => if ok && command.automated then Some(Pending(command, session)) else open
  }

  function Unresolved(events: seq<Event>): Option<Pending> {
    if events == [] then None else After(Unresolved(events[..|events| - 1]), events[|events| - 1])
  }

  lemma UnresolvedGrows(events: seq<Event>, event: Event)
    ensures Unresolved(events + [event]) == After(Unresolved(events), event)
  {
    assert (events + [event])[..|events|] == events;
  }

  // ----- The worker posts in order

  /** The event a worker step posts. */
  function Posting(w: Worker): Option<Event> {
    match w.place
    case Starting => Some(Start)
    case StatusStored(data) => Some(Status(data, w.session))
    case Answering(command, ok) => Some(Control(command, ok, w.session))
    case BrokenPosting => Some(StateError)
    case DrainAnswering(command) => Some(Control(command, false, w.session))
    case _ => None
  }

  lemma WorkerPosts(w: Worker, h: Shared)
    ensures WorkerEffect(w, h).posted == if Posting(w).Some? then h.posted + [Posting(w).value] else h.posted
    ensures WorkerEffect(w, h).events == if Posting(w).Some? then h.events + [Posting(w).value] else h.events
  {}

  /** A status with contents is on its way to the event queue. */
  predicate StatusUnderway(place: Place) {
    (place.StatusArrived? || place.StatusStored?) && place.data != map[]
  }

  // ----- The main thread handles in order

  /** The event a main-thread step posts: the answer to a swapped command. */
  function MainPosting(m: MainThread, request: Request): Option<Event> {
    if request == Proceed && m.phase.RefreshAnswering? && m.phase.swapped != []
    then Some(Control(m.phase.swapped[0], false, 0)) else None
  }

  lemma MainPosts(m: MainThread, h: Shared, request: Request)
    ensures MainEffect(m, h, request).posted ==
            if MainPosting(m, request).Some? then h.posted + [MainPosting(m, request).value] else h.posted
    ensures request != SwapEvents ==>
              MainEffect(m, h, request).events ==
              if MainPosting(m, request).Some? then h.events + [MainPosting(m, request).value] else h.events
  {}

  lemma WorkerKeepsFifo(m: MainThread, w: Worker, h: Shared)
    requires Fifo(m, h)
    ensures Fifo(m, WorkerEffect(w, h))
  {
    WorkerPosts(w, h);
    if Posting(w).Some? {
      assert m.handled + m.batch + (h.events + [Posting(w).value]) == h.posted + [Posting(w).value];
    }
  }

  /** Events are handled in the order in which they were posted, none is dropped. */
  predicate Fifo(m: MainThread, h: Shared) {
    h.posted == m.handled + m.batch + h.events
  }

  /** What an operation other than applying an event leaves alone. */
  lemma OnlyProcessingHandles(m: MainThread, h: Shared, request: Request)
    requires Possible(m, request) && request != ProcessEvent
    ensures var next := MainNext(m, h, request);
            next.handled == m.handled && next.pending == m.pending && next.lost == m.lost &&
            (request != SwapEvents ==> next.batch == m.batch)
  {}

  /** What applying an event does to the confirmation in waiting. */
  lemma AppliedSettles(m: MainThread, event: Event)
    ensures var next := Applied(m, event);
            && next.handled == m.handled && next.batch == m.batch
            && next.pending == After(m.pending, event)
            && next.lost == if AcceptedAutomated(event) && m.pending.Some?
                            then m.lost + [(m.pending.value, Pending(event.command, event.session))] else m.lost
  {}

  lemma ProcessingHandles(m: MainThread, h: Shared)
    requires Possible(m, ProcessEvent)
    ensures var next, event := MainNext(m, h, ProcessEvent), m.batch[0];
            && next.handled == m.handled + [event] && next.batch == m.batch[1..]
            && next.pending == After(m.pending, event)
            && next.lost == if AcceptedAutomated(event) && m.pending.Some?
                            then m.lost + [(m.pending.value, Pending(event.command, event.session))] else m.lost
    ensures MainEffect(m, h, ProcessEvent) == h
  {
    AppliedSettles(m.(batch := m.batch[1..], handled := m.handled + [m.batch[0]],
                      luaMayAct := m.batch[0].Status? && m.batch[0].data != map[]), m.batch[0]);
  }

  lemma MainKeepsFifo(m: MainThread, h: Shared, request: Request)
    requires Fifo(m, h) && Possible(m, request)
    ensures Fifo(MainNext(m, h, request), MainEffect(m, h, request))
  {
    if request == ProcessEvent {
      ProcessingHandles(m, h);
      assert m.handled + m.batch + h.events == m.handled + [m.batch[0]] + m.batch[1..] + h.events;
    } else {
      OnlyProcessingHandles(m, h, request);
      MainPosts(m, h, request);
    }
  }

  lemma MainKeepsUnresolved(m: MainThread, h: Shared, request: Request)
    ensures Unresolved(MainEffect(m, h, request).posted) == Unresolved(h.posted)
  {
    MainPosts(m, h, request);
    if MainPosting(m, request).Some? { UnresolvedGrows(h.posted, MainPosting(m, request).value); }
  }

  // ----- Sessions

  /** The number of sessions started by the events. */
  function Starts(events: seq<Event>): nat {
    if events == [] then 0
    else Starts(events[..|events| - 1]) + if events[|events| - 1].Start? then 1 else 0
  }

  lemma StartsMore(events: seq<Event>, event: Event)
    ensures Starts(events + [event]) == Starts(events) + if event.Start? then 1 else 0
  {
    assert (events + [event])[..|events|] == events;
  }

  /** Between two places of the sequence lies a start exactly if the number grew. */
  lemma {:induction false} StartsBetween(events: seq<Event>, a: nat, b: nat)
    requires a <= b <= |events|
    ensures Starts(events[..a]) <= Starts(events[..b])
    ensures Starts(events[..a]) < Starts(events[..b]) <==> exists k :: a <= k < b && events[k].Start?
    decreases b
  {
    if a < b {
      StartsBetween(events, a, b - 1);
      assert events[..b] == events[..b - 1] + [events[b - 1]];
      StartsMore(events[..b - 1], events[b - 1]);
    }
  }

  predicate FromSession(event: Event) {
    event.Status? || AcceptedAutomated(event)
  }

  /** Statuses and acceptances carry the number of sessions started before them. */
  predicate Stamped(events: seq<Event>) {
    forall j | 0 <= j < |events| && FromSession(events[j]) :: events[j].session == Starts(events[..j])
  }

  lemma StampedMore(events: seq<Event>, event: Event)
    requires Stamped(events) && (FromSession(event) ==> event.session == Starts(events))
    ensures Stamped(events + [event])
  {
    var grown := events + [event];
    forall j | 0 <= j < |grown| && FromSession(grown[j])
      ensures grown[j].session == Starts(grown[..j])
    {
      assert grown[..j] == events[..j];
      assert events[..|events|] == events;
    }
  }

  /** The session of the worker is the number of starts posted, but for one not posted yet. */
  predicate Numbering(w: Worker, started: nat) {
    w.session == started + if w.place.Starting? then 1 else 0
  }

  lemma WorkerKeepsNumbering(w: Worker, h: Shared, device: Device, started: nat)
    requires Numbering(w, started) && WorkerNext(w, h, device).Some?
    ensures Numbering(WorkerNext(w, h, device).value, started + if Posting(w) == Some(Start) then 1 else 0)
    ensures Posting(w).Some? && FromSession(Posting(w).value) ==> Posting(w).value.session == started
  {}

  ghost predicate Traced(s: Server) {
    && Stamped(s.shared.posted) && Numbering(s.worker, Starts(s.shared.posted))
    && Fifo(s.main, s.shared) && s.main.pending == Unresolved(s.main.handled)
  }

  lemma WorkerStaysTraced(s: Server, device: Device)
    requires Traced(s) && Next(s, Work(device)).Some?
    ensures Traced(Next(s, Work(device)).value)
  {
    var w, h := s.worker, s.shared;
    WorkerPosts(w, h);
    WorkerKeepsNumbering(w, h, device, Starts(h.posted));
    if Posting(w).Some? {
      var event := Posting(w).value;
      StartsMore(h.posted, event);
      StampedMore(h.posted, event);
      assert s.main.handled + s.main.batch + (h.events + [event]) == h.posted + [event];
    }
  }

  lemma MainPostsStamped(m: MainThread, h: Shared, request: Request)
    requires Stamped(h.posted)
    ensures Stamped(MainEffect(m, h, request).posted) && Starts(MainEffect(m, h, request).posted) == Starts(h.posted)
  {
    MainPosts(m, h, request);
    if MainPosting(m, request).Some? {
      StartsMore(h.posted, MainPosting(m, request).value);
      StampedMore(h.posted, MainPosting(m, request).value);
    }
  }

  lemma PendingFollows(m: MainThread, h: Shared, request: Request)
    requires Possible(m, request) && m.pending == Unresolved(m.handled)
    ensures MainNext(m, h, request).pending == Unresolved(MainNext(m, h, request).handled)
  {
    if request == ProcessEvent {
      ProcessingHandles(m, h);
      UnresolvedGrows(m.handled, m.batch[0]);
    } else {
      OnlyProcessingHandles(m, h, request);
    }
  }

  lemma MainStaysTraced(s: Server, request: Request)
    requires Traced(s) && Possible(s.main, request)
    ensures Traced(Next(s, Serve(request)).value)
  {
    MainKeepsFifo(s.main, s.shared, request);
    MainPostsStamped(s.main, s.shared, request);
    PendingFollows(s.main, s.shared, request);
  }

  lemma {:induction false} TracedForever(s: Server, actions: seq<Action>)
    requires Traced(s) && Run(s, actions).Some?
    ensures Traced(Run(s, actions).value)
    decreases |actions|
  {
    if actions != [] {
      match actions[0] {
        case Work(device) => WorkerStaysTraced(s, device);
        case Serve(request) => MainStaysTraced(s, request);
      }
      TracedForever(Next(s, actions[0]).value, actions[1..]);
    }
  }

  /** Where the unresolved command was accepted. */
  predicate AcceptedAt(events: seq<Event>, a: nat, pending: Pending) {
    a < |events| && AcceptedAutomated(events[a]) && events[a] == Control(pending.command, true, pending.session)
  }

  lemma {:induction false} LastAccepted(events: seq<Event>) returns (a: nat)
    requires Unresolved(events).Some?
    ensures AcceptedAt(events, a, Unresolved(events).value)
    decreases |events|
  {
    a := |events| - 1;
    if !AcceptedAutomated(events[a]) {
      a := LastAccepted(events[..|events| - 1]);
    }
  }

  lemma AcceptedBefore(handled: seq<Event>, posted: seq<Event>, a: nat, pending: Pending)
    requires handled <= posted && Stamped(posted) && AcceptedAt(handled, a, pending)
    ensures pending.session == Starts(handled[..a])
  {
    assert posted[..a] == handled[..a] && FromSession(posted[a]);
  }
}
