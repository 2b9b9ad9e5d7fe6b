/** No command is lost, doubled or overtaken. */
module Conservation {
  import opened Protocol

  /** The command in the hands of the worker. */
  function Held(place: Place): seq<Command> {
    match place
    case Calling(command) => [command]
    case Called(command, _) => [command]
    case Answering(command, _) => [command]
    case DrainAnswering(command) => [command]
    case _ => []
  }

  /** The commands a refresh took out of the queue and has not answered yet. */
  function Swapped(phase: Phase): seq<Command> {
    match phase
    case RefreshAnswering(swapped) => swapped
    case _ => []
  }

  function Times(c: Command, commands: seq<Command>): nat {
    multiset(commands)[c]
  }

  /** The command occurs in the queue, in the hands of the worker, in the batch of a refresh
      and among the answers together as often as it was queued. */
  predicate Conserved(c: Command, h: Shared, place: Place, phase: Phase) {
    Times(c, h.queued) ==
    Times(c, h.commands) + Times(c, Held(place)) + Times(c, Swapped(phase)) + Times(c, h.answered)
  }

  lemma TimesPop(c: Command, commands: seq<Command>)
    requires commands != []
    ensures Times(c, commands) == Times(c, [commands[0]]) + Times(c, commands[1..])
  {
    assert commands == [commands[0]] + commands[1..];
  }

  lemma TimesGrow(c: Command, commands: seq<Command>, last: Command)
    ensures Times(c, commands + [last]) == Times(c, commands) + Times(c, [last])
  {}

  /** The four ways a step moves commands between the places: the worker takes the first
      one, a command is answered, one is queued, the queue moves into the refresh batch. */
  datatype Move = Stay | Take | Answer | AnswerSwapped | Enqueue(command: Command) | Swap

  predicate Moves(move: Move, h: Shared, place: Place, phase: Phase, h': Shared, place': Place, phase': Phase) {
    && h'.queued == (if move.Enqueue? then h.queued + [move.command] else h.queued)
    && match move
       case Stay =>
         h'.commands == h.commands && h'.answered == h.answered && Held(place') == Held(place) &&
           Swapped(phase') == Swapped(phase)
       case Take =>
         && h.commands != [] && h'.commands == h.commands[1..] && h'.answered == h.answered
         && Held(place) == [] && Held(place') == [h.commands[0]] && Swapped(phase') == Swapped(phase)
       case Answer =>
         && |Held(place)| == 1 && h'.commands == h.commands && h'.answered == h.answered + [Held(place)[0]]
         && Held(place') == [] && Swapped(phase') == Swapped(phase)
       case AnswerSwapped =>
         && Swapped(phase) != [] && h'.commands == h.commands && h'.answered == h.answered + [Swapped(phase)[0]]
         && Held(place') == Held(place) && Swapped(phase') == Swapped(phase)[1..]
       case Enqueue(command) =>
         && command.serial == |h.queued| && h'.commands == h.commands + [command] && h'.answered == h.answered
         && Held(place') == Held(place) && Swapped(phase') == Swapped(phase)
       case Swap =>
         && h'.commands == [] && h'.answered == h.answered
         && Held(place') == Held(place) && Swapped(phase) == [] && Swapped(phase') == h.commands
  }

  lemma MovesConserve(c: Command, move: Move, h: Shared, place: Place, phase: Phase, h': Shared, place': Place,
                      phase': Phase)
    requires Moves(move, h, place, phase, h', place', phase') && Conserved(c, h, place, phase)
    ensures Conserved(c, h', place', phase')
  {
    match move
    case Stay =>
    case Take => TimesPop(c, h.commands);
    case Answer => TimesGrow(c, h.answered, Held(place)[0]);
    case AnswerSwapped =>
      TimesPop(c, Swapped(phase));
      TimesGrow(c, h.answered, Swapped(phase)[0]);
    case Enqueue(command) =>
      TimesGrow(c, h.queued, command);
      TimesGrow(c, h.commands, command);
    case Swap =>
  }

  function WorkerMove(w: Worker, h: Shared): Move {
    if (w.place.Taking? || w.place.Draining?) && h.commands != [] then Take
    else if w.place.Answering? || w.place.DrainAnswering? then Answer
    else Stay
  }

  lemma WorkerKeepsHolding(w: Worker, h: Shared, device: Device)
    requires WorkerNext(w, h, device).Some?
    ensures var place := WorkerNext(w, h, device).value.place;
            match WorkerMove(w, h)
            case Take => Held(w.place) == [] && Held(place) == [h.commands[0]]
            case Answer => |Held(w.place)| == 1 && Held(place) == []
            case _ => Held(place) == Held(w.place)
  {}

  lemma WorkerShifts(w: Worker, h: Shared)
    ensures var h' := WorkerEffect(w, h);
            && h'.queued == h.queued
            && h'.commands == (if WorkerMove(w, h) == Take then h.commands[1..] else h.commands)
            && (WorkerMove(w, h) == Answer ==> Held(w.place) != [] && h'.answered == h.answered + [Held(w.place)[0]])
            && (WorkerMove(w, h) != Answer ==> h'.answered == h.answered)
  {}

  lemma WorkerMoves(w: Worker, h: Shared, device: Device, phase: Phase)
    requires WorkerNext(w, h, device).Some?
    ensures Moves(WorkerMove(w, h), h, w.place, phase, WorkerEffect(w, h), WorkerNext(w, h, device).value.place, phase)
  {
    WorkerKeepsHolding(w, h, device);
    WorkerShifts(w, h);
  }

  function MainMove(m: MainThread, h: Shared, request: Request): Move {
    if request != Proceed then Stay
    else match m.phase
      case Pushing(client, id, values, automated) =>
        if automated && AutomationBusy(m, h) then Stay else Enqueue(Command(|h.queued|, client, id, values, automated))
      case RefreshLock => Swap
      case RefreshAnswering(swapped) => if swapped == [] then Stay else AnswerSwapped
      case _ => Stay
  }

  lemma ProcessingMovesNothing(m: MainThread, h: Shared)
    requires Possible(m, ProcessEvent)
    ensures MainNext(m, h, ProcessEvent).phase == m.phase
  {}

  lemma BeginningMovesNothing(m: MainThread, h: Shared, request: Request)
    requires Possible(m, request) && request != ProcessEvent && request != Proceed
    ensures Swapped(MainNext(m, h, request).phase) == Swapped(m.phase)
  {}

  lemma BeginningKeepsQueues(m: MainThread, h: Shared, request: Request)
    requires request != Proceed
    ensures var h' := MainEffect(m, h, request);
            h'.commands == h.commands && h'.queued == h.queued && h'.answered == h.answered
  {}

  lemma PushingMoves(place: Place, m: MainThread, h: Shared)
    requires m.phase.Pushing?
    ensures Moves(MainMove(m, h, Proceed), h, place, m.phase, MainEffect(m, h, Proceed), place,
                  MainNext(m, h, Proceed).phase)
  {
    assert MainNext(m, h, Proceed).phase == Idle;
  }

  lemma SwapMoves(place: Place, m: MainThread, h: Shared)
    requires m.phase.RefreshLock?
    ensures Moves(Swap, h, place, m.phase, MainEffect(m, h, Proceed), place, MainNext(m, h, Proceed).phase)
  {}

  lemma AnswerMoves(place: Place, m: MainThread, h: Shared)
    requires m.phase.RefreshAnswering? && m.phase.swapped != []
    ensures Moves(AnswerSwapped, h, place, m.phase, MainEffect(m, h, Proceed), place, MainNext(m, h, Proceed).phase)
  {}

  lemma OtherPhasesKeepQueues(m: MainThread, h: Shared)
    requires !m.phase.Pushing? && !m.phase.RefreshLock? && !(m.phase.RefreshAnswering? && m.phase.swapped != [])
    ensures var h' := MainEffect(m, h, Proceed);
            h'.commands == h.commands && h'.queued == h.queued && h'.answered == h.answered
    ensures Possible(m, Proceed) ==> Swapped(MainNext(m, h, Proceed).phase) == Swapped(m.phase)
  {}

  lemma ProceedingMoves(place: Place, m: MainThread, h: Shared)
    requires Possible(m, Proceed)
    ensures Moves(MainMove(m, h, Proceed), h, place, m.phase, MainEffect(m, h, Proceed), place,
                  MainNext(m, h, Proceed).phase)
  {
    if m.phase.Pushing? {
      PushingMoves(place, m, h);
    } else if m.phase.RefreshLock? {
      SwapMoves(place, m, h);
    } else if m.phase.RefreshAnswering? && m.phase.swapped != [] {
      AnswerMoves(place, m, h);
    } else {
      OtherPhasesKeepQueues(m, h);
    }
  }

  lemma MainMoves(place: Place, m: MainThread, h: Shared, request: Request)
    requires Possible(m, request)
    ensures Moves(MainMove(m, h, request), h, place, m.phase, MainEffect(m, h, request), place,
                  MainNext(m, h, request).phase)
  {
    if request == Proceed {
      ProceedingMoves(place, m, h);
    } else {
      BeginningKeepsQueues(m, h, request);
      if request == ProcessEvent { ProcessingMovesNothing(m, h); } else { BeginningMovesNothing(m, h, request); }
    }
  }

  predicate Numbered(queued: seq<Command>) {
    forall i | 0 <= i < |queued| :: queued[i].serial == i
  }

  // ----- Order

  function Serials(commands: seq<Command>): (serials: seq<nat>)
    ensures |serials| == |commands|
    ensures forall i | 0 <= i < |commands| :: serials[i] == commands[i].serial
  {
    seq(|commands|, i requires 0 <= i < |commands| => commands[i].serial)
  }

  /** Strictly ascending and below the bound. */
  predicate Ascending(serials: seq<nat>, bound: nat) {
    && (forall i, j | 0 <= i < j < |serials| :: serials[i] < serials[j])
    && (forall i | 0 <= i < |serials| :: serials[i] < bound)
  }

  /** The attempts are ascending, the command about to be attempted comes after them, and
      the queue is ascending and comes after both. */
  predicate InOrder(w: Worker, h: Shared) {
    var attempts, waiting := w.attempts, Serials(h.commands);
    && Ascending(attempts, |h.queued|)
    && Ascending(waiting, |h.queued|)
    && (forall i, j | 0 <= i < |attempts| && 0 <= j < |waiting| :: attempts[i] < waiting[j])
    && (w.place.Calling? ==>
          && w.place.command.serial < |h.queued|
          && (forall i | 0 <= i < |attempts| :: attempts[i] < w.place.command.serial)
          && (forall j | 0 <= j < |waiting| :: w.place.command.serial < waiting[j]))
  }

  lemma AttemptKeepsOrder(w: Worker, h: Shared, device: Device)
    requires w.place.Calling? && InOrder(w, h) && WorkerNext(w, h, device).Some?
    ensures InOrder(WorkerNext(w, h, device).value, WorkerEffect(w, h))
  {}

  lemma TakeKeepsOrder(w: Worker, h: Shared, device: Device)
    requires w.place.Taking? && h.commands != [] && InOrder(w, h)
    ensures InOrder(WorkerNext(w, h, device).value, WorkerEffect(w, h))
  {
    assert Serials(h.commands) == [h.commands[0].serial] + Serials(h.commands[1..]);
  }

  lemma DrainKeepsOrder(w: Worker, h: Shared, device: Device)
    requires w.place.Draining? && h.commands != [] && InOrder(w, h)
    ensures InOrder(WorkerNext(w, h, device).value, WorkerEffect(w, h))
  {
    assert Serials(h.commands) == [h.commands[0].serial] + Serials(h.commands[1..]);
  }

  lemma OtherStep(w: Worker, h: Shared, device: Device)
    requires !w.place.Calling? && WorkerMove(w, h) != Take && WorkerNext(w, h, device).Some?
    ensures WorkerNext(w, h, device).value.attempts == w.attempts
    ensures !WorkerNext(w, h, device).value.place.Calling?
  {}

  lemma WorkerKeepsOrder(w: Worker, h: Shared, device: Device)
    requires InOrder(w, h) && WorkerNext(w, h, device).Some?
    ensures InOrder(WorkerNext(w, h, device).value, WorkerEffect(w, h))
  {
    if w.place.Calling? {
      AttemptKeepsOrder(w, h, device);
    } else if WorkerMove(w, h) == Take {
      if w.place.Taking? { TakeKeepsOrder(w, h, device); } else { DrainKeepsOrder(w, h, device); }
    } else {
      OtherStep(w, h, device);
      WorkerShifts(w, h);
    }
  }

  /** The moves of the main thread only cut the queue to nothing or append to it. */
  lemma MainMoveKeepsOrder(w: Worker, move: Move, h: Shared, phase: Phase, h': Shared, phase': Phase)
    requires Moves(move, h, w.place, phase, h', w.place, phase') && !move.Take? && !move.Answer?
    requires InOrder(w, h) && Numbered(h.queued)
    ensures InOrder(w, h') && Numbered(h'.queued)
  {}

  // ----- Over every run

  lemma {:induction false} ConservedForever(c: Command, s: Server, actions: seq<Action>)
    requires Conserved(c, s.shared, s.worker.place, s.main.phase) && Run(s, actions).Some?
    ensures var end := Run(s, actions).value;
            Conserved(c, end.shared, end.worker.place, end.main.phase)
    decreases |actions|
  {
    if actions != [] {
      var next := Next(s, actions[0]).value;
      match actions[0] {
        case Work(device) =>
          WorkerMoves(s.worker, s.shared, device, s.main.phase);
          MovesConserve(c, WorkerMove(s.worker, s.shared), s.shared, s.worker.place, s.main.phase,
                        next.shared, next.worker.place, next.main.phase);
        case Serve(request) =>
          MainMoves(s.worker.place, s.main, s.shared, request);
          MovesConserve(c, MainMove(s.main, s.shared, request), s.shared, s.worker.place, s.main.phase,
                        next.shared, next.worker.place, next.main.phase);
      }
      ConservedForever(c, next, actions[1..]);
    }
  }

  predicate Ordered(s: Server) {
    InOrder(s.worker, s.shared) && Numbered(s.shared.queued)
  }

  lemma OrderedStep(s: Server, action: Action)
    requires Ordered(s) && Next(s, action).Some?
    ensures Ordered(Next(s, action).value)
  {
    match action {
      case Work(device) =>
        WorkerKeepsOrder(s.worker, s.shared, device);
        WorkerShifts(s.worker, s.shared);
      case Serve(request) =>
        var next := Next(s, action).value;
        MainMoves(s.worker.place, s.main, s.shared, request);
        MainMoveKeepsOrder(s.worker, MainMove(s.main, s.shared, request), s.shared, s.main.phase, next.shared,
                           next.main.phase);
    }
  }

  lemma {:induction false} OrderedForever(s: Server, actions: seq<Action>)
    requires Ordered(s) && Run(s, actions).Some?
    ensures Ordered(Run(s, actions).value)
    decreases |actions|
  {
    if actions != [] {
      OrderedStep(s, actions[0]);
      OrderedForever(Next(s, actions[0]).value, actions[1..]);
    }
  }

  lemma OnceInQueue(queued: seq<Command>, n: nat)
    requires n < |queued| && Numbered(queued)
    ensures Times(queued[n], queued) == 1
  {
    var before, after := queued[..n], queued[n + 1..];
    assert queued == before + [queued[n]] + after;
    assert queued[n] !in before && queued[n] !in after;
  }

  /** In every reachable state each command ever queued is in exactly one place: the queue,
      the hands of the worker, the batch of a refresh, or the answers, and there once.
      What was never queued is in none of them. */
  lemma EachCommandOnce(actions: seq<Action>, c: Command)
    requires Run(INITIAL, actions).Some?
    ensures var s := Run(INITIAL, actions).value;
            Times(c, s.shared.commands) + Times(c, Held(s.worker.place)) + Times(c, Swapped(s.main.phase)) +
            Times(c, s.shared.answered) == if c in s.shared.queued then 1 else 0
  {
    ConservedForever(c, INITIAL, actions);
    OrderedForever(INITIAL, actions);
    var queued := Run(INITIAL, actions).value.shared.queued;
    if n :| 0 <= n < |queued| && queued[n] == c {
      OnceInQueue(queued, n);
    }
  }

  /** The attempts on the device are a subsequence of the queueing order: each command is
      attempted at most once and none overtakes another. */
  lemma AttemptsInQueueOrder(actions: seq<Action>)
    requires Run(INITIAL, actions).Some?
    ensures var s := Run(INITIAL, actions).value;
            Ascending(s.worker.attempts, |s.shared.queued|) && Numbered(s.shared.queued)
  {
    OrderedForever(INITIAL, actions);
  }
}
