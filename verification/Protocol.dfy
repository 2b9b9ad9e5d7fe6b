/** The two threads of the server as one step relation.  The worker owns the device and runs
    one session after another; the main thread serves clients and applies events.  Every
    step is one access to shared state: a mutex section or an atomic load or store.

    The device is used under this contract: observing calls back with statuses until it
    fails or its stop predicate holds, and only then ends normally; a control call is
    accepted, refused or fails. */
module Protocol {
  import opened Options

  type Settings = map<string, string>

  /** `serial` counts the queued commands; the program has no such field. */
  datatype Command = Command(serial: nat, client: nat, id: nat, values: Settings, automated: bool)

  /** `session` tells in which device session an event arose; bookkeeping again. */
  datatype Event =
    | Start
    | StateError
    | Status(data: Settings, session: nat)
    | Control(command: Command, ok: bool, session: nat)

  /** What both threads touch, with the histories of the commands queued, the events posted
      and the commands answered by a control event. */
  datatype Shared = Shared(
    commands: seq<Command>,
    events: seq<Event>,
    deviceReady: bool,
    reconnectRequested: bool,
    stopping: bool,
    queued: seq<Command>,
    posted: seq<Event>,
    answered: seq<Command>)

  function Post(h: Shared, event: Event): Shared {
    h.(events := h.events + [event], posted := h.posted + [event],
       answered := if event.Control? then h.answered + [event.command] else h.answered)
  }

  function Push(h: Shared, client: nat, id: nat, values: Settings, automated: bool): Shared {
    var command := Command(|h.queued|, client, id, values, automated);
    h.(commands := h.commands + [command], queued := h.queued + [command])
  }

  function Pop(h: Shared): Shared
    requires h.commands != []
  {
    h.(commands := h.commands[1..])
  }

  predicate Interrupted(h: Shared, commandsInterrupt: bool) {
    h.stopping || h.reconnectRequested || (commandsInterrupt && h.commands != [])
  }

  // ----- The worker

  /** Where the worker stands in its loops. */
  datatype Place =
    | OuterTop
    | Opening
    | Starting
    | Connecting
    | InnerTop
    | Polling
    | CheckReconnect
    | Observing
    | StatusArrived(data: Settings)
    | StatusStored(data: Settings)
    | Observed
    | StopCheck
    | Taking
    | Calling(command: Command)
    | Called(command: Command, accepted: bool)
    | Answering(command: Command, ok: bool)
    | Broken
    | BrokenPosting
    | Draining
    | DrainAnswering(command: Command)
    | DrainDone
    | Pausing
    | Closing
    | Ended

  /** What the worker does with the device, in order; a status may come without contents, and
      `attempts` repeats the serials. */
  datatype Mark = SessionOpened | StatusReceived(contents: bool) | Attempt(serial: nat, accepted: bool)

  datatype Worker = Worker(place: Place, statusRequired: bool, session: nat, marks: seq<Mark>, attempts: seq<nat>)

  /** The part of a worker step that the device decides. */
  datatype Device = Proceeds | Reports(data: Settings) | Stops | Accepts | Refuses | Fails

  /** The state of the worker after its next step; `None` if the device choice does not fit. */
  function WorkerNext(w: Worker, h: Shared, device: Device): Option<Worker> {
    match w.place
    case OuterTop => Some(w.(place := if h.stopping then Ended else Opening))
    case Opening => Some(w.(place := Starting, session := w.session + 1, marks := w.marks + [SessionOpened]))
    case Starting => Some(w.(place := Connecting))
    case Connecting =>
      Some(if device.Fails? then w.(place := Broken) else w.(place := InnerTop, statusRequired := false))
    case InnerTop => Some(w.(place := if h.stopping then Closing else Polling))
    case Polling => Some(w.(place := if Interrupted(h, !w.statusRequired) then CheckReconnect else Observing))
    case CheckReconnect => Some(w.(place := if h.reconnectRequested then Closing else Observing))
    case Observing => (
      match device
      case Reports(data) =>
        Some(w.(place := StatusArrived(data), statusRequired := false,
                marks := w.marks + [StatusReceived(data != map[])]))
      case Stops => if Interrupted(h, !w.statusRequired) then Some(w.(place := Observed)) else None
      case Fails => Some(w.(place := Broken))
      case _ => None)
    case StatusArrived(data) => Some(w.(place := StatusStored(data)))
    case StatusStored(data) => Some(w.(place := Observing))
    case Observed => Some(w.(place := if h.reconnectRequested then Closing else StopCheck))
    case StopCheck => Some(w.(place := if h.stopping then Closing else Taking))
    case Taking =>
      Some(if h.commands == [] then w.(place := InnerTop)
           else w.(place := Calling(h.commands[0]), statusRequired := true))
    case Calling(command) => (
      var attempted := w.(marks := w.marks + [Attempt(command.serial, device.Accepts?)],
                          attempts := w.attempts + [command.serial]);
      match device
      case Accepts => Some(attempted.(place := Called(command, true)))
      case Refuses => Some(attempted.(place := Called(command, false)))
      case Fails => Some(attempted.(place := Answering(command, false)))
      case _ => None)
    case Called(command, accepted) => Some(w.(place := Answering(command, accepted && !h.reconnectRequested)))
    case Answering(command, ok) => Some(w.(place := InnerTop))
    case Broken => Some(w.(place := BrokenPosting))
    case BrokenPosting => Some(w.(place := Draining))
    case Draining => Some(w.(place := if h.commands == [] then DrainDone else DrainAnswering(h.commands[0])))
    case DrainAnswering(command) => Some(w.(place := Draining))
    case DrainDone => Some(w.(place := if h.stopping then Closing else Pausing))
    case Pausing => Some(w.(place := Closing))
    case Closing => Some(w.(place := OuterTop))
    case Ended => None
  }

  /** What the same step does to the shared state. */
  function WorkerEffect(w: Worker, h: Shared): Shared {
    match w.place
    case Opening => h.(reconnectRequested := false)
    case Starting => Post(h, Start)
    case StatusArrived(_) => h.(deviceReady := true)
    case StatusStored(data) => Post(h, Status(data, w.session))
    case Taking => if h.commands == [] then h else Pop(h)
    case Answering(command, ok) => Post(h, Control(command, ok, w.session))
    case Broken => h.(deviceReady := false)
    case BrokenPosting => Post(h, StateError)
    case Draining => if h.commands == [] then h else Pop(h)
    case DrainAnswering(command) => Post(h, Control(command, false, w.session))
    case Closing => h.(deviceReady := false)
    case _ => h
  }

  // ----- The main thread

  /** Where the main thread stands inside an operation of several steps. */
  datatype Phase =
    | Idle
    | Pushing(client: nat, id: nat, values: Settings, automated: bool)
    | RefreshStore
    | RefreshLock
    | RefreshAnswering(swapped: seq<Command>)
    | ShutdownLock
    | Down

  /** An accepted automated command that waits for its confirmation, and its session. */
  datatype Pending = Pending(command: Command, session: nat)

  /** The verdict on an automated command. */
  datatype Outcome = Outcome(command: Command, confirmed: bool)

  datatype Reply = Reply(client: nat, id: nat, ok: bool)

  /** `lost` lists the confirmations overwritten while they were still waiting, each with
      the command that took their place; `replies` answer queued commands of clients,
      `refusals` turn others away at once. */
  datatype MainThread = MainThread(
    phase: Phase,
    batch: seq<Event>,
    luaMayAct: bool,
    refreshScheduled: bool,
    lastStatus: Settings,
    pending: Option<Pending>,
    nextAutomationId: nat,
    handled: seq<Event>,
    outcomes: seq<Outcome>,
    lost: seq<(Pending, Pending)>,
    replies: seq<Reply>,
    refusals: seq<Reply>)

  predicate Confirms(status: Settings, values: Settings) {
    forall key | key in values :: key in status && status[key] == values[key]
  }

  /** Settle the confirmation in waiting, if there is one. */
  function Settle(m: MainThread, confirmed: bool): MainThread {
    if m.pending.None? then m
    else m.(outcomes := m.outcomes + [Outcome(m.pending.value.command, confirmed)], pending := None)
  }

  function ApplyControl(m: MainThread, command: Command, ok: bool, session: nat): MainThread {
    if !command.automated then m.(replies := m.replies + [Reply(command.client, command.id, ok)])
    else if !ok then m.(outcomes := m.outcomes + [Outcome(command, false)])
    else m.(pending := Some(Pending(command, session)),
            lost := if m.pending.None? then m.lost else m.lost + [(m.pending.value, Pending(command, session))])
  }

  /** Applying one event. */
  function Applied(m: MainThread, event: Event): MainThread {
    match event
    case Start => m.(refreshScheduled := false)
    case StateError => Settle(m, false)
    case Status(data, _) =>
      if data == map[] then m
      else Settle(m, m.pending.Some? && Confirms(data, m.pending.value.command.values)).(lastStatus := data)
    case Control(command, ok, session) => ApplyControl(m, command, ok, session)
  }

  predicate AutomationBusy(m: MainThread, h: Shared) {
    m.pending.Some? || exists i :: 0 <= i < |h.commands| && h.commands[i].automated
  }

  /** What starts on the main thread, or `Proceed` inside an operation. */
  datatype Request =
    | ControlRequest(client: nat, id: nat, values: Settings)
    | AutomationAction(values: Settings)
    | RefreshRequest
    | SwapEvents
    | ProcessEvent
    | Proceed
    | Shutdown

  /** The main thread serves clients and the clock only between batches of events; a script
      acts then too, and right after a status was applied. */
  predicate Possible(m: MainThread, request: Request) {
    match request
    case Proceed => m.phase != Idle && m.phase != Down
    case AutomationAction(_) => m.phase == Idle && (m.batch == [] || m.luaMayAct)
    case ProcessEvent => m.phase == Idle && m.batch != []
    case _ => m.phase == Idle && m.batch == []
  }

  function MainProceeds(m: MainThread, h: Shared): MainThread {
    match m.phase
    case Pushing(_, _, _, automated) =>
      if automated && !AutomationBusy(m, h) then m.(phase := Idle, nextAutomationId := m.nextAutomationId + 1)
      else m.(phase := Idle)
    case RefreshStore => m.(phase := RefreshLock)
    case RefreshLock => m.(phase := RefreshAnswering(h.commands))
    case RefreshAnswering(swapped) => m.(phase := if swapped == [] then Idle else RefreshAnswering(swapped[1..]))
    case ShutdownLock => m.(phase := Down)
    case _ => m
  }

  function MainNext(m: MainThread, h: Shared, request: Request): MainThread
    requires Possible(m, request)
  {
    match request
    case Proceed => MainProceeds(m, h)
    case ControlRequest(client, id, values) =>
      if !h.deviceReady then m.(refusals := m.refusals + [Reply(client, id, false)])
      else m.(phase := Pushing(client, id, values, false))
    case AutomationAction(values) =>
      if !h.deviceReady || (m.lastStatus != map[] && Confirms(m.lastStatus, values)) then m
      else m.(phase := Pushing(0, m.nextAutomationId, values, true))
    case RefreshRequest => if m.refreshScheduled then m else m.(refreshScheduled := true, phase := RefreshStore)
    case SwapEvents => m.(batch := h.events, luaMayAct := false)
    case ProcessEvent =>
      Applied(m.(batch := m.batch[1..], handled := m.handled + [m.batch[0]],
                 luaMayAct := m.batch[0].Status? && m.batch[0].data != map[]), m.batch[0])
    case Shutdown => m.(phase := ShutdownLock)
  }

  /** What the same step does to the shared state. */
  function MainEffect(m: MainThread, h: Shared, request: Request): Shared {
    match request
    case SwapEvents => h.(events := [])
    case Shutdown => h.(stopping := true)
    case Proceed => (
      match m.phase
      case Pushing(client, id, values, automated) =>
        if automated && AutomationBusy(m, h) then h else Push(h, client, id, values, automated)
      case RefreshStore => h.(deviceReady := false)
      case RefreshLock => h.(reconnectRequested := true, commands := [])
      case RefreshAnswering(swapped) => if swapped == [] then h else Post(h, Control(swapped[0], false, 0))
      case ShutdownLock => h.(reconnectRequested := true)
      case _ => h)
    case _ => h
  }

  // ----- The program

  datatype Server = Server(shared: Shared, worker: Worker, main: MainThread)

  const INITIAL := Server(
                     Shared([], [], false, false, false, [], [], []),
                     Worker(OuterTop, false, 0, [], []),
                     MainThread(Idle, [], false, false, map[], None, 1, [], [], [], [], []))

  datatype Action = Work(device: Device) | Serve(request: Request)

  /** One step of the whole program; `None` if the action is not possible now. */
  function Next(s: Server, action: Action): Option<Server> {
    match action
    case Work(device) => (
      match WorkerNext(s.worker, s.shared, device)
      case None => None
      case Some(worker) => Some(Server(WorkerEffect(s.worker, s.shared), worker, s.main)))
    case Serve(request) =>
      if Possible(s.main, request)
      then Some(Server(MainEffect(s.main, s.shared, request), s.worker, MainNext(s.main, s.shared, request)))
      else None
  }

  /** The state after a sequence of actions; `None` if one of them is not possible. */
  function Run(s: Server, actions: seq<Action>): Option<Server>
    decreases |actions|
  {
    if actions == [] then Some(s)
    else match Next(s, actions[0])
      case None => None
      case Some(next) => Run(next, actions[1..])
  }
}
