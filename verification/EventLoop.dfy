/** The operations of the main thread, on the object it shares with the worker: batches of
    events, requests of clients, actions of scripts, the end.  Between two accesses the worker
    takes any steps; whatever happens is a run of `Protocol`. */
module EventLoop {
  import opened Options
  import opened Protocol
  import opened Scenarios
  import opened Answers

  /** Every wanted setting is reported as wanted. */
  method Matches(status: Settings, values: Settings) returns (all: bool)
    ensures all == Confirms(status, values)
  {
    all := true;
    var remaining := values.Keys;
    while remaining != {}
      invariant remaining <= values.Keys
      invariant all == forall key | key in values && key !in remaining :: key in status && status[key] == values[key]
      decreases |remaining|
    {
      var key :| key in remaining;
      if key !in status || status[key] != values[key] { all := false; }
      remaining := remaining - {key};
    }
  }

  /** The operations begun, in order. */
  function Begun(actions: seq<Action>): seq<Request> {
    if actions == [] then []
    else
      var last := actions[|actions| - 1];
      Begun(actions[..|actions| - 1]) + if last.Serve? && !last.request.Proceed? then [last.request] else []
  }

  lemma BegunMore(actions: seq<Action>, action: Action)
    ensures Begun(actions + [action]) ==
            Begun(actions) + if action.Serve? && !action.request.Proceed? then [action.request] else []
  {
    assert (actions + [action])[..|actions|] == actions;
  }

  /** What the script does after the n-th event of a batch; it is called after a status with
      contents. */
  type Script = nat -> seq<Settings>

  function Actions(wanted: seq<Settings>): seq<Request> {
    if wanted == [] then []
    else Actions(wanted[..|wanted| - 1]) + [AutomationAction(wanted[|wanted| - 1])]
  }

  predicate Heard(event: Event) {
    event.Status? && event.data != map[]
  }

  /** A batch handled: the events one by one, with the actions of the script among them. */
  function Processing(events: seq<Event>, script: Script): seq<Request> {
    if events == [] then []
    else
      var n := |events| - 1;
      Processing(events[..n], script) + [ProcessEvent] + if Heard(events[n]) then Actions(script(n)) else []
  }

  lemma ProcessingMore(events: seq<Event>, event: Event, script: Script)
    ensures Processing(events + [event], script) ==
            Processing(events, script) + [ProcessEvent] + if Heard(event) then Actions(script(|events|)) else []
  {
    assert (events + [event])[..|events|] == events;
  }

  /** Requests of clients and actions of timers; the rest is not asked for from outside. */
  predicate FromOutside(request: Request) {
    request.ControlRequest? || request.RefreshRequest? || request.AutomationAction?
  }

  predicate Outside(requests: seq<Request>) {
    forall i | 0 <= i < |requests| :: FromOutside(requests[i])
  }

  lemma ProcessStep(s: Server)
    requires Possible(s.main, ProcessEvent)
    ensures Next(s, Serve(ProcessEvent)) == Some(s.(main := Applied(Taken(s.main), s.main.batch[0])))
  {}

  /** What wakes the main thread: events are there, clients and timers ask for something. */
  datatype Round = Round(woken: bool, script: Script, requests: seq<Request>)

  /** What a round begins if it finds these events. */
  function Rounded(round: Round, events: seq<Event>): seq<Request> {
    (if round.woken then [SwapEvents] + Processing(events, round.script) else []) + round.requests
  }

  function Planned(rounds: seq<Round>, batches: seq<seq<Event>>): seq<Request>
    requires |rounds| == |batches|
  {
    if rounds == [] then []
    else
      var n := |rounds| - 1;
      Planned(rounds[..n], batches[..n]) + Rounded(rounds[n], batches[n])
  }

  function Joined(batches: seq<seq<Event>>): seq<Event> {
    if batches == [] then [] else Joined(batches[..|batches| - 1]) + batches[|batches| - 1]
  }

  lemma {:induction false} PlannedMore(rounds: seq<Round>, batches: seq<seq<Event>>, n: nat, events: seq<Event>)
    requires n < |rounds| && |batches| == n
    ensures Planned(rounds[..n + 1], batches + [events]) ==
            Planned(rounds[..n], batches) + Rounded(rounds[n], events)
    ensures Joined(batches + [events]) == Joined(batches) + events
  {
    var some, found := rounds[..n + 1], batches + [events];
    assert some[..n] == rounds[..n] && some[n] == rounds[n];
    assert found[..n] == batches && found[n] == events;
  }

  lemma {:induction false} PlannedOn(begun: seq<Request>, handled: seq<Event>, rounds: seq<Round>,
                                     batches: seq<seq<Event>>, n: nat, events: seq<Event>)
    requires n < |rounds| && |batches| == n
    ensures begun + Planned(rounds[..n], batches) + Rounded(rounds[n], events) ==
            begun + Planned(rounds[..n + 1], batches + [events])
    ensures handled + Joined(batches) + events == handled + Joined(batches + [events])
  {
    PlannedMore(rounds, batches, n, events);
  }

  class AirCtrlServer {
    // The steps of the worker after each access.
    const schedule: nat -> seq<Device>
    var worker: Worker
    // Of both threads.
    var shared: Shared
    // Of the main thread.
    var refreshScheduled: bool
    var lastStatus: Settings
    var pending: Option<Pending>
    var nextAutomationId: nat
    var outcomes: seq<Outcome>
    var replies: seq<Reply>
    var refusals: seq<Reply>
    var clock: nat
    // Where the main thread stands inside its operations, and histories.
    ghost var phase: Phase
    ghost var batch: seq<Event>
    ghost var luaMayAct: bool
    ghost var handled: seq<Event>
    ghost var lost: seq<(Pending, Pending)>
    ghost var actions: seq<Action>

    ghost function Main(): MainThread
      reads this
    {
      MainThread(phase, batch, luaMayAct, refreshScheduled, lastStatus, pending, nextAutomationId, handled,
                 outcomes, lost, replies, refusals)
    }

    ghost function View(): Server
      reads this
    {
      Server(shared, worker, Main())
    }

    /** What happened so far is a run. */
    ghost predicate Valid()
      reads this
    {
      Run(INITIAL, actions) == Some(View())
    }

    ghost predicate Resting()
      reads this
    {
      phase.Idle? && batch == []
    }

    constructor (schedule: nat -> seq<Device>)
      ensures Valid() && Resting() && View() == INITIAL && actions == []
    {
      this.schedule := schedule;
      shared, worker := INITIAL.shared, INITIAL.worker;
      refreshScheduled, lastStatus, pending, nextAutomationId := false, map[], None, 1;
      outcomes, replies, refusals, clock := [], [], [], 0;
      phase, batch, luaMayAct, handled, lost, actions := Idle, [], false, [], [], [];
    }

    // ----- Interleaving

    /** The access of the main thread is done; the worker acts. */
    method Yield(ghost before: Server, ghost request: Request)
      requires Run(INITIAL, actions) == Some(before) && Possible(before.main, request)
      requires View() == Next(before, Serve(request)).value
      modifies `shared, `worker, `actions, `clock
      ensures Valid() && Main() == old(Main())
      ensures Begun(actions) == Begun(old(actions)) + if request.Proceed? then [] else [request]
    {
      RunThenStep(INITIAL, actions, Serve(request));
      BegunMore(actions, Serve(request));
      actions := actions + [Serve(request)];
      Work(schedule(clock));
      clock := clock + 1;
    }

    method Work(devices: seq<Device>)
      requires Valid()
      modifies `shared, `worker, `actions
      ensures Valid() && Main() == old(Main()) && Begun(actions) == Begun(old(actions))
    {
      for i := 0 to |devices|
        invariant Valid() && Main() == old(Main()) && Begun(actions) == Begun(old(actions))
      {
        var next := WorkerNext(worker, shared, devices[i]);
        if next.Some? {
          RunThenStep(INITIAL, actions, Action.Work(devices[i]));
          BegunMore(actions, Action.Work(devices[i]));
          shared, worker := WorkerEffect(worker, shared), next.value;
          actions := actions + [Action.Work(devices[i])];
        }
      }
    }

    // ----- Events

    method SettleConfirmation(confirmed: bool)
      modifies `pending, `outcomes
      ensures Main() == Settle(old(Main()), confirmed)
    {
      if pending.Some? {
        outcomes := outcomes + [Outcome(pending.value.command, confirmed)];
        pending := None;
      }
    }

    method ConfirmAutomationAction(status: Settings)
      modifies `pending, `outcomes
      ensures var m := old(Main());
              Main() == Settle(m, m.pending.Some? && Confirms(status, m.pending.value.command.values))
    {
      if pending.Some? {
        var confirmed := Matches(status, pending.value.command.values);
        SettleConfirmation(confirmed);
      }
    }

    method ApplyEvent(event: Event)
      modifies `refreshScheduled, `lastStatus, `pending, `outcomes, `lost, `replies
      ensures Main() == Applied(old(Main()), event)
    {
      match event
      case Start => refreshScheduled := false;
      case StateError => SettleConfirmation(false);
      case Status(data, _) =>
        if data != map[] {
          ConfirmAutomationAction(data);
          lastStatus := data;
        }
      case Control(command, ok, session) =>
        if !command.automated {
          replies := replies + [Reply(command.client, command.id, ok)];
        } else if !ok {
          outcomes := outcomes + [Outcome(command, false)];
        } else {
          if pending.Some? { lost := lost + [(pending.value, Pending(command, session))]; }
          pending := Some(Pending(command, session));
        }
    }

    ghost method TakeEvent()
      requires batch != []
      modifies `batch, `handled, `luaMayAct
      ensures Main() == Taken(old(Main()))
    {
      luaMayAct := batch[0].Status? && batch[0].data != map[];
      batch, handled := batch[1..], handled + [batch[0]];
    }

    /** The first event of the batch. */
    method ProcessNext(event: Event)
      requires Valid() && phase.Idle? && batch != [] && event == batch[0]
      modifies this
      ensures Valid() && phase.Idle? && batch == old(batch)[1..] && handled == old(handled) + [event]
      ensures luaMayAct == (event.Status? && event.data != map[])
      ensures Begun(actions) == Begun(old(actions)) + [ProcessEvent]
    {
      ghost var before := View();
      TakeEvent();
      ApplyEvent(event);
      ProcessStep(before);
      Yield(before, ProcessEvent);
    }

    /** One event, and what the script does after it. */
    method HandleEvent(event: Event, wanted: seq<Settings>)
      requires Valid() && phase.Idle? && batch != [] && event == batch[0]
      modifies this
      ensures Valid() && phase.Idle? && batch == old(batch)[1..] && handled == old(handled) + [event]
      ensures Begun(actions) == Begun(old(actions)) + [ProcessEvent] + if Heard(event) then Actions(wanted) else []
    {
      ProcessNext(event);
      if Heard(event) { Act(wanted); }
    }

    /** The actions of the events a status causes in the script. */
    method Act(wanted: seq<Settings>)
      requires Valid() && phase.Idle? && luaMayAct
      modifies this
      ensures Valid() && phase.Idle? && batch == old(batch) && handled == old(handled)
      ensures Begun(actions) == Begun(old(actions)) + Actions(wanted)
    {
      for i := 0 to |wanted|
        invariant Valid() && phase.Idle? && luaMayAct && batch == old(batch) && handled == old(handled)
        invariant Begun(actions) == Begun(old(actions)) + Actions(wanted[..i])
      {
        assert wanted[..i + 1][..i] == wanted[..i];
        HandleAutomationAction(wanted[i]);
      }
      assert wanted[..|wanted|] == wanted;
    }

    method HandleEvents(events: seq<Event>, script: Script)
      requires Valid() && phase.Idle? && batch == events
      modifies this
      ensures Valid() && Resting() && handled == old(handled) + events
      ensures Begun(actions) == Begun(old(actions)) + Processing(events, script)
    {
      ghost var begun, before := Begun(actions), handled;
      for i := 0 to |events|
        invariant Valid() && phase.Idle? && batch == events[i..] && handled == before + events[..i]
        invariant Begun(actions) == begun + Processing(events[..i], script)
      {
        ProcessingMore(events[..i], events[i], script);
        assert events[..i + 1] == events[..i] + [events[i]];
        HandleEvent(events[i], script(i));
      }
      assert events[..|events|] == events;
    }

    /** All events queued by now are handled, in order and each once. */
    method ProcessEvents(script: Script)
      requires Valid() && Resting()
      modifies this
      ensures Valid() && Resting() && handled == old(handled) + old(shared.events)
      ensures Begun(actions) == Begun(old(actions)) + [SwapEvents] + Processing(old(shared.events), script)
    {
      ghost var before := View();
      var events := shared.events;
      shared := shared.(events := []);
      batch, luaMayAct := events, false;
      Yield(before, SwapEvents);
      HandleEvents(events, script);
    }

    // ----- Scripts

    /** An automated command is waiting for its confirmation or in the queue. */
    method IsAutomationBusy() returns (busy: bool)
      ensures busy == AutomationBusy(Main(), shared)
    {
      busy := pending.Some?;
      for i := 0 to |shared.commands|
        invariant busy == (pending.Some? || exists j :: 0 <= j < i && shared.commands[j].automated)
      {
        busy := busy || shared.commands[i].automated;
      }
    }

    method HandleAutomationAction(values: Settings)
      requires Valid() && Possible(Main(), AutomationAction(values))
      modifies this
      ensures Valid() && phase.Idle? && batch == old(batch) && handled == old(handled) && luaMayAct == old(luaMayAct)
      ensures Begun(actions) == Begun(old(actions)) + [AutomationAction(values)]
    {
      ghost var before := View();
      var already := Matches(lastStatus, values);
      if !shared.deviceReady || (lastStatus != map[] && already) {
        Yield(before, AutomationAction(values));
        return;
      }
      phase := Pushing(0, nextAutomationId, values, true);
      Yield(before, AutomationAction(values));
      QueueAutomated(values);
    }

    method QueueAutomated(values: Settings)
      requires Valid() && phase == Pushing(0, nextAutomationId, values, true)
      modifies this
      ensures Valid() && phase.Idle? && batch == old(batch) && handled == old(handled) && luaMayAct == old(luaMayAct)
      ensures Begun(actions) == Begun(old(actions))
    {
      ghost var before := View();
      var busy := IsAutomationBusy();
      if !busy {
        shared := Push(shared, 0, nextAutomationId, values, true);
        nextAutomationId := nextAutomationId + 1;
      }
      phase := Idle;
      Yield(before, Proceed);
    }

    // ----- Clients

    method HandleControl(client: nat, id: nat, values: Settings)
      requires Valid() && Resting()
      modifies this
      ensures Valid() && Resting() && handled == old(handled)
      ensures Begun(actions) == Begun(old(actions)) + [ControlRequest(client, id, values)]
    {
      ghost var before := View();
      if !shared.deviceReady {
        refusals := refusals + [Reply(client, id, false)];
        Yield(before, ControlRequest(client, id, values));
        return;
      }
      phase := Pushing(client, id, values, false);
      Yield(before, ControlRequest(client, id, values));
      before := View();
      shared := Push(shared, client, id, values, false);
      phase := Idle;
      Yield(before, Proceed);
    }

    /** Commands in the queue are answered as failed. */
    method HandleRefresh()
      requires Valid() && Resting()
      modifies this
      ensures Valid() && Resting() && handled == old(handled)
      ensures Begun(actions) == Begun(old(actions)) + [RefreshRequest]
    {
      ghost var before := View();
      if refreshScheduled {
        Yield(before, RefreshRequest);
        return;
      }
      refreshScheduled := true;
      phase := RefreshStore;
      Yield(before, RefreshRequest);
      Refresh();
    }

    method Refresh()
      requires Valid() && phase.RefreshStore?
      modifies this
      ensures Valid() && phase.Idle? && batch == old(batch) && handled == old(handled)
      ensures Begun(actions) == Begun(old(actions))
    {
      ghost var before := View();
      shared := shared.(deviceReady := false);
      phase := RefreshLock;
      Yield(before, Proceed);
      before := View();
      var swapped := shared.commands;
      shared := shared.(reconnectRequested := true, commands := []);
      phase := RefreshAnswering(swapped);
      Yield(before, Proceed);
      AnswerSwapped(swapped);
    }

    method AnswerSwapped(swapped: seq<Command>)
      requires Valid() && phase == RefreshAnswering(swapped)
      modifies this
      ensures Valid() && phase.Idle? && batch == old(batch) && handled == old(handled)
      ensures Begun(actions) == Begun(old(actions))
    {
      ghost var before;
      for i := 0 to |swapped|
        invariant Valid() && phase == RefreshAnswering(swapped[i..])
        invariant batch == old(batch) && handled == old(handled) && Begun(actions) == Begun(old(actions))
      {
        before := View();
        shared := Post(shared, Control(swapped[i], false, 0));
        phase := RefreshAnswering(swapped[i + 1..]);
        Yield(before, Proceed);
      }
      before := View();
      phase := Idle;
      Yield(before, Proceed);
    }

    method ShutDown()
      requires Valid() && Resting()
      modifies this
      ensures Valid() && phase.Down? && handled == old(handled)
      ensures Begun(actions) == Begun(old(actions)) + [Shutdown]
    {
      ghost var before := View();
      shared := shared.(stopping := true);
      phase := ShutdownLock;
      Yield(before, Shutdown);
      WakeWorker();
    }

    method WakeWorker()
      requires Valid() && phase.ShutdownLock?
      modifies this
      ensures Valid() && phase.Down? && handled == old(handled) && Begun(actions) == Begun(old(actions))
    {
      ghost var before := View();
      shared := shared.(reconnectRequested := true);
      phase := Down;
      Yield(before, Proceed);
    }

    // ----- The program

    method HandleRequest(request: Request)
      requires Valid() && Resting() && FromOutside(request)
      modifies this
      ensures Valid() && Resting() && handled == old(handled)
      ensures Begun(actions) == Begun(old(actions)) + [request]
    {
      if request.ControlRequest? {
        HandleControl(request.client, request.id, request.values);
      } else if request.RefreshRequest? {
        HandleRefresh();
      } else {
        HandleAutomationAction(request.values);
      }
    }

    /** What clients and timers ask for, one after the other. */
    method HandleRequests(requests: seq<Request>)
      requires Valid() && Resting()
      requires Outside(requests)
      modifies this
      ensures Valid() && Resting() && handled == old(handled)
      ensures Begun(actions) == Begun(old(actions)) + requests
    {
      for i := 0 to |requests|
        invariant Valid() && Resting() && handled == old(handled)
        invariant Begun(actions) == Begun(old(actions)) + requests[..i]
      {
        assert requests[..i + 1] == requests[..i] + [requests[i]];
        HandleRequest(requests[i]);
      }
      assert requests[..|requests|] == requests;
    }

    /** The loop of the main thread and its end; `batches` are the events each round found. */
    method RunServer(rounds: seq<Round>) returns (batches: seq<seq<Event>>)
      requires Valid() && Resting()
      requires forall i | 0 <= i < |rounds| :: Outside(rounds[i].requests)
      modifies this
      ensures Valid() && phase.Down? && |batches| == |rounds|
      ensures handled == old(handled) + Joined(batches)
      ensures Begun(actions) == Begun(old(actions)) + Planned(rounds, batches) + [Shutdown]
    {
      batches := HandleRounds(rounds);
      ShutDown();
    }

    method HandleRounds(rounds: seq<Round>) returns (batches: seq<seq<Event>>)
      requires Valid() && Resting()
      requires forall i | 0 <= i < |rounds| :: Outside(rounds[i].requests)
      modifies this
      ensures Valid() && Resting() && |batches| == |rounds|
      ensures handled == old(handled) + Joined(batches)
      ensures Begun(actions) == Begun(old(actions)) + Planned(rounds, batches)
    {
      batches := [];
      ghost var begun, before := Begun(actions), handled;
      for i := 0 to |rounds|
        invariant Valid() && Resting() && |batches| == i && handled == before + Joined(batches)
        invariant Begun(actions) == begun + Planned(rounds[..i], batches)
      {
        var found := HandleRound(rounds[i]);
        PlannedOn(begun, before, rounds, batches, i, found);
        batches := batches + [found];
      }
      assert rounds[..|rounds|] == rounds;
    }

    method HandleRound(round: Round) returns (found: seq<Event>)
      requires Valid() && Resting()
      requires Outside(round.requests)
      modifies this
      ensures Valid() && Resting()
      ensures found == if round.woken then old(shared.events) else []
      ensures handled == old(handled) + found && Begun(actions) == Begun(old(actions)) + Rounded(round, found)
    {
      found := [];
      ghost var begun := Begun(actions);
      if round.woken {
        found := shared.events;
        ProcessEvents(round.script);
        assert Begun(actions) == begun + ([SwapEvents] + Processing(found, round.script));
      }
      HandleRequests(round.requests);
    }
  }
}
