/** The automation engine: registration, evaluation and the actions of one script event,
    updating the engine in place. */
module Automation {
  import opened Options
  import opened Calendar
  import opened Rules
  import opened Selection
  import opened Occurrences

  datatype PendingAction = PendingAction(values: Values, event: string)

  /** `airctrl.set` is allowed in these events only. */
  const ACTING_EVENTS: set<string> := {"connected", "status", "alarm", "time", "long_timer"}

  /** The action of one event: the first accepted call of `airctrl.set`; later calls fail.
      `None` is a call with values that are refused. */
  function EventAction(event: string, calls: seq<Option<Values>>): seq<PendingAction> {
    if event !in ACTING_EVENTS || calls == [] then []
    else match calls[0]
      case Some(values) => [PendingAction(values, event)]
      case None => EventAction(event, calls[1..])
  }

  lemma {:induction false} EventActionGrows(event: string, calls: seq<Option<Values>>, call: Option<Values>)
    ensures EventAction(event, calls + [call]) ==
            if event in ACTING_EVENTS && EventAction(event, calls) == [] && call.Some?
            then [PendingAction(call.value, event)] else EventAction(event, calls)
  {
    if calls == [] {
      assert [] + [call] == [call] && [call][1..] == [];
    } else {
      assert (calls + [call])[1..] == calls[1..] + [call];
      EventActionGrows(event, calls[1..], call);
    }
  }

  class AutomationEngine {
    var schedules: seq<Schedule>
    var handledOccurrences: seq<Key>
    var pendingActions: seq<PendingAction>
    var currentEvent: string
    var loaded: bool
    var faulty: bool
    var manualOverride: bool
    var connected: bool
    var dispatching: bool

    constructor ()
      ensures schedules == [] && handledOccurrences == [] && pendingActions == []
      ensures !loaded && !faulty && !manualOverride && !connected && !dispatching
    {
      schedules, handledOccurrences, pendingActions := [], [], [];
      currentEvent := "";
      loaded, faulty, manualOverride, connected, dispatching := false, false, false, false, false;
    }

    // ----- Registration

    method ReadDays(field: DaysField) returns (days: Result<set<int>>)
      ensures days == ActiveDays(field)
    {
      if field.EveryDay? {
        var every: set<int> := {};
        for day := 1 to 8
          invariant forall d :: d in every <==> 1 <= d < day
        {
          every := every + {day};
        }
        assert every == {1, 2, 3, 4, 5, 6, 7};
        return Ok(every);
      }
      if field.NotAList? {
        return Err(DaysExpected);
      }
      var listed: set<int> := {};
      for index := 0 to |field.items|
        invariant ListedDays(field.items[index..], listed) == ListedDays(field.items, {})
        invariant listed == {} ==> index == 0
      {
        assert field.items[index..][1..] == field.items[index + 1..];
        if field.items[index].None? {
          return Err(DayExpected);
        }
        var day := Narrow(field.items[index].value);
        if day < 1 || day > 7 {
          return Err(DayOutOfRange);
        }
        listed := listed + {day};
        assert day in listed;
      }
      if listed == {} {
        return Err(NoDays);
      }
      days := Ok(listed);
    }

    method FindConflict(additions: seq<Schedule>) returns (conflict: Option<Rejection>)
      ensures conflict == ConflictAmong(schedules, additions, 0)
    {
      for index := 0 to |additions|
        invariant ConflictAmong(schedules, additions, index) == ConflictAmong(schedules, additions, 0)
      {
        for existing := 0 to |schedules|
          invariant forall i | 0 <= i < existing :: !Conflicts(schedules[i], additions[index])
        {
          if Conflicts(schedules[existing], additions[index]) {
            return Some(Conflict);
          }
        }
        for earlier := 0 to index
          invariant forall i | 0 <= i < earlier :: !Conflicts(additions[..index][i], additions[index])
        {
          assert additions[..index][earlier] == additions[earlier];
          if Conflicts(additions[earlier], additions[index]) {
            return Some(ConflictWithItself);
          }
        }
      }
      conflict := None;
    }

    method ExistingNames() returns (names: set<string>)
      ensures names == Names(schedules)
    {
      names := {};
      for i := 0 to |schedules|
        invariant names == Names(schedules[..i])
      {
        assert schedules[..i + 1] == schedules[..i] + [schedules[i]];
        NamesGrow(schedules[..i], [schedules[i]], schedules[i].name);
        names := names + {schedules[i].name};
      }
      assert schedules[..|schedules|] == schedules;
    }

    method LuaSchedule(rule: Rule) returns (refusal: Option<Rejection>)
      modifies this`schedules
      ensures match Register(old(schedules), rule)
              case Ok(next) => refusal == None && schedules == next
              case Err(rejection) => refusal == Some(rejection) && schedules == old(schedules)
    {
      if !ValidName(rule.name) {
        return Some(BadName);
      }
      if (rule.at == "") == (rule.between == "") {
        return Some(AtOrBetweenExpected);
      }
      if rule.at != "" && !ValidTime(rule.at) {
        return Some(BadTime);
      }
      if rule.between != "" && !ValidRange(rule.between) {
        return Some(BadRange);
      }
      var names := ExistingNames();
      if |names| >= MAX_RULES {
        return Some(TooManyRules);
      }
      if rule.name in names {
        return Some(DuplicateName);
      }
      var days := ReadDays(rule.days);
      if days.Err? {
        return Some(days.rejection);
      }
      if rule.catchUp.NotABoolean? {
        return Some(BooleanExpected);
      }
      if !rule.inside.Table? {
        return Some(BadValues);
      }
      var additions: seq<Schedule> := [];
      if rule.at != "" {
        if !rule.outside.NoTable? {
          return Some(OutsideWithAt);
        }
        additions := [Entry(rule, "", rule.at, days.value, rule.inside.values)];
      } else {
        var start, end := rule.between[..5], rule.between[6..];
        if start == end {
          return Some(EmptyRange);
        }
        if !rule.outside.Table? {
          return Some(BadOutside);
        }
        var endDays := days.value;
        if Before(end, start) {
          endDays := set day | day in days.value :: NextDay(day);
        }
        additions := additions + [Entry(rule, "Beginn", start, days.value, rule.inside.values)];
        additions := additions + [Entry(rule, "Ende", end, endDays, rule.outside.values)];
        assert endDays == EndDays(days.value, start, end);
        assert additions == [Entry(rule, "Beginn", start, days.value, rule.inside.values),
                             Entry(rule, "Ende", end, endDays, rule.outside.values)];
      }
      assert Additions(rule, days.value) == Ok(additions);
      var conflict := FindConflict(additions);
      if conflict.Some? {
        return conflict;
      }
      schedules := schedules + additions;
      refusal := None;
    }

    // ----- Evaluation

    predicate Evaluating()
      reads this
    {
      loaded && !faulty && !manualOverride && connected
    }

    /** What is handed to the action handler, if anything. */
    method EvaluateSchedules(now: int, force: bool) returns (offer: Option<Due>)
      requires forall i | 0 <= i < |schedules| :: WellFormed(schedules[i])
      ensures offer == if loaded && !faulty && !manualOverride && connected
                       then Offer(schedules, handledOccurrences, now, force) else None
    {
      if !loaded || faulty || manualOverride || !connected || schedules == [] {
        return None;
      }
      var selected: Option<Due> := None;
      for i := 0 to |schedules|
        invariant SelectFrom(schedules[i..], now, selected) == Select(schedules, now)
      {
        assert schedules[i..][1..] == schedules[i + 1..];
        var when := OccurrenceFor(schedules[i], now);
        if when == None {
          continue;
        }
        if selected.None? || when.value > selected.value.when {
          selected := Some(Due(schedules[i], when.value));
        }
      }
      if selected.None? || (!force && KeyOf(selected.value) in handledOccurrences) {
        return None;
      }
      offer := selected;
    }

    /** Event actions carry no key and leave the memory alone. */
    method ActionAccepted(key: Option<Key>)
      modifies this`handledOccurrences
      ensures handledOccurrences == if key.Some? then Remember(old(handledOccurrences), key.value)
                                    else old(handledOccurrences)
    {
      if key.None? || key.value in handledOccurrences {
        return;
      }
      handledOccurrences := handledOccurrences + [key.value];
      if |handledOccurrences| > REMEMBERED {
        handledOccurrences := handledOccurrences[1..];
      }
    }

    /** One unforced evaluation and the handler's answer. */
    method ProcessTick(tick: Tick) returns (accepted: Option<Key>)
      requires Evaluating() && forall i | 0 <= i < |schedules| :: WellFormed(schedules[i])
      modifies this`handledOccurrences
      ensures accepted == AcceptedKey(schedules, old(handledOccurrences), tick)
      ensures handledOccurrences == AfterTick(old(handledOccurrences), accepted)
    {
      var offer := EvaluateSchedules(tick.now, false);
      accepted := None;
      if offer.Some? && tick.accepted {
        accepted := Some(KeyOf(offer.value));
        ActionAccepted(accepted);
      }
    }

    /** A whole run of the engine accepts the keys of the run on values, and so no
        occurrence twice. */
    method Run(ticks: seq<Tick>) returns (keys: seq<Key>)
      requires Evaluating() && Registered(schedules) && AllCatchUp(schedules) && Chronological(ticks)
      modifies this`handledOccurrences
      ensures keys == AcceptedKeys(schedules, old(handledOccurrences), ticks)
      ensures forall i, j | 0 <= i < j < |keys| :: keys[i] != keys[j] && keys[i].when < keys[j].when
    {
      keys := Collect(ticks);
      AtMostOnce(schedules, old(handledOccurrences), ticks);
    }

    method Collect(ticks: seq<Tick>) returns (keys: seq<Key>)
      requires Evaluating() && forall i | 0 <= i < |schedules| :: WellFormed(schedules[i])
      modifies this`handledOccurrences
      ensures keys == AcceptedKeys(schedules, old(handledOccurrences), ticks)
    {
      keys := [];
      for i := 0 to |ticks|
        invariant keys + AcceptedKeys(schedules, handledOccurrences, ticks[i..]) ==
                  AcceptedKeys(schedules, old(handledOccurrences), ticks)
      {
        CollectedGoesOn(keys, schedules, handledOccurrences, ticks, i);
        var accepted := ProcessTick(ticks[i]);
        if accepted.Some? { keys := keys + [accepted.value]; }
      }
    }

    // ----- Actions of one event

    method LuaSet(values: Option<Values>) returns (ok: bool)
      modifies this`pendingActions
      ensures ok <==> currentEvent in ACTING_EVENTS && old(pendingActions) == [] && values.Some?
      ensures pendingActions ==
              if ok then [PendingAction(values.value, currentEvent)] else old(pendingActions)
    {
      if currentEvent != "connected" && currentEvent != "status" && currentEvent != "alarm" &&
         currentEvent != "time" && currentEvent != "long_timer" {
        return false;
      }
      if pendingActions != [] || values.None? {
        return false;
      }
      pendingActions := pendingActions + [PendingAction(values.value, currentEvent)];
      ok := true;
    }

    method FlushActions() returns (delivered: seq<PendingAction>)
      modifies this`pendingActions
      ensures delivered == old(pendingActions) && pendingActions == []
    {
      delivered, pendingActions := pendingActions, [];
    }

    /** A script makes the calls in order and may catch their errors; `fails` tells whether
        an error ends it.  One event delivers at most one action, and none if it fails. */
    method Dispatch(event: string, calls: seq<Option<Values>>, fails: bool) returns (delivered: seq<PendingAction>)
      requires pendingActions == [] && loaded && !faulty && !dispatching
      modifies this`pendingActions, this`currentEvent, this`faulty, this`dispatching
      ensures pendingActions == [] && |delivered| <= 1
      ensures delivered == if fails then [] else EventAction(event, calls)
      ensures (faulty <==> fails) && !dispatching
    {
      currentEvent, dispatching := event, true;
      for i := 0 to |calls|
        invariant currentEvent == event && faulty == old(faulty) && dispatching
        invariant pendingActions == EventAction(event, calls[..i]) && |pendingActions| <= 1
      {
        EventActionGrows(event, calls[..i], calls[i]);
        assert calls[..i] + [calls[i]] == calls[..i + 1];
        var _ := LuaSet(calls[i]);
      }
      assert calls[..|calls|] == calls;
      currentEvent, dispatching := "", false;
      if fails {
        pendingActions := [];
        faulty := true;
        return [];
      }
      delivered := FlushActions();
    }

    /** Events do nothing while a script is running or the automation is overridden by hand. */
    method CallEvent(event: string, calls: seq<Option<Values>>, fails: bool) returns (delivered: seq<PendingAction>)
      requires dispatching || pendingActions == []
      modifies this`pendingActions, this`currentEvent, this`faulty, this`dispatching
      ensures pendingActions == (if old(dispatching) then old(pendingActions) else [])
      ensures |delivered| <= 1 && dispatching == old(dispatching)
      ensures delivered == if !loaded || old(dispatching) || old(faulty) || manualOverride || fails then []
                           else EventAction(event, calls)
      ensures faulty <==> old(faulty) || (loaded && !dispatching && !manualOverride && fails)
    {
      if !loaded || dispatching || faulty || manualOverride {
        return [];
      }
      delivered := Dispatch(event, calls, fails);
    }

    /** The long timer is a deliberate request of the user: an override does not stop it. */
    method LongTimerEvent(calls: seq<Option<Values>>, fails: bool) returns (delivered: seq<PendingAction>)
      requires dispatching || pendingActions == []
      modifies this`pendingActions, this`currentEvent, this`faulty, this`dispatching
      ensures pendingActions == (if old(dispatching) then old(pendingActions) else [])
      ensures |delivered| <= 1 && dispatching == old(dispatching)
      ensures delivered == if !loaded || old(dispatching) || old(faulty) || fails then []
                           else EventAction("long_timer", calls)
      ensures faulty <==> old(faulty) || (loaded && !dispatching && fails)
    {
      if !loaded || dispatching || faulty {
        return [];
      }
      delivered := Dispatch("long_timer", calls, fails);
    }
  }
}
