/** When the memory of 64 keys is not enough: exactly if a moment exists at which an entry that
    catches up is due and at least 64 occurrences of entries that do not lie between. */
module Crowding {
  import opened Options
  import opened Calendar
  import opened Rules
  import opened Selection
  import opened Occurrences

  /** An entry without catch_up occurs at the instant. */
  predicate Momentary(schedules: seq<Schedule>, t: int) {
    exists i :: 0 <= i < |schedules| && !schedules[i].catchUp && OccursAt(schedules[i], t)
  }

  predicate Ascending(instants: seq<int>) {
    forall i, j | 0 <= i < j < |instants| :: instants[i] < instants[j]
  }

  /** The instants are momentary occurrences after one instant and up to another. */
  predicate Crowd(schedules: seq<Schedule>, after: int, upTo: int, instants: seq<int>) {
    && Ascending(instants)
    && forall i | 0 <= i < |instants| :: after < instants[i] <= upTo && Momentary(schedules, instants[i])
  }

  /** The selected entry catches up, and since its occurrence there were at least as many
      momentary occurrences as keys are remembered. */
  ghost predicate Crowded(schedules: seq<Schedule>, now: int) {
    && Select(schedules, now).Some? && Select(schedules, now).value.schedule.catchUp
    && exists instants :: |instants| == REMEMBERED && Crowd(schedules, Select(schedules, now).value.when, now, instants)
  }

  predicate Repeats(keys: seq<Key>) {
    exists i, j :: 0 <= i < j < |keys| && keys[i] == keys[j]
  }

  // ----- Selection at and after an occurrence

  lemma {:induction false} WholeMinute(s: Schedule, t: int)
    requires OccursAt(s, t)
    ensures t % MINUTE == 0
  {
    assert t == DAY * (t / DAY) + MINUTE * (s.hour * 60 + s.minute);
    assert t == MINUTE * (24 * 60 * (t / DAY) + s.hour * 60 + s.minute);
  }

  /** At its occurrence an entry is selected. */
  lemma {:induction false} OccurringIsSelected(schedules: seq<Schedule>, s: Schedule, t: int)
    requires Registered(schedules) && s in schedules && OccursAt(s, t)
    ensures Select(schedules, t) == Some(Due(s, t))
  {
    WholeMinute(s, t);
    WellFormedMember(schedules, s);
    OccurrenceExact(s, t);
    assert Occurrence(s, t) == Some(t);
    forall other | other in schedules && Occurrence(other, t).Some? ensures Occurrence(other, t).value <= t {
      WellFormedMember(schedules, other);
      OccurrenceOccurs(other, t);
    }
    SelectIsChoice(schedules, t);
    assert IsChoice(schedules, t, Some(Due(s, t)));
    ChoiceUnique(schedules, t, Some(Due(s, t)), Select(schedules, t));
  }

  lemma {:induction false} WellFormedMember(schedules: seq<Schedule>, s: Schedule)
    requires Registered(schedules) && s in schedules
    ensures WellFormed(s)
  {
    var i :| 0 <= i < |schedules| && schedules[i] == s;
  }

  /** The selection is not earlier than the latest occurrence of an entry that catches up. */
  lemma {:induction false} NotBeforeCatchUp(schedules: seq<Schedule>, s: Schedule, t: int, now: int)
    requires Registered(schedules) && s in schedules && s.catchUp && OccursAt(s, t) && t <= now
    ensures Select(schedules, now).Some? && t <= Select(schedules, now).value.when
  {
    WellFormedMember(schedules, s);
    OccurrenceExact(s, now);
    SelectIsChoice(schedules, now);
  }

  /** An entry without catch_up is only selected in its own minute. */
  lemma {:induction false} MomentarySelection(schedules: seq<Schedule>, now: int)
    requires Registered(schedules) && Select(schedules, now).Some? && !Select(schedules, now).value.schedule.catchUp
    ensures Select(schedules, now).value.when == now - now % MINUTE
    ensures Momentary(schedules, now - now % MINUTE)
  {
    SelectedOccurs(schedules, now);
    SelectIsChoice(schedules, now);
    var due := Select(schedules, now).value;
    WellFormedMember(schedules, due.schedule);
    OccurrenceExact(due.schedule, now);
    var i :| 0 <= i < |schedules| && schedules[i] == due.schedule;
  }

  /** Accepted keys are keys of selections. */
  lemma {:induction false} AcceptedWasSelected(schedules: seq<Schedule>, handled: seq<Key>, ticks: seq<Tick>, key: Key)
    returns (n: nat)
    requires key in AcceptedKeys(schedules, handled, ticks)
    ensures n < |ticks| && Select(schedules, ticks[n].now).Some? && KeyOf(Select(schedules, ticks[n].now).value) == key
    decreases |ticks|
  {
    var accepted := AcceptedKey(schedules, handled, ticks[0]);
    AcceptedKeysFrom(schedules, handled, ticks, 0);
    assert ticks[0..] == ticks;
    if accepted == Some(key) {
      n := 0;
    } else {
      n := AcceptedWasSelected(schedules, AfterTick(handled, accepted), ticks[1..], key);
      n := n + 1;
    }
  }

  /** In a registered list a key names one entry and one instant. */
  lemma {:induction false} SameKeySameDue(schedules: seq<Schedule>, due: Due, now: int)
    requires Registered(schedules) && Select(schedules, now).Some?
    requires due.schedule in schedules && OccursAt(due.schedule, due.when)
    requires Select(schedules, now).value.when == due.when
    ensures Select(schedules, now).value == due
  {
    SelectedOccurs(schedules, now);
    SameInstantSameEntry(schedules, due.schedule, Select(schedules, now).value.schedule, due.when);
  }

  // ----- A repetition needs a crowd

  /** The keys remembered last: that of `due`, and then those of the momentary occurrences
      accepted since. */
  predicate RememberedSince(handled: seq<Key>, due: Due, since: seq<Due>) {
    && |since| < |handled|
    && handled[|handled| - 1 - |since|] == KeyOf(due)
    && forall i | 0 <= i < |since| :: handled[|handled| - |since| + i] == KeyOf(since[i])
  }

  function Instants(dues: seq<Due>): (instants: seq<int>)
    ensures |instants| == |dues| && forall i | 0 <= i < |dues| :: instants[i] == dues[i].when
  {
    seq(|dues|, i requires 0 <= i < |dues| => dues[i].when)
  }

  /** `due` was accepted, and since then exactly the momentary occurrences in `since`. */
  ghost predicate Since(schedules: seq<Schedule>, due: Due, since: seq<Due>, ticks: seq<Tick>) {
    && due.schedule in schedules && due.schedule.catchUp && OccursAt(due.schedule, due.when)
    && (forall i | 0 <= i < |since| :: since[i].schedule in schedules && OccursAt(since[i].schedule, since[i].when))
    && (forall i | 0 <= i < |ticks| ::
          due.when <= ticks[i].now && Crowd(schedules, due.when, ticks[i].now, Instants(since)))
  }

  /** Enough momentary occurrences, and then the key is selected once more. */
  lemma {:induction false} EnoughIsCrowded(schedules: seq<Schedule>, handled: seq<Key>, ticks: seq<Tick>,
                                           due: Due, since: seq<Due>)
    requires Registered(schedules) && Since(schedules, due, since, ticks) && |since| == REMEMBERED
    requires KeyOf(due) in AcceptedKeys(schedules, handled, ticks)
    ensures exists now :: Crowded(schedules, now)
  {
    var n := AcceptedWasSelected(schedules, handled, ticks, KeyOf(due));
    SameKeySameDue(schedules, due, ticks[n].now);
    assert Crowd(schedules, due.when, ticks[n].now, Instants(since));
    assert Crowded(schedules, ticks[n].now);
  }

  /** After the selection of a later entry that catches up the key never comes back. */
  lemma {:induction false} NeverBack(schedules: seq<Schedule>, handled: seq<Key>, ticks: seq<Tick>,
                                     due: Due, later: Due)
    requires Registered(schedules) && later.schedule in schedules && later.schedule.catchUp
    requires OccursAt(later.schedule, later.when) && due.when < later.when
    requires forall i | 0 <= i < |ticks| :: later.when <= ticks[i].now
    ensures KeyOf(due) !in AcceptedKeys(schedules, handled, ticks)
  {
    if KeyOf(due) in AcceptedKeys(schedules, handled, ticks) {
      var n := AcceptedWasSelected(schedules, handled, ticks, KeyOf(due));
      NotBeforeCatchUp(schedules, later.schedule, later.when, ticks[n].now);
    }
  }

  lemma {:induction false} CurrentMinute(t: int, now: int)
    requires t % MINUTE == 0 && t <= now
    ensures now < t + MINUTE ==> now - now % MINUTE == t
    ensures t <= now - now % MINUTE
  {
    assert t == MINUTE * (t / MINUTE) && now == MINUTE * (now / MINUTE) + now % MINUTE;
  }

  /** A momentary occurrence that is accepted is later than all accepted since. */
  lemma {:induction false} LaterThanSince(schedules: seq<Schedule>, handled: seq<Key>, now: int,
                                          due: Due, since: seq<Due>, i: nat)
    requires Registered(schedules) && RememberedSince(handled, due, since) && i < |since|
    requires Select(schedules, now).Some? && KeyOf(Select(schedules, now).value) !in handled
    requires !Select(schedules, now).value.schedule.catchUp
    requires since[i].schedule in schedules && OccursAt(since[i].schedule, since[i].when) && since[i].when <= now
    ensures since[i].when < Select(schedules, now).value.when
  {
    MomentarySelection(schedules, now);
    WholeMinute(since[i].schedule, since[i].when);
    CurrentMinute(since[i].when, now);
    assert handled[|handled| - |since| + i] == KeyOf(since[i]);
    if since[i].when == Select(schedules, now).value.when { SameKeySameDue(schedules, since[i], now); }
  }

  /** What is accepted is later than `due`. */
  lemma {:induction false} LaterThanDue(schedules: seq<Schedule>, handled: seq<Key>, now: int, due: Due)
    requires Registered(schedules) && KeyOf(due) in handled
    requires due.schedule in schedules && due.schedule.catchUp && OccursAt(due.schedule, due.when) && due.when <= now
    requires Select(schedules, now).Some? && KeyOf(Select(schedules, now).value) !in handled
    ensures due.when < Select(schedules, now).value.when <= now
  {
    NotBeforeCatchUp(schedules, due.schedule, due.when, now);
    SelectedNotLater(schedules, now);
    if Select(schedules, now).value.when == due.when { SameKeySameDue(schedules, due, now); }
  }

  lemma {:induction false} SelectedNotLater(schedules: seq<Schedule>, now: int)
    requires Registered(schedules) && Select(schedules, now).Some?
    ensures Select(schedules, now).value.when <= now
  {
    SelectIsChoice(schedules, now);
    var due := Select(schedules, now).value;
    WellFormedMember(schedules, due.schedule);
    OccurrenceOccurs(due.schedule, now);
  }

  lemma {:induction false} SinceGrows(schedules: seq<Schedule>, due: Due, since: seq<Due>, ticks: seq<Tick>, next: Due)
    requires ticks != [] && Chronological(ticks) && Since(schedules, due, since, ticks)
    requires next.schedule in schedules && OccursAt(next.schedule, next.when) && Momentary(schedules, next.when)
    requires due.when < next.when <= ticks[0].now && forall i | 0 <= i < |since| :: since[i].when < next.when
    ensures Since(schedules, due, since + [next], ticks[1..])
  {
    var grown := since + [next];
    forall i | 0 <= i < |ticks[1..]|
      ensures Crowd(schedules, due.when, ticks[1..][i].now, Instants(grown))
    {
      assert ticks[1..][i] == ticks[i + 1] && ticks[0].now <= ticks[i + 1].now;
      assert Crowd(schedules, due.when, ticks[i + 1].now, Instants(since));
      assert forall j | 0 <= j < |since| :: Instants(grown)[j] == Instants(since)[j];
    }
  }

  lemma {:induction false} RememberedGrows(handled: seq<Key>, due: Due, since: seq<Due>, next: Due)
    requires RememberedSince(handled, due, since) && KeyOf(next) !in handled && |since| + 1 < REMEMBERED
    ensures RememberedSince(Remember(handled, KeyOf(next)), due, since + [next])
  {}

  /** The first tick of a run. */
  lemma {:induction false} FirstTick(schedules: seq<Schedule>, handled: seq<Key>, ticks: seq<Tick>)
    requires ticks != []
    ensures var accepted := AcceptedKey(schedules, handled, ticks[0]);
            && AcceptedKeys(schedules, handled, ticks) ==
               (if accepted.Some? then [accepted.value] else []) +
               AcceptedKeys(schedules, AfterTick(handled, accepted), ticks[1..])
            && (accepted.Some? ==>
                  && Select(schedules, ticks[0].now).Some?
                  && accepted.value == KeyOf(Select(schedules, ticks[0].now).value) && accepted.value !in handled)
    ensures Chronological(ticks) ==>
              && Chronological(ticks[1..])
              && forall i | 0 <= i < |ticks[1..]| :: ticks[0].now <= ticks[1..][i].now
  {
    AcceptedKeysFrom(schedules, handled, ticks, 0);
    assert ticks[0..] == ticks;
    assert forall i | 0 <= i < |ticks[1..]| :: ticks[1..][i] == ticks[i + 1];
  }

  lemma {:induction false} SinceLater(schedules: seq<Schedule>, due: Due, since: seq<Due>, ticks: seq<Tick>)
    requires ticks != [] && Since(schedules, due, since, ticks)
    ensures Since(schedules, due, since, ticks[1..])
  {
    assert forall i | 0 <= i < |ticks[1..]| :: ticks[1..][i] == ticks[i + 1];
  }

  /** If the key of an entry that catches up is accepted once more, there was a crowd. */
  lemma {:induction false} AgainNeedsCrowd(
      schedules: seq<Schedule>, handled: seq<Key>, ticks: seq<Tick>, due: Due, since: seq<Due>)
    requires Registered(schedules) && Chronological(ticks) && Since(schedules, due, since, ticks)
    requires RememberedSince(handled, due, since) && |since| < REMEMBERED
    requires KeyOf(due) in AcceptedKeys(schedules, handled, ticks)
    ensures exists now :: Crowded(schedules, now)
    decreases |ticks|
  {
    FirstTick(schedules, handled, ticks);
    var now, rest, accepted := ticks[0].now, ticks[1..], AcceptedKey(schedules, handled, ticks[0]);
    if accepted.None? {
      SinceLater(schedules, due, since, ticks);
      AgainNeedsCrowd(schedules, handled, rest, due, since);
    } else {
      AcceptedMeanwhile(schedules, handled, ticks, due, since);
      var next := Select(schedules, now).value;
      var after := Remember(handled, KeyOf(next));
      if |since| + 1 == REMEMBERED {
        EnoughIsCrowded(schedules, after, rest, due, since + [next]);
      } else {
        RememberedGrows(handled, due, since, next);
        AgainNeedsCrowd(schedules, after, rest, due, since + [next]);
      }
    }
  }

  /** Whatever is accepted before the key comes back is momentary. */
  lemma {:induction false} AcceptedMeanwhile(schedules: seq<Schedule>, handled: seq<Key>, ticks: seq<Tick>,
                                             due: Due, since: seq<Due>)
    requires Registered(schedules) && ticks != [] && Chronological(ticks) && Since(schedules, due, since, ticks)
    requires RememberedSince(handled, due, since)
    requires KeyOf(due) in AcceptedKeys(schedules, handled, ticks) && AcceptedKey(schedules, handled, ticks[0]).Some?
    ensures var next := Select(schedules, ticks[0].now);
            && next.Some? && KeyOf(next.value) !in handled
            && AfterTick(handled, AcceptedKey(schedules, handled, ticks[0])) == Remember(handled, KeyOf(next.value))
            && KeyOf(due) in AcceptedKeys(schedules, Remember(handled, KeyOf(next.value)), ticks[1..])
            && Since(schedules, due, since + [next.value], ticks[1..])
  {
    FirstTick(schedules, handled, ticks);
    var now := ticks[0].now;
    var next := Select(schedules, now).value;
    assert KeyOf(due) == handled[|handled| - 1 - |since|];
    LaterThanDue(schedules, handled, now, due);
    SelectedOccurs(schedules, now);
    if next.schedule.catchUp {
      NeverBack(schedules, Remember(handled, KeyOf(next)), ticks[1..], due, next);
    } else {
      MomentarySelection(schedules, now);
      forall i | 0 <= i < |since| ensures since[i].when < next.when {
        assert Instants(since)[i] <= now;
        LaterThanSince(schedules, handled, now, due, since, i);
      }
      SinceGrows(schedules, due, since, ticks, next);
    }
  }

  /** The key of an entry without catch_up is not accepted once more while it is remembered,
      and its minute does not last long enough to forget it. */
  lemma {:induction false} MomentaryNotAgain(schedules: seq<Schedule>, handled: seq<Key>, ticks: seq<Tick>, due: Due)
    requires Registered(schedules) && Chronological(ticks) && KeyOf(due) in handled
    requires due.schedule in schedules && !due.schedule.catchUp && OccursAt(due.schedule, due.when)
    requires forall i | 0 <= i < |ticks| :: due.when <= ticks[i].now
    ensures KeyOf(due) !in AcceptedKeys(schedules, handled, ticks)
    decreases |ticks|
  {
    if ticks != [] {
      var now, rest := ticks[0].now, ticks[1..];
      WholeMinute(due.schedule, due.when);
      assert forall i | 0 <= i < |rest| :: rest[i] == ticks[i + 1];
      if now < due.when + MINUTE {
        WithinMinute(schedules, due, now);
        MomentaryNotAgain(schedules, handled, rest, due);
      } else if KeyOf(due) in AcceptedKeys(schedules, handled, ticks) {
        var n := AcceptedWasSelected(schedules, handled, ticks, KeyOf(due));
        SameKeySameDue(schedules, due, ticks[n].now);
        MomentarySelection(schedules, ticks[n].now);
      }
    }
  }

  /** During its minute an occurrence stays selected. */
  lemma {:induction false} WithinMinute(schedules: seq<Schedule>, due: Due, now: int)
    requires Registered(schedules) && due.schedule in schedules && !due.schedule.catchUp
    requires OccursAt(due.schedule, due.when) && due.when <= now < due.when + MINUTE
    ensures Select(schedules, now) == Some(due)
  {
    WholeMinute(due.schedule, due.when);
    CurrentMinute(due.when, now);
    WellFormedMember(schedules, due.schedule);
    OccurrenceExact(due.schedule, now);
    SelectIsChoice(schedules, now);
    SelectedOccurs(schedules, now);
    SelectedNotLater(schedules, now);
    WholeMinute(Select(schedules, now).value.schedule, Select(schedules, now).value.when);
    CurrentMinute(Select(schedules, now).value.when, now);
    SameKeySameDue(schedules, due, now);
  }

  lemma {:induction false} RepeatSplits(first: Key, later: seq<Key>)
    requires Repeats([first] + later)
    ensures first in later || Repeats(later)
  {
    var keys := [first] + later;
    var i, j :| 0 <= i < j < |keys| && keys[i] == keys[j];
    assert keys[j] == later[j - 1];
    if i > 0 { assert later[i - 1] == later[j - 1]; }
  }

  /** An occurrence accepted at the first tick and once more. */
  lemma {:induction false} FirstAgainNeedsCrowd(schedules: seq<Schedule>, handled: seq<Key>, ticks: seq<Tick>)
    requires Registered(schedules) && ticks != [] && Chronological(ticks)
    requires AcceptedKey(schedules, handled, ticks[0]).Some?
    requires var key := AcceptedKey(schedules, handled, ticks[0]).value;
             key in AcceptedKeys(schedules, Remember(handled, key), ticks[1..])
    ensures exists now :: Crowded(schedules, now)
  {
    FirstTick(schedules, handled, ticks);
    var due := Select(schedules, ticks[0].now).value;
    SelectedOccurs(schedules, ticks[0].now);
    SelectedNotLater(schedules, ticks[0].now);
    if due.schedule.catchUp {
      assert Instants([]) == [];
      AgainNeedsCrowd(schedules, Remember(handled, KeyOf(due)), ticks[1..], due, []);
    } else {
      MomentaryNotAgain(schedules, Remember(handled, KeyOf(due)), ticks[1..], due);
    }
  }

  /** From any memory: an occurrence accepted twice needs a crowd. */
  lemma {:induction false} RepeatNeedsCrowd(schedules: seq<Schedule>, handled: seq<Key>, ticks: seq<Tick>)
    requires Registered(schedules) && Chronological(ticks) && Repeats(AcceptedKeys(schedules, handled, ticks))
    ensures exists now :: Crowded(schedules, now)
    decreases |ticks|
  {
    FirstTick(schedules, handled, ticks);
    var accepted := AcceptedKey(schedules, handled, ticks[0]);
    var later := AcceptedKeys(schedules, AfterTick(handled, accepted), ticks[1..]);
    if accepted.Some? {
      RepeatSplits(accepted.value, later);
      if accepted.value in later {
        FirstAgainNeedsCrowd(schedules, handled, ticks);
        return;
      }
    } else {
      assert [] + later == later;
    }
    RepeatNeedsCrowd(schedules, AfterTick(handled, accepted), ticks[1..]);
  }
}
