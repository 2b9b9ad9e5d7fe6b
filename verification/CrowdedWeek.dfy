/** Eleven rules with mixed catch_up values for which the memory of 64 keys is not enough. */
module CrowdedWeek {
  import opened Options
  import opened Calendar
  import opened Rules
  import opened Selection
  import opened Occurrences
  import opened Crowding
  import opened CrowdedRuns

  /** A weekly rule that catches up, due Thursdays at 00:00. */
  const WEEKLY := Rule("weekly", "00:00", "", DayList([Some(4)]), DefaultCatchUp, Table(map[]), NoTable)

  /** A daily rule that does not, due at half past the hour. */
  function HalfPast(hour: nat): Rule
    requires hour < 10
  {
    Rule([('0' as int + hour) as char], ['0', ('0' as int + hour) as char, ':', '3', '0'], "", EveryDay,
         CatchUp(false), Table(map[]), NoTable)
  }

  function HalfHours(first: nat): seq<Rule>
    requires first <= 10
    decreases 10 - first
  {
    if first == 10 then [] else [HalfPast(first)] + HalfHours(first + 1)
  }

  const WEEKLY_ENTRY := Schedule("weekly", "", 0, 0, {4}, map[], true)

  function HalfPastEntry(hour: nat): Schedule
    requires hour < 10
  {
    Schedule([('0' as int + hour) as char], "", hour, 30, {1, 2, 3, 4, 5, 6, 7}, map[], false)
  }

  function CrowdedEntries(n: nat): (entries: seq<Schedule>)
    requires n <= 10
    ensures |entries| == n + 1 && entries[0] == WEEKLY_ENTRY
    ensures forall i | 1 <= i <= n :: entries[i] == HalfPastEntry(i - 1)
  {
    [WEEKLY_ENTRY] + seq(n, i requires 0 <= i < n => HalfPastEntry(i))
  }

  lemma {:induction false} NamesAreFew(schedules: seq<Schedule>)
    ensures |Names(schedules)| <= |schedules|
  {
    if schedules == [] {
      assert Names(schedules) == {};
    } else {
      var shorter, last := schedules[..|schedules| - 1], schedules[|schedules| - 1];
      NamesAreFew(shorter);
      NamesGrow(shorter, [last], last.name);
      assert schedules == shorter + [last];
    }
  }

  lemma {:induction false} WeeklyRegisters()
    ensures Register([], WEEKLY) == Ok(CrowdedEntries(0))
  {
    ListedDaysExactly([Some(4)], {});
    var items: seq<Option<int>> := [Some(4)];
    assert items[0].value % WIDTH == 4;
    assert ListedDays(items, {}).value == {4};
    assert [] + [WEEKLY_ENTRY] == CrowdedEntries(0);
    assert ConflictAmong([], [WEEKLY_ENTRY], 0) == None;
  }

  lemma {:induction false} HalfPastRegisters(n: nat)
    requires n < 10
    ensures Register(CrowdedEntries(n), HalfPast(n)) == Ok(CrowdedEntries(n + 1))
  {
    var entries, rule, entry := CrowdedEntries(n), HalfPast(n), HalfPastEntry(n);
    NamesAreFew(entries);
    assert ValidTime(rule.at) && Hour(rule.at) == n && Minute(rule.at) == 30;
    assert rule.name !in Names(entries);
    assert forall i | 0 <= i < |entries| :: !Conflicts(entries[i], entry);
    assert !ConflictsWithAny([entry][..0], entry);
    assert ConflictAmong(entries, [entry], 1) == None;
    assert entries + [entry] == CrowdedEntries(n + 1);
  }

  lemma {:induction false} AllRegister(n: nat)
    requires n <= 10
    ensures RegisterAll(CrowdedEntries(n), HalfHours(n)) == CrowdedEntries(10)
    decreases 10 - n
  {
    if n < 10 {
      HalfPastRegisters(n);
      AllRegister(n + 1);
      assert HalfHours(n)[1..] == HalfHours(n + 1);
    }
  }

  function CrowdedRules(): seq<Rule> {
    [WEEKLY] + HalfHours(0)
  }

  lemma {:induction false} RulesRegister()
    ensures RegisterAll([], CrowdedRules()) == CrowdedEntries(10) && Registered(CrowdedEntries(10))
  {
    WeeklyRegisters();
    AllRegister(0);
    assert CrowdedRules()[1..] == HalfHours(0);
    assert Registered([]) by { assert Names([]) == {}; }
    RegisterAllKeeps([], CrowdedRules());
  }

  /** The half hours one after the other, ten on each day. */
  function HalfHour(i: nat): int {
    (i / 10) * DAY + (i % 10) * 60 * MINUTE + 30 * MINUTE
  }

  lemma {:induction false} HalfHourIsMomentary(entries: seq<Schedule>, i: nat)
    requires entries == CrowdedEntries(10)
    ensures Momentary(entries, HalfHour(i))
  {
    var hour := i % 10;
    assert entries[hour + 1] == HalfPastEntry(hour);
    assert HalfHour(i) / DAY == i / 10 && HalfHour(i) % DAY == Offset(HalfPastEntry(hour));
  }

  /** On Wednesday at 04:00 the weekly entry of Thursday is still the latest. */
  const CROWDED_MOMENT := 6 * DAY + 4 * 60 * MINUTE

  lemma {:induction false} WeeklyOccurrence(now: int)
    requires now == CROWDED_MOMENT
    ensures Occurrence(WEEKLY_ENTRY, now) == Some(0)
  {
    forall u | OccursAt(WEEKLY_ENTRY, u) && u <= now ensures u <= 0 {
      assert u == DAY * (u / DAY) && u / DAY <= 6;
    }
    assert 4 in WEEKLY_ENTRY.days && WellFormed(WEEKLY_ENTRY);
    OccurrenceExact(WEEKLY_ENTRY, now);
    assert OccursAt(WEEKLY_ENTRY, 0);
  }

  lemma {:induction false} NoHalfPastNow(hour: nat, now: int)
    requires hour < 10 && now == CROWDED_MOMENT
    ensures Occurrence(HalfPastEntry(hour), now) == None
  {
    var s := HalfPastEntry(hour);
    assert 1 in s.days && WellFormed(s);
    OccurrenceExact(s, now);
    assert now % MINUTE == 0 && now % DAY == 4 * 60 * MINUTE;
  }

  lemma {:induction false} WeeklyIsSelected(entries: seq<Schedule>, now: int)
    requires entries == CrowdedEntries(10) && Registered(entries) && now == CROWDED_MOMENT
    ensures Select(entries, now) == Some(Due(WEEKLY_ENTRY, 0))
  {
    WeeklyOccurrence(now);
    forall s | s in entries && Occurrence(s, now).Some? ensures Occurrence(s, now).value <= 0 {
      var i :| 0 <= i < |entries| && entries[i] == s;
      if i > 0 { NoHalfPastNow(i - 1, now); }
    }
    assert entries[0] in entries;
    assert IsChoice(entries, now, Some(Due(WEEKLY_ENTRY, 0)));
    SelectIsChoice(entries, now);
    ChoiceUnique(entries, now, Some(Due(WEEKLY_ENTRY, 0)), Select(entries, now));
  }

  lemma {:induction false} HalfHoursAscend(i: nat, j: nat)
    requires i < j
    ensures HalfHour(i) < HalfHour(j)
  {
    assert i == 10 * (i / 10) + i % 10 && j == 10 * (j / 10) + j % 10;
    if i / 10 < j / 10 { assert (i / 10 + 1) * DAY <= (j / 10) * DAY; }
  }

  function FirstHalfHours(n: nat): (instants: seq<int>)
    ensures |instants| == n && forall i | 0 <= i < n :: instants[i] == HalfHour(i)
  {
    seq(n, i requires 0 <= i < n => HalfHour(i))
  }

  lemma {:induction false} HalfHoursCrowd(entries: seq<Schedule>, now: int, n: nat)
    requires entries == CrowdedEntries(10) && now == CROWDED_MOMENT && n <= 64
    ensures Crowd(entries, 0, now, FirstHalfHours(n))
  {
    forall i | 0 <= i < n ensures 0 < HalfHour(i) <= now && Momentary(entries, HalfHour(i)) {
      HalfHourIsMomentary(entries, i);
      if i < 63 { HalfHoursAscend(i, 63); }
    }
    forall i, j | 0 <= i < j < n ensures HalfHour(i) < HalfHour(j) {
      HalfHoursAscend(i, j);
    }
  }

  lemma {:induction false} WeekRepeats(entries: seq<Schedule>, now: int) returns (ticks: seq<Tick>)
    requires entries == CrowdedEntries(10) && Registered(entries) && now == CROWDED_MOMENT
    ensures Chronological(ticks) && Repeats(AcceptedKeys(entries, [], ticks))
  {
    WeeklyIsSelected(entries, now);
    HalfHoursCrowd(entries, now, REMEMBERED);
    assert Crowded(entries, now);
    ticks := CrowdRepeats(entries, now);
  }

  /** Eleven rules that the program accepts, one weekly and ten daily ones, and a run of less
      than a week that accepts the weekly occurrence twice. */
  lemma {:induction false} MixedCatchUpRepeats()
    ensures Registered(RegisterAll([], CrowdedRules()))
    ensures exists ticks ::
              Chronological(ticks) && Repeats(AcceptedKeys(RegisterAll([], CrowdedRules()), [], ticks))
  {
    var entries := RegisterAll([], CrowdedRules());
    RulesRegister();
    var ticks := WeekRepeats(entries, CROWDED_MOMENT);
  }
}
