/** Which entry is due: the one with the latest occurrence.  The choice does not depend on
    the order of registration, and a `between` rule means its declared windows. */
module Selection {
  import opened Options
  import opened Calendar
  import opened Rules

  datatype Due = Due(schedule: Schedule, when: int)

  function Better(best: Option<Due>, s: Schedule, now: int): Option<Due> {
    match Occurrence(s, now)
    case None => best
    case Some(when) => if best.None? || when > best.value.when then Some(Due(s, when)) else best
  }

  function SelectFrom(schedules: seq<Schedule>, now: int, best: Option<Due>): Option<Due> {
    if schedules == [] then best else SelectFrom(schedules[1..], now, Better(best, schedules[0], now))
  }

  function Select(schedules: seq<Schedule>, now: int): Option<Due> {
    SelectFrom(schedules, now, None)
  }

  /** `due` is an entry with a latest occurrence that none exceeds. */
  ghost predicate IsChoice(schedules: seq<Schedule>, now: int, due: Option<Due>) {
    match due
    case None => forall s | s in schedules :: Occurrence(s, now) == None
    case Some(d) =>
      && d.schedule in schedules
      && Occurrence(d.schedule, now) == Some(d.when)
      && forall s | s in schedules && Occurrence(s, now).Some? :: Occurrence(s, now).value <= d.when
  }

  lemma {:induction false} SelectFromIsChoice(done: seq<Schedule>, schedules: seq<Schedule>, now: int,
                                              best: Option<Due>)
    requires IsChoice(done, now, best)
    ensures IsChoice(done + schedules, now, SelectFrom(schedules, now, best))
    decreases |schedules|
  {
    if schedules == [] {
      assert done + schedules == done;
    } else {
      SelectFromIsChoice(done + [schedules[0]], schedules[1..], now, Better(best, schedules[0], now));
      assert done + [schedules[0]] + schedules[1..] == done + schedules;
    }
  }

  lemma SelectIsChoice(schedules: seq<Schedule>, now: int)
    ensures IsChoice(schedules, now, Select(schedules, now))
  {
    SelectFromIsChoice([], schedules, now, None);
    assert [] + schedules == schedules;
  }

  // ----- No ties

  lemma OffsetsDiffer(a: Schedule, b: Schedule)
    requires WellFormed(a) && WellFormed(b) && Offset(a) == Offset(b)
    ensures a.hour == b.hour && a.minute == b.minute
  {}

  /** Two entries that do not conflict never occur at the same instant. */
  lemma NoTie(a: Schedule, b: Schedule, t: int)
    requires WellFormed(a) && WellFormed(b) && OccursAt(a, t) && OccursAt(b, t)
    ensures Conflicts(a, b)
  {
    OffsetsDiffer(a, b);
    assert Weekday(t / DAY) in a.days * b.days;
  }

  /** In a conflict-free list the instant identifies the entry. */
  lemma SameInstantSameEntry(schedules: seq<Schedule>, a: Schedule, b: Schedule, t: int)
    requires Registered(schedules) && a in schedules && b in schedules
    requires OccursAt(a, t) && OccursAt(b, t)
    ensures a == b
  {
    var i :| 0 <= i < |schedules| && schedules[i] == a;
    var j :| 0 <= j < |schedules| && schedules[j] == b;
    NoTie(a, b, t);
    assert b.days * a.days == a.days * b.days;
  }

  lemma ChoiceUnique(schedules: seq<Schedule>, now: int, left: Option<Due>, right: Option<Due>)
    requires Registered(schedules) && IsChoice(schedules, now, left) && IsChoice(schedules, now, right)
    ensures left == right
  {
    if left.Some? && right.Some? {
      OccurrenceOccurs(left.value.schedule, now);
      OccurrenceOccurs(right.value.schedule, now);
      SameInstantSameEntry(schedules, left.value.schedule, right.value.schedule, left.value.when);
    }
  }

  /** The choice does not depend on the order in which entries were registered. */
  lemma OrderIrrelevant(left: seq<Schedule>, right: seq<Schedule>, now: int)
    requires Registered(left) && multiset(left) == multiset(right)
    ensures Select(left, now) == Select(right, now)
  {
    SelectIsChoice(left, now);
    SelectIsChoice(right, now);
    forall s ensures s in left <==> s in right {
      assert s in multiset(left) <==> s in multiset(right);
    }
    ChoiceUnique(left, now, Select(left, now), Select(right, now));
  }

  // ----- The meaning of a `between` rule

  /** The seconds from a day's midnight to the end of the window opened on it. */
  function WindowEnd(start: string, end: string): int
    requires ValidTime(start) && ValidTime(end)
  {
    if Seconds(end) > Seconds(start) then Seconds(end) else Seconds(end) + DAY
  }

  predicate OpenOn(days: set<int>, start: string, end: string, now: int, day: int)
    requires ValidTime(start) && ValidTime(end)
  {
    Weekday(day) in days && day * DAY + Seconds(start) <= now < day * DAY + WindowEnd(start, end)
  }

  /** Some window opened on an allowed day contains the instant. */
  ghost predicate InWindow(days: set<int>, start: string, end: string, now: int)
    requires ValidTime(start) && ValidTime(end)
  {
    exists day :: OpenOn(days, start, end, now, day)
  }

  lemma NextWeekday(day: int)
    ensures Weekday(day + 1) == NextDay(Weekday(day))
  {
    var rest := (day + 3) % 7;
    assert (day + 3 + 1) % 7 == if rest == 6 then 0 else rest + 1;
  }

  lemma EndDay(days: set<int>, start: string, end: string, day: int)
    requires ValidTime(start) && ValidTime(end) && start != end
    requires forall d | d in days :: 1 <= d <= 7
    ensures var shift := if Seconds(end) > Seconds(start) then 0 else 1;
            Weekday(day + shift) in EndDays(days, start, end) <==> Weekday(day) in days
  {
    TimeOrder(end, start);
    NextWeekday(day);
  }

  /** The start entry is due at the openings of the windows, the end entry at their ends. */
  lemma EntriesBoundWindows(rule: Rule, days: set<int>, day: int)
    requires rule.at == "" && ValidRange(rule.between) && Week(days) && Additions(rule, days).Ok?
    ensures var start, end := rule.between[..5], rule.between[6..];
            var additions := Additions(rule, days).value;
            && (OccursAt(additions[0], day * DAY + Seconds(start)) <==> Weekday(day) in days)
            && (OccursAt(additions[1], day * DAY + WindowEnd(start, end)) <==> Weekday(day) in days)
  {
    var start, end := rule.between[..5], rule.between[6..];
    EntryWellFormed(rule, "Beginn", start, days, rule.inside.values);
    EndDaysAreWeekdays(days, start, end);
    EntryWellFormed(rule, "Ende", end, EndDays(days, start, end), rule.outside.values);
    EndDay(days, start, end, day);
    InstantOf(day, Seconds(start));
    InstantOf(day, Seconds(end));
    InstantOf(day + 1, Seconds(end));
    assert (day + 1) * DAY + Seconds(end) == day * DAY + (Seconds(end) + DAY);
  }

  lemma InstantOf(day: int, seconds: int)
    requires 0 <= seconds < DAY
    ensures (day * DAY + seconds) / DAY == day && (day * DAY + seconds) % DAY == seconds
  {}

  lemma WindowShape(start: string, end: string)
    requires ValidTime(start) && ValidTime(end)
    ensures 0 <= Seconds(start) < DAY
    ensures start != end ==> Seconds(start) < WindowEnd(start, end) < Seconds(start) + DAY
  {
    TimeOrder(start, end);
  }

  /** The opening day of the window an instant of the start or the end entry bounds. */
  lemma BoundsSomeWindow(rule: Rule, days: set<int>, t: int) returns (openedOn: int, closedOn: int)
    requires rule.at == "" && ValidRange(rule.between) && Week(days) && Additions(rule, days).Ok?
    ensures var start, end := rule.between[..5], rule.between[6..];
            var additions := Additions(rule, days).value;
            && (OccursAt(additions[0], t) ==> t == openedOn * DAY + Seconds(start) && Weekday(openedOn) in days)
            && (OccursAt(additions[1], t) ==> t == closedOn * DAY + WindowEnd(start, end) && Weekday(closedOn) in days)
  {
    var start, end := rule.between[..5], rule.between[6..];
    EntryWellFormed(rule, "Beginn", start, days, rule.inside.values);
    EndDaysAreWeekdays(days, start, end);
    EntryWellFormed(rule, "Ende", end, EndDays(days, start, end), rule.outside.values);
    openedOn := t / DAY;
    closedOn := if Seconds(end) > Seconds(start) then t / DAY else t / DAY - 1;
    EndDay(days, start, end, closedOn);
    assert t == (t / DAY) * DAY + t % DAY;
  }

  /** A start later than the latest end has opened a window that is still open. */
  lemma LaterStartIsOpen(rule: Rule, days: set<int>, now: int, s: int, e: int) returns (day: int)
    requires rule.at == "" && ValidRange(rule.between) && Week(days) && Additions(rule, days).Ok?
    requires OccursAt(Additions(rule, days).value[0], s) && e < s <= now
    requires IsLatest(Additions(rule, days).value[1], now, e)
    ensures OpenOn(days, rule.between[..5], rule.between[6..], now, day)
  {
    WindowShape(rule.between[..5], rule.between[6..]);
    var closeDay;
    day, closeDay := BoundsSomeWindow(rule, days, s);
    EntriesBoundWindows(rule, days, day);
  }

  /** While a window is open, its opening is later than any end so far. */
  lemma OpenWindowIsLater(rule: Rule, days: set<int>, now: int, day: int, e: int)
    requires rule.at == "" && ValidRange(rule.between) && Week(days) && Additions(rule, days).Ok?
    requires OpenOn(days, rule.between[..5], rule.between[6..], now, day)
    requires OccursAt(Additions(rule, days).value[1], e) && e <= now
    ensures e < day * DAY + Seconds(rule.between[..5])
  {
    var start, end := rule.between[..5], rule.between[6..];
    WindowShape(start, end);
    var _, closeDay := BoundsSomeWindow(rule, days, e);
    Apart(closeDay, day, Seconds(start), WindowEnd(start, end));
  }

  lemma Apart(earlier: int, later: int, start: int, end: int)
    requires earlier * DAY + end < later * DAY + end && end < start + DAY
    ensures earlier * DAY + end < later * DAY + start
  {}

  /** For the latest start `s` and the latest end `e` up to now, the start is the later one
      exactly while a window is open. */
  lemma LaterBoundDecides(rule: Rule, days: set<int>, now: int, s: int, e: int)
    requires rule.at == "" && ValidRange(rule.between) && Week(days) && Additions(rule, days).Ok?
    requires IsLatest(Additions(rule, days).value[0], now, s) && IsLatest(Additions(rule, days).value[1], now, e)
    ensures s > e <==> InWindow(days, rule.between[..5], rule.between[6..], now)
  {
    var start, end := rule.between[..5], rule.between[6..];
    if s > e {
      var day := LaterStartIsOpen(rule, days, now, s, e);
    }
    if day :| OpenOn(days, start, end, now, day) {
      EntriesBoundWindows(rule, days, day);
      OpenWindowIsLater(rule, days, now, day, e);
    }
  }

  lemma BetweenEntries(rule: Rule)
    requires rule.at == "" && Register([], rule).Ok?
    ensures ValidRange(rule.between) && ActiveDays(rule.days).Ok? && Week(ActiveDays(rule.days).value)
    ensures var entries := Register([], rule).value;
            && Additions(rule, ActiveDays(rule.days).value) == Ok(entries)
            && |entries| == 2 && !Conflicts(entries[0], entries[1])
            && WellFormed(entries[0]) && WellFormed(entries[1])
            && entries[0].values == rule.inside.values && entries[1].values == rule.outside.values
  {
    ActiveDaysAreWeekdays(rule.days);
    AdditionsAgree(rule, ActiveDays(rule.days).value);
    var additions := Additions(rule, ActiveDays(rule.days).value).value;
    assert [] + additions == additions;
  }

  /** Of two entries that are both due, the one with the later occurrence is chosen. */
  lemma LaterOfTwo(a: Schedule, b: Schedule, now: int)
    requires WellFormed(a) && WellFormed(b) && !Conflicts(a, b)
    requires Occurrence(a, now).Some? && Occurrence(b, now).Some?
    ensures Select([a, b], now).Some?
    ensures Select([a, b], now).value.schedule ==
            if Occurrence(a, now).value > Occurrence(b, now).value then a else b
  {
    SelectIsChoice([a, b], now);
    assert a in [a, b] && b in [a, b];
    OccurrenceOccurs(a, now);
    OccurrenceOccurs(b, now);
    if Occurrence(a, now) == Occurrence(b, now) {
      NoTie(a, b, Occurrence(a, now).value);
    }
  }

  /** A `between` rule registered alone with catch_up means its windows.  At every instant
      an entry is due; it is the start entry exactly inside a window opened on an allowed
      day, and the end entry outside.  Ranges past midnight are included. */
  lemma BetweenMeansWindows(rule: Rule, now: int)
    requires rule.at == "" && Register([], rule).Ok?
    requires rule.catchUp != CatchUp(false)
    ensures var entries := Register([], rule).value;
            && |entries| == 2
            && entries[0].values == rule.inside.values && entries[1].values == rule.outside.values
            && Select(entries, now).Some?
            && Select(entries, now).value.schedule ==
               entries[if InWindow(ActiveDays(rule.days).value, rule.between[..5], rule.between[6..], now)
                       then 0 else 1]
  {
    BetweenEntries(rule);
    var entries := Register([], rule).value;
    OccurrenceExact(entries[0], now);
    OccurrenceExact(entries[1], now);
    var s, e := Occurrence(entries[0], now).value, Occurrence(entries[1], now).value;
    LaterBoundDecides(rule, ActiveDays(rule.days).value, now, s, e);
    LaterOfTwo(entries[0], entries[1], now);
    assert entries == [entries[0], entries[1]];
  }
}
