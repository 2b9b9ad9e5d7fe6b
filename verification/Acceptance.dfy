/** Exactly which calls of `airctrl.schedule` are accepted, said of the call's own fields, and
    what the entries of an accepted call mean. */
module Acceptance {
  import opened Options
  import opened Calendar
  import opened Rules

  // ----- Times as texts

  function Figure(n: int): char
    requires 0 <= n <= 9
  {
    ('0' as int + n) as char
  }

  predicate TimeOfDay(hour: int, minute: int) {
    0 <= hour < 24 && 0 <= minute < 60
  }

  /** The spelling of a time of day. */
  function Clock(hour: int, minute: int): string
    requires TimeOfDay(hour, minute)
  {
    [Figure(hour / 10), Figure(hour % 10), ':', Figure(minute / 10), Figure(minute % 10)]
  }

  /** The times accepted are the spellings of all times of day, and are read as what they spell. */
  lemma TimesExactly(text: string)
    ensures ValidTime(text) <==> exists hour, minute :: TimeOfDay(hour, minute) && text == Clock(hour, minute)
    ensures forall hour, minute | TimeOfDay(hour, minute) && text == Clock(hour, minute) ::
              ValidTime(text) && Hour(text) == hour && Minute(text) == minute
  {
    if ValidTime(text) {
      SpelledBack(text);
    }
    forall hour, minute | TimeOfDay(hour, minute) && text == Clock(hour, minute)
      ensures ValidTime(text) && Hour(text) == hour && Minute(text) == minute
    {
      ClockIsRead(hour, minute);
    }
  }

  lemma SpelledBack(text: string)
    requires ValidTime(text)
    ensures TimeOfDay(Hour(text), Minute(text)) && text == Clock(Hour(text), Minute(text))
  {
    FigureRead(text[0], text[1]);
    FigureRead(text[3], text[4]);
  }

  lemma FigureRead(tens: char, ones: char)
    requires '0' <= tens <= '9' && '0' <= ones <= '9'
    ensures var n := TwoDigits(tens, ones);
            0 <= n <= 99 && Figure(n / 10) == tens && Figure(n % 10) == ones
  {
    var t, o := tens as int - '0' as int, ones as int - '0' as int;
    assert (10 * t + o) / 10 == t && (10 * t + o) % 10 == o;
  }

  lemma ClockIsRead(hour: int, minute: int)
    requires TimeOfDay(hour, minute)
    ensures ValidTime(Clock(hour, minute))
    ensures Hour(Clock(hour, minute)) == hour && Minute(Clock(hour, minute)) == minute
  {}

  /** A range accepted is two such spellings with a dash. */
  ghost predicate Spells(text: string, startHour: int, startMinute: int, endHour: int, endMinute: int) {
    && TimeOfDay(startHour, startMinute) && TimeOfDay(endHour, endMinute)
    && text == Clock(startHour, startMinute) + "-" + Clock(endHour, endMinute)
  }

  lemma SpellingParts(text: string, startHour: int, startMinute: int, endHour: int, endMinute: int)
    requires Spells(text, startHour, startMinute, endHour, endMinute)
    ensures ValidRange(text)
    ensures text[..5] == Clock(startHour, startMinute) && text[6..] == Clock(endHour, endMinute)
    ensures Hour(text[..5]) == startHour && Minute(text[..5]) == startMinute
    ensures Hour(text[6..]) == endHour && Minute(text[6..]) == endMinute
  {
    assert text[..5] == Clock(startHour, startMinute);
    assert text[6..] == Clock(endHour, endMinute);
    ClockIsRead(startHour, startMinute);
    ClockIsRead(endHour, endMinute);
  }

  lemma RangeSpells(text: string)
    requires ValidRange(text)
    ensures Spells(text, Hour(text[..5]), Minute(text[..5]), Hour(text[6..]), Minute(text[6..]))
  {
    SpelledBack(text[..5]);
    SpelledBack(text[6..]);
    assert text == text[..5] + [text[5]] + text[6..];
  }

  // ----- Days

  /** The field names weekdays properly: all of them by default, or a non-empty list of integers
      whose low 32 bits are 1 to 7. */
  predicate ProperDays(field: DaysField) {
    match field
    case EveryDay => true
    case NotAList => false
    case DayList(items) =>
      items != [] && forall i | 0 <= i < |items| :: items[i].Some? && 1 <= items[i].value % WIDTH <= 7
  }

  predicate OnDay(field: DaysField, weekday: int) {
    match field
    case EveryDay => true
    case NotAList => false
    case DayList(items) => exists i :: 0 <= i < |items| && items[i].Some? && items[i].value % WIDTH == weekday
  }

  lemma DaysExactly(field: DaysField)
    ensures ActiveDays(field).Ok? <==> ProperDays(field)
    ensures ActiveDays(field).Ok? ==>
              forall weekday | 1 <= weekday <= 7 :: weekday in ActiveDays(field).value <==> OnDay(field, weekday)
  {
    if field.DayList? { ListedDaysExactly(field.items, {}); }
  }

  lemma DayAfter(day: int)
    ensures NextDay(Weekday(day - 1)) == Weekday(day)
  {}

  lemma ShiftedDay(days: set<int>, day: int)
    requires forall d | d in days :: 1 <= d <= 7
    ensures Weekday(day) in (set d | d in days :: NextDay(d)) <==> Weekday(day - 1) in days
  {
    DayAfter(day);
    if Weekday(day) in (set d | d in days :: NextDay(d)) {
      var d :| d in days && NextDay(d) == Weekday(day);
      assert d == Weekday(day - 1);
    }
  }

  // ----- Instants

  /** The instants the fields of a call ask for; `past` if they are on the day after. */
  predicate Instant(field: DaysField, hour: int, minute: int, past: bool, t: int) {
    t % DAY == (hour * 60 + minute) * 60 && OnDay(field, Weekday(t / DAY - if past then 1 else 0))
  }

  /** A registered entry occurs at one of these instants. */
  ghost predicate Taken(schedules: seq<Schedule>, field: DaysField, hour: int, minute: int, past: bool) {
    exists i, t :: 0 <= i < |schedules| && OccursAt(schedules[i], t) && Instant(field, hour, minute, past, t)
  }

  /** The range ends on the day after it starts. */
  predicate PastMidnight(startHour: int, startMinute: int, endHour: int, endMinute: int) {
    endHour * 60 + endMinute < startHour * 60 + startMinute
  }

  /** Entries that are registered at the same weekday, hour and minute have an instant in
      common, and the other way round. */
  lemma ConflictExactly(a: Schedule, b: Schedule)
    requires WellFormed(a) && WellFormed(b)
    ensures Conflicts(a, b) <==> exists t :: OccursAt(a, t) && OccursAt(b, t)
  {
    assert (forall day | day in a.days :: day !in b.days) ==> a.days * b.days == {};
    if Conflicts(a, b) {
      var day :| day in a.days && day in b.days;
      var t := DAY * (day - 4) + Offset(a);
      InstantOf(day - 4, Offset(a));
      assert OccursAt(a, t) && OccursAt(b, t);
    }
    if t :| OccursAt(a, t) && OccursAt(b, t) {
      assert Weekday(t / DAY) in a.days * b.days;
      SameTime(a, b);
    }
  }

  lemma InstantOf(day: int, offset: int)
    requires 0 <= offset < DAY
    ensures (DAY * day + offset) / DAY == day && (DAY * day + offset) % DAY == offset
  {}

  lemma SameTime(a: Schedule, b: Schedule)
    requires WellFormed(a) && WellFormed(b) && Offset(a) == Offset(b)
    ensures a.hour == b.hour && a.minute == b.minute
  {}

  /** The entry occurs at just these instants. */
  ghost predicate OccursOn(s: Schedule, field: DaysField, hour: int, minute: int, past: bool) {
    forall t :: OccursAt(s, t) <==> Instant(field, hour, minute, past, t)
  }

  lemma EntryOccurs(rule: Rule, phase: string, time: string, values: Values)
    requires ValidTime(time) && ActiveDays(rule.days).Ok?
    ensures OccursOn(Entry(rule, phase, time, ActiveDays(rule.days).value, values), rule.days, Hour(time), Minute(time),
                     false)
  {
    DaysExactly(rule.days);
  }

  lemma ShiftedEntryOccurs(rule: Rule, phase: string, time: string, values: Values)
    requires ValidTime(time) && ActiveDays(rule.days).Ok?
    ensures var shifted := set day | day in ActiveDays(rule.days).value :: NextDay(day);
            OccursOn(Entry(rule, phase, time, shifted, values), rule.days, Hour(time), Minute(time), true)
  {
    var days := ActiveDays(rule.days).value;
    var shifted := set day | day in days :: NextDay(day);
    var entry := Entry(rule, phase, time, shifted, values);
    DaysExactly(rule.days);
    ActiveDaysAreWeekdays(rule.days);
    forall t ensures OccursAt(entry, t) <==> Instant(rule.days, Hour(time), Minute(time), true, t) {
      ShiftedDay(days, t / DAY);
    }
  }

  /** An entry that occurs at these instants conflicts with a registered one exactly if they
      are taken. */
  lemma TakenExactly(schedules: seq<Schedule>, s: Schedule, field: DaysField, hour: int, minute: int, past: bool)
    requires WellFormed(s) && OccursOn(s, field, hour, minute, past)
    requires forall i | 0 <= i < |schedules| :: WellFormed(schedules[i])
    ensures ConflictsWithAny(schedules, s) <==> Taken(schedules, field, hour, minute, past)
  {
    forall i | 0 <= i < |schedules|
      ensures Conflicts(schedules[i], s) <==>
              exists t :: OccursAt(schedules[i], t) && Instant(field, hour, minute, past, t)
    {
      ConflictExactly(schedules[i], s);
      if t :| OccursAt(schedules[i], t) && OccursAt(s, t) {
        assert Instant(field, hour, minute, past, t);
      }
      if t :| OccursAt(schedules[i], t) && Instant(field, hour, minute, past, t) {
        assert OccursAt(s, t);
      }
    }
  }

  // ----- Acceptance

  /** The name is new, well formed, and there is room for it. */
  predicate NewName(schedules: seq<Schedule>, name: string) {
    && 1 <= |name| <= 64
    && (forall i | 0 <= i < |name| ::
          'A' <= name[i] <= 'Z' || 'a' <= name[i] <= 'z' || '0' <= name[i] <= '9' || name[i] in "_./-")
    && (forall i | 0 <= i < |schedules| :: schedules[i].name != name)
    && |set i | 0 <= i < |schedules| :: schedules[i].name| < 64
  }

  /** A time of day, nothing for outside, and no instant of it taken. */
  ghost predicate AtFits(schedules: seq<Schedule>, rule: Rule, hour: int, minute: int) {
    && rule.between == "" && rule.outside.NoTable?
    && TimeOfDay(hour, minute) && rule.at == Clock(hour, minute)
    && !Taken(schedules, rule.days, hour, minute, false)
  }

  /** A range with two different ends, a table for outside, and no instant of either end taken;
      the end of a range past midnight is on the next day. */
  ghost predicate BetweenFits(schedules: seq<Schedule>, rule: Rule, startHour: int, startMinute: int, endHour: int,
                              endMinute: int)
  {
    && rule.at == "" && rule.outside.Table?
    && Spells(rule.between, startHour, startMinute, endHour, endMinute)
    && !(startHour == endHour && startMinute == endMinute)
    && !Taken(schedules, rule.days, startHour, startMinute, false)
    && !Taken(schedules, rule.days, endHour, endMinute, PastMidnight(startHour, startMinute, endHour, endMinute))
  }

  /** The parts of a call that do not depend on what is registered. */
  predicate WellSpelled(rule: Rule) {
    && (rule.at == "") != (rule.between == "")
    && (rule.at != "" ==> ValidTime(rule.at)) && (rule.between != "" ==> ValidRange(rule.between))
  }

  lemma RegisterUnfolded(schedules: seq<Schedule>, rule: Rule)
    requires Registered(schedules)
    ensures Register(schedules, rule).Ok? <==>
            && NewName(schedules, rule.name) && WellSpelled(rule) && ActiveDays(rule.days).Ok?
            && Additions(rule, ActiveDays(rule.days).value).Ok?
            && forall j | 0 <= j < |Additions(rule, ActiveDays(rule.days).value).value| ::
                 !ConflictsWithAny(schedules, Additions(rule, ActiveDays(rule.days).value).value[j])
    ensures Register(schedules, rule).Ok? ==>
              Register(schedules, rule).value == schedules + Additions(rule, ActiveDays(rule.days).value).value
  {
    assert ValidName(rule.name) <==>
      1 <= |rule.name| <= 64 &&
      forall i | 0 <= i < |rule.name| ::
        || 'A' <= rule.name[i] <= 'Z' || 'a' <= rule.name[i] <= 'z' || '0' <= rule.name[i] <= '9'
        || rule.name[i] in "_./-";
    assert Names(schedules) == set i | 0 <= i < |schedules| :: schedules[i].name;
    if WellSpelled(rule) && ActiveDays(rule.days).Ok? && Additions(rule, ActiveDays(rule.days).value).Ok? {
      ActiveDaysAreWeekdays(rule.days);
      AdditionsAgree(rule, ActiveDays(rule.days).value);
      NoConflictAmong(schedules, Additions(rule, ActiveDays(rule.days).value).value, 0);
    }
  }

  /** The entries of a well-formed `at` rule. */
  lemma AtEntries(schedules: seq<Schedule>, rule: Rule, hour: int, minute: int)
    requires Registered(schedules) && ActiveDays(rule.days).Ok?
    requires TimeOfDay(hour, minute) && rule.at == Clock(hour, minute)
    requires !rule.catchUp.NotABoolean? && rule.inside.Table? && rule.outside.NoTable?
    ensures ValidTime(rule.at)
    ensures var entry := Schedule(rule.name, "", hour, minute, ActiveDays(rule.days).value, rule.inside.values,
                                  rule.catchUp != CatchUp(false));
            && Additions(rule, ActiveDays(rule.days).value) == Ok([entry])
            && OccursOn(entry, rule.days, hour, minute, false)
            && (ConflictsWithAny(schedules, entry) <==> Taken(schedules, rule.days, hour, minute, false))
  {
    ClockIsRead(hour, minute);
    ActiveDaysAreWeekdays(rule.days);
    EntryWellFormed(rule, "", rule.at, ActiveDays(rule.days).value, rule.inside.values);
    EntryOccurs(rule, "", rule.at, rule.inside.values);
    var entry := Entry(rule, "", rule.at, ActiveDays(rule.days).value, rule.inside.values);
    TakenExactly(schedules, entry, rule.days, hour, minute, false);
  }

  lemma AtAccepted(schedules: seq<Schedule>, rule: Rule)
    requires Registered(schedules) && rule.at != ""
    ensures Register(schedules, rule).Ok? <==>
            && NewName(schedules, rule.name) && ProperDays(rule.days)
            && !rule.catchUp.NotABoolean? && rule.inside.Table?
            && exists hour, minute :: AtFits(schedules, rule, hour, minute)
  {
    RegisterUnfolded(schedules, rule);
    DaysExactly(rule.days);
    TimesExactly(rule.at);
    if ProperDays(rule.days) && !rule.catchUp.NotABoolean? && rule.inside.Table? && rule.outside.NoTable? {
      if hour, minute :| TimeOfDay(hour, minute) && rule.at == Clock(hour, minute) {
        AtEntries(schedules, rule, hour, minute);
        forall h, m | AtFits(schedules, rule, h, m) ensures h == hour && m == minute {}
        assert AtFits(schedules, rule, hour, minute) <==>
          rule.between == "" && !Taken(schedules, rule.days, hour, minute, false);
      }
    }
  }

  /** The start and the end of a range, as times of day. */
  lemma RangeTimes(rule: Rule, startHour: int, startMinute: int, endHour: int, endMinute: int)
    requires Spells(rule.between, startHour, startMinute, endHour, endMinute)
    ensures ValidRange(rule.between)
    ensures var start, end := rule.between[..5], rule.between[6..];
            && (Before(end, start) <==> PastMidnight(startHour, startMinute, endHour, endMinute))
            && (start == end <==> startHour == endHour && startMinute == endMinute)
            && Hour(start) == startHour && Minute(start) == startMinute
            && Hour(end) == endHour && Minute(end) == endMinute
  {
    SpellingParts(rule.between, startHour, startMinute, endHour, endMinute);
    TimeOrder(rule.between[6..], rule.between[..5]);
  }

  /** The entry for the end of a range. */
  function EndEntry(rule: Rule): Schedule
    requires ValidRange(rule.between) && ActiveDays(rule.days).Ok? && rule.outside.Table?
  {
    Entry(rule, "Ende", rule.between[6..],
          EndDays(ActiveDays(rule.days).value, rule.between[..5], rule.between[6..]), rule.outside.values)
  }

  function StartEntry(rule: Rule): Schedule
    requires ValidRange(rule.between) && ActiveDays(rule.days).Ok? && rule.inside.Table?
  {
    Entry(rule, "Beginn", rule.between[..5], ActiveDays(rule.days).value, rule.inside.values)
  }

  lemma EndOccurs(schedules: seq<Schedule>, rule: Rule, startHour: int, startMinute: int, endHour: int, endMinute: int)
    requires Registered(schedules) && ActiveDays(rule.days).Ok? && rule.outside.Table?
    requires Spells(rule.between, startHour, startMinute, endHour, endMinute)
    ensures ValidRange(rule.between)
    ensures var past := PastMidnight(startHour, startMinute, endHour, endMinute);
            && OccursOn(EndEntry(rule), rule.days, endHour, endMinute, past)
            && (ConflictsWithAny(schedules, EndEntry(rule)) <==> Taken(schedules, rule.days, endHour, endMinute, past))
  {
    RangeTimes(rule, startHour, startMinute, endHour, endMinute);
    var start, end, days := rule.between[..5], rule.between[6..], ActiveDays(rule.days).value;
    var past := PastMidnight(startHour, startMinute, endHour, endMinute);
    ActiveDaysAreWeekdays(rule.days);
    EndDaysAreWeekdays(days, start, end);
    EntryWellFormed(rule, "Ende", end, EndDays(days, start, end), rule.outside.values);
    if past {
      ShiftedEntryOccurs(rule, "Ende", end, rule.outside.values);
    } else {
      EntryOccurs(rule, "Ende", end, rule.outside.values);
    }
    TakenExactly(schedules, EndEntry(rule), rule.days, endHour, endMinute, past);
  }

  lemma StartOccurs(schedules: seq<Schedule>, rule: Rule, startHour: int, startMinute: int, endHour: int,
                    endMinute: int)
    requires Registered(schedules) && ActiveDays(rule.days).Ok? && rule.inside.Table?
    requires Spells(rule.between, startHour, startMinute, endHour, endMinute)
    ensures ValidRange(rule.between)
    ensures OccursOn(StartEntry(rule), rule.days, startHour, startMinute, false)
    ensures ConflictsWithAny(schedules, StartEntry(rule)) <==>
            Taken(schedules, rule.days, startHour, startMinute, false)
  {
    RangeTimes(rule, startHour, startMinute, endHour, endMinute);
    ActiveDaysAreWeekdays(rule.days);
    EntryWellFormed(rule, "Beginn", rule.between[..5], ActiveDays(rule.days).value, rule.inside.values);
    EntryOccurs(rule, "Beginn", rule.between[..5], rule.inside.values);
    TakenExactly(schedules, StartEntry(rule), rule.days, startHour, startMinute, false);
  }

  lemma BetweenAdditions(rule: Rule, startHour: int, startMinute: int, endHour: int, endMinute: int)
    requires rule.at == "" && ActiveDays(rule.days).Ok?
    requires Spells(rule.between, startHour, startMinute, endHour, endMinute)
    ensures ValidRange(rule.between)
    ensures var additions := Additions(rule, ActiveDays(rule.days).value);
            && (additions.Ok? <==>
                  && !rule.catchUp.NotABoolean? && rule.inside.Table? && rule.outside.Table?
                  && !(startHour == endHour && startMinute == endMinute))
            && (additions.Ok? ==> additions.value == [StartEntry(rule), EndEntry(rule)])
  {
    RangeTimes(rule, startHour, startMinute, endHour, endMinute);
  }

  lemma BetweenAcceptedAs(schedules: seq<Schedule>, rule: Rule, startHour: int, startMinute: int, endHour: int,
                          endMinute: int)
    requires Registered(schedules) && rule.at == ""
    requires Spells(rule.between, startHour, startMinute, endHour, endMinute)
    ensures Register(schedules, rule).Ok? <==>
            && NewName(schedules, rule.name) && ProperDays(rule.days)
            && !rule.catchUp.NotABoolean? && rule.inside.Table?
            && BetweenFits(schedules, rule, startHour, startMinute, endHour, endMinute)
    ensures Register(schedules, rule).Ok? ==>
              Register(schedules, rule).value == schedules + [StartEntry(rule), EndEntry(rule)]
  {
    RegisterUnfolded(schedules, rule);
    DaysExactly(rule.days);
    RangeTimes(rule, startHour, startMinute, endHour, endMinute);
    if ProperDays(rule.days) {
      BetweenAdditions(rule, startHour, startMinute, endHour, endMinute);
      var additions := Additions(rule, ActiveDays(rule.days).value);
      if additions.Ok? {
        StartOccurs(schedules, rule, startHour, startMinute, endHour, endMinute);
        EndOccurs(schedules, rule, startHour, startMinute, endHour, endMinute);
        assert additions.value[0] == StartEntry(rule) && additions.value[1] == EndEntry(rule);
      }
    }
  }

  lemma SpelledOnce(text: string, startHour: int, startMinute: int, endHour: int, endMinute: int)
    requires Spells(text, startHour, startMinute, endHour, endMinute)
    ensures forall a, b, c, d | Spells(text, a, b, c, d) ::
              a == startHour && b == startMinute && c == endHour && d == endMinute
  {
    SpellingParts(text, startHour, startMinute, endHour, endMinute);
    forall a, b, c, d | Spells(text, a, b, c, d)
      ensures a == startHour && b == startMinute && c == endHour && d == endMinute
    {
      SpellingParts(text, a, b, c, d);
    }
  }

  lemma BetweenAccepted(schedules: seq<Schedule>, rule: Rule)
    requires Registered(schedules) && rule.at == ""
    ensures Register(schedules, rule).Ok? <==>
            && NewName(schedules, rule.name) && ProperDays(rule.days)
            && !rule.catchUp.NotABoolean? && rule.inside.Table?
            && exists a, b, c, d :: BetweenFits(schedules, rule, a, b, c, d)
  {
    RegisterUnfolded(schedules, rule);
    if ValidRange(rule.between) {
      var start, end := rule.between[..5], rule.between[6..];
      RangeSpells(rule.between);
      SpelledOnce(rule.between, Hour(start), Minute(start), Hour(end), Minute(end));
      BetweenAcceptedAs(schedules, rule, Hour(start), Minute(start), Hour(end), Minute(end));
    } else {
      forall a, b, c, d ensures !BetweenFits(schedules, rule, a, b, c, d) {
        if Spells(rule.between, a, b, c, d) { SpellingParts(rule.between, a, b, c, d); }
      }
    }
  }

  /** A call is accepted exactly if its name is new, well formed and within the limit of 64, its
      days are proper, catch_up is a boolean or absent, there is a table of values, and it
      has either a time of day without values for outside or a range of two different times
      with them; and no registered entry occurs at an instant of the call. */
  lemma AcceptedExactly(schedules: seq<Schedule>, rule: Rule)
    requires Registered(schedules)
    ensures Register(schedules, rule).Ok? <==>
            && NewName(schedules, rule.name) && ProperDays(rule.days)
            && !rule.catchUp.NotABoolean? && rule.inside.Table?
            && ((exists hour, minute :: AtFits(schedules, rule, hour, minute)) ||
                (exists a, b, c, d :: BetweenFits(schedules, rule, a, b, c, d)))
  {
    if rule.at != "" { AtAccepted(schedules, rule); } else { BetweenAccepted(schedules, rule); }
  }

  /** An accepted `at` rule becomes one entry, with its values and its catch_up, that occurs at
      exactly that time on exactly those days. */
  lemma AcceptedAt(schedules: seq<Schedule>, rule: Rule, hour: int, minute: int)
    requires Registered(schedules) && Register(schedules, rule).Ok?
    requires TimeOfDay(hour, minute) && rule.at == Clock(hour, minute)
    ensures exists entry: Schedule ::
              && Register(schedules, rule).value == schedules + [entry]
              && entry.name == rule.name && entry.phase == ""
              && rule.inside == Table(entry.values) && entry.catchUp == (rule.catchUp != CatchUp(false))
              && forall t :: OccursAt(entry, t) <==> Instant(rule.days, hour, minute, false, t)
  {
    AtAccepted(schedules, rule);
    RegisterUnfolded(schedules, rule);
    AtEntries(schedules, rule, hour, minute);
    var entry := Schedule(rule.name, "", hour, minute, ActiveDays(rule.days).value, rule.inside.values,
                          rule.catchUp != CatchUp(false));
    assert OccursOn(entry, rule.days, hour, minute, false);
  }

  /** An accepted `between` rule becomes two entries: the values inside at the start, the values
      outside at the end, which is on the next day for a range past midnight. */
  lemma AcceptedBetween(schedules: seq<Schedule>, rule: Rule, startHour: int, startMinute: int, endHour: int,
                        endMinute: int)
    requires Registered(schedules) && Register(schedules, rule).Ok?
    requires Spells(rule.between, startHour, startMinute, endHour, endMinute)
    ensures exists first: Schedule, last: Schedule ::
              && Register(schedules, rule).value == schedules + [first, last]
              && first.name == last.name == rule.name && first.phase == "Beginn" && last.phase == "Ende"
              && rule.inside == Table(first.values) && rule.outside == Table(last.values)
              && first.catchUp == last.catchUp == (rule.catchUp != CatchUp(false))
              && (forall t :: OccursAt(first, t) <==> Instant(rule.days, startHour, startMinute, false, t))
              && (forall t ::
                    OccursAt(last, t) <==>
                    Instant(rule.days, endHour, endMinute, PastMidnight(startHour, startMinute, endHour, endMinute), t))
  {
    SpellingParts(rule.between, startHour, startMinute, endHour, endMinute);
    assert rule.at == "";
    BetweenAcceptedAs(schedules, rule, startHour, startMinute, endHour, endMinute);
    DaysExactly(rule.days);
    StartOccurs(schedules, rule, startHour, startMinute, endHour, endMinute);
    EndOccurs(schedules, rule, startHour, startMinute, endHour, endMinute);
    var first, last := StartEntry(rule), EndEntry(rule);
    assert Register(schedules, rule).value == schedules + [first, last];
  }

  /** A call is refused for a conflict exactly if it would be accepted alone and its name is new,
      but it is not accepted. */
  lemma ConflictRefused(schedules: seq<Schedule>, rule: Rule)
    requires Registered(schedules)
    ensures Register(schedules, rule) == Err(Conflict) <==>
            Register([], rule).Ok? && NewName(schedules, rule.name) && !Register(schedules, rule).Ok?
  {
    RegisterUnfolded(schedules, rule);
    RegisterUnfolded([], rule);
    RegisterKeeps(schedules, rule);
    assert Names([]) == {};
    assert Names(schedules) == set i | 0 <= i < |schedules| :: schedules[i].name;
    assert NewName(schedules, rule.name) ==> NewName([], rule.name);
    if WellSpelled(rule) && ActiveDays(rule.days).Ok? && Additions(rule, ActiveDays(rule.days).value).Ok? {
      var additions := Additions(rule, ActiveDays(rule.days).value).value;
      ActiveDaysAreWeekdays(rule.days);
      AdditionsAgree(rule, ActiveDays(rule.days).value);
      NoConflictAmong(schedules, additions, 0);
      ConflictReason(schedules, additions, 0);
    }
  }

  lemma {:induction false} ConflictReason(schedules: seq<Schedule>, additions: seq<Schedule>, index: nat)
    requires index <= |additions|
    ensures ConflictAmong(schedules, additions, index).Some? ==>
              ConflictAmong(schedules, additions, index) in [Some(Conflict), Some(ConflictWithItself)]
    decreases |additions| - index
  {
    if index < |additions| { ConflictReason(schedules, additions, index + 1); }
  }
}
