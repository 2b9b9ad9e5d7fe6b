/** Registration of schedule rules: validation, the split of a `between` rule into two
    entries, and the rejection of entries that would be due at the same instant. */
module Rules {
  import opened Options
  import opened Strings
  import opened Calendar

  /** A field that may hold a table of control values. */
  datatype ValuesField = NoTable | RejectedTable | Table(values: Values)

  /** `days`: absent, of another type, or a list whose items may fail to be integers. */
  datatype DaysField = EveryDay | NotAList | DayList(items: seq<Option<int>>)

  datatype CatchUpField = DefaultCatchUp | NotABoolean | CatchUp(flag: bool)

  /** One call of `airctrl.schedule`; absent texts are empty. */
  datatype Rule = Rule(
    name: string,
    at: string,
    between: string,
    days: DaysField,
    catchUp: CatchUpField,
    inside: ValuesField,
    outside: ValuesField)

  datatype Rejection =
    | BadName
    | AtOrBetweenExpected
    | BadTime
    | BadRange
    | TooManyRules
    | DuplicateName
    | DaysExpected
    | DayExpected
    | DayOutOfRange
    | NoDays
    | BooleanExpected
    | BadValues
    | OutsideWithAt
    | EmptyRange
    | BadOutside
    | Conflict
    | ConflictWithItself

  datatype Result<+T> = Ok(value: T) | Err(rejection: Rejection)

  const MAX_RULES := 64

  // ----- Texts

  predicate Digit(c: char, last: char) {
    '0' <= c <= last
  }

  predicate NameCharacter(c: char) {
    'A' <= c <= 'Z' || 'a' <= c <= 'z' || '0' <= c <= '9' || c == '_' || c == '.' || c == '/' || c == '-'
  }

  predicate ValidName(name: string) {
    1 <= |name| <= 64 && forall i | 0 <= i < |name| :: NameCharacter(name[i])
  }

  predicate ValidTime(text: string) {
    && |text| == 5
    && ((Digit(text[0], '1') && Digit(text[1], '9')) || (text[0] == '2' && Digit(text[1], '3')))
    && text[2] == ':'
    && Digit(text[3], '5') && Digit(text[4], '9')
  }

  predicate ValidRange(text: string) {
    |text| == 11 && ValidTime(text[..5]) && text[5] == '-' && ValidTime(text[6..])
  }

  function TwoDigits(tens: char, ones: char): int {
    10 * (tens as int - '0' as int) + (ones as int - '0' as int)
  }

  function Hour(time: string): int
    requires ValidTime(time)
  {
    TwoDigits(time[0], time[1])
  }

  function Minute(time: string): int
    requires ValidTime(time)
  {
    TwoDigits(time[3], time[4])
  }

  function Seconds(time: string): int
    requires ValidTime(time)
  {
    (Hour(time) * 60 + Minute(time)) * MINUTE
  }

  predicate Before(a: string, b: string) {
    !Leq(b, a)
  }

  /** Comparing times as texts compares them as times of day. */
  lemma TimeOrder(a: string, b: string)
    requires ValidTime(a) && ValidTime(b)
    ensures Before(a, b) <==> Seconds(a) < Seconds(b)
    ensures a == b <==> Seconds(a) == Seconds(b)
  {
    TimeOrderFrom(a, b, 4);
    TimeOrderFrom(a, b, 3);
    TimeOrderFrom(a, b, 2);
    TimeOrderFrom(a, b, 1);
    TimeOrderFrom(a, b, 0);
    assert a[0..] == a && b[0..] == b;
    if Seconds(a) == Seconds(b) {
      assert a[0] == b[0] && a[1] == b[1] && a[3] == b[3] && a[4] == b[4];
      assert a == b;
    }
  }

  lemma TimeOrderFrom(a: string, b: string, i: nat)
    requires i < |a| == |b|
    ensures Leq(b[i..], a[i..]) <==> b[i] < a[i] || (b[i] == a[i] && Leq(b[i + 1..], a[i + 1..]))
  {
    assert a[i..][1..] == a[i + 1..] && b[i..][1..] == b[i + 1..];
  }

  // ----- Weekdays

  /** The conversion of a 64-bit Lua integer to a 32-bit `int`. */
  function Narrow(value: int): int {
    (value + 0x8000_0000) % 0x1_0000_0000 - 0x8000_0000
  }

  function NextDay(day: int): int {
    if day == 7 then 1 else day + 1
  }

  /** The items are taken in order; the first bad one decides. */
  function ListedDays(items: seq<Option<int>>, days: set<int>): (listed: Result<set<int>>)
    ensures listed.Err? ==> listed.rejection.DayExpected? || listed.rejection.DayOutOfRange?
  {
    if items == [] then Ok(days)
    else if items[0].None? then Err(DayExpected)
    else
      var day := Narrow(items[0].value);
      if day < 1 || day > 7 then Err(DayOutOfRange) else ListedDays(items[1..], days + {day})
  }

  function ActiveDays(field: DaysField): Result<set<int>> {
    match field
    case EveryDay => Ok({1, 2, 3, 4, 5, 6, 7})
    case NotAList => Err(DaysExpected)
    case DayList(items) => if items == [] then Err(NoDays) else ListedDays(items, {})
  }

  predicate Week(days: set<int>) {
    (exists day :: 1 <= day <= 7 && day in days) && forall day | day in days :: 1 <= day <= 7
  }

  lemma {:induction false} ListedDaysAreWeekdays(items: seq<Option<int>>, days: set<int>)
    requires forall day | day in days :: 1 <= day <= 7
    requires items != [] || exists day :: 1 <= day <= 7 && day in days
    ensures ListedDays(items, days).Ok? ==> Week(ListedDays(items, days).value)
  {
    if items != [] && items[0].Some? && 1 <= Narrow(items[0].value) <= 7 {
      assert Narrow(items[0].value) in days + {Narrow(items[0].value)};
      ListedDaysAreWeekdays(items[1..], days + {Narrow(items[0].value)});
    }
  }

  lemma ActiveDaysAreWeekdays(field: DaysField)
    ensures ActiveDays(field).Ok? ==> Week(ActiveDays(field).value)
  {
    match field
    case EveryDay => assert 1 in ActiveDays(field).value;
    case NotAList =>
    case DayList(items) => if items != [] { ListedDaysAreWeekdays(items, {}); }
  }

  // ----- Entries

  function EndDays(days: set<int>, start: string, end: string): set<int> {
    if Before(end, start) then set day | day in days :: NextDay(day) else days
  }

  function Entry(rule: Rule, phase: string, time: string, days: set<int>, values: Values): Schedule
    requires ValidTime(time)
  {
    Schedule(rule.name, phase, Hour(time), Minute(time), days, values,
             if rule.catchUp.CatchUp? then rule.catchUp.flag else true)
  }

  /** The entries a rule stands for, before it is compared with the registered ones. */
  function Additions(rule: Rule, days: set<int>): Result<seq<Schedule>>
    requires rule.at != "" ==> ValidTime(rule.at)
    requires rule.at == "" ==> ValidRange(rule.between)
  {
    if rule.catchUp.NotABoolean? then Err(BooleanExpected)
    else if !rule.inside.Table? then Err(BadValues)
    else if rule.at != "" then
      if !rule.outside.NoTable? then Err(OutsideWithAt)
      else Ok([Entry(rule, "", rule.at, days, rule.inside.values)])
    else
      var start, end := rule.between[..5], rule.between[6..];
      if start == end then Err(EmptyRange)
      else if !rule.outside.Table? then Err(BadOutside)
      else Ok([Entry(rule, "Beginn", start, days, rule.inside.values),
               Entry(rule, "Ende", end, EndDays(days, start, end), rule.outside.values)])
  }

  predicate Conflicts(a: Schedule, b: Schedule) {
    a.hour == b.hour && a.minute == b.minute && a.days * b.days != {}
  }

  predicate ConflictsWithAny(schedules: seq<Schedule>, addition: Schedule) {
    exists i :: 0 <= i < |schedules| && Conflicts(schedules[i], addition)
  }

  /** The first conflict found, addition by addition. */
  function ConflictAmong(schedules: seq<Schedule>, additions: seq<Schedule>, index: nat): Option<Rejection>
    requires index <= |additions|
    decreases |additions| - index
  {
    if index == |additions| then None
    else if ConflictsWithAny(schedules, additions[index]) then Some(Conflict)
    else if ConflictsWithAny(additions[..index], additions[index]) then Some(ConflictWithItself)
    else ConflictAmong(schedules, additions, index + 1)
  }

  function Names(schedules: seq<Schedule>): set<string> {
    set i | 0 <= i < |schedules| :: schedules[i].name
  }

  /** One call of `airctrl.schedule`: the new entry list or the reason of the refusal. */
  function Register(schedules: seq<Schedule>, rule: Rule): Result<seq<Schedule>> {
    if !ValidName(rule.name) then Err(BadName)
    else if (rule.at == "") == (rule.between == "") then Err(AtOrBetweenExpected)
    else if rule.at != "" && !ValidTime(rule.at) then Err(BadTime)
    else if rule.between != "" && !ValidRange(rule.between) then Err(BadRange)
    else if |Names(schedules)| >= MAX_RULES then Err(TooManyRules)
    else if rule.name in Names(schedules) then Err(DuplicateName)
    else match ActiveDays(rule.days)
      case Err(rejection) => Err(rejection)
      case Ok(days) =>
        match Additions(rule, days)
        case Err(rejection) => Err(rejection)
        case Ok(additions) =>
          match ConflictAmong(schedules, additions, 0)
          case Some(rejection) => Err(rejection)
          case None => Ok(schedules + additions)
  }

  /** A refused call leaves the registered entries alone. */
  function RegisterAll(schedules: seq<Schedule>, rules: seq<Rule>): seq<Schedule>
    decreases |rules|
  {
    if rules == [] then schedules
    else match Register(schedules, rules[0])
      case Ok(next) => RegisterAll(next, rules[1..])
      case Err(_) => RegisterAll(schedules, rules[1..])
  }

  // ----- The invariant of the entry list

  ghost predicate ConflictFree(schedules: seq<Schedule>) {
    forall i, j | 0 <= i < j < |schedules| :: !Conflicts(schedules[i], schedules[j])
  }

  ghost predicate Registered(schedules: seq<Schedule>) {
    && ConflictFree(schedules)
    && |Names(schedules)| <= MAX_RULES
    && forall i | 0 <= i < |schedules| :: WellFormed(schedules[i])
  }

  lemma EndDaysAreWeekdays(days: set<int>, start: string, end: string)
    requires Week(days)
    ensures Week(EndDays(days, start, end))
  {
    var day :| 1 <= day <= 7 && day in days;
    assert Before(end, start) ==> NextDay(day) in EndDays(days, start, end);
  }

  lemma EntryWellFormed(rule: Rule, phase: string, time: string, days: set<int>, values: Values)
    requires ValidTime(time) && Week(days)
    ensures WellFormed(Entry(rule, phase, time, days, values))
    ensures Offset(Entry(rule, phase, time, days, values)) == Seconds(time)
  {}

  /** The two entries of a `between` rule never conflict with each other: the check for it
      cannot fire. */
  lemma AdditionsAgree(rule: Rule, days: set<int>)
    requires rule.at != "" ==> ValidTime(rule.at)
    requires rule.at == "" ==> ValidRange(rule.between)
    requires Week(days) && Additions(rule, days).Ok?
    ensures var additions := Additions(rule, days).value;
            && ConflictFree(additions)
            && 1 <= |additions| <= 2
            && forall i | 0 <= i < |additions| :: WellFormed(additions[i]) && additions[i].name == rule.name
  {
    if rule.at != "" {
      EntryWellFormed(rule, "", rule.at, days, rule.inside.values);
    } else {
      var start, end := rule.between[..5], rule.between[6..];
      TimeOrder(start, end);
      EndDaysAreWeekdays(days, start, end);
      EntryWellFormed(rule, "Beginn", start, days, rule.inside.values);
      EntryWellFormed(rule, "Ende", end, EndDays(days, start, end), rule.outside.values);
    }
  }

  lemma {:induction false} NoConflictAmong(schedules: seq<Schedule>, additions: seq<Schedule>, index: nat)
    requires index <= |additions| && ConflictFree(additions)
    ensures ConflictAmong(schedules, additions, index) != Some(ConflictWithItself)
    ensures ConflictAmong(schedules, additions, index) == None <==>
            forall j | index <= j < |additions| :: !ConflictsWithAny(schedules, additions[j])
    decreases |additions| - index
  {
    if index < |additions| {
      NoConflictAmong(schedules, additions, index + 1);
      assert !ConflictsWithAny(additions[..index], additions[index]);
    }
  }

  lemma NamesGrow(schedules: seq<Schedule>, additions: seq<Schedule>, name: string)
    requires additions != [] && forall i | 0 <= i < |additions| :: additions[i].name == name
    ensures Names(schedules + additions) == Names(schedules) + {name}
  {
    forall other ensures other in Names(schedules + additions) <==> other in Names(schedules) + {name} {
      if other in Names(schedules) {
        var i :| 0 <= i < |schedules| && schedules[i].name == other;
        assert (schedules + additions)[i].name == other;
      }
      assert (schedules + additions)[|schedules|].name == name;
    }
  }

  /** An accepted call keeps the invariant and appends one or two entries of a new name; no
      call is refused for conflicting with itself. */
  lemma RegisterKeeps(schedules: seq<Schedule>, rule: Rule)
    requires Registered(schedules)
    ensures Register(schedules, rule) != Err(ConflictWithItself)
    ensures Register(schedules, rule).Ok? ==>
              var next := Register(schedules, rule).value;
              && Registered(next)
              && |schedules| < |next| <= |schedules| + 2 && next[..|schedules|] == schedules
              && Names(next) == Names(schedules) + {rule.name}
              && rule.name !in Names(schedules)
  {
    var wellSpelled := (rule.at == "") != (rule.between == "")
                       && (rule.at != "" ==> ValidTime(rule.at)) && (rule.between != "" ==> ValidRange(rule.between));
    if wellSpelled && ActiveDays(rule.days).Ok? && Additions(rule, ActiveDays(rule.days).value).Ok? {
      var days := ActiveDays(rule.days).value;
      var additions := Additions(rule, days).value;
      ActiveDaysAreWeekdays(rule.days);
      AdditionsAgree(rule, days);
      NoConflictAmong(schedules, additions, 0);
      NamesGrow(schedules, additions, rule.name);
      if ConflictAmong(schedules, additions, 0) == None {
        AppendedConflictFree(schedules, additions);
      }
    }
  }

  lemma AppendedConflictFree(schedules: seq<Schedule>, additions: seq<Schedule>)
    requires ConflictFree(schedules) && ConflictFree(additions)
    requires forall j | 0 <= j < |additions| :: !ConflictsWithAny(schedules, additions[j])
    ensures ConflictFree(schedules + additions)
  {
    var next := schedules + additions;
    forall i, j | 0 <= i < j < |next| ensures !Conflicts(next[i], next[j]) {
      if i < |schedules| <= j {
        assert !ConflictsWithAny(schedules, additions[j - |schedules|]);
      }
    }
  }

  /** After any sequence of accepted and refused calls no two entries share a weekday at
      the same hour and minute. */
  lemma {:induction false} RegisterAllKeeps(schedules: seq<Schedule>, rules: seq<Rule>)
    requires Registered(schedules)
    ensures Registered(RegisterAll(schedules, rules))
    decreases |rules|
  {
    if rules != [] {
      RegisterKeeps(schedules, rules[0]);
      match Register(schedules, rules[0])
      case Ok(next) => RegisterAllKeeps(next, rules[1..]);
      case Err(_) => RegisterAllKeeps(schedules, rules[1..]);
    }
  }

  // ----- Weekdays beyond 32 bits

  const WIDTH: int := 0x1_0000_0000

  /** The conversion keeps a number between 1 and 7 exactly if its low 32 bits are one. */
  lemma NarrowsToWeekday(value: int)
    ensures 1 <= Narrow(value) <= 7 <==> 1 <= value % WIDTH <= 7
    ensures 1 <= value % WIDTH <= 7 ==> Narrow(value) == value % WIDTH
  {}

  /** A list of weekdays is accepted exactly if every item is an integer whose low 32 bits are
      a weekday, and it then stands for those weekdays. */
  lemma {:induction false} ListedDaysExactly(items: seq<Option<int>>, days: set<int>)
    ensures ListedDays(items, days).Ok? <==>
            forall i | 0 <= i < |items| :: items[i].Some? && 1 <= items[i].value % WIDTH <= 7
    ensures ListedDays(items, days).Ok? ==>
              forall day :: day in ListedDays(items, days).value <==>
                            day in days || exists i :: 0 <= i < |items| && items[i].value % WIDTH == day
  {
    if items != [] && items[0].Some? {
      var value, rest := items[0].value, items[1..];
      NarrowsToWeekday(value);
      ListedDaysExactly(rest, days + {Narrow(value)});
      assert forall i | 0 <= i < |rest| :: rest[i] == items[i + 1];
      assert forall i | 0 < i < |items| :: items[i] == rest[i - 1];
    }
  }

  /** The promise that only weekdays from 1 to 7 are accepted fails for whole families of
      numbers: beside proper weekdays, any other number is accepted exactly if it differs from
      a weekday by a nonzero multiple of 2 to the 32. */
  lemma WrongWeekdayExactly(items: seq<Option<int>>, wrong: nat)
    requires wrong < |items| && items[wrong].Some? && !(1 <= items[wrong].value <= 7)
    requires forall i | 0 <= i < |items| && i != wrong :: items[i].Some? && 1 <= items[i].value <= 7
    ensures ActiveDays(DayList(items)).Ok? <==> exists k :: k != 0 && 1 <= items[wrong].value - k * WIDTH <= 7
  {
    var value := items[wrong].value;
    ListedDaysExactly(items, {});
    assert value == (value / WIDTH) * WIDTH + value % WIDTH;
    if 1 <= value % WIDTH <= 7 {
      assert 1 <= value - (value / WIDTH) * WIDTH <= 7;
    }
    if k :| k != 0 && 1 <= value - k * WIDTH <= 7 {
      assert value % WIDTH == value - k * WIDTH;
    }
  }
}
