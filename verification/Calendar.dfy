/** Occurrences of a weekly schedule on a linear local clock that counts seconds from
    00:00 of a Thursday.  There are no time-zone or daylight-saving jumps. */
module Calendar {
  import opened Options

  const MINUTE := 60
  const DAY := 24 * 60 * MINUTE

  /** Monday is 1, Sunday is 7; day 0 is a Thursday. */
  function Weekday(day: int): (w: int)
    ensures 1 <= w <= 7
  {
    (day + 3) % 7 + 1
  }

  type Values = map<string, string>

  datatype Schedule = Schedule(
    name: string,
    phase: string,
    hour: int,
    minute: int,
    days: set<int>,
    values: Values,
    catchUp: bool)

  predicate WellFormed(s: Schedule) {
    && 0 <= s.hour < 24
    && 0 <= s.minute < 60
    && (exists day :: 1 <= day <= 7 && day in s.days)
    && (forall day | day in s.days :: 1 <= day <= 7)
  }

  function Offset(s: Schedule): int {
    (s.hour * 60 + s.minute) * MINUTE
  }

  /** The declarative meaning of an entry: its instants, past and future. */
  predicate OccursAt(s: Schedule, t: int) {
    t % DAY == Offset(s) && Weekday(t / DAY) in s.days
  }

  ghost predicate IsLatest(s: Schedule, now: int, t: int) {
    && OccursAt(s, t)
    && t <= now
    && forall u | OccursAt(s, u) && u <= now :: u <= t
  }

  // ----- The backward search

  function Candidate(s: Schedule, now: int, back: int): int {
    (now / DAY - back) * DAY + Offset(s)
  }

  predicate Eligible(s: Schedule, now: int, back: int) {
    Candidate(s, now, back) <= now && Weekday(now / DAY - back) in s.days
  }

  /** The first eligible day from `back` on among the eight days; 8 if there is none. */
  function FirstEligible(s: Schedule, now: int, back: nat): (first: nat)
    requires back <= 8
    ensures back <= first <= 8
    ensures forall b | back <= b < first :: !Eligible(s, now, b)
    ensures first < 8 ==> Eligible(s, now, first)
    decreases 8 - back
  {
    if back == 8 || Eligible(s, now, back) then back else FirstEligible(s, now, back + 1)
  }

  function Occurrence(s: Schedule, now: int): Option<int> {
    var back := FirstEligible(s, now, 0);
    if back == 8 then None
    else if !s.catchUp && Candidate(s, now, back) / MINUTE != now / MINUTE then None
    else Some(Candidate(s, now, back))
  }

  method OccurrenceFor(s: Schedule, now: int) returns (when: Option<int>)
    requires WellFormed(s)
    ensures when == Occurrence(s, now)
  {
    for back := 0 to 8
      invariant FirstEligible(s, now, 0) == FirstEligible(s, now, back)
    {
      var candidate := (now / DAY - back) * DAY + (s.hour * 60 + s.minute) * MINUTE;
      assert candidate == Candidate(s, now, back);
      if candidate > now {
        continue;
      }
      CandidateDay(s, now, back);
      var weekday := Weekday(candidate / DAY);
      if weekday !in s.days {
        continue;
      }
      if !s.catchUp && candidate / MINUTE != now / MINUTE {
        return None;
      }
      return Some(candidate);
    }
    when := None;
  }

  lemma CandidateDay(s: Schedule, now: int, back: int)
    requires WellFormed(s)
    ensures Candidate(s, now, back) / DAY == now / DAY - back
    ensures Candidate(s, now, back) % DAY == Offset(s)
  {}

  /** Every occurrence up to now is the candidate of its own day. */
  lemma OccurrenceIsCandidate(s: Schedule, now: int, t: int)
    requires WellFormed(s) && OccursAt(s, t) && t <= now
    ensures t / DAY <= now / DAY
    ensures t == Candidate(s, now, now / DAY - t / DAY) && Eligible(s, now, now / DAY - t / DAY)
  {}

  /** Each weekday lies among the last seven days before today. */
  lemma WeekCovered(day: int, weekday: int) returns (back: int)
    requires 1 <= weekday <= 7
    ensures 1 <= back <= 7 && Weekday(day - back) == weekday
  {
    var weeks, rest := (day + 3) / 7, (day + 3) % 7;
    back := rest - (weekday - 1);
    if back <= 0 {
      back := back + 7;
      weeks := weeks - 1;
    }
    assert day - back + 3 == 7 * weeks + (weekday - 1);
  }

  lemma SearchSucceeds(s: Schedule, now: int)
    requires WellFormed(s)
    ensures FirstEligible(s, now, 0) < 8
  {
    var weekday :| 1 <= weekday <= 7 && weekday in s.days;
    var back := WeekCovered(now / DAY, weekday);
    EarlierDayIsPast(s, now, back);
    assert Eligible(s, now, back);
  }

  lemma EarlierDayIsPast(s: Schedule, now: int, back: int)
    requires WellFormed(s) && back >= 1
    ensures Candidate(s, now, back) <= now
  {}

  lemma EarlierDayIsEarlier(s: Schedule, now: int, near: int, far: int)
    ensures near <= far ==> Candidate(s, now, far) <= Candidate(s, now, near)
  {}

  /** The candidate of the first eligible day is the latest occurrence of all. */
  lemma FirstEligibleIsLatest(s: Schedule, now: int)
    requires WellFormed(s)
    ensures var back := FirstEligible(s, now, 0);
            back < 8 && IsLatest(s, now, Candidate(s, now, back))
  {
    SearchSucceeds(s, now);
    var back := FirstEligible(s, now, 0);
    CandidateDay(s, now, back);
    forall u | OccursAt(s, u) && u <= now ensures u <= Candidate(s, now, back) {
      OccurrenceIsCandidate(s, now, u);
      EarlierDayIsEarlier(s, now, back, now / DAY - u / DAY);
    }
  }

  /** Eight days are enough: with catch_up the search always finds an occurrence, and it is
      the latest one in the unbounded past.  Without catch_up it finds one exactly when the
      current minute is an occurrence, and then that one. */
  lemma OccurrenceExact(s: Schedule, now: int)
    requires WellFormed(s)
    ensures s.catchUp ==> Occurrence(s, now).Some? && IsLatest(s, now, Occurrence(s, now).value)
    ensures !s.catchUp ==> (Occurrence(s, now).Some? <==> OccursAt(s, now - now % MINUTE))
    ensures !s.catchUp && Occurrence(s, now).Some? ==> Occurrence(s, now).value == now - now % MINUTE
  {
    var back := FirstEligible(s, now, 0);
    var c := Candidate(s, now, back);
    FirstEligibleIsLatest(s, now);
    CandidateMinute(s, now, back);
    if !s.catchUp && OccursAt(s, now - now % MINUTE) {
      assert now - now % MINUTE <= c;
    }
  }

  lemma CandidateMinute(s: Schedule, now: int, back: int)
    ensures var c := Candidate(s, now, back);
            && (c / MINUTE == now / MINUTE <==> c == now - now % MINUTE)
            && (now - now % MINUTE <= c <= now ==> c == now - now % MINUTE)
  {
    var minutes := (now / DAY - back) * 24 * 60 + s.hour * 60 + s.minute;
    assert Candidate(s, now, back) == MINUTE * minutes;
    SameMinute(minutes, now);
  }

  lemma SameMinute(minutes: int, now: int)
    ensures MINUTE * minutes / MINUTE == now / MINUTE <==> MINUTE * minutes == now - now % MINUTE
    ensures now - now % MINUTE <= MINUTE * minutes <= now ==> MINUTE * minutes == now - now % MINUTE
  {
    assert now == MINUTE * (now / MINUTE) + now % MINUTE;
  }

  /** An occurrence found is an instant of the entry, not in the future, and no later
      instant of a catch_up entry has passed. */
  lemma OccurrenceOccurs(s: Schedule, now: int)
    requires WellFormed(s) && Occurrence(s, now).Some?
    ensures OccursAt(s, Occurrence(s, now).value) && Occurrence(s, now).value <= now
  {
    OccurrenceExact(s, now);
  }
}
