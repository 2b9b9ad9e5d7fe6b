/** Runs that accept an occurrence twice, built from a crowd; and with them the exact condition. */
module CrowdedRuns {
  import opened Options
  import opened Calendar
  import opened Rules
  import opened Selection
  import opened Occurrences
  import opened Crowding

  /** At a momentary occurrence its entry is selected. */
  lemma {:induction false} MomentaryIsSelected(schedules: seq<Schedule>, t: int)
    requires Registered(schedules) && Momentary(schedules, t)
    ensures Select(schedules, t).Some? && Select(schedules, t).value.when == t
  {
    var i :| 0 <= i < |schedules| && !schedules[i].catchUp && OccursAt(schedules[i], t);
    OccurringIsSelected(schedules, schedules[i], t);
  }

  /** The keys of what is selected at the instants. */
  function KeysAt(schedules: seq<Schedule>, instants: seq<int>): (keys: seq<Key>)
    requires forall i | 0 <= i < |instants| :: Select(schedules, instants[i]).Some?
    ensures |keys| == |instants|
    ensures forall i | 0 <= i < |keys| :: keys[i] == KeyOf(Select(schedules, instants[i]).value)
  {
    seq(|instants|, i requires 0 <= i < |instants| => KeyOf(Select(schedules, instants[i]).value))
  }

  /** An accepted evaluation at each instant. */
  function TicksAt(instants: seq<int>): (ticks: seq<Tick>)
    ensures |ticks| == |instants| && forall i | 0 <= i < |instants| :: ticks[i] == Tick(instants[i], true)
  {
    seq(|instants|, i requires 0 <= i < |instants| => Tick(instants[i], true))
  }

  lemma {:induction false} AcceptedTick(schedules: seq<Schedule>, handled: seq<Key>, ticks: seq<Tick>)
    requires ticks != [] && ticks[0].accepted && Select(schedules, ticks[0].now).Some?
    requires KeyOf(Select(schedules, ticks[0].now).value) !in handled
    ensures var key := KeyOf(Select(schedules, ticks[0].now).value);
            AcceptedKeys(schedules, handled, ticks) ==
            [key] + AcceptedKeys(schedules, Remember(handled, key), ticks[1..])
  {
    FirstTick(schedules, handled, ticks);
  }

  /** What is remembered after the first key and some of the others. */
  function Held(first: Key, keys: seq<Key>): seq<Key> {
    if |keys| < REMEMBERED then [first] + keys else keys
  }

  /** The keys are those of occurrences at ascending instants after the first one. */
  predicate LaterAndLater(first: Key, keys: seq<Key>) {
    forall i | 0 <= i < |keys| :: first.when < keys[i].when && forall j | i < j < |keys| :: keys[i].when < keys[j].when
  }

  lemma {:induction false} HeldGrows(first: Key, keys: seq<Key>, n: nat)
    requires n < |keys| == REMEMBERED && LaterAndLater(first, keys)
    ensures keys[n] !in Held(first, keys[..n])
    ensures Remember(Held(first, keys[..n]), keys[n]) == Held(first, keys[..n + 1])
  {
    assert keys[..n + 1] == keys[..n] + [keys[n]];
    if n + 1 == REMEMBERED {
      assert ([first] + keys[..n] + [keys[n]])[1..] == keys[..n + 1];
    } else {
      assert [first] + keys[..n] + [keys[n]] == [first] + keys[..n + 1];
    }
  }

  /** Whatever is selected at the instants has these keys. */
  predicate SelectedAt(schedules: seq<Schedule>, instants: seq<int>, keys: seq<Key>) {
    && |keys| == |instants|
    && forall i | 0 <= i < |keys| ::
         Select(schedules, instants[i]).Some? && KeyOf(Select(schedules, instants[i]).value) == keys[i]
  }

  lemma {:induction false} TicksGoOn(instants: seq<int>, n: nat, now: int)
    requires n < |instants|
    ensures var ticks := TicksAt(instants[n..] + [now]);
            ticks != [] && ticks[0] == Tick(instants[n], true) && ticks[1..] == TicksAt(instants[n + 1..] + [now])
  {
    assert (instants[n..] + [now])[1..] == instants[n + 1..] + [now];
  }

  lemma {:induction false} CrowdStep(
      schedules: seq<Schedule>, first: Key, instants: seq<int>, keys: seq<Key>, now: int, n: nat)
    requires n < |instants| == REMEMBERED && SelectedAt(schedules, instants, keys) && LaterAndLater(first, keys)
    ensures AcceptedKeys(schedules, Held(first, keys[..n]), TicksAt(instants[n..] + [now])) ==
            [keys[n]] + AcceptedKeys(schedules, Held(first, keys[..n + 1]), TicksAt(instants[n + 1..] + [now]))
  {
    TicksGoOn(instants, n, now);
    HeldGrows(first, keys, n);
    AcceptedTick(schedules, Held(first, keys[..n]), TicksAt(instants[n..] + [now]));
  }

  lemma {:induction false} CrowdEnds(schedules: seq<Schedule>, first: Key, keys: seq<Key>, now: int)
    requires |keys| == REMEMBERED && LaterAndLater(first, keys)
    requires Select(schedules, now).Some? && KeyOf(Select(schedules, now).value) == first
    ensures AcceptedKeys(schedules, Held(first, keys), TicksAt([now])) == [first]
  {
    AcceptedTick(schedules, keys, TicksAt([now]));
    assert TicksAt([now])[1..] == [];
  }

  /** The instants after the first key one by one, and then the moment at which the first key
      is selected once more. */
  lemma {:induction false} CrowdIsAccepted(
      schedules: seq<Schedule>, first: Key, instants: seq<int>, keys: seq<Key>, now: int, n: nat)
    requires n <= |instants| == REMEMBERED && SelectedAt(schedules, instants, keys) && LaterAndLater(first, keys)
    requires Select(schedules, now).Some? && KeyOf(Select(schedules, now).value) == first
    ensures AcceptedKeys(schedules, Held(first, keys[..n]), TicksAt(instants[n..] + [now])) == keys[n..] + [first]
    decreases |instants| - n
  {
    if n == |instants| {
      assert keys[..n] == keys && keys[n..] + [first] == [first] && instants[n..] + [now] == [now];
      CrowdEnds(schedules, first, keys, now);
    } else {
      CrowdStep(schedules, first, instants, keys, now, n);
      CrowdIsAccepted(schedules, first, instants, keys, now, n + 1);
      assert [keys[n]] + (keys[n + 1..] + [first]) == keys[n..] + [first];
    }
  }

  lemma {:induction false} CrowdIsSelected(schedules: seq<Schedule>, after: int, upTo: int,
                                           instants: seq<int>, first: Key)
    returns (keys: seq<Key>)
    requires Registered(schedules) && Crowd(schedules, after, upTo, instants) && first.when == after
    ensures SelectedAt(schedules, instants, keys) && LaterAndLater(first, keys)
  {
    forall i | 0 <= i < |instants|
      ensures Select(schedules, instants[i]).Some? && Select(schedules, instants[i]).value.when == instants[i]
    {
      MomentaryIsSelected(schedules, instants[i]);
    }
    keys := KeysAt(schedules, instants);
  }

  /** Accepting the entry that catches up at its occurrence, the crowd, and the entry once
      more. */
  lemma {:induction false} CrowdRepeats(schedules: seq<Schedule>, now: int) returns (ticks: seq<Tick>)
    requires Registered(schedules) && Crowded(schedules, now)
    ensures Chronological(ticks) && Repeats(AcceptedKeys(schedules, [], ticks))
  {
    var due := Select(schedules, now).value;
    var instants :| |instants| == REMEMBERED && Crowd(schedules, due.when, now, instants);
    SelectedOccurs(schedules, now);
    SelectedNotLater(schedules, now);
    OccurringIsSelected(schedules, due.schedule, due.when);
    ticks := TicksAt([due.when] + instants + [now]);
    var keys := CrowdIsSelected(schedules, due.when, now, instants, KeyOf(due));
    RepeatsAtOnce(schedules, due, instants, keys, now, ticks);
  }

  lemma {:induction false} RepeatsAtOnce(
      schedules: seq<Schedule>, due: Due, instants: seq<int>, keys: seq<Key>, now: int, ticks: seq<Tick>)
    requires |instants| == REMEMBERED && SelectedAt(schedules, instants, keys) && LaterAndLater(KeyOf(due), keys)
    requires Select(schedules, due.when) == Some(due) && Select(schedules, now) == Some(due)
    requires ticks == TicksAt([due.when] + instants + [now])
    ensures Repeats(AcceptedKeys(schedules, [], ticks))
  {
    var first := KeyOf(due);
    assert instants[0..] == instants && ticks[1..] == TicksAt(instants[0..] + [now]);
    AcceptedTick(schedules, [], ticks);
    assert keys[..0] == [] && keys[0..] == keys;
    assert Remember([], first) == Held(first, keys[..0]);
    CrowdIsAccepted(schedules, first, instants, keys, now, 0);
    var accepted := AcceptedKeys(schedules, [], ticks);
    assert accepted == [first] + (keys + [first]);
    assert accepted[0] == accepted[REMEMBERED + 1];
  }

  /** For any registered entries: some run, with a clock that does not go back and no forced
      evaluation, accepts an occurrence twice if and only if at some moment the selected
      entry catches up and at least 64 occurrences of entries that do not catch up lie
      between its occurrence and that moment. */
  lemma {:induction false} RepeatsExactly(schedules: seq<Schedule>)
    requires Registered(schedules)
    ensures (exists ticks :: Chronological(ticks) && Repeats(AcceptedKeys(schedules, [], ticks))) <==>
            exists now :: Crowded(schedules, now)
  {
    if ticks :| Chronological(ticks) && Repeats(AcceptedKeys(schedules, [], ticks)) {
      RepeatNeedsCrowd(schedules, [], ticks);
    }
    if now :| Crowded(schedules, now) {
      var ticks := CrowdRepeats(schedules, now);
    }
  }
}
