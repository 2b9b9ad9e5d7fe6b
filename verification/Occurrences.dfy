/** The bounded memory of handled occurrences, and why 64 entries are enough to act at most
    once for each occurrence if all entries catch up. */
module Occurrences {
  import opened Options
  import opened Calendar
  import opened Rules
  import opened Selection

  const REMEMBERED := 64

  /** The text `name|time` that identifies an occurrence. */
  datatype Key = Key(name: string, when: int)

  function KeyOf(due: Due): Key {
    Key(due.schedule.name, due.when)
  }

  function Remember(handled: seq<Key>, key: Key): (next: seq<Key>)
    ensures |handled| <= REMEMBERED ==> |next| <= REMEMBERED
    ensures key in next
  {
    var grown := handled + [key];
    assert grown[|handled|] == key;
    if key in handled then handled
    else if |grown| > REMEMBERED then
      assert grown[1..][|handled| - 1] == key;
      grown[1..]
    else grown
  }

  /** The occurrence an evaluation offers: the selected one unless it was handled and the
      evaluation is not forced. */
  function Offer(schedules: seq<Schedule>, handled: seq<Key>, now: int, force: bool): Option<Due> {
    match Select(schedules, now)
    case None => None
    case Some(due) => if !force && KeyOf(due) in handled then None else Some(due)
  }

  /** One evaluation that is not forced; `accepted` is the answer of the action handler. */
  datatype Tick = Tick(now: int, accepted: bool)

  /** The keys accepted over a run, in order. */
  function AcceptedKeys(schedules: seq<Schedule>, handled: seq<Key>, ticks: seq<Tick>): seq<Key>
    decreases |ticks|
  {
    if ticks == [] then []
    else match Offer(schedules, handled, ticks[0].now, false)
      case Some(due) =>
        if ticks[0].accepted
        then [KeyOf(due)] + AcceptedKeys(schedules, Remember(handled, KeyOf(due)), ticks[1..])
        else AcceptedKeys(schedules, handled, ticks[1..])
      case None => AcceptedKeys(schedules, handled, ticks[1..])
  }

  /** The key accepted at one tick, if there is one. */
  function AcceptedKey(schedules: seq<Schedule>, handled: seq<Key>, tick: Tick): Option<Key> {
    match Offer(schedules, handled, tick.now, false)
    case Some(due) => if tick.accepted then Some(KeyOf(due)) else None
    case None => None
  }

  function AfterTick(handled: seq<Key>, accepted: Option<Key>): seq<Key> {
    if accepted.Some? then Remember(handled, accepted.value) else handled
  }

  /** The keys accepted so far and one tick. */
  function Collected(keys: seq<Key>, accepted: Option<Key>): seq<Key> {
    if accepted.Some? then keys + [accepted.value] else keys
  }

  /** What is collected so far and still accepted later does not change with a tick. */
  lemma CollectedGoesOn(keys: seq<Key>, schedules: seq<Schedule>, handled: seq<Key>, ticks: seq<Tick>, i: nat)
    requires i < |ticks|
    ensures var accepted := AcceptedKey(schedules, handled, ticks[i]);
            keys + AcceptedKeys(schedules, handled, ticks[i..]) ==
            Collected(keys, accepted) + AcceptedKeys(schedules, AfterTick(handled, accepted), ticks[i + 1..])
  {
    AcceptedKeysFrom(schedules, handled, ticks, i);
    var accepted := AcceptedKey(schedules, handled, ticks[i]);
    var rest := AcceptedKeys(schedules, AfterTick(handled, accepted), ticks[i + 1..]);
    if accepted.Some? {
      assert keys + ([accepted.value] + rest) == keys + [accepted.value] + rest;
    } else {
      assert [] + rest == rest;
    }
  }

  lemma AcceptedKeysFrom(schedules: seq<Schedule>, handled: seq<Key>, ticks: seq<Tick>, i: nat)
    requires i < |ticks|
    ensures var accepted := AcceptedKey(schedules, handled, ticks[i]);
            AcceptedKeys(schedules, handled, ticks[i..]) ==
            (if accepted.Some? then [accepted.value] else []) +
            AcceptedKeys(schedules, AfterTick(handled, accepted), ticks[i + 1..])
  {
    assert ticks[i..][1..] == ticks[i + 1..];
  }

  predicate Chronological(ticks: seq<Tick>) {
    forall i, j | 0 <= i < j < |ticks| :: ticks[i].now <= ticks[j].now
  }

  ghost predicate AllCatchUp(schedules: seq<Schedule>) {
    forall s | s in schedules :: s.catchUp
  }

  predicate Increasing(keys: seq<Key>) {
    forall i, j | 0 <= i < j < |keys| :: keys[i].when < keys[j].when
  }

  /** With catch_up the selected instant never moves back as time goes on. */
  lemma SelectionAdvances(schedules: seq<Schedule>, earlier: int, later: int)
    requires Registered(schedules) && AllCatchUp(schedules) && earlier <= later
    requires Select(schedules, earlier).Some?
    ensures Select(schedules, later).Some?
    ensures Select(schedules, earlier).value.when <= Select(schedules, later).value.when
  {
    var due := Select(schedules, earlier).value;
    SelectIsChoice(schedules, earlier);
    SelectIsChoice(schedules, later);
    var i :| 0 <= i < |schedules| && schedules[i] == due.schedule;
    OccurrenceExact(due.schedule, earlier);
    OccurrenceExact(due.schedule, later);
  }

  /** The selected entry occurs at the selected instant. */
  lemma SelectedOccurs(schedules: seq<Schedule>, now: int)
    requires Registered(schedules) && Select(schedules, now).Some?
    ensures var due := Select(schedules, now).value;
            due.schedule in schedules && OccursAt(due.schedule, due.when)
  {
    SelectIsChoice(schedules, now);
    var due := Select(schedules, now).value;
    var i :| 0 <= i < |schedules| && schedules[i] == due.schedule;
    OccurrenceOccurs(due.schedule, now);
  }

  /** An offered occurrence is later than the last accepted one, which is remembered. */
  lemma OfferIsLater(schedules: seq<Schedule>, handled: seq<Key>, earlier: int, later: int)
    requires Registered(schedules) && AllCatchUp(schedules) && earlier <= later
    requires Select(schedules, earlier).Some? && KeyOf(Select(schedules, earlier).value) in handled
    requires Offer(schedules, handled, later, false).Some?
    ensures Select(schedules, earlier).value.when < Offer(schedules, handled, later, false).value.when
  {
    SelectionAdvances(schedules, earlier, later);
    SelectedOccurs(schedules, earlier);
    SelectedOccurs(schedules, later);
    var first, second := Select(schedules, earlier).value, Select(schedules, later).value;
    if first.when == second.when {
      SameInstantSameEntry(schedules, first.schedule, second.schedule, first.when);
    }
  }

  /** `last` is the instant of the evaluation whose occurrence was accepted last. */
  lemma {:induction false} AcceptedAreLater(schedules: seq<Schedule>, handled: seq<Key>, ticks: seq<Tick>,
                                            last: Option<int>)
    requires Registered(schedules) && AllCatchUp(schedules) && Chronological(ticks)
    requires last.Some? ==>
               && Select(schedules, last.value).Some?
               && KeyOf(Select(schedules, last.value).value) in handled
               && forall i | 0 <= i < |ticks| :: last.value <= ticks[i].now
    ensures var keys := AcceptedKeys(schedules, handled, ticks);
            && Increasing(keys)
            && (last.Some? ==> forall i | 0 <= i < |keys| :: Select(schedules, last.value).value.when < keys[i].when)
    decreases |ticks|
  {
    if ticks == [] {
      return;
    }
    var offer := Offer(schedules, handled, ticks[0].now, false);
    if offer.Some? && ticks[0].accepted {
      var key := KeyOf(offer.value);
      if last.Some? {
        OfferIsLater(schedules, handled, last.value, ticks[0].now);
      }
      AcceptedAreLater(schedules, Remember(handled, key), ticks[1..], Some(ticks[0].now));
    } else {
      AcceptedAreLater(schedules, handled, ticks[1..], last);
    }
  }

  /** At most once: over any run with a clock that does not go back, a fixed conflict-free
      set of catch_up entries and no forced evaluation, the instants of the accepted
      occurrences strictly increase, so no key is accepted twice, although only 64 keys
      are remembered and whatever the memory held before. */
  lemma AtMostOnce(schedules: seq<Schedule>, handled: seq<Key>, ticks: seq<Tick>)
    requires Registered(schedules) && AllCatchUp(schedules) && Chronological(ticks)
    ensures Increasing(AcceptedKeys(schedules, handled, ticks))
    ensures var keys := AcceptedKeys(schedules, handled, ticks);
            forall i, j | 0 <= i < j < |keys| :: keys[i] != keys[j]
  {
    AcceptedAreLater(schedules, handled, ticks, None);
  }

  /** What is offered: exactly an entry whose occurrence no other exceeds, unless its name and
      instant are remembered and the evaluation is not forced. */
  lemma OfferExactly(schedules: seq<Schedule>, handled: seq<Key>, now: int, force: bool, due: Due)
    requires Registered(schedules)
    ensures Offer(schedules, handled, now, force) == Some(due) <==>
            && due.schedule in schedules && Occurrence(due.schedule, now) == Some(due.when)
            && (forall s | s in schedules && Occurrence(s, now).Some? :: Occurrence(s, now).value <= due.when)
            && (force || Key(due.schedule.name, due.when) !in handled)
  {
    SelectIsChoice(schedules, now);
    if IsChoice(schedules, now, Some(due)) { ChoiceUnique(schedules, now, Select(schedules, now), Some(due)); }
  }
}
