/** The command of the client in progress: what user, replies, statuses and timers do to it, and
    the signals this produces. */
module ClientCommands {
  import opened Options

  /** What the outside sees, in order: a control message sent to the server, its acceptance,
      the end of a command by confirmation or failure, a request refused before it was
      sent, a status shown. */
  datatype Signal = Sent(id: nat) | Accepted(id: nat) | Confirmed(id: nat) | Failed(id: nat) | Refused | Published

  /** `since` is the time of the last send. */
  datatype Commands = Commands(
    busy: bool,
    awaiting: bool,
    pendingId: nat,
    nextId: nat,
    writeWatchdog: Option<nat>,
    confirmation: Option<nat>,
    since: nat,
    signals: seq<Signal>)

  const NO_COMMAND := Commands(false, false, 0, 1, None, None, 0, [])

  /** The last id sent; 0 before the first. */
  function Current(c: Commands): nat {
    if c.nextId == 0 then 0 else c.nextId - 1
  }

  function Emit(c: Commands, signals: seq<Signal>): Commands {
    c.(signals := c.signals + signals)
  }

  function FailCommand(c: Commands): Commands {
    Emit(c.(pendingId := 0, awaiting := false, writeWatchdog := None, confirmation := None, busy := false),
         [if c.busy then Failed(Current(c)) else Refused])
  }

  /** The user asks for new values; `ready` says that the request can be sent. */
  function Launch(c: Commands, ready: bool, now: nat, limit: nat): Commands {
    if c.busy then c
    else if !ready then FailCommand(c)
    else Emit(c.(awaiting := false, pendingId := c.nextId, nextId := c.nextId + 1, busy := true,
                 writeWatchdog := Some(now + limit), since := now), [Sent(c.nextId)])
  }

  function Reply(c: Commands, id: nat, ok: bool, now: nat, limit: nat): Commands {
    if !c.busy || id == 0 || id != c.pendingId then c
    else
      var answered := c.(writeWatchdog := None, pendingId := 0);
      if !ok then FailCommand(answered)
      else Emit(answered.(awaiting := true, confirmation := Some(now + limit)), [Accepted(id)])
  }

  function StatusArrives(c: Commands): Commands {
    if c.busy && !c.awaiting then c
    else if c.awaiting then Emit(c.(awaiting := false, confirmation := None, busy := false),
                                 [Confirmed(Current(c)), Published])
    else Emit(c, [Published])
  }

  /** The link or the device fails while a command may be in progress. */
  function Interrupt(c: Commands): Commands {
    if c.busy then FailCommand(c) else c
  }

  /** First half of stopping: the command is forgotten, but the client still counts as busy. */
  function Forget(c: Commands): Commands {
    c.(writeWatchdog := None, confirmation := None, awaiting := false, pendingId := 0)
  }

  // ----- The language of the signals

  /** What the last signals leave open: the id of a command sent, or sent and accepted. */
  datatype Open = Free(last: nat) | Waiting(id: nat) | Trusted(id: nat)

  /** One more signal; `None` if it must not occur here. */
  function Follow(open: Open, signal: Signal): Option<Open> {
    match signal
    case Sent(id) => if open.Free? && id == open.last + 1 then Some(Waiting(id)) else None
    case Accepted(id) => if open == Waiting(id) then Some(Trusted(id)) else None
    case Confirmed(id) => if open == Trusted(id) then Some(Free(id)) else None
    case Failed(id) => if open == Waiting(id) || open == Trusted(id) then Some(Free(id)) else None
    case Refused => if open.Free? then Some(open) else None
    case Published => if open.Free? then Some(open) else None
  }

  /** What a whole sequence of signals leaves open; `None` if some signal is out of place. */
  function Reading(signals: seq<Signal>): Option<Open> {
    if signals == [] then Some(Free(0))
    else
      match Reading(signals[..|signals| - 1])
      case None => None
      case Some(open) => Follow(open, signals[|signals| - 1])
  }

  lemma ReadingMore(signals: seq<Signal>, signal: Signal)
    requires Reading(signals).Some?
    ensures Reading(signals + [signal]) == Follow(Reading(signals).value, signal)
  {
    assert (signals + [signal])[..|signals|] == signals;
  }

  /** Busy means exactly one of: a reply is pending, a confirmation is awaited.  Each of the
      two has its timer, and the signals leave open just what the fields say. */
  predicate Coherent(c: Commands) {
    && c.nextId > 0
    && (c.busy <==> c.pendingId != 0 || c.awaiting)
    && !(c.pendingId != 0 && c.awaiting)
    && (c.writeWatchdog.Some? <==> c.pendingId != 0)
    && (c.confirmation.Some? <==> c.awaiting)
    && (c.pendingId != 0 ==> c.pendingId == Current(c))
    && Reading(c.signals) == Some(if c.awaiting then Trusted(Current(c))
                                  else if c.pendingId != 0 then Waiting(Current(c))
                                  else Free(Current(c)))
  }

  lemma FailKeepsCoherent(c: Commands)
    requires Coherent(c)
    ensures Coherent(FailCommand(c)) && !FailCommand(c).busy
  {
    ReadingMore(c.signals, if c.busy then Failed(Current(c)) else Refused);
  }

  lemma LaunchKeepsCoherent(c: Commands, ready: bool, now: nat, limit: nat)
    requires Coherent(c)
    ensures Coherent(Launch(c, ready, now, limit))
  {
    if !c.busy && ready {
      ReadingMore(c.signals, Sent(c.nextId));
      assert Reading(Launch(c, ready, now, limit).signals) == Some(Waiting(c.nextId));
    } else if !c.busy {
      FailKeepsCoherent(c);
    }
  }

  lemma ReplyKeepsCoherent(c: Commands, id: nat, ok: bool, now: nat, limit: nat)
    requires Coherent(c)
    ensures Coherent(Reply(c, id, ok, now, limit))
  {
    if c.busy && id != 0 && id == c.pendingId {
      ReadingMore(c.signals, if ok then Accepted(id) else Failed(id));
    }
  }

  lemma StatusKeepsCoherent(c: Commands)
    requires Coherent(c)
    ensures Coherent(StatusArrives(c))
  {
    if c.awaiting {
      ReadingMore(c.signals, Confirmed(Current(c)));
      ReadingMore(c.signals + [Confirmed(Current(c))], Published);
      assert c.signals + [Confirmed(Current(c)), Published] == c.signals + [Confirmed(Current(c))] + [Published];
    } else if !c.busy {
      ReadingMore(c.signals, Published);
    }
  }

  /** Stopping in two halves fails a command in progress like any interruption. */
  lemma ForgottenFails(c: Commands)
    ensures FailCommand(Forget(c)) == FailCommand(c)
  {}

  // ----- What the language means

  /** All prefixes of a readable sequence are readable. */
  lemma {:induction false} PrefixReads(signals: seq<Signal>, n: nat)
    requires Reading(signals).Some? && n <= |signals|
    ensures Reading(signals[..n]).Some?
    decreases |signals|
  {
    if n == |signals| {
      assert signals[..n] == signals;
    } else {
      var shorter := signals[..|signals| - 1];
      PrefixReads(shorter, n);
      assert shorter[..n] == signals[..n];
    }
  }

  /** Reading one signal in the middle. */
  lemma ReadAt(signals: seq<Signal>, n: nat)
    requires Reading(signals).Some? && n < |signals|
    ensures Reading(signals[..n]).Some? && Reading(signals[..n + 1]).Some?
    ensures Follow(Reading(signals[..n]).value, signals[n]) == Reading(signals[..n + 1])
  {
    PrefixReads(signals, n);
    PrefixReads(signals, n + 1);
    assert signals[..n + 1][..n] == signals[..n];
  }

  /** The id of the last command sent, whatever became of it. */
  function LastId(open: Open): nat {
    match open
    case Free(last) => last
    case Waiting(id) => id
    case Trusted(id) => id
  }

  /** Ids only grow, and a command sent earlier is never in the open again. */
  lemma {:induction false} IdsGrow(signals: seq<Signal>, m: nat, n: nat)
    requires Reading(signals).Some? && m <= n <= |signals|
    ensures Reading(signals[..m]).Some? && Reading(signals[..n]).Some?
    ensures LastId(Reading(signals[..m]).value) <= LastId(Reading(signals[..n]).value)
    decreases n
  {
    PrefixReads(signals, m);
    PrefixReads(signals, n);
    if m < n {
      IdsGrow(signals, m, n - 1);
      ReadAt(signals, n - 1);
    }
  }

  predicate Ends(signal: Signal, id: nat) {
    signal == Confirmed(id) || signal == Failed(id)
  }

  /** Commands are sent with strictly ascending ids, one send each. */
  lemma SendsAscend(signals: seq<Signal>, i: nat, j: nat)
    requires Reading(signals).Some? && i < j < |signals| && signals[i].Sent? && signals[j].Sent?
    ensures signals[i].id < signals[j].id
  {
    ReadAt(signals, i);
    ReadAt(signals, j);
    IdsGrow(signals, i + 1, j);
  }

  /** An open command stays open until it ends; it may be accepted meanwhile. */
  lemma {:induction false} OpenUntilEnd(signals: seq<Signal>, i: nat, n: nat)
    requires Reading(signals).Some? && i < n <= |signals| && signals[i].Sent?
    requires forall k | i < k < n :: !Ends(signals[k], signals[i].id)
    ensures Reading(signals[..n]).Some?
    ensures Reading(signals[..n]) == Some(Waiting(signals[i].id)) ||
            Reading(signals[..n]) == Some(Trusted(signals[i].id))
    ensures Reading(signals[..n]) == Some(Trusted(signals[i].id)) ==> Accepted(signals[i].id) in signals[i..n]
    decreases n
  {
    ReadAt(signals, n - 1);
    if n > i + 1 {
      OpenUntilEnd(signals, i, n - 1);
      assert signals[i..n] == signals[i..n - 1] + [signals[n - 1]];
      assert !Ends(signals[n - 1], signals[i].id);
    }
  }

  /** A command that was sent and has not ended holds up everything else: no other command is
      sent, no status is shown and nothing is refused. */
  lemma NothingBetween(signals: seq<Signal>, i: nat, j: nat)
    requires Reading(signals).Some? && i < j < |signals| && signals[i].Sent?
    requires signals[j].Sent? || signals[j].Published? || signals[j].Refused?
    ensures exists k :: i < k < j && Ends(signals[k], signals[i].id)
  {
    if forall k | i < k < j :: !Ends(signals[k], signals[i].id) {
      OpenUntilEnd(signals, i, j);
      ReadAt(signals, j);
      assert false;
    }
  }

  /** A command ends once, after it was sent, and only an accepted one is confirmed. */
  lemma EndsOnce(signals: seq<Signal>, j: nat, id: nat)
    requires Reading(signals).Some? && j < |signals| && Ends(signals[j], id)
    ensures forall k | 0 <= k < |signals| && Ends(signals[k], id) :: k == j
    ensures exists i :: 0 <= i < j && signals[i] == Sent(id)
    ensures signals[j].Confirmed? ==> Accepted(id) in signals[..j]
  {
    ReadAt(signals, j);
    forall k | 0 <= k < |signals| && Ends(signals[k], id)
      ensures k == j
    {
      ReadAt(signals, k);
      if k < j { NotOpenAgain(signals, k + 1, j, id); }
      if j < k { NotOpenAgain(signals, j + 1, k, id); }
    }
    OpenedBySending(signals, j, id);
  }

  /** Once free after an id, the reading never opens that id again. */
  lemma {:induction false} NotOpenAgain(signals: seq<Signal>, m: nat, n: nat, id: nat)
    requires Reading(signals).Some? && m <= n <= |signals|
    requires Reading(signals[..m]) == Some(Free(id))
    ensures Reading(signals[..n]) == Some(Free(id)) ||
            (Reading(signals[..n]).Some? && LastId(Reading(signals[..n]).value) > id)
    decreases n
  {
    if m < n {
      NotOpenAgain(signals, m, n - 1, id);
      ReadAt(signals, n - 1);
    }
  }

  /** What is open was sent, and what is trusted was accepted. */
  lemma {:induction false} OpenedBySending(signals: seq<Signal>, n: nat, id: nat)
    requires Reading(signals).Some? && n <= |signals|
    requires Reading(signals[..n]) == Some(Waiting(id)) || Reading(signals[..n]) == Some(Trusted(id))
    ensures exists i :: 0 <= i < n && signals[i] == Sent(id)
    ensures Reading(signals[..n]) == Some(Trusted(id)) ==> Accepted(id) in signals[..n]
    decreases n
  {
    if n > 0 {
      ReadAt(signals, n - 1);
      assert signals[..n] == signals[..n - 1] + [signals[n - 1]];
      if signals[n - 1] != Sent(id) {
        OpenedBySending(signals, n - 1, id);
        var i :| 0 <= i < n - 1 && signals[i] == Sent(id);
      }
    }
  }
}
