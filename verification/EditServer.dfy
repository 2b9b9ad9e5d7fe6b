/** The clients of the server and the lock, as the object that sends, broadcasts and closes
    connections while it handles a message. */
module EditServer {
  import opened Options
  import opened EditLock

  const MAXIMUM_OUTPUT := 4 * 1024 * 1024

  /** The output of a client grew, and the line is part of what came in. */
  ghost predicate Received(before: string, after: string, line: string) {
    before <= after && exists k :: |before| <= k <= |after| && line <= after[k..]
  }

  lemma ReceivedStays(before: string, after: string, line: string, later: string)
    requires Received(before, after, line) && after <= later
    ensures Received(before, later, line)
  {
    var k :| |before| <= k <= |after| && line <= after[k..];
    assert line <= later[k..];
  }

  lemma ReceivedEarlier(first: string, before: string, after: string, line: string)
    requires first <= before && Received(before, after, line)
    ensures Received(first, after, line)
  {}

  lemma ReceivedNow(before: string, line: string)
    ensures Received(before, before + line, line)
  {
    assert (before + line)[|before|..] == line;
  }

  lemma ReceivedBoth(before: string, first: string, second: string)
    ensures Received(before, before + first + second, first) && Received(before, before + first + second, second)
  {
    ReceivedNow(before, first);
    ReceivedStays(before, before + first, first, before + first + second);
    ReceivedNow(before + first, second);
    ReceivedEarlier(before, before + first, before + first + second, second);
  }

  type Outputs = map<nat, string>

  /** Clients only disconnected or got more output. */
  ghost predicate Grown(before: Outputs, after: Outputs) {
    forall id | id in after :: id in before && before[id] <= after[id]
  }

  /** And the lock is freed with its holder. */
  ghost predicate Shrinks(before: Outputs, lock: Lock, after: Outputs, lock': Lock) {
    Grown(before, after) && lock' == Drop(lock, before.Keys - after.Keys)
  }

  lemma ShrinksOn(before: Outputs, lock: Lock, mid: Outputs, lock1: Lock, after: Outputs, lock2: Lock)
    requires lock.clients == before.Keys
    requires Shrinks(before, lock, mid, lock1) && Shrinks(mid, lock1, after, lock2)
    ensures Shrinks(before, lock, after, lock2)
  {
    assert before.Keys - mid.Keys - after.Keys <= before.Keys;
    assert lock.clients - (before.Keys - mid.Keys) - (mid.Keys - after.Keys) ==
           lock.clients - (before.Keys - after.Keys);
  }

  /** All clients that are still connected got the line. */
  ghost predicate Told(before: Outputs, after: Outputs, line: string) {
    forall id | id in after :: id in before && Received(before[id], after[id], line)
  }

  lemma ToldEarlier(before: Outputs, mid: Outputs, after: Outputs, line: string)
    requires Grown(before, mid) && Told(mid, after, line)
    ensures Told(before, after, line)
  {
    forall id | id in after ensures id in before && Received(before[id], after[id], line) {
      ReceivedEarlier(before[id], mid[id], after[id], line);
    }
  }

  predicate EndsWith(output: string, line: string) {
    |line| <= |output| && output[|output| - |line|..] == line
  }

  /** For all clients still connected the line is the last they got. */
  predicate Current(after: Outputs, line: string) {
    forall id | id in after :: EndsWith(after[id], line)
  }

  // ----- What sending does to the outputs

  /** Everyone gets the line; whose output grows too large is gone. */
  function Extended(before: Outputs, line: string): Outputs {
    map id | id in before && |before[id]| + |line| <= MAXIMUM_OUTPUT :: before[id] + line
  }

  /** A client is gone; if it held the lock, everyone else gets the news that it is free. */
  function Closed(before: Outputs, editor: nat, id: nat, news: string): Outputs {
    if id !in before then before
    else if id != editor then before - {id}
    else Extended(before - {id}, news)
  }

  /** The output of the client cannot take the line. */
  predicate Full(before: Outputs, id: nat, line: string) {
    id in before && |before[id]| + |line| > MAXIMUM_OUTPUT
  }

  function Sent(before: Outputs, editor: nat, id: nat, line: string, news: string): Outputs {
    if Full(before, id, line) then Closed(before, editor, id, news)
    else if id in before then before[id := before[id] + line]
    else before
  }

  /** The ids list the keys, each once. */
  ghost predicate Lists(ids: seq<nat>, keys: set<nat>) {
    && (forall i | 0 <= i < |ids| :: ids[i] in keys)
    && (forall id | id in keys :: id in ids)
    && (forall i, j | 0 <= i < j < |ids| :: ids[i] != ids[j])
  }

  predicate Precedes(ids: seq<nat>, first: nat, second: nat) {
    exists i, j :: 0 <= i < j < |ids| && ids[i] == first && ids[j] == second
  }

  /** The output of a client after the line was sent to the first n of the ids. */
  function Output(own: string, id: nat, editor: nat, freed: bool, ids: seq<nat>, n: nat, line: string, news: string)
    : string
    requires n <= |ids|
  {
    if !freed then if id in ids[..n] then own + line else own
    else if id !in ids[..n] then own + news
    else if Precedes(ids, editor, id) then own + news + line
    else own + line + news
  }

  /** The outputs after the line was sent to the first n of the ids. */
  function Partly(before: Outputs, editor: nat, ids: seq<nat>, n: nat, line: string, news: string): Outputs
    requires n <= |ids|
  {
    var freed := Full(before, editor, line) && editor in ids[..n];
    map id | id in before && !(freed && id == editor) &&
             |Output(before[id], id, editor, freed, ids, n, line, news)| <= MAXIMUM_OUTPUT ::
      Output(before[id], id, editor, freed, ids, n, line, news)
  }

  /** The line is sent to all, one after the other; if that closes the holder of the lock, the
      others get the news at once, and then those behind the holder get the line. */
  function Broadcasted(before: Outputs, editor: nat, ids: seq<nat>, line: string, news: string): Outputs {
    Partly(before, editor, ids, |ids|, line, news)
  }

  lemma PartlyBegins(before: Outputs, editor: nat, ids: seq<nat>, line: string, news: string)
    requires forall id | id in before :: |before[id]| <= MAXIMUM_OUTPUT
    ensures Partly(before, editor, ids, 0, line, news) == before
  {}

  lemma VisitNext(ids: seq<nat>, n: nat)
    requires n < |ids| && forall i, j | 0 <= i < j < |ids| :: ids[i] != ids[j]
    ensures ids[n] !in ids[..n]
    ensures forall id :: id in ids[..n + 1] <==> id in ids[..n] || id == ids[n]
    ensures forall id | id in ids[..n] :: !Precedes(ids, ids[n], id)
    ensures forall id | id in ids[..n] :: Precedes(ids, id, ids[n])
  {
    assert ids[..n + 1] == ids[..n] + [ids[n]];
    forall id | id in ids[..n] ensures !Precedes(ids, ids[n], id) && Precedes(ids, id, ids[n]) {
      var k :| 0 <= k < n && ids[k] == id;
    }
  }

  lemma PartlyTells(before: Outputs, editor: nat, ids: seq<nat>, n: nat, line: string, news: string)
    requires n < |ids| && Lists(ids, before.Keys) && !(Full(before, editor, line) && editor in ids[..n + 1])
    ensures Partly(before, editor, ids, n + 1, line, news) ==
            Sent(Partly(before, editor, ids, n, line, news), editor, ids[n], line, news)
  {
    VisitNext(ids, n);
    var now, next := Partly(before, editor, ids, n, line, news), Partly(before, editor, ids, n + 1, line, news);
    assert !(Full(before, editor, line) && editor in ids[..n]);
    assert forall id | id in before && id != ids[n] :: id in now <==> id in next;
  }

  lemma PartlyFrees(before: Outputs, editor: nat, ids: seq<nat>, n: nat, line: string, news: string)
    requires n < |ids| && Lists(ids, before.Keys) && Full(before, editor, line) && ids[n] == editor
    requires |before[editor]| <= MAXIMUM_OUTPUT
    ensures Partly(before, editor, ids, n + 1, line, news) ==
            Sent(Partly(before, editor, ids, n, line, news), editor, ids[n], line, news)
  {
    VisitNext(ids, n);
    var now, next := Partly(before, editor, ids, n, line, news), Partly(before, editor, ids, n + 1, line, news);
    assert now[editor] == before[editor];
    assert Sent(now, editor, editor, line, news) == Extended(now - {editor}, news);
  }

  lemma PartlyGoesOn(before: Outputs, editor: nat, ids: seq<nat>, n: nat, line: string, news: string)
    requires n < |ids| && Lists(ids, before.Keys) && Full(before, editor, line) && editor in ids[..n]
    requires ids[n] != 0
    ensures Partly(before, editor, ids, n + 1, line, news) ==
            Sent(Partly(before, editor, ids, n, line, news), 0, ids[n], line, news)
  {
    VisitNext(ids, n);
    var now, next := Partly(before, editor, ids, n, line, news), Partly(before, editor, ids, n + 1, line, news);
    assert forall id | id in before && id != ids[n] :: id in now <==> id in next;
  }

  /** While the lock stays, everyone gets the line and nothing else. */
  lemma UndisturbedBroadcast(before: Outputs, editor: nat, ids: seq<nat>, line: string, news: string)
    requires Lists(ids, before.Keys) && !Full(before, editor, line)
    ensures Broadcasted(before, editor, ids, line, news) == Extended(before, line)
  {
    assert ids[..|ids|] == ids;
  }

  /** Who holds the lock after the line was sent to the first n of the ids. */
  function Remaining(before: Outputs, editor: nat, ids: seq<nat>, n: nat, line: string): nat
    requires n <= |ids|
  {
    if Full(before, editor, line) && editor in ids[..n] then 0 else editor
  }

  /** The holder is closed at its turn exactly if its output was full before. */
  lemma StillFull(before: Outputs, editor: nat, ids: seq<nat>, n: nat, line: string, news: string)
    requires n < |ids| && Lists(ids, before.Keys) && 0 !in before
    requires forall id | id in before :: |before[id]| <= MAXIMUM_OUTPUT
    ensures var now := Partly(before, editor, ids, n, line, news);
            ids[n] == Remaining(before, editor, ids, n, line) && Full(now, ids[n], line) <==>
            ids[n] == editor && Full(before, editor, line)
  {
    VisitNext(ids, n);
  }

  lemma FewerClients(before: Outputs, after: Outputs)
    requires after.Keys <= before.Keys
    ensures |after| <= |before|
  {
    assert before.Keys == after.Keys + (before.Keys - after.Keys);
  }

  lemma BroadcastShrinks(before: Outputs, lock: Lock, ids: seq<nat>, line: string, news: string)
    requires Lists(ids, before.Keys) && lock.clients == before.Keys && Sound(lock)
    ensures var after := Broadcasted(before, lock.editor, ids, line, news);
            Shrinks(before, lock, after,
                    lock.(clients := after.Keys, editor := if Full(before, lock.editor, line) then 0 else lock.editor))
  {
    var after := Broadcasted(before, lock.editor, ids, line, news);
    assert ids[..|ids|] == ids;
    assert before.Keys - (before.Keys - after.Keys) == after.Keys;
    if !Full(before, lock.editor, line) {
      assert lock.editor in before ==> (lock.editor in after <==> |before[lock.editor] + line| <= MAXIMUM_OUTPUT);
    }
  }

  lemma PartlyNext(before: Outputs, editor: nat, ids: seq<nat>, n: nat, line: string, news: string)
    requires n < |ids| && Lists(ids, before.Keys) && 0 !in before
    requires forall id | id in before :: |before[id]| <= MAXIMUM_OUTPUT
    ensures Partly(before, editor, ids, n + 1, line, news) ==
            Sent(Partly(before, editor, ids, n, line, news), Remaining(before, editor, ids, n, line), ids[n], line,
                 news)
  {
    if !Full(before, editor, line) || editor !in ids[..n + 1] {
      PartlyTells(before, editor, ids, n, line, news);
    } else if ids[n] == editor {
      PartlyFrees(before, editor, ids, n, line, news);
    } else {
      PartlyGoesOn(before, editor, ids, n, line, news);
    }
  }

  lemma ExtendedTells(before: Outputs, line: string)
    ensures Told(before, Extended(before, line), line) && Current(Extended(before, line), line)
  {
    forall id | id in Extended(before, line)
      ensures Received(before[id], Extended(before, line)[id], line) && EndsWith(Extended(before, line)[id], line)
    {
      ReceivedNow(before[id], line);
      EndsWithLast(before[id], line, line);
    }
  }

  /** Everyone is told the present state, and last unless the lock is freed by it. */
  lemma BroadcastTells(before: Outputs, editor: nat, ids: seq<nat>, line: string, news: string)
    requires Lists(ids, before.Keys)
    ensures var after := Broadcasted(before, editor, ids, line, news);
            && Told(before, after, line) && (Full(before, editor, line) ==> Told(before, after, news))
            && (!Full(before, editor, line) ==> after == Extended(before, line) && Current(after, line))
  {
    var after := Broadcasted(before, editor, ids, line, news);
    assert ids[..|ids|] == ids;
    if !Full(before, editor, line) {
      UndisturbedBroadcast(before, editor, ids, line, news);
      ExtendedTells(before, line);
    } else {
      forall id | id in after ensures Received(before[id], after[id], news) && Received(before[id], after[id], line) {
        if Precedes(ids, editor, id) {
          ReceivedBoth(before[id], news, line);
        } else {
          ReceivedBoth(before[id], line, news);
        }
      }
    }
  }

  lemma EndsWithLast(output: string, last: string, line: string)
    ensures EndsWith(output + last, last)
    ensures EndsWith(output + last, line) ==> EndsWith(last, line) || EndsWith(line, last)
  {
    assert (output + last)[|output|..] == last;
    if EndsWith(output + last, line) {
      if |line| <= |last| {
        assert last[|last| - |line|..] == (output + last)[|output| + |last| - |line|..];
      } else {
        assert line[|line| - |last|..] == (output + last)[|output|..];
      }
    }
  }

  /** After a broadcast a client ends on an outdated line exactly if the output of the holder was
      full and the client comes behind the holder. */
  lemma OutdatedExactly(before: Outputs, editor: nat, ids: seq<nat>, line: string, news: string, id: nat)
    requires Lists(ids, before.Keys) && id in Broadcasted(before, editor, ids, line, news)
    requires !EndsWith(line, news) && !EndsWith(news, line)
    ensures var after := Broadcasted(before, editor, ids, line, news);
            EndsWith(after[id], if Full(before, editor, line) then news else line) <==>
            !(Full(before, editor, line) && Precedes(ids, editor, id))
  {
    var after := Broadcasted(before, editor, ids, line, news);
    assert ids[..|ids|] == ids;
    if !Full(before, editor, line) {
      EndsWithLast(before[id], line, line);
    } else if Precedes(ids, editor, id) {
      assert after[id] == (before[id] + news) + line;
      EndsWithLast(before[id] + news, line, news);
    } else {
      assert after[id] == (before[id] + line) + news;
      EndsWithLast(before[id] + line, news, news);
    }
  }

  /** One such case: the holder cannot take the line, and the other client comes next. */
  lemma LastLineOutdated(full: string, line: string, news: string)
    requires |full| == MAXIMUM_OUTPUT && line != "" && |line| + |news| <= MAXIMUM_OUTPUT
    ensures Broadcasted(map[1 := full, 2 := ""], 1, [1, 2], line, news) == map[2 := news + line]
  {
    var before: Outputs, ids: seq<nat> := map[1 := full, 2 := ""], [1, 2];
    assert ids[..2] == ids && ids[0] == 1 && ids[1] == 2;
    assert Precedes(ids, 1, 2);
    assert Full(before, 1, line);
    assert Output("", 2, 1, true, ids, 2, line, news) == news + line;
    var after := Broadcasted(before, 1, ids, line, news);
    assert after.Keys == {2} && after[2] == news + line;
  }

  class AirCtrlServer {
    /** The text form of a message. */
    const dump: Envelope -> string
    /** The output of each connected client that is not sent yet. */
    var clients: map<nat, string>
    var nextClient: nat
    var editor: nat
    var script: Option<string>
    var enabled: bool
    var revision: nat
    ghost var saves: seq<Save>

    ghost predicate Valid()
      reads this
    {
      && Sound(View())
      && (forall id | id in clients :: id < nextClient && |clients[id]| <= MAXIMUM_OUTPUT)
      && nextClient > 0
    }

    ghost function View(): Lock
      reads this
    {
      Lock(clients.Keys, editor, revision, script, enabled, saves)
    }

    function LineOf(envelope: Envelope): string {
      dump(envelope) + "\n"
    }

    function StateEnvelope(): Envelope
      reads this
    {
      AutomationState(editor != 0, enabled, revision)
    }

    function StateLine(): string
      reads this
    {
      LineOf(StateEnvelope())
    }

    /** What the others are told when the holder of the lock is gone. */
    function NewsLine(): string
      reads this
    {
      LineOf(AutomationState(false, enabled, revision))
    }

    constructor (dump: Envelope -> string, script: Option<string>, enabled: bool, revision: nat)
      ensures Valid() && View() == Lock({}, 0, revision, script, enabled, []) && this.dump == dump
    {
      this.dump, clients, nextClient, editor := dump, map[], 1, 0;
      this.script, this.enabled, this.revision, saves := script, enabled, revision, [];
    }

    method Send(client: nat, envelope: Envelope)
      requires Valid()
      modifies `clients, `editor
      ensures Valid() && Shrinks(old(clients), old(View()), clients, View())
      ensures clients == Sent(old(clients), old(editor), client, LineOf(envelope), NewsLine())
      ensures editor == if client == old(editor) && Full(old(clients), client, LineOf(envelope)) then 0 else old(editor)
      ensures editor != old(editor) ==> Told(old(clients), clients, StateLine()) && Current(clients, StateLine())
      decreases |clients|, 1
    {
      if client in clients {
        var output := clients[client] + LineOf(envelope);
        if |output| > MAXIMUM_OUTPUT {
          CloseClient(client);
        } else {
          clients := clients[client := output];
        }
      }
    }

    lemma RemovedShrinks(before: Outputs, lock: Lock, id: nat)
      requires id in before && clients == before - {id} && View() == Drop(lock, {id})
      ensures Shrinks(before, lock, clients, View())
    {
      assert before.Keys - clients.Keys == {id};
    }

    method CloseClient(id: nat)
      requires Valid()
      modifies `clients, `editor
      ensures Valid() && Shrinks(old(clients), old(View()), clients, View())
      ensures clients == Closed(old(clients), old(editor), id, NewsLine())
      ensures editor == if id in old(clients) && id == old(editor) then 0 else old(editor)
      ensures editor != old(editor) ==> Told(old(clients), clients, StateLine()) && Current(clients, StateLine())
      decreases |clients|, 0
    {
      if id in clients {
        var held := editor == id;
        clients := clients - {id};
        if held { editor := 0; }
        ghost var mid, lock := clients, View();
        RemovedShrinks(old(clients), old(View()), id);
        if held {
          ghost var ids := Broadcast(StateEnvelope());
          UndisturbedBroadcast(mid, 0, ids, NewsLine(), NewsLine());
          ShrinksOn(old(clients), old(View()), mid, lock, clients, View());
          ExtendedTells(mid, NewsLine());
          ToldEarlier(old(clients), mid, clients, NewsLine());
        }
      }
    }

    /** The clients, in whatever order the map is gone through. */
    method ClientIds() returns (ids: seq<nat>)
      ensures Lists(ids, clients.Keys)
    {
      ids := [];
      var rest := clients.Keys;
      while rest != {}
        invariant rest <= clients.Keys && Lists(ids, clients.Keys - rest)
      {
        var id :| id in rest;
        rest := rest - {id};
        ids := ids + [id];
      }
    }

    /** Every client connected at the start is told or disconnected; `ids` is the order. */
    method Broadcast(envelope: Envelope) returns (ghost ids: seq<nat>)
      requires Valid()
      modifies `clients, `editor
      ensures Valid() && Shrinks(old(clients), old(View()), clients, View())
      ensures Lists(ids, old(clients).Keys)
      ensures clients == Broadcasted(old(clients), old(editor), ids, LineOf(envelope), NewsLine())
      ensures Told(old(clients), clients, LineOf(envelope))
      ensures editor == if Full(old(clients), old(editor), LineOf(envelope)) then 0 else old(editor)
      decreases |clients|, 4
    {
      var clientIds := ClientIds();
      ids := clientIds;
      ghost var before, lock, line, news := clients, View(), LineOf(envelope), NewsLine();
      SendAll(envelope, clientIds);
      BroadcastShrinks(before, lock, ids, line, news);
      BroadcastTells(before, lock.editor, ids, line, news);
    }

    method SendAll(envelope: Envelope, ids: seq<nat>)
      requires Valid() && Lists(ids, clients.Keys)
      modifies `clients, `editor
      ensures Valid() && clients == Broadcasted(old(clients), old(editor), ids, LineOf(envelope), NewsLine())
      ensures editor == if Full(old(clients), old(editor), LineOf(envelope)) then 0 else old(editor)
      decreases |clients|, 3
    {
      ghost var before, holder, line, news := clients, editor, LineOf(envelope), NewsLine();
      PartlyBegins(before, holder, ids, line, news);
      for i := 0 to |ids|
        invariant Valid() && clients == Partly(before, holder, ids, i, line, news)
        invariant editor == Remaining(before, holder, ids, i, line)
      {
        FewerClients(before, clients);
        SendNext(envelope, ids, i, before, holder);
      }
      assert ids[..|ids|] == ids;
    }

    /** One of the clients of a broadcast. */
    method SendNext(envelope: Envelope, ids: seq<nat>, i: nat, ghost before: Outputs, ghost holder: nat)
      requires Valid() && i < |ids| && Lists(ids, before.Keys) && 0 !in before
      requires forall id | id in before :: |before[id]| <= MAXIMUM_OUTPUT
      requires clients == Partly(before, holder, ids, i, LineOf(envelope), NewsLine())
      requires editor == Remaining(before, holder, ids, i, LineOf(envelope))
      modifies `clients, `editor
      ensures Valid() && clients == Partly(before, holder, ids, i + 1, LineOf(envelope), NewsLine())
      ensures editor == Remaining(before, holder, ids, i + 1, LineOf(envelope))
      decreases |clients|, 2
    {
      PartlyNext(before, holder, ids, i, LineOf(envelope), NewsLine());
      assert ids[..i + 1] == ids[..i] + [ids[i]];
      StillFull(before, holder, ids, i, LineOf(envelope), NewsLine());
      Send(ids[i], envelope);
    }

    /** Tell every client the state.  It is the last thing everyone is told, unless the holder
        of the lock is closed by it: then clients behind the holder are told first that the
        lock is free and after that the outdated state. */
    method BroadcastState() returns (ghost ids: seq<nat>)
      requires Valid()
      modifies `clients, `editor
      ensures Valid() && Shrinks(old(clients), old(View()), clients, View())
      ensures Lists(ids, old(clients).Keys)
      ensures clients == Broadcasted(old(clients), old(editor), ids, old(StateLine()), NewsLine())
      ensures editor == if Full(old(clients), old(editor), old(StateLine())) then 0 else old(editor)
      ensures Told(old(clients), clients, StateLine())
      ensures StateLine() == dump(AutomationState(editor != 0, enabled, revision)) + "\n"
      ensures editor == old(editor) ==>
                clients == Extended(old(clients), StateLine()) && Current(clients, StateLine())
    {
      var envelope := StateEnvelope();
      ids := Broadcast(envelope);
      BroadcastTells(old(clients), old(editor), ids, LineOf(envelope), NewsLine());
    }

    function LinesOf(envelopes: seq<Envelope>): string {
      if envelopes == [] then ""
      else LinesOf(envelopes[..|envelopes| - 1]) + LineOf(envelopes[|envelopes| - 1])
    }

    /** A new client is told the greeting and the state of the automation; if its output grows
        too large it is gone again. */
    method Accept(greeting: seq<Envelope>) returns (id: nat)
      requires Valid()
      modifies `clients, `editor, `nextClient
      ensures Valid() && id !in old(clients) && clients - {id} == old(clients)
      ensures View() == old(View()).(clients := clients.Keys)
      ensures var told := LinesOf(greeting) + dump(AutomationState(editor != 0, enabled, revision)) + "\n";
              && (id in clients <==> |told| <= MAXIMUM_OUTPUT)
              && (id in clients ==> clients[id] == told)
    {
      id, nextClient := nextClient, nextClient + 1;
      clients := clients[id := ""];
      for i := 0 to |greeting|
        invariant Valid() && editor == old(editor) && id < nextClient
        invariant id !in old(clients) && clients - {id} == old(clients)
        invariant id in clients <==> |LinesOf(greeting[..i])| <= MAXIMUM_OUTPUT
        invariant id in clients ==> clients[id] == LinesOf(greeting[..i])
      {
        assert greeting[..i + 1][..i] == greeting[..i];
        Greet(id, greeting[i]);
      }
      assert greeting[..|greeting|] == greeting;
      Greet(id, StateEnvelope());
    }

    /** A message to a client that does not hold the lock touches nobody else. */
    method Greet(id: nat, envelope: Envelope)
      requires Valid() && editor != id
      modifies `clients, `editor
      ensures Valid() && editor == old(editor) && clients - {id} == old(clients) - {id}
      ensures id in clients <==>
              id in old(clients) && |old(clients)[id] + LineOf(envelope)| <= MAXIMUM_OUTPUT
      ensures id in clients ==> clients[id] == old(clients)[id] + LineOf(envelope)
    {
      Send(id, envelope);
    }

    /** Replace the script, and record that in the state; false if the save did not succeed,
        even when it took effect. */
    method SaveScript(client: nat, request: Request, env: Environment) returns (ok: bool)
      requires Valid() && Admitted(View(), client, request)
      modifies `script, `enabled, `revision, `saves
      ensures Valid() && View() == AfterSave(old(View()), client, request, env)
      ensures ok == Succeeds(request, env)
    {
      var text := request.script.value;
      if |text| > MAXIMUM_SCRIPT || !env.valid { return false; }
      var previousScript, previousEnabled, previousRevision := script, enabled, revision;
      if !env.written { return false; }
      script := Some(text);
      enabled, revision := request.enabled.value, revision + 1;
      if !env.persisted {
        enabled, revision := previousEnabled, previousRevision;
        if previousScript.Some? && env.restored { script := previousScript; }
        return false;
      }
      saves := saves + [Save(client, editor, request.revision.value, text)];
      ok := !enabled || env.loads;
    }

    /** After these messages everyone is told the state. */
    predicate Announces(lock: Lock, client: nat, request: Request, env: Environment) {
      match request
      case EditBegin(id) => id.Some? && (lock.editor == 0 || lock.editor == client) && lock.script.Some?
      case EditSave(_, _, _, _) => Admitted(lock, client, request) && Succeeds(request, env)
      case EditCancel => lock.editor == client
      case Notify => true
      case _ => false
    }

    /** The contract of every handler: the lock moves as `Handled` says, apart from clients
        that disconnect meanwhile, the client is answered or disconnected, and an
        announced state is known to everyone, as the last thing told unless the lock was
        freed meanwhile. */
    ghost predicate Handles(before: Outputs, lock: Lock, client: nat, request: Request, env: Environment)
      reads this
    {
      && Shrinks(before, Handled(lock, client, request, env), clients, View())
      && (client in clients && Answer(lock, client, request, env).Some? ==>
            before[client] + LineOf(Answer(lock, client, request, env).value) <= clients[client])
      && (Announces(lock, client, request, env) ==>
            && Told(before, clients, StateLine())
            && (editor == Handled(lock, client, request, env).editor ==> Current(clients, StateLine())))
    }

    method BeginEdit(client: nat, id: Option<nat>, ghost env: Environment)
      requires Valid() && client in clients
      modifies `clients, `editor
      ensures Valid() && Handles(old(clients), old(View()), client, EditBegin(id), env)
      ensures StateLine() != old(StateLine()) ==> Told(old(clients), clients, StateLine())
    {
      if id.None? {
        Send(client, EditDenied(0, BadRequest));
      } else if editor != 0 && editor != client {
        Send(client, EditDenied(id.value, Busy));
      } else if script.None? {
        Send(client, EditDenied(id.value, Unreadable));
      } else {
        editor := client;
        SendAndAnnounce(client, EditGranted(id.value, script.value, revision));
      }
    }

    /** Answer the client, then tell everyone the state. */
    method SendAndAnnounce(client: nat, envelope: Envelope)
      requires Valid() && client in clients
      modifies `clients, `editor
      ensures Valid() && Shrinks(old(clients), old(View()), clients, View())
      ensures client in clients ==> old(clients)[client] + LineOf(envelope) <= clients[client]
      ensures Told(old(clients), clients, StateLine())
      ensures editor == old(editor) ==> Current(clients, StateLine())
    {
      Send(client, envelope);
      ghost var mid, lock := clients, View();
      ghost var _ := BroadcastState();
      ShrinksOn(old(clients), old(View()), mid, lock, clients, View());
      ToldEarlier(old(clients), mid, clients, StateLine());
    }

    /** A save of the holder with the current revision.  Only a success is announced: when a
        save takes effect but fails to load, the others do not learn of the new revision. */
    method AttemptSave(client: nat, request: Request, env: Environment)
      requires Valid() && client in clients && Admitted(View(), client, request)
      modifies `clients, `editor, `script, `enabled, `revision, `saves
      ensures Valid() && Handles(old(clients), old(View()), client, request, env)
      ensures !Succeeds(request, env) && client in clients ==>
                clients == old(clients)[client := old(clients)[client] + LineOf(SaveDenied(request.id.value, NotSaved))]
    {
      var ok := SaveScript(client, request, env);
      if ok {
        editor := 0;
        SendAndAnnounce(client, SaveDone(request.id.value, revision));
      } else {
        Send(client, SaveDenied(request.id.value, NotSaved));
      }
    }

    method SaveEdit(client: nat, request: Request, env: Environment)
      requires Valid() && client in clients && request.EditSave?
      modifies `clients, `editor, `script, `enabled, `revision, `saves
      ensures Valid() && Handles(old(clients), old(View()), client, request, env)
    {
      if request.id.None? || editor != client || request.script.None? || request.enabled.None? ||
         request.revision.None? {
        Send(client, SaveDenied(IdOf(request.id), if editor == client then BadRequest else NotHolder));
      } else if request.revision.value != revision {
        Send(client, SaveDenied(request.id.value, Changed));
      } else {
        AttemptSave(client, request, env);
      }
    }

    method CancelEdit(client: nat, ghost env: Environment)
      requires Valid() && client in clients
      modifies `clients, `editor
      ensures Valid() && Handles(old(clients), old(View()), client, EditCancel, env)
    {
      if editor == client {
        editor := 0;
        SendAndAnnounce(client, Released(true));
      } else {
        Send(client, Released(false));
      }
    }

    method Handle(client: nat, request: Request, env: Environment)
      requires Valid() && client in clients
      modifies `clients, `editor, `script, `enabled, `revision, `saves
      ensures Valid()
      ensures View() == Happens(old(View()), Message(client, request, env, old(clients).Keys - clients.Keys))
      ensures Handles(old(clients), old(View()), client, request, env)
    {
      match request
      case EditBegin(id) => BeginEdit(client, id, env);
      case EditSave(_, _, _, _) => SaveEdit(client, request, env);
      case EditCancel => CancelEdit(client, env);
      case Notify => ghost var _ := BroadcastState();
      case Ask(answer) => Send(client, answer);
      case Silent =>
    }
  }
}
