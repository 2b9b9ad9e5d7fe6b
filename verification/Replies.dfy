/** Every control request of a client ends as one refusal or as one command in the queue, and
    every such command gets one reply. */
module Replies {
  import opened Protocol
  import opened Conservation
  import opened Verdicts
  import opened Answers

  /** The commands of clients that the events answer, in order. */
  function Replied(events: seq<Event>): seq<Command> {
    if events == [] then []
    else
      var last := events[|events| - 1];
      Replied(events[..|events| - 1]) + if last.Control? && !last.command.automated then [last.command] else []
  }

  /** The event answers the command just as the reply says. */
  predicate RepliesTo(event: Event, command: Command, reply: Reply) {
    && event.Control? && event.command == command && event.ok == reply.ok
    && !command.automated && reply.client == command.client && reply.id == command.id
  }

  /** Each reply is due to an event that answers its command. */
  lemma {:induction false} DueToReplied(events: seq<Event>)
    ensures |Due(events)| == |Replied(events)|
    ensures forall i | 0 <= i < |Due(events)| ::
              exists k :: 0 <= k < |events| && RepliesTo(events[k], Replied(events)[i], Due(events)[i])
    decreases |events|
  {
    if events != [] {
      var shorter, n := events[..|events| - 1], |events| - 1;
      DueToReplied(shorter);
      forall i | 0 <= i < |Due(events)|
        ensures exists k :: 0 <= k < |events| && RepliesTo(events[k], Replied(events)[i], Due(events)[i])
      {
        if i < |Due(shorter)| {
          var k :| 0 <= k < |shorter| && RepliesTo(shorter[k], Replied(shorter)[i], Due(shorter)[i]);
          assert RepliesTo(events[k], Replied(events)[i], Due(events)[i]);
        } else {
          assert RepliesTo(events[n], Replied(events)[i], Due(events)[i]);
        }
      }
    }
  }

  /** A command answered once has one answer. */
  lemma {:induction false} AnsweredAt(c: Command, events: seq<Event>)
    requires Answered(c, events) <= 1
    ensures forall j, k | 0 <= j < k < |events| :: !(Verdicts.Answers(events[j], c) && Verdicts.Answers(events[k], c))
    decreases |events|
  {
    if events != [] {
      var n := |events| - 1;
      var shorter := events[..n];
      AnsweredAt(c, shorter);
      AnsweredSomewhere(c, shorter);
      assert forall j | 0 <= j < n :: events[j] == shorter[j];
    }
  }

  lemma {:induction false} RepliedAsAnswered(c: Command, events: seq<Event>)
    ensures Times(c, Replied(events)) == if c.automated then 0 else Answered(c, events)
    decreases |events|
  {
    if events != [] {
      var last := events[|events| - 1];
      RepliedAsAnswered(c, events[..|events| - 1]);
      if last.Control? && !last.command.automated {
        TimesGrow(c, Replied(events[..|events| - 1]), last.command);
      }
    }
  }

  lemma TwiceCounts(commands: seq<Command>, i: nat, j: nat)
    requires i < j < |commands| && commands[i] == commands[j]
    ensures Times(commands[i], commands) >= 2
  {
    assert commands == commands[..j] + [commands[j]] + commands[j + 1..];
    assert commands[i] in commands[..j];
  }

  /** No command is answered more often than it was queued, and once when nothing is left. */
  lemma AnsweredOnce(actions: seq<Action>, c: Command)
    requires Run(INITIAL, actions).Some?
    ensures var s := Run(INITIAL, actions).value;
            && Answered(c, s.main.handled) <= (if c in s.shared.queued then 1 else 0)
            && (Finished(s) && c in s.shared.queued ==> Answered(c, s.main.handled) == 1)
  {
    CountedForever(c, INITIAL, actions);
    EachCommandOnce(actions, c);
    var s := Run(INITIAL, actions).value;
    assert s.shared.posted[..|s.main.handled|] == s.main.handled;
    AnsweredPrefix(c, s.shared.posted, |s.main.handled|);
    if Finished(s) { assert s.shared.posted == s.main.handled; }
  }

  /** No command waits in the queue, in hand or in a refresh, and no event is unhandled. */
  predicate Finished(s: Server) {
    && s.shared.commands == [] && Held(s.worker.place) == [] && Swapped(s.main.phase) == []
    && s.shared.events == [] && s.main.batch == []
  }

  /** The replies belong one to one to the commands with these serials. */
  ghost predicate BelongTo(replies: seq<Reply>, serials: seq<nat>, queued: seq<Command>, marks: seq<Mark>,
                           handled: seq<Event>)
  {
    && |serials| == |replies|
    && (forall i, j | 0 <= i < j < |serials| :: serials[i] != serials[j])
    && forall i | 0 <= i < |serials| ::
         && serials[i] < |queued| && !queued[serials[i]].automated
         && queued[serials[i]].client == replies[i].client && queued[serials[i]].id == replies[i].id
         && (replies[i].ok ==> Attempt(serials[i], true) in marks)
         && (replies[i].ok <==> exists k :: 0 <= k < |handled| && SaysAccepted(handled[k], queued[serials[i]]))
  }

  /** Each reply belongs to a command of its own that was queued for that client with that id;
      it is ok exactly if the command was answered as accepted, and then the device was given
      it and accepted it; and once no command and no event is left, every command of a
      client has its reply. */
  lemma RepliesMatchCommands(actions: seq<Action>)
    requires Run(INITIAL, actions).Some?
    ensures var s := Run(INITIAL, actions).value;
            exists serials: seq<nat> ::
              && BelongTo(s.main.replies, serials, s.shared.queued, s.worker.marks, s.main.handled)
              && (Finished(s) ==>
                    forall n: nat | n < |s.shared.queued| && !s.shared.queued[n].automated :: n in serials)
  {
    OrderedForever(INITIAL, actions);
    var s := Run(INITIAL, actions).value;
    var replied := Replied(s.main.handled);
    forall i | 0 <= i < |replied|
      ensures replied[i].serial < |s.shared.queued| && s.shared.queued[replied[i].serial] == replied[i]
    {
      RepliedIsQueued(actions, replied[i]);
    }
    var serials := Serials(replied);
    RepliesBelong(actions);
    if Finished(s) {
      forall n: nat | n < |s.shared.queued| && !s.shared.queued[n].automated ensures n in serials {
        QueuedIsReplied(actions, n);
        var i :| 0 <= i < |replied| && replied[i] == s.shared.queued[n];
        assert serials[i] == n;
      }
    }
  }

  lemma RepliesBelong(actions: seq<Action>)
    requires Run(INITIAL, actions).Some?
    ensures var s := Run(INITIAL, actions).value;
            BelongTo(s.main.replies, Serials(Replied(s.main.handled)), s.shared.queued, s.worker.marks, s.main.handled)
  {
    RepliesExact(actions);
    var s := Run(INITIAL, actions).value;
    var replied := Replied(s.main.handled);
    var serials := Serials(replied);
    DueToReplied(s.main.handled);
    forall i | 0 <= i < |replied|
      ensures replied[i].serial < |s.shared.queued| && s.shared.queued[replied[i].serial] == replied[i]
    {
      RepliedIsQueued(actions, replied[i]);
    }
    forall i, j | 0 <= i < j < |replied| ensures replied[i].serial != replied[j].serial {
      if replied[i] == replied[j] { RepliedOnce(actions, i, j); }
    }
    forall i | 0 <= i < |replied|
      ensures s.main.replies[i].ok <==>
              exists k :: 0 <= k < |s.main.handled| && SaysAccepted(s.main.handled[k], replied[i])
      ensures s.main.replies[i].ok ==> Attempt(replied[i].serial, true) in s.worker.marks
    {
      ReplyIsAnswer(actions, i);
    }
    assert forall i | 0 <= i < |serials| :: serials[i] == replied[i].serial;
  }

  lemma ReplyIsAnswer(actions: seq<Action>, i: nat)
    requires Run(INITIAL, actions).Some?
    requires i < |Replied(Run(INITIAL, actions).value.main.handled)|
    ensures |Replied(Run(INITIAL, actions).value.main.handled)| == |Run(INITIAL, actions).value.main.replies|
    ensures var s := Run(INITIAL, actions).value;
            var command := Replied(s.main.handled)[i];
            && (s.main.replies[i].ok <==>
                  exists k :: 0 <= k < |s.main.handled| && SaysAccepted(s.main.handled[k], command))
            && (s.main.replies[i].ok ==> Attempt(command.serial, true) in s.worker.marks)
  {
    RepliesExact(actions);
    HonestForever(INITIAL, actions);
    var s := Run(INITIAL, actions).value;
    var handled := s.main.handled;
    var command := Replied(handled)[i];
    DueToReplied(handled);
    AnsweredOnce(actions, command);
    AnsweredAt(command, handled);
    var k :| 0 <= k < |handled| && RepliesTo(handled[k], command, s.main.replies[i]);
    assert s.shared.posted[k] == handled[k];
    assert forall j | 0 <= j < |handled| && SaysAccepted(handled[j], command) :: Verdicts.Answers(handled[j], command);
    assert s.main.replies[i].ok ==> SaysAccepted(handled[k], command);
  }

  lemma RepliedIsQueued(actions: seq<Action>, c: Command)
    requires Run(INITIAL, actions).Some? && c in Replied(Run(INITIAL, actions).value.main.handled)
    ensures var queued := Run(INITIAL, actions).value.shared.queued;
            c.serial < |queued| && queued[c.serial] == c
  {
    var s := Run(INITIAL, actions).value;
    RepliedAsAnswered(c, s.main.handled);
    AnsweredOnce(actions, c);
    OrderedForever(INITIAL, actions);
    var n :| 0 <= n < |s.shared.queued| && s.shared.queued[n] == c;
  }

  lemma RepliedOnce(actions: seq<Action>, i: nat, j: nat)
    requires Run(INITIAL, actions).Some?
    requires i < j < |Replied(Run(INITIAL, actions).value.main.handled)|
    ensures var replied := Replied(Run(INITIAL, actions).value.main.handled);
            replied[i] != replied[j]
  {
    var s := Run(INITIAL, actions).value;
    var replied := Replied(s.main.handled);
    AnsweredOnce(actions, replied[i]);
    RepliedAsAnswered(replied[i], s.main.handled);
    if replied[i] == replied[j] { TwiceCounts(replied, i, j); }
  }

  lemma QueuedIsReplied(actions: seq<Action>, n: nat)
    requires Run(INITIAL, actions).Some? && Finished(Run(INITIAL, actions).value)
    requires var queued := Run(INITIAL, actions).value.shared.queued;
             n < |queued| && !queued[n].automated
    ensures Run(INITIAL, actions).value.shared.queued[n] in Replied(Run(INITIAL, actions).value.main.handled)
  {
    var s := Run(INITIAL, actions).value;
    AnsweredOnce(actions, s.shared.queued[n]);
    RepliedAsAnswered(s.shared.queued[n], s.main.handled);
  }

  // ----- Requests

  predicate Asks(action: Action, client: nat, id: nat) {
    action.Serve? && action.request.ControlRequest? && action.request.client == client && action.request.id == id
  }

  /** How often the client asked with that id. */
  function Asked(actions: seq<Action>, client: nat, id: nat): nat {
    if actions == [] then 0 else (if Asks(actions[0], client, id) then 1 else 0) + Asked(actions[1..], client, id)
  }

  function Refused(refusals: seq<Reply>, client: nat, id: nat): nat {
    if refusals == [] then 0
    else
      var last := refusals[|refusals| - 1];
      Refused(refusals[..|refusals| - 1], client, id) + if last.client == client && last.id == id then 1 else 0
  }

  predicate IsFor(c: Command, client: nat, id: nat) {
    !c.automated && c.client == client && c.id == id
  }

  function QueuedFor(queued: seq<Command>, client: nat, id: nat): nat {
    if queued == [] then 0
    else QueuedFor(queued[..|queued| - 1], client, id) + if IsFor(queued[|queued| - 1], client, id) then 1 else 0
  }

  function Underway(phase: Phase, client: nat, id: nat): nat {
    if phase.Pushing? && !phase.automated && phase.client == client && phase.id == id then 1 else 0
  }

  /** What became of the requests of the client with that id. */
  function Account(m: MainThread, h: Shared, client: nat, id: nat): nat {
    Refused(m.refusals, client, id) + QueuedFor(h.queued, client, id) + Underway(m.phase, client, id)
  }

  lemma RefusedMore(refusals: seq<Reply>, reply: Reply, client: nat, id: nat)
    ensures Refused(refusals + [reply], client, id) ==
            Refused(refusals, client, id) + if reply.client == client && reply.id == id then 1 else 0
  {
    assert (refusals + [reply])[..|refusals|] == refusals;
  }

  lemma QueuedMore(queued: seq<Command>, c: Command, client: nat, id: nat)
    ensures QueuedFor(queued + [c], client, id) == QueuedFor(queued, client, id) + if IsFor(c, client, id) then 1 else 0
  {
    assert (queued + [c])[..|queued|] == queued;
  }

  lemma RequestAccounts(m: MainThread, h: Shared, request: Request, client: nat, id: nat)
    requires request.ControlRequest? && Possible(m, request)
    ensures Account(MainNext(m, h, request), MainEffect(m, h, request), client, id) ==
            Account(m, h, client, id) + if request.client == client && request.id == id then 1 else 0
  {
    if !h.deviceReady { RefusedMore(m.refusals, Reply(request.client, request.id, false), client, id); }
  }

  lemma PushAccounts(m: MainThread, h: Shared, client: nat, id: nat)
    requires m.phase.Pushing?
    ensures Account(MainNext(m, h, Proceed), MainEffect(m, h, Proceed), client, id) == Account(m, h, client, id)
  {
    var command := Command(|h.queued|, m.phase.client, m.phase.id, m.phase.values, m.phase.automated);
    QueuedMore(h.queued, command, client, id);
  }

  lemma OthersKeepAccount(m: MainThread, h: Shared, request: Request, client: nat, id: nat)
    requires Possible(m, request) && !request.ControlRequest? && (request == Proceed ==> !m.phase.Pushing?)
    ensures Account(MainNext(m, h, request), MainEffect(m, h, request), client, id) == Account(m, h, client, id)
  {
    KeepsRefusals(m, h, request);
    if request == ProcessEvent { ProcessingMovesNothing(m, h); }
  }

  lemma KeepsRefusals(m: MainThread, h: Shared, request: Request)
    requires Possible(m, request) && !request.ControlRequest? && (request == Proceed ==> !m.phase.Pushing?)
    ensures MainNext(m, h, request).refusals == m.refusals && MainEffect(m, h, request).queued == h.queued
  {}

  lemma NextAccounts(s: Server, action: Action, client: nat, id: nat)
    requires Next(s, action).Some?
    ensures var next := Next(s, action).value;
            Account(next.main, next.shared, client, id) ==
            Account(s.main, s.shared, client, id) + if Asks(action, client, id) then 1 else 0
  {
    match action {
      case Work(device) => WorkerShifts(s.worker, s.shared);
      case Serve(request) =>
        if request.ControlRequest? {
          RequestAccounts(s.main, s.shared, request, client, id);
        } else if request == Proceed && s.main.phase.Pushing? {
          PushAccounts(s.main, s.shared, client, id);
        } else {
          OthersKeepAccount(s.main, s.shared, request, client, id);
        }
    }
  }

  lemma {:induction false} AccountForever(s: Server, actions: seq<Action>, client: nat, id: nat)
    requires Run(s, actions).Some?
    ensures var end := Run(s, actions).value;
            Account(end.main, end.shared, client, id) ==
            Account(s.main, s.shared, client, id) + Asked(actions, client, id)
    decreases |actions|
  {
    if actions != [] {
      NextAccounts(s, actions[0], client, id);
      AccountForever(Next(s, actions[0]).value, actions[1..], client, id);
    }
  }

  /** Every control request is accounted for: of a client's requests with one id, each was
      refused at once, or queued as a command of that client with that id, or is on its way
      to the queue. */
  lemma EveryRequestAccounted(actions: seq<Action>, client: nat, id: nat)
    requires Run(INITIAL, actions).Some?
    ensures var s := Run(INITIAL, actions).value;
            Asked(actions, client, id) ==
            Refused(s.main.refusals, client, id) + QueuedFor(s.shared.queued, client, id) +
            Underway(s.main.phase, client, id)
  {
    AccountForever(INITIAL, actions, client, id);
  }
}
