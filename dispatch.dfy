/** The per-recipient message queue of app.js with its echo gate
    (`addMessageToQueue`, `sendNextMessage`, the echo branch of `receivedMessage`).

    The functions below give the meaning of one step on the two maps; the class
    `Dispatcher` is the code that updates the maps in place, proved against them. */
module Dispatch {
  import opened Common
  import opened Messages

  /** `timeoutInMilliseconds`: how long a recipient waits for an echo. */
  const TimeoutInMilliseconds: nat := 10000

  /** The two global maps: `userIdToMessagesQueue` and `userIdToLastSentTimestamp`.
      A timestamp of 0 means no message is waiting for its echo. */
  datatype Queues = Queues(pending: map<UserId, seq<Msg>>, lastSent: map<UserId, nat>)

  /** One argument of `callSendAPI`: the message and the user it is addressed to. */
  datatype Delivery = Delivery(recipient: UserId, msg: Msg)

  /** The maps after one step, and the messages that step handed to the sender. */
  datatype Step = Step(next: Queues, dispatched: seq<Msg>)

  const Idle := Queues(map[], map[])

  /** The gate test shared by `addMessageToQueue` and `sendNextMessage`:
      strictly more than the timeout must have elapsed. */
  predicate GateOpen(lastSent: map<UserId, nat>, r: UserId, now: nat)
  {
    r !in lastSent || lastSent[r] == 0 || lastSent[r] + TimeoutInMilliseconds < now
  }

  /** A recipient's queue; a recipient without an entry has nothing pending. */
  function Pending(q: Queues, r: UserId): seq<Msg>
  {
    if r in q.pending then q.pending[r] else []
  }

  /** `sendNextMessage(r)` with `Date.now()` returning `now`. */
  function SendNext(q: Queues, r: UserId, now: nat): (s: Step)
    ensures |s.dispatched| <= 1
    ensures s.dispatched != [] <==> GateOpen(q.lastSent, r, now) && Pending(q, r) != []
    ensures s.dispatched + Pending(s.next, r) == Pending(q, r)
    ensures s.dispatched != [] ==> s.next.lastSent == q.lastSent[r := now]
    ensures s.dispatched == [] ==> s.next == q
    ensures forall u :: u != r ==> Pending(s.next, u) == Pending(q, u)
  {
    if GateOpen(q.lastSent, r, now) && r in q.pending && |q.pending[r]| > 0 then
      Step(Queues(q.pending[r := q.pending[r][1..]], q.lastSent[r := now]), [q.pending[r][0]])
    else
      Step(q, [])
  }

  /** `addMessageToQueue(r, m)`: push (or create a one-element queue), then
      send the head if the gate is open. */
  function AddToQueue(q: Queues, r: UserId, m: Msg, now: nat): (s: Step)
    ensures |s.dispatched| <= 1
    ensures s.dispatched != [] <==> GateOpen(q.lastSent, r, now)
    ensures s.dispatched + Pending(s.next, r) == Pending(q, r) + [m]
    ensures s.dispatched != [] ==> s.next.lastSent == q.lastSent[r := now]
    ensures s.dispatched == [] ==> s.next.lastSent == q.lastSent
    ensures forall u :: u != r ==> Pending(s.next, u) == Pending(q, u)
  {
    var pushed := Queues(q.pending[r := Pending(q, r) + [m]], q.lastSent);
    if GateOpen(pushed.lastSent, r, now) then SendNext(pushed, r, now) else Step(pushed, [])
  }

  /** The echo branch of `receivedMessage`: clear the timestamp, whatever it
      was, then `sendNextMessage`. */
  function ReceiveEcho(q: Queues, r: UserId, now: nat): (s: Step)
    ensures |s.dispatched| <= 1
    ensures s.dispatched + Pending(s.next, r) == Pending(q, r)
    ensures Pending(q, r) == [] ==> s.dispatched == [] && s.next == q.(lastSent := q.lastSent[r := 0])
    ensures Pending(q, r) != [] ==> s.dispatched == [Pending(q, r)[0]] && s.next.lastSent == q.lastSent[r := now]
    ensures forall u :: u != r ==> Pending(s.next, u) == Pending(q, u)
  {
    SendNext(q.(lastSent := q.lastSent[r := 0]), r, now)
  }

  /** The messages of a step, addressed. */
  function Addressed(r: UserId, ms: seq<Msg>): (ds: seq<Delivery>)
    ensures |ds| == |ms|
  {
    if ms == [] then [] else Addressed(r, ms[..|ms| - 1]) + [Delivery(r, ms[|ms| - 1])]
  }

  /** The messages of a log addressed to `r`, in log order. */
  function Project(log: seq<Delivery>, r: UserId): seq<Msg>
  {
    if log == [] then []
    else Project(log[..|log| - 1], r) + (if log[|log| - 1].recipient == r then [log[|log| - 1].msg] else [])
  }

  lemma {:induction false} ProjectAppend(a: seq<Delivery>, b: seq<Delivery>, r: UserId)
    ensures Project(a + b, r) == Project(a, r) + Project(b, r)
    decreases |b|
  {
    if b == [] {
      assert a + b == a;
    } else {
      var b' := b[..|b| - 1];
      assert (a + b)[..|a + b| - 1] == a + b';
      ProjectAppend(a, b', r);
    }
  }

  lemma {:induction false} ProjectAddressed(u: UserId, ms: seq<Msg>, r: UserId)
    ensures Project(Addressed(u, ms), r) == if u == r then ms else []
    decreases |ms|
  {
    if ms != [] {
      var ms' := ms[..|ms| - 1];
      assert Addressed(u, ms)[..|ms| - 1] == Addressed(u, ms');
      ProjectAddressed(u, ms', r);
      if u == r {
        assert ms' + [ms[|ms| - 1]] == ms;
      }
    }
  }

  /** FIFO: for every recipient, what was handed to the sender followed by
      what is still queued is exactly what was enqueued, in order. */
  ghost predicate Fifo(q: Queues, sent: seq<Delivery>, enqueued: seq<Delivery>)
  {
    forall r :: FifoAt(q, sent, enqueued, r)
  }

  /** The FIFO relation for one recipient `r`. */
  ghost predicate FifoAt(q: Queues, sent: seq<Delivery>, enqueued: seq<Delivery>, r: UserId)
  {
    Project(sent, r) + Pending(q, r) == Project(enqueued, r)
  }

  /** The timestamps play no part in the FIFO relation. */
  lemma FifoIgnoresStamps(q: Queues, lastSent: map<UserId, nat>, sent: seq<Delivery>, enqueued: seq<Delivery>)
    requires Fifo(q, sent, enqueued)
    ensures Fifo(Queues(q.pending, lastSent), sent, enqueued)
  {
    forall r
      ensures FifoAt(Queues(q.pending, lastSent), sent, enqueued, r)
    {
      assert FifoAt(q, sent, enqueued, r);
    }
  }

  /** A step on `r` that moves messages from the front of `r`'s queue to the
      sender, after appending `added` at its back, keeps the FIFO relation. */
  lemma StepKeepsFifo(q: Queues, s: Step, r: UserId, added: seq<Msg>, sent: seq<Delivery>, enqueued: seq<Delivery>)
    requires Fifo(q, sent, enqueued)
    requires s.dispatched + Pending(s.next, r) == Pending(q, r) + added
    requires forall u :: u != r ==> Pending(s.next, u) == Pending(q, u)
    ensures Fifo(s.next, sent + Addressed(r, s.dispatched), enqueued + Addressed(r, added))
  {
    forall u
      ensures FifoAt(s.next, sent + Addressed(r, s.dispatched), enqueued + Addressed(r, added), u)
    {
      assert FifoAt(q, sent, enqueued, u);
      StepKeepsFifoAt(Pending(q, u), s.dispatched, Pending(s.next, u), r, u, added, sent, enqueued);
    }
  }

  /** `StepKeepsFifo` for one recipient `u`, with its queue before (`was`) and after (`rest`). */
  lemma StepKeepsFifoAt(was: seq<Msg>, dispatched: seq<Msg>, rest: seq<Msg>, r: UserId, u: UserId,
                        added: seq<Msg>, sent: seq<Delivery>, enqueued: seq<Delivery>)
    requires Project(sent, u) + was == Project(enqueued, u)
    requires u == r ==> dispatched + rest == was + added
    requires u != r ==> rest == was
    ensures Project(sent + Addressed(r, dispatched), u) + rest == Project(enqueued + Addressed(r, added), u)
  {
    ProjectAppend(sent, Addressed(r, dispatched), u);
    ProjectAppend(enqueued, Addressed(r, added), u);
    ProjectAddressed(r, dispatched, u);
    ProjectAddressed(r, added, u);
    SpliceQueue(Project(sent, u), Project(enqueued, u), Project(Addressed(r, dispatched), u),
                Project(Addressed(r, added), u), was, dispatched, rest, u == r, added);
  }

  /** The sequence algebra behind `StepKeepsFifoAt`, on plain sequences. */
  lemma SpliceQueue(before: seq<Msg>, after: seq<Msg>, sentNow: seq<Msg>, addedNow: seq<Msg>,
                    was: seq<Msg>, dispatched: seq<Msg>, rest: seq<Msg>, own: bool, added: seq<Msg>)
    requires before + was == after
    requires own ==> dispatched + rest == was + added && sentNow == dispatched && addedNow == added
    requires !own ==> rest == was && sentNow == [] && addedNow == []
    ensures before + sentNow + rest == after + addedNow
  {
    if own {
      calc {
        (before + dispatched) + rest;
        before + (dispatched + rest);
        before + (was + added);
        (before + was) + added;
      }
    } else {
      assert before + [] == before;
      assert after + [] == after;
    }
  }

  /** An input to the queue: a message enqueued for a user, or an echo of a
      message the bot sent to a user; each carries the clock reading. */
  datatype Event =
    | Enqueue(recipient: UserId, msg: Msg, now: nat)
    | Echo(recipient: UserId, now: nat)

  function Apply(q: Queues, e: Event): Step
  {
    match e
    case Enqueue(r, m, now) => AddToQueue(q, r, m, now)
    case Echo(r, now) => ReceiveEcho(q, r, now)
  }

  /** The messages an event adds to a queue. */
  function Added(e: Event): seq<Msg>
  {
    if e.Enqueue? then [e.msg] else []
  }

  /** The state after a sequence of events and every `callSendAPI` argument, in order. */
  datatype Trace = Trace(final: Queues, log: seq<Delivery>)

  function Run(q: Queues, events: seq<Event>): Trace
  {
    if events == [] then Trace(q, [])
    else
      var t := Run(q, events[..|events| - 1]);
      var e := events[|events| - 1];
      var s := Apply(t.final, e);
      Trace(s.next, t.log + Addressed(e.recipient, s.dispatched))
  }

  /** Every message enqueued by a sequence of events, addressed. */
  function Enqueued(events: seq<Event>): seq<Delivery>
  {
    if events == [] then []
    else Enqueued(events[..|events| - 1]) + Addressed(events[|events| - 1].recipient, Added(events[|events| - 1]))
  }

  /** Starting from empty maps, whatever the interleaving of enqueues, echoes
      and clock readings, each recipient is sent a prefix of what was enqueued
      for it, in enqueue order, and the rest is still queued in that order. */
  lemma {:induction false} RunIsFifo(events: seq<Event>)
    ensures Fifo(Run(Idle, events).final, Run(Idle, events).log, Enqueued(events))
    decreases |events|
  {
    if events == [] {
      forall r ensures Project([], r) + Pending(Idle, r) == Project([], r) {}
    } else {
      var prefix := events[..|events| - 1];
      var e := events[|events| - 1];
      RunIsFifo(prefix);
      var t := Run(Idle, prefix);
      StepKeepsFifo(t.final, Apply(t.final, e), e.recipient, Added(e), t.log, Enqueued(prefix));
    }
  }

  /** One event hands at most one message to the sender, and only to its own recipient. */
  lemma ApplyDispatchesAtMostOne(q: Queues, e: Event, r: UserId)
    ensures |Apply(q, e).dispatched| <= 1
    ensures r != e.recipient ==> Project(Addressed(e.recipient, Apply(q, e).dispatched), r) == []
  {
    ProjectAddressed(e.recipient, Apply(q, e).dispatched, r);
  }

  /** At most one message in flight: once a message was sent to `r` at a
      positive time `sentAt`, no event sends `r` another one until an echo for
      `r` arrives or a clock reading exceeds `sentAt` by more than the timeout. */
  lemma {:induction false} InFlightBlocksRecipient(q: Queues, events: seq<Event>, r: UserId, sentAt: nat)
    requires r in q.lastSent && q.lastSent[r] == sentAt > 0
    requires forall i :: 0 <= i < |events| ==> !(events[i].Echo? && events[i].recipient == r)
    requires forall i :: 0 <= i < |events| ==> events[i].now <= sentAt + TimeoutInMilliseconds
    ensures Project(Run(q, events).log, r) == []
    ensures r in Run(q, events).final.lastSent && Run(q, events).final.lastSent[r] == sentAt
    decreases |events|
  {
    if events != [] {
      var prefix := events[..|events| - 1];
      var e := events[|events| - 1];
      InFlightBlocksRecipient(q, prefix, r, sentAt);
      var t := Run(q, prefix);
      var s := Apply(t.final, e);
      ProjectAppend(t.log, Addressed(e.recipient, s.dispatched), r);
      ProjectAddressed(e.recipient, s.dispatched, r);
      if e.recipient == r {
        assert !GateOpen(t.final.lastSent, r, e.now);
      }
    }
  }

  /** After a dispatch at a positive time, the gate of that recipient stays
      closed up to and including the instant the timeout has exactly elapsed. */
  lemma GateClosedAfterDispatch(q: Queues, r: UserId, now: nat, later: nat)
    requires SendNext(q, r, now).dispatched != []
    requires now > 0 && later <= now + TimeoutInMilliseconds
    ensures !GateOpen(SendNext(q, r, now).next.lastSent, r, later)
  {
  }

  /** After the timeout has strictly elapsed, the next queued message goes out
      although no echo arrived. */
  lemma TimeoutReleasesGate(q: Queues, r: UserId, now: nat)
    requires r in q.lastSent && q.lastSent[r] + TimeoutInMilliseconds < now
    requires Pending(q, r) != []
    ensures SendNext(q, r, now).dispatched == [Pending(q, r)[0]]
  {
  }

  /** Successive `addMessageToQueue` calls for one recipient, as one handler
      of app.js makes them, all with the same clock reading. */
  function EnqueueAll(q: Queues, r: UserId, ms: seq<Msg>, now: nat): Step
  {
    if ms == [] then Step(q, [])
    else
      var s := EnqueueAll(q, r, ms[..|ms| - 1], now);
      var s' := AddToQueue(s.next, r, ms[|ms| - 1], now);
      Step(s'.next, s.dispatched + s'.dispatched)
  }

  /** What `EnqueueAll` dispatched followed by what stays queued for `r` is
      what was queued before followed by `ms`. */
  lemma {:induction false} EnqueueAllMoves(q: Queues, r: UserId, ms: seq<Msg>, now: nat)
    ensures var s := EnqueueAll(q, r, ms, now);
            s.dispatched + Pending(s.next, r) == Pending(q, r) + ms
    decreases |ms|
  {
    if ms == [] {
      assert Pending(q, r) + [] == Pending(q, r);
    } else {
      var prefix, m := ms[..|ms| - 1], ms[|ms| - 1];
      EnqueueAllMoves(q, r, prefix, now);
      var s := EnqueueAll(q, r, prefix, now);
      var s' := AddToQueue(s.next, r, m, now);
      assert EnqueueAll(q, r, ms, now) == Step(s'.next, s.dispatched + s'.dispatched);
      Reassociate(s.dispatched, s'.dispatched, Pending(s'.next, r), Pending(s.next, r), Pending(q, r), prefix, m);
      assert prefix + [m] == ms;
    }
  }

  /** The sequence algebra of one more step of `EnqueueAllMoves`. */
  lemma Reassociate(d: seq<Msg>, d': seq<Msg>, rest': seq<Msg>, rest: seq<Msg>, was: seq<Msg>, prefix: seq<Msg>, m: Msg)
    requires d + rest == was + prefix
    requires d' + rest' == rest + [m]
    ensures (d + d') + rest' == was + (prefix + [m])
  {
    calc {
      (d + d') + rest';
      d + (d' + rest');
      (d + rest) + [m];
    }
  }

  /** `EnqueueAll` for `r` leaves every other recipient's queue alone. */
  lemma {:induction false} EnqueueAllKeepsOthers(q: Queues, r: UserId, ms: seq<Msg>, now: nat, u: UserId)
    requires u != r
    ensures Pending(EnqueueAll(q, r, ms, now).next, u) == Pending(q, u)
    decreases |ms|
  {
    if ms != [] {
      EnqueueAllKeepsOthers(q, r, ms[..|ms| - 1], now, u);
    }
  }

  /** A handler that enqueues several messages at one instant `now > 0`
      dispatches at most one message: when the gate was open, exactly one, the
      head of the queue after the appends (an older queued message, if the
      timeout reopened the gate while one was waiting). */
  lemma {:induction false} EnqueueAllDispatchesAtMostOne(q: Queues, r: UserId, ms: seq<Msg>, now: nat)
    requires now > 0
    ensures var s := EnqueueAll(q, r, ms, now);
            && s.dispatched == (if ms != [] && GateOpen(q.lastSent, r, now) then [(Pending(q, r) + ms)[0]] else [])
            && (ms != [] && GateOpen(q.lastSent, r, now) ==> s.next.lastSent == q.lastSent[r := now])
            && (!(ms != [] && GateOpen(q.lastSent, r, now)) ==> s.next.lastSent == q.lastSent)
    decreases |ms|
  {
    if ms != [] {
      var prefix, m := ms[..|ms| - 1], ms[|ms| - 1];
      EnqueueAllDispatchesAtMostOne(q, r, prefix, now);
      var s := EnqueueAll(q, r, prefix, now);
      if prefix == [] {
        assert ms == [m];
        AddToQueueSendsHead(q, r, m, now);
      } else if GateOpen(q.lastSent, r, now) {
        assert !GateOpen(s.next.lastSent, r, now);
        assert (Pending(q, r) + prefix)[0] == (Pending(q, r) + ms)[0];
      }
    }
  }

  /** An open gate sends the head of the queue after the append. */
  lemma AddToQueueSendsHead(q: Queues, r: UserId, m: Msg, now: nat)
    ensures GateOpen(q.lastSent, r, now) ==> AddToQueue(q, r, m, now).dispatched == [(Pending(q, r) + [m])[0]]
  {
    var s := AddToQueue(q, r, m, now);
    if GateOpen(q.lastSent, r, now) {
      assert s.dispatched + Pending(s.next, r) == Pending(q, r) + [m];
      assert s.dispatched[0] == (s.dispatched + Pending(s.next, r))[0];
    }
  }

  /** The per-recipient FIFO queue, updated in place as app.js updates its two
      global objects. `sent` records every argument of `callSendAPI`;
      `enqueued` every argument of `addMessageToQueue`. */
  class Dispatcher {
    var userIdToMessagesQueue: map<UserId, seq<Msg>>
    var userIdToLastSentTimestamp: map<UserId, nat>
    ghost var sent: seq<Delivery>
    ghost var enqueued: seq<Delivery>

    function State(): Queues
      reads this
    {
      Queues(userIdToMessagesQueue, userIdToLastSentTimestamp)
    }

    ghost predicate Valid()
      reads this
    {
      Fifo(State(), sent, enqueued)
    }

    constructor ()
      ensures Valid()
      ensures State() == Idle && sent == [] && enqueued == []
    {
      userIdToMessagesQueue := map[];
      userIdToLastSentTimestamp := map[];
      sent := [];
      enqueued := [];
    }

    /** `callSendAPI`: the HTTPS request is not modelled, only that it was made. */
    method CallSendApi(recipientId: UserId, messageData: Msg)
      modifies this`sent
      ensures sent == old(sent) + [Delivery(recipientId, messageData)]
    {
      sent := sent + [Delivery(recipientId, messageData)];
    }

    method SendNextMessage(recipientId: UserId, now: nat)
      requires Valid()
      modifies this
      ensures Valid()
      ensures var s := SendNext(old(State()), recipientId, now);
              State() == s.next && sent == old(sent) + Addressed(recipientId, s.dispatched)
      ensures enqueued == old(enqueued)
    {
      ghost var q := State();
      if GateOpen(userIdToLastSentTimestamp, recipientId, now) {
        if recipientId in userIdToMessagesQueue && |userIdToMessagesQueue[recipientId]| > 0 {
          userIdToLastSentTimestamp := userIdToLastSentTimestamp[recipientId := now];
          var messageData := userIdToMessagesQueue[recipientId][0];
          userIdToMessagesQueue := userIdToMessagesQueue[recipientId := userIdToMessagesQueue[recipientId][1..]];
          CallSendApi(recipientId, messageData);
        }
      }
      ghost var s := SendNext(q, recipientId, now);
      StepKeepsFifo(q, s, recipientId, [], old(sent), enqueued);
      assert enqueued + Addressed(recipientId, []) == enqueued;
      assert State() == s.next && sent == old(sent) + Addressed(recipientId, s.dispatched);
    }

    method AddMessageToQueue(recipientId: UserId, messageData: Msg, now: nat)
      requires Valid()
      modifies this
      ensures Valid()
      ensures var s := AddToQueue(old(State()), recipientId, messageData, now);
              State() == s.next && sent == old(sent) + Addressed(recipientId, s.dispatched)
      ensures enqueued == old(enqueued) + [Delivery(recipientId, messageData)]
    {
      ghost var q := State();
      ghost var pushed := Queues(q.pending[recipientId := Pending(q, recipientId) + [messageData]], q.lastSent);
      if recipientId in userIdToMessagesQueue {
        userIdToMessagesQueue := userIdToMessagesQueue[recipientId := userIdToMessagesQueue[recipientId] + [messageData]];
      } else {
        assert Pending(q, recipientId) + [messageData] == [messageData];
        userIdToMessagesQueue := userIdToMessagesQueue[recipientId := [messageData]];
      }
      enqueued := enqueued + [Delivery(recipientId, messageData)];
      assert State() == pushed;
      assert [] + Pending(pushed, recipientId) == Pending(q, recipientId) + [messageData];
      assert Addressed(recipientId, []) == [];
      assert Addressed(recipientId, [messageData]) == [Delivery(recipientId, messageData)];
      assert sent + [] == sent;
      StepKeepsFifo(q, Step(pushed, []), recipientId, [messageData], sent, old(enqueued));
      if GateOpen(userIdToLastSentTimestamp, recipientId, now) {
        SendNextMessage(recipientId, now);
      }
    }

    /** The echo branch of `receivedMessage`, for the user the echoed message was sent to. */
    method ReceivedEcho(recipientId: UserId, now: nat)
      requires Valid()
      modifies this
      ensures Valid()
      ensures var s := ReceiveEcho(old(State()), recipientId, now);
              State() == s.next && sent == old(sent) + Addressed(recipientId, s.dispatched)
      ensures enqueued == old(enqueued)
    {
      userIdToLastSentTimestamp := userIdToLastSentTimestamp[recipientId := 0];
      FifoIgnoresStamps(old(State()), userIdToLastSentTimestamp, sent, enqueued);
      SendNextMessage(recipientId, now);
    }
  }
}
