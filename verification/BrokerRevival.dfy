/** Why the result on cleanup exempts revived subscriptions: a run in which a client uses a subscription id twice,
    and a frame that the cleanup of its connection gave back is handed to a subscription of that connection. */
module BrokerRevival {
  import opened Text
  import opened Frames
  import opened Broker
  import opened BrokerCleanup
  import opened BrokerExamples
  import Queues

  const M0 := Msg(0, MESSAGE_1)
  const M1 := Msg(1, MESSAGE_1)
  const HELD_0 := Msg(0, MESSAGE_2)
  const HELD_1 := Msg(1, MESSAGE_2)
  const SUBSCRIBE_AUTO := SubscribeFrame("auto")
  const UNSUBSCRIBE_FRAME := Frame("UNSUBSCRIBE", [Entry("id", "a")], "")
  const SUB := Sub(0, Q, "a", "auto", 0, false, None, Outbox)

  function Two(a: Sub, b: Sub): map<SubId, Sub> {
    map[0 := a, 1 := b]
  }

  lemma TwoFirst(a: Sub, b: Sub, a': Sub)
    ensures Two(a, b)[0 := a'] == Two(a', b)
  {
  }

  function OnlyQueue(waiting: seq<SubId>, stored: seq<Msg>): map<string, Queues.Queue<SubId, Msg>> {
    map[Q := Queues.Queue(waiting, stored)]
  }

  function Hears(k: Conn, f: Frame): Conn {
    k.(received := k.received + [f])
  }

  // ---------------------------------------------------------------- steps of any such state

  /** The only request in the outbox of connection 0 enters the channel. */
  lemma FlushesMore(st: System, k: Conn, op: Op)
    requires st.conns == Only(k.(outbox := [op])) && k.outbox == [] && |st.requests| < MAX_REQUESTS
    ensures Step(st, FlushNext(0)) ==
            Next(st.(requests := st.requests + [Request(0, op)], conns := Only(k),
                     subs := if op.Subscribe? && op.s in st.subs then st.subs[op.s := st.subs[op.s].(at := Requested)] else st.subs))
  {
    OnlyUpdate(k.(outbox := [op]), k);
    assert [op][1..] == [];
  }

  lemma Flushes(st: System, k: Conn, op: Op)
    requires st.conns == Only(k.(outbox := [op])) && k.outbox == [] && st.requests == []
    ensures Step(st, FlushNext(0)) ==
            Next(st.(requests := [Request(0, op)], conns := Only(k),
                     subs := if op.Subscribe? && op.s in st.subs then st.subs[op.s := st.subs[op.s].(at := Requested)] else st.subs))
  {
    hide Step;
    FlushesMore(st, k, op);
    assert [] + [Request(0, op)] == [Request(0, op)];
  }

  lemma QueueUpdate(st: System, waiting: seq<SubId>, stored: seq<Msg>)
    requires st.queues == map[] || exists w, m :: st.queues == OnlyQueue(w, m)
    ensures st.queues[Q := Queues.Queue(waiting, stored)] == OnlyQueue(waiting, stored)
  {
  }

  lemma QIsQueue()
    ensures IsQueue(Q) && IsQueueFrame(MESSAGE_1) && Destination(MESSAGE_1) == Some(Q)
    ensures IsQueueFrame(MESSAGE_2) && Destination(MESSAGE_2) == Some(Q)
  {
    SubscriptionIsSet();
    assert Find(MESSAGE_2.header, "destination") == Some(Q);
  }

  /** A SEND to the queue. */
  lemma Sends(st: System, k: Conn)
    requires st.conns == Only(k) && k.phase == Running && k.outbox == []
    ensures Step(st, ReceiveFrame(0, SEND_FRAME, true, true)) ==
            Next(st.(conns := Only(Hears(k, SEND_FRAME).(outbox := [Enqueue(Msg(st.nextRef, MESSAGE_1))])),
                     nextRef := st.nextRef + 1, entered := st.entered[st.nextRef := MESSAGE_1]))
  {
    var k1 := Hears(k, SEND_FRAME);
    var out := [Enqueue(Msg(st.nextRef, MESSAGE_1))];
    SendIsPlain();
    QIsQueue();
    hide Find, StripReceipt, IsQueueFrame, Destination, HandleAck, HandleTx, HandleSubscribe, HandleUnsubscribe, HandleCommit;
    OnlyUpdate(k, k1);
    OnlyUpdate(k1, k1.(outbox := out));
    assert k1.outbox + out == out;
    assert Dispatch(st.(conns := Only(k1)), 0, SEND_FRAME, true) == SendBody(st.(conns := Only(k1)), 0, SEND_FRAME);
  }

  lemma SendIsPlain()
    ensures Find(SEND_FRAME.header, "receipt") == None && Find(SEND_FRAME.header, "transaction") == None
    ensures StripReceipt(SEND_FRAME) == SEND_FRAME && SEND_FRAME.(command := "MESSAGE") == MESSAGE_1
  {
    assert SEND_FRAME.header[1..] == [];
    DropAbsent(SEND_FRAME.header, "receipt");
  }

  /** With nobody waiting, the message is stored. */
  lemma ServesSend(st: System, m: Msg, stored: seq<Msg>)
    requires st.requests == [Request(0, Enqueue(m))] && m.frame == MESSAGE_1
    requires if stored == [] then st.queues == map[] else st.queues == OnlyQueue([], stored)
    ensures Step(st, ServeNext) == Next(st.(requests := [], queues := OnlyQueue([], stored + [m])))
  {
    QIsQueue();
    hide Find, IsQueue, Destination;
    QueueUpdate(st, [], stored + [m]);
    assert st.requests[1..] == [];
    assert QueueOf(st, Q) == Queues.Queue([], stored);
    assert ServeMessage(st, Q, m, false) == Next(st.(requests := [], queues := OnlyQueue([], stored + [m])));
  }

  lemma SubscribeAutoIs()
    ensures Find(SUBSCRIBE_AUTO.header, "id") == Some("a") && Destination(SUBSCRIBE_AUTO) == Some(Q) && Find(SUBSCRIBE_AUTO.header, "ack") == Some("auto")
  {
    var h := SUBSCRIBE_AUTO.header;
    assert h[1..][0] == Entry("destination", "/queue/q") && h[1..][1..][0] == Entry("ack", "auto");
    assert Find(h[1..], "destination") == Some(Q) && Find(h[1..][1..], "ack") == Some("auto");
    assert Find(h, "ack") == Find(h[1..], "ack");
  }

  /** A SUBSCRIBE when no id is in use. */
  lemma SubscribesAgain(st: System, k: Conn)
    requires st.conns == Only(k) && k.phase == Running && k.outbox == [] && k.subs == map[]
    ensures Step(st, ReceiveFrame(0, SUBSCRIBE_AUTO, true, true)) ==
            Next(st.(conns := Only(Hears(k, SUBSCRIBE_AUTO).(subs := map["a" := st.nextSub], outbox := [Subscribe(st.nextSub)])),
                     subs := st.subs[st.nextSub := SUB], nextSub := st.nextSub + 1))
  {
    SubscribeAutoIs();
    hide Find, Destination, HandleAck, HandleTx, SendBody, HandleUnsubscribe, HandleCommit, Receipt, StripReceipt;
    var k1 := Hears(k, SUBSCRIBE_AUTO);
    var k2 := k1.(subs := map["a" := st.nextSub], outbox := [Subscribe(st.nextSub)]);
    OnlyUpdate(k, k1);
    OnlyUpdate(k1, k2);
    assert k1.subs["a" := st.nextSub] == k2.subs && k1.outbox + [Subscribe(st.nextSub)] == k2.outbox;
    assert HandleSubscribe(st.(conns := Only(k1)), 0, SUBSCRIBE_AUTO) == Done(NewSub(st.(conns := Only(k1)), 0, "a", Q, "auto"));
  }

  lemma Unsubscribes(st: System, k: Conn, s: SubId)
    requires st.conns == Only(k) && k.phase == Running && k.outbox == [] && k.subs == map["a" := s]
    ensures Step(st, ReceiveFrame(0, UNSUBSCRIBE_FRAME, true, true)) ==
            Next(st.(conns := Only(Hears(k, UNSUBSCRIBE_FRAME).(subs := map[], outbox := [Unsubscribe(s)]))))
  {
    assert Find(UNSUBSCRIBE_FRAME.header, "id") == Some("a");
    hide Find, Destination, HandleAck, HandleTx, SendBody, HandleSubscribe, HandleCommit, Receipt, StripReceipt;
    var k1 := Hears(k, UNSUBSCRIBE_FRAME);
    OnlyUpdate(k, k1);
    OnlyUpdate(k1, k1.(subs := map[], outbox := [Unsubscribe(s)]));
    assert k1.subs - {"a"} == map[] && k1.outbox + [Unsubscribe(s)] == [Unsubscribe(s)];
    assert HandleUnsubscribe(st.(conns := Only(k1)), 0, UNSUBSCRIBE_FRAME) == Done(EndSub(st.(conns := Only(k1)), 0, "a"));
  }

  /** An UnsubscribeOp of a subscription that is not waiting changes nothing. */
  lemma ServesUnsubscribe(st: System, s: SubId)
    requires st.requests == [Request(0, Unsubscribe(s))] && Known(st, s) && st.subs[s].dest == Q && s !in QueueOf(st, Q).waiting
    ensures Step(st, ServeNext) == Next(st.(requests := []))
  {
    QIsQueue();
    hide IsQueue;
    assert st.requests[1..] == [];
  }

  /** A SubscribeOp gets the first stored message, even when the connection is closing or closed. */
  lemma ServesSubscribe(st: System, k: Conn, s: SubId, m: Msg, stored: seq<Msg>, rest: seq<Request>)
    requires st.requests == [Request(0, Subscribe(s))] + rest && st.conns == Only(k) && |k.channel| < MAX_PENDING_WRITES
    requires s in st.subs && st.subs[s] == SUB.(at := Requested) && st.queues == OnlyQueue([], [m] + stored) && m.frame == MESSAGE_1
    ensures Step(st, ServeNext) ==
            Next(st.(requests := rest, conns := Only(k.(channel := k.channel + [s])), queues := OnlyQueue([], stored),
                     subs := st.subs[s := SUB.(frame := Some(Msg(m.ref, MESSAGE_2)), at := Channel)]))
  {
    QIsQueue();
    SubscriptionSet(m);
    hide IsQueue, ForSubscription, Find;
    OnlyUpdate(k, k.(channel := k.channel + [s]));
    QueueUpdate(st, [], stored);
    assert st.requests[1..] == rest && ([m] + stored)[1..] == stored;
    assert Queues.Subscribe(QueueOf(st, Q), s) == Queues.Effect(Queues.Queue([], stored), Some(Queues.Handed(s, m)));
  }

  lemma SubscriptionSet(m: Msg)
    requires m.frame == MESSAGE_1
    ensures ForSubscription(m, "a") == Msg(m.ref, MESSAGE_2)
  {
    SubscriptionIsSet();
  }

  // ---------------------------------------------------------------- the run

  const KA := Hears(IDLE, SEND_FRAME)
  const A1 := READY.(conns := Only(KA.(outbox := [Enqueue(M0)])), nextRef := 1, entered := map[0 := MESSAGE_1])
  const A2 := A1.(conns := Only(KA), requests := [Request(0, Enqueue(M0))])
  const A3 := A2.(requests := [], queues := OnlyQueue([], [M0]))
  const KB := Hears(KA, SEND_FRAME)
  const B1 := A3.(conns := Only(KB.(outbox := [Enqueue(M1)])), nextRef := 2, entered := map[0 := MESSAGE_1, 1 := MESSAGE_1])
  const B2 := B1.(conns := Only(KB), requests := [Request(0, Enqueue(M1))])
  const B3 := B2.(requests := [], queues := OnlyQueue([], [M0, M1]))

  lemma OneMessageStored()
    ensures Reachable(A3)
  {
    hide Reachable, Step;
    ReachReady();
    Sends(READY, IDLE);
    assert map[][0 := MESSAGE_1] == A1.entered;
    ReachMore(READY, ReceiveFrame(0, SEND_FRAME, true, true), A1);
    Flushes(A1, KA, Enqueue(M0));
    ReachMore(A1, FlushNext(0), A2);
    ServesSend(A2, M0, []);
    assert [] + [M0] == [M0];
    ReachMore(A2, ServeNext, A3);
  }

  lemma TwoMessagesStored()
    ensures Reachable(B3)
  {
    hide Reachable, Step;
    OneMessageStored();
    Sends(A3, KA);
    assert A3.entered[1 := MESSAGE_1] == B1.entered;
    ReachMore(A3, ReceiveFrame(0, SEND_FRAME, true, true), B1);
    Flushes(B1, KB, Enqueue(M1));
    ReachMore(B1, FlushNext(0), B2);
    ServesSend(B2, M1, [M0]);
    assert [M0] + [M1] == [M0, M1];
    ReachMore(B2, ServeNext, B3);
  }

  lemma ReachReady()
    ensures Reachable(READY)
  {
    hide Step;
    Connects();
    Arrives([START, FRESH, GREETED, GREETING, READY], CONNECT_EVENTS);
  }

  const KC := Hears(KB, SUBSCRIBE_AUTO).(subs := map["a" := 0])
  const C1 := B3.(conns := Only(KC.(outbox := [Subscribe(0)])), subs := map[0 := SUB], nextSub := 1)
  const C2 := C1.(conns := Only(KC), subs := map[0 := SUB.(at := Requested)], requests := [Request(0, Subscribe(0))])
  const FIRST := SUB.(frame := Some(HELD_0), at := Channel)
  const C3 := C2.(conns := Only(KC.(channel := [0])), subs := map[0 := FIRST], requests := [], queues := OnlyQueue([], [M1]))
  const KD := Hears(KC, UNSUBSCRIBE_FRAME).(channel := [0], subs := map[])
  const D1 := C3.(conns := Only(KD.(outbox := [Unsubscribe(0)])))
  const D2 := D1.(conns := Only(KD), requests := [Request(0, Unsubscribe(0))])
  const D3 := D2.(requests := [])

  lemma FirstEnded()
    ensures Reachable(D3)
  {
    hide Reachable, Step;
    TwoMessagesStored();
    SubscribesAgain(B3, KB);
    assert map[][0 := SUB] == C1.subs;
    ReachMore(B3, ReceiveFrame(0, SUBSCRIBE_AUTO, true, true), C1);
    Flushes(C1, KC, Subscribe(0));
    assert C1.subs[0 := SUB.(at := Requested)] == C2.subs;
    ReachMore(C1, FlushNext(0), C2);
    assert [M0] + [M1] == [M0, M1] && [] + [0] == [0];
    assert [Request(0, Subscribe(0))] + [] == [Request(0, Subscribe(0))];
    ServesSubscribe(C2, KC, 0, M0, [M1], []);
    assert C2.subs[0 := FIRST] == C3.subs;
    ReachMore(C2, ServeNext, C3);
    Unsubscribes(C3, KC.(channel := [0]), 0);
    ReachMore(C3, ReceiveFrame(0, UNSUBSCRIBE_FRAME, true, true), D1);
    Flushes(D1, KD, Unsubscribe(0));
    ReachMore(D1, FlushNext(0), D2);
    ServesUnsubscribe(D2, 0);
    ReachMore(D2, ServeNext, D3);
  }

  const KE := Hears(KD, SUBSCRIBE_AUTO).(subs := map["a" := 1])
  const E1 := D3.(conns := Only(KE.(outbox := [Subscribe(1)])), subs := Two(FIRST, SUB), nextSub := 2)
  const E2 := E1.(conns := Only(KE), subs := Two(FIRST, SUB.(at := Requested)), requests := [Request(0, Subscribe(1))])
  const SECOND := SUB.(frame := Some(HELD_1), at := Channel)
  const KE3 := KE.(channel := [0, 1])
  const E3 := E2.(conns := Only(KE3), subs := Two(FIRST, SECOND), requests := [], queues := OnlyQueue([], []))

  lemma SecondStarts()
    ensures Reachable(E2)
  {
    hide Reachable, Step;
    FirstEnded();
    SubscribesAgain(D3, KD);
    assert D3.subs[1 := SUB] == E1.subs;
    ReachMore(D3, ReceiveFrame(0, SUBSCRIBE_AUTO, true, true), E1);
    Flushes(E1, KE, Subscribe(1));
    assert E1.subs[1 := SUB.(at := Requested)] == E2.subs;
    ReachMore(E1, FlushNext(0), E2);
  }

  lemma SecondHolds()
    ensures Reachable(E3)
  {
    hide Reachable, Step;
    SecondStarts();
    assert [M1] + [] == [M1] && [0] + [1] == [0, 1];
    assert [Request(0, Subscribe(1))] + [] == [Request(0, Subscribe(1))];
    ServesSubscribe(E2, KE, 1, M1, [], []);
    assert E2.subs[1 := SECOND] == E3.subs;
    ReachMore(E2, ServeNext, E3);
  }

  const AUTO_MESSAGE := Frame("MESSAGE", [Entry("destination", "/queue/q"), Entry("subscription", "a"),
                                          Entry("message-id", "1"), Entry("id", "1")], "")

  lemma StampsAuto()
    ensures Stamp(MESSAGE_2, 1, true) == AUTO_MESSAGE && NextMsgId(0, MESSAGE_2) == 1 && NextMsgId(0, AUTO_MESSAGE) == 1
  {
    var h := MESSAGE_2.header;
    assert h[1..] == [Entry("subscription", "a")] && h[1..][1..] == [];
    assert FormatDecimal(1) == "1";
    var h1 := h + [Entry("message-id", "1")];
    var h2 := h1 + [Entry("id", "1")];
    assert Find(h, "message-id") == None && Find(h, "id") == None && Find(h, "ack") == None;
    PutLast(h, "message-id", "1");
    FindAfterPut(h, "message-id", "1", "id");
    FindAfterPut(h, "message-id", "1", "ack");
    PutLast(h1, "id", "1");
    FindAfterPut(h1, "id", "1", "ack");
    DropAbsent(h2, "ack");
    assert h2 == AUTO_MESSAGE.header;
  }

  const KF := KE3.(channel := [1], lastMsgId := 1, sent := KE3.sent + [Sent(AUTO_MESSAGE, Some(Delivery(0, 0)))])
  const F1 := E3.(conns := Only(KF.(outbox := [Subscribe(0)])), subs := Two(SUB, SECOND), written := multiset{0}, revived := {0})
  const F2 := F1.(conns := Only(KF), subs := Two(SUB.(at := Requested), SECOND), requests := [Request(0, Subscribe(0))])
  const WAITS := SUB.(listed := true, at := Waiting)
  const F3 := F2.(subs := Two(WAITS, SECOND), requests := [], queues := OnlyQueue([0], []))

  /** A delivery to a subscription in auto mode whose id now names another subscription. */
  lemma DeliversRevived(st: System, k: Conn, s: SubId, s': SubId, rest: seq<SubId>)
    requires st.conns == Only(k) && k.phase == Running && k.outbox == [] && k.lastMsgId == 0
    requires k.channel == [s] + rest && k.subs == map["a" := s'] && s' != s && st.revived == {} && st.written == multiset{}
    requires s in st.subs && st.subs[s] == SUB.(frame := Some(HELD_0), at := Channel)
    ensures Step(st, DeliverNext(0, true)) ==
            Next(st.(conns := Only(k.(channel := rest, lastMsgId := 1, sent := k.sent + [Sent(AUTO_MESSAGE, Some(Delivery(s, 0)))], outbox := [Subscribe(s)])),
                     subs := st.subs[s := SUB], written := multiset{0}, revived := {s}))
  {
    StampsAuto();
    hide Stamp, NextMsgId;
    var k' := k.(channel := rest, lastMsgId := 1, sent := k.sent + [Sent(AUTO_MESSAGE, Some(Delivery(s, 0)))], outbox := [Subscribe(s)]);
    OnlyUpdate(k, k');
    assert k.channel[1..] == rest && k.outbox + [Subscribe(s)] == [Subscribe(s)];
    assert st.subs[s].(frame := None, at := Outbox) == SUB;
  }

  lemma Revives()
    ensures Step(E3, DeliverNext(0, true)) == Next(F1)
  {
    hide Step;
    assert [0] + [1] == [0, 1];
    DeliversRevived(E3, KE3, 0, 1, [1]);
    TwoFirst(FIRST, SECOND, SUB);
  }

  /** A SubscribeOp waits when nothing is stored. */
  lemma ServesWaiting(st: System, s: SubId)
    requires st.requests == [Request(0, Subscribe(s))] && 0 in st.conns && st.queues == OnlyQueue([], [])
    requires s in st.subs && st.subs[s] == SUB.(at := Requested)
    ensures Step(st, ServeNext) == Next(st.(requests := [], subs := st.subs[s := WAITS], queues := OnlyQueue([s], [])))
  {
    QIsQueue();
    hide IsQueue;
    QueueUpdate(st, [s], []);
    assert st.requests[1..] == [] && [] + [s] == [s];
    assert Queues.Subscribe(QueueOf(st, Q), s) == Queues.Effect(Queues.Queue([s], []), None);
  }

  lemma WaitsAgain()
    ensures Step(F2, ServeNext) == Next(F3)
  {
    hide Step;
    ServesWaiting(F2, 0);
    TwoFirst(SUB.(at := Requested), SECOND, WAITS);
  }

  lemma SubscribesRevived()
    ensures Step(F1, FlushNext(0)) == Next(F2)
  {
    hide Step;
    Flushes(F1, KF, Subscribe(0));
    TwoFirst(SUB, SECOND, SUB.(at := Requested));
  }

  lemma RevivedWaits()
    ensures Reachable(F3)
  {
    hide Reachable, Step;
    SecondHolds();
    Revives();
    SubscribesRevived();
    WaitsAgain();
    ReachMore(E3, DeliverNext(0, true), F1);
    ReachMore(F1, FlushNext(0), F2);
    ReachMore(F2, ServeNext, F3);
  }

  const KG := KF.(phase := Unsubscribing)
  const G1 := F3.(conns := Only(KG))
  const KG2 := KG.(subs := map[])
  const G2 := G1.(conns := Only(KG2.(outbox := [Unsubscribe(1)])))
  const G3 := G2.(conns := Only(KG2), requests := [Request(0, Unsubscribe(1))])
  const G4 := G3.(requests := [])
  const G5 := G4.(conns := Only(KG2.(phase := Requeuing)))
  const G6 := G4.(conns := Only(KG2.(phase := Draining)))
  const KG7 := KG2.(phase := Draining, channel := [])
  const G7 := G4.(conns := Only(KG7.(outbox := [Requeue(HELD_1, true)])), subs := Two(WAITS, SECOND.(at := Gone)))
  const G8 := G7.(conns := Only(KG7), requests := [Request(0, Requeue(HELD_1, true))])

  lemma Closes()
    ensures Step(F3, ReadClosed(0)) == Next(G1)
  {
    OnlyUpdate(KF, KG);
  }

  /** A step of the cleanup of connection 0, which is in this phase. */
  lemma EndsOne(st: System, k: Conn, s: SubId)
    requires st.conns == Only(k) && k.phase == Unsubscribing && k.outbox == [] && k.subs == map["a" := s]
    ensures Step(st, Close(0, "a")) == Next(st.(conns := Only(k.(subs := map[], outbox := [Unsubscribe(s)]))))
  {
    OnlyUpdate(k, k.(subs := map[], outbox := [Unsubscribe(s)]));
    assert k.subs - {"a"} == map[] && k.outbox + [Unsubscribe(s)] == [Unsubscribe(s)];
  }

  lemma EndsUnsubscribing(st: System, k: Conn)
    requires st.conns == Only(k) && k.phase == Unsubscribing && k.outbox == [] && k.subs == map[]
    ensures Step(st, Close(0, "a")) == Next(st.(conns := Only(k.(phase := Requeuing))))
  {
    OnlyUpdate(k, k.(phase := Requeuing));
  }

  lemma EndsRequeuing(st: System, k: Conn)
    requires st.conns == Only(k) && k.phase == Requeuing && k.outbox == [] && k.pending == [] && k.writes == []
    ensures Step(st, Close(0, "a")) == Next(st.(conns := Only(k.(phase := Draining))))
  {
    OnlyUpdate(k, k.(phase := Draining));
  }

  lemma Drains(st: System, k: Conn, s: SubId, m: Msg)
    requires st.conns == Only(k) && k.phase == Draining && k.outbox == [] && k.channel == [s]
    requires Known(st, s) && st.subs[s].frame == Some(m)
    ensures Step(st, Close(0, "a")) ==
            Next(st.(conns := Only(k.(channel := [], outbox := [Requeue(m, true)])), subs := st.subs[s := st.subs[s].(at := Gone)]))
  {
    OnlyUpdate(k, k.(channel := [], outbox := [Requeue(m, true)]));
    assert [s][1..] == [] && k.outbox + [Requeue(m, true)] == [Requeue(m, true)];
  }

  lemma Unsubscribed()
    ensures Reachable(G4)
  {
    hide Reachable, Step;
    RevivedWaits();
    Closes();
    ReachMore(F3, ReadClosed(0), G1);
    EndsOne(G1, KG, 1);
    ReachMore(G1, Close(0, "a"), G2);
    Flushes(G2, KG2, Unsubscribe(1));
    ReachMore(G2, FlushNext(0), G3);
    ServesUnsubscribe(G3, 1);
    ReachMore(G3, ServeNext, G4);
  }

  lemma IsDraining()
    ensures Reachable(G6)
  {
    hide Reachable, Step;
    Unsubscribed();
    EndsUnsubscribing(G4, KG2);
    ReachMore(G4, Close(0, "a"), G5);
    EndsRequeuing(G5, KG2.(phase := Requeuing));
    ReachMore(G5, Close(0, "a"), G6);
  }

  lemma GivesBack()
    ensures Reachable(G8)
  {
    hide Reachable, Step;
    IsDraining();
    Drains(G6, KG2.(phase := Draining), 1, HELD_1);
    assert G6.subs[1 := SECOND.(at := Gone)] == G7.subs;
    ReachMore(G6, Close(0, "a"), G7);
    Flushes(G7, KG7, Requeue(HELD_1, true));
    ReachMore(G7, FlushNext(0), G8);
  }

  /** A frame given back goes to the subscription that waits. */
  lemma ServesRequeue(st: System, k: Conn, s: SubId, m: Msg)
    requires st.requests == [Request(0, Requeue(m, true))] && st.conns == Only(k) && k.channel == [] && m.frame == MESSAGE_2
    requires st.queues == OnlyQueue([s], []) && s in st.subs && st.subs[s].conn == 0 && st.subs[s].frame.None?
    ensures Serve(st).Next? && s in Serve(st).st.subs && Serve(st).st.subs[s].frame.Some? && Serve(st).st.subs[s].frame.value.ref == m.ref
  {
    QIsQueue();
    hide IsQueue, Find, Destination, ForSubscription;
    ForSubscriptionKeepsRef(m, st.subs[s].id);
    assert QueueOf(st, Q) == Queues.Queue([s], []);
    assert Queues.Requeue(QueueOf(st, Q), m).handed == Some(Queues.Handed(s, m));
  }

  lemma HandsBack()
    ensures Serve(G8).Next? && 0 in Serve(G8).st.subs && Serve(G8).st.subs[0].frame.Some? && Serve(G8).st.subs[0].frame.value.ref == 1
  {
    hide Serve;
    ServesRequeue(G8, KG7, 0, HELD_1);
  }

  lemma ForSubscriptionKeepsRef(m: Msg, id: string)
    ensures ForSubscription(m, id).ref == m.ref
  {
  }

  /** The next request is a frame given back by the cleanup of connection c, and serving it hands that frame to a
      revived subscription s of the same connection. */
  predicate OwnFrameBack(st: System, c: ConnId, s: SubId) {
    && st.requests != [] && st.requests[0].from == c && st.requests[0].op.Requeue? && st.requests[0].op.closing
    && s in st.subs && st.subs[s].conn == c && s in st.revived
    && Serve(st).Next? && s in Serve(st).st.subs && Serve(st).st.subs[s].frame.Some?
    && Serve(st).st.subs[s].frame.value.ref == st.requests[0].op.m.ref
  }

  lemma RevivedGetsItsMessageBack()
    ensures exists st, c, s :: Reachable(st) && OwnFrameBack(st, c, s)
  {
    hide Reachable, Step, Serve;
    GivesBack();
    HandsBack();
    assert OwnFrameBack(G8, 0, 0);
  }
}
