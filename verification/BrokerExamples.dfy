/** Runs that show what the broker does not promise. In each of them one client, connection 0, talks to
    a server that has just started. */
module BrokerExamples {
  import opened Text
  import opened Frames
  import opened Broker
  import opened BrokerAcks
  import opened BrokerTheorems
  import Queues

  lemma Arrives(states: seq<System>, events: seq<Event>)
    requires Path(states, events) && states[0] == START
    ensures Reachable(states[|events|])
  {
    hide Path;
    assert Path(states, events);
  }

  const CONNECT_FRAME := Frame("CONNECT", [], "")

  /** Nothing checks the ack mode of a SUBSCRIBE. */
  function SubscribeFrame(ack: string): Frame {
    Frame("SUBSCRIBE", [Entry("id", "a"), Entry("destination", "/queue/q"), Entry("ack", ack)], "")
  }

  const SEND_FRAME := Frame("SEND", [Entry("destination", "/queue/q")], "")
  const ACK_FRAME := Frame("ACK", [Entry("ack", "1")], "")
  const LOST_SEND := Frame("SEND", [], "")
  const CONNECTED_FRAME := Frame("CONNECTED", [Entry("server", "stompd/x.y.z")], "")

  function Only(k: Conn): map<ConnId, Conn> {
    map[0 := k]
  }

  lemma OnlyUpdate(k: Conn, k': Conn)
    ensures Only(k)[0 := k'] == Only(k')
  {
  }

  // ---------------------------------------------------------------- the client connects

  const FRESH := START.(conns := Only(EMPTY_CONN))
  const IDLE := EMPTY_CONN.(phase := Running, sent := [Sent(CONNECTED_FRAME, None)], received := [CONNECT_FRAME])
  const GREETED := START.(conns := Only(IDLE.(outbox := [Connected])))
  const GREETING := START.(conns := Only(IDLE), requests := [Request(0, Connected)])
  const READY := START.(conns := Only(IDLE))

  const CONNECT_EVENTS := [Accept(0), ReceiveFrame(0, CONNECT_FRAME, true, true), FlushNext(0), ServeNext]

  lemma Connects()
    ensures Path([START, FRESH, GREETED, GREETING, READY], CONNECT_EVENTS)
  {
    assert START.conns[0 := EMPTY_CONN] == Only(EMPTY_CONN);
    assert Step(START, Accept(0)) == Next(FRESH);
    assert Step(FRESH, ReceiveFrame(0, CONNECT_FRAME, true, true)) == Next(GREETED) by {
      var k1 := EMPTY_CONN.(received := [CONNECT_FRAME]);
      OnlyUpdate(EMPTY_CONN, k1);
      OnlyUpdate(k1, IDLE.(outbox := [Connected]));
      assert EMPTY_CONN.received + [CONNECT_FRAME] == [CONNECT_FRAME];
      var st1 := START.(conns := Only(k1));
      assert k1.sent + [Sent(CONNECTED_FRAME, None)] == IDLE.sent && k1.outbox + [Connected] == [Connected];
      assert Find(CONNECT_FRAME.header, "receipt") == None;
      assert HandleConnect(st1, 0, CONNECT_FRAME, true) == Done(GREETED);
    }
    assert Step(GREETED, FlushNext(0)) == Next(GREETING) by {
      OnlyUpdate(IDLE.(outbox := [Connected]), IDLE);
      assert [Connected][1..] == [];
    }
    assert Step(GREETING, ServeNext) == Next(READY);
  }

  // ---------------------------------------------------------------- a SEND without a destination

  const LOST := Msg(0, Frame("MESSAGE", [], ""))
  const HEARD := IDLE.(received := [CONNECT_FRAME, LOST_SEND])
  const LOST_1 := READY.(conns := Only(HEARD.(outbox := [Enqueue(LOST)])), nextRef := 1)
  const LOST_2 := READY.(conns := Only(HEARD), requests := [Request(0, Enqueue(LOST))], nextRef := 1)

  lemma SendsLost()
    ensures Step(READY, ReceiveFrame(0, LOST_SEND, true, true)) == Next(LOST_1)
    ensures Step(LOST_1, FlushNext(0)) == Next(LOST_2)
  {
    OnlyUpdate(IDLE, HEARD);
    OnlyUpdate(HEARD, HEARD.(outbox := [Enqueue(LOST)]));
    OnlyUpdate(HEARD.(outbox := [Enqueue(LOST)]), HEARD);
    assert IDLE.received + [LOST_SEND] == HEARD.received;
    assert [Enqueue(LOST)][1..] == [] && HEARD.outbox + [Enqueue(LOST)] == [Enqueue(LOST)];
    assert StripReceipt(LOST_SEND) == LOST_SEND;
    assert !IsQueueFrame(LOST.frame);
    assert SendBody(READY.(conns := Only(HEARD)), 0, LOST_SEND) == Done(LOST_1);
  }

  /** A SEND frame without a destination is accepted, and brings the server down when it is served. */
  lemma LostSendPanics()
    ensures exists st :: Reachable(st) && Step(st, ServeNext) == Crash(MissingDestination)
  {
    hide Step;
    var events := CONNECT_EVENTS + [ReceiveFrame(0, LOST_SEND, true, true), FlushNext(0)];
    Connects();
    SendsLost();
    var states := [START, FRESH, GREETED, GREETING, READY, LOST_1, LOST_2];
    assert Path(states, events);
    assert Reachable(LOST_2) by { Arrives(states, events); }
    assert Step(LOST_2, ServeNext) == Crash(MissingDestination) by { ServesLost(); }
  }

  lemma ServesLost()
    ensures Step(LOST_2, ServeNext) == Crash(MissingDestination)
  {
  }

  // ---------------------------------------------------------------- an acknowledgement

  const MESSAGE_1 := Frame("MESSAGE", [Entry("destination", "/queue/q")], "")
  const MESSAGE_2 := Frame("MESSAGE", [Entry("destination", "/queue/q"), Entry("subscription", "a")], "")
  const MESSAGE_3 := Frame("MESSAGE", [Entry("destination", "/queue/q"), Entry("subscription", "a"),
                                       Entry("message-id", "1"), Entry("id", "1"), Entry("ack", "1")], "")

  function Sub0(ack: string, listed: bool, frame: Option<Msg>, at: Place): map<SubId, Sub> {
    map[0 := Sub(0, "/queue/q", "a", ack, 0, listed, frame, at)]
  }

  lemma Sub0Update(ack: string, l: bool, f: Option<Msg>, a: Place, l': bool, f': Option<Msg>, a': Place)
    ensures Sub0(ack, l, f, a)[0 := Sub(0, "/queue/q", "a", ack, 0, l', f', a')] == Sub0(ack, l', f', a')
  {
  }

  function Told(ack: string): Conn {
    IDLE.(received := [CONNECT_FRAME, SubscribeFrame(ack)], subs := map["a" := 0])
  }

  function Sub1(ack: string): System {
    READY.(conns := Only(Told(ack).(outbox := [Subscribe(0)])), subs := Sub0(ack, false, None, Outbox), nextSub := 1)
  }

  function Sub2(ack: string): System {
    Sub1(ack).(conns := Only(Told(ack)), subs := Sub0(ack, false, None, Requested), requests := [Request(0, Subscribe(0))])
  }

  function Sub3(ack: string): System {
    Sub2(ack).(subs := Sub0(ack, true, None, Waiting), requests := [], queues := map["/queue/q" := Queues.Queue([0], [])])
  }

  lemma Subscribes(ack: string)
    ensures Step(READY, ReceiveFrame(0, SubscribeFrame(ack), true, true)) == Next(Sub1(ack))
    ensures Step(Sub1(ack), FlushNext(0)) == Next(Sub2(ack))
    ensures Step(Sub2(ack), ServeNext) == Next(Sub3(ack))
  {
    SubscribesFirst(ack);
    var k := Told(ack).(outbox := [Subscribe(0)]);
    OnlyUpdate(k, Told(ack));
    assert [Subscribe(0)][1..] == [];
    Sub0Update(ack, false, None, Outbox, false, None, Requested);
    Sub0Update(ack, false, None, Requested, true, None, Waiting);
    assert Sub2(ack).queues["/queue/q" := Queues.Queue([0], [])] == Sub3(ack).queues;
    assert Sub2(ack).requests[1..] == [];
    assert Queues.Subscribe(QueueOf(Sub2(ack), "/queue/q"), 0) == Queues.Effect(Queues.Queue([0], []), None);
  }

  lemma SubscribesFirst(ack: string)
    ensures Step(READY, ReceiveFrame(0, SubscribeFrame(ack), true, true)) == Next(Sub1(ack))
  {
    var k1 := IDLE.(received := [CONNECT_FRAME, SubscribeFrame(ack)]);
    var st1 := READY.(conns := Only(k1));
    OnlyUpdate(IDLE, k1);
    OnlyUpdate(k1, Told(ack).(outbox := [Subscribe(0)]));
    assert IDLE.received + [SubscribeFrame(ack)] == k1.received;
    assert k1.outbox + [Subscribe(0)] == [Subscribe(0)];
    var h := SubscribeFrame(ack).header;
    assert h[1..][0] == Entry("destination", "/queue/q") && h[1..][1..][0] == Entry("ack", ack);
    assert Find(h, "id") == Some("a") && Find(h[1..], "destination") == Some("/queue/q") && Find(h[1..][1..], "ack") == Some(ack);
    assert Find(h, "ack") == Find(h[1..], "ack") == Some(ack);
    assert map[][0 := Sub(0, "/queue/q", "a", ack, 0, false, None, Outbox)] == Sub0(ack, false, None, Outbox);
    assert map[]["a" := 0] == Told(ack).subs;
    assert NewSub(st1, 0, "a", "/queue/q", ack) == Sub1(ack);
    assert HandleSubscribe(st1, 0, SubscribeFrame(ack)) == Done(Sub1(ack));
  }

  const Q := "/queue/q"

  function Sending(ack: string): Conn {
    Told(ack).(received := [CONNECT_FRAME, SubscribeFrame(ack), SEND_FRAME])
  }

  function Send1(ack: string): System {
    Sub3(ack).(conns := Only(Sending(ack).(outbox := [Enqueue(Msg(0, MESSAGE_1))])), nextRef := 1, entered := map[0 := MESSAGE_1])
  }

  function Send2(ack: string): System {
    Send1(ack).(conns := Only(Sending(ack)), requests := [Request(0, Enqueue(Msg(0, MESSAGE_1)))])
  }

  function Send3(ack: string): System {
    Send2(ack).(conns := Only(Sending(ack).(channel := [0])), subs := Sub0(ack, false, Some(Msg(0, MESSAGE_2)), Channel),
                      requests := [], queues := map["/queue/q" := Queues.Queue([], [])])
  }

  lemma SendsFirst(ack: string)
    ensures Step(Sub3(ack), ReceiveFrame(0, SEND_FRAME, true, true)) == Next(Send1(ack))
  {
    var out := [Enqueue(Msg(0, MESSAGE_1))];
    OnlyUpdate(Told(ack), Sending(ack));
    OnlyUpdate(Sending(ack), Sending(ack).(outbox := out));
    assert Told(ack).received + [SEND_FRAME] == Sending(ack).received;
    assert Sending(ack).outbox + out == out;
    var h := SEND_FRAME.header;
    assert h[1..] == [];
    assert Find(h, "receipt") == None && Find(h, "transaction") == None && Find(h, "destination") == Some(Q);
    DropAbsent(h, "receipt");
    assert StripReceipt(SEND_FRAME) == SEND_FRAME;
    assert "/queue" <= Q;
    assert IsQueueFrame(MESSAGE_1);
    assert map[][0 := MESSAGE_1] == Send1(ack).entered;
    assert SendBody(Sub3(ack).(conns := Only(Sending(ack))), 0, SEND_FRAME) == Done(Send1(ack));
  }

  lemma SendsFlush(ack: string)
    ensures Step(Send1(ack), FlushNext(0)) == Next(Send2(ack))
  {
    var out := [Enqueue(Msg(0, MESSAGE_1))];
    OnlyUpdate(Sending(ack).(outbox := out), Sending(ack));
    assert out[1..] == [];
  }

  lemma SubscriptionIsSet()
    ensures ForSubscription(Msg(0, MESSAGE_1), "a") == Msg(0, MESSAGE_2)
    ensures Find(MESSAGE_1.header, "destination") == Some(Q) && "/queue" <= Q
  {
    var h := MESSAGE_1.header;
    assert h[1..] == [] && Put([], "subscription", "a") == [Entry("subscription", "a")];
    assert Put(h, "subscription", "a") == [h[0]] + Put(h[1..], "subscription", "a") == MESSAGE_2.header;
  }

  lemma SendsServe(ack: string)
    ensures Step(Send2(ack), ServeNext) == Next(Send3(ack))
  {
    SubscriptionIsSet();
    hide ForSubscription, Find;
    OnlyUpdate(Sending(ack), Sending(ack).(channel := [0]));
    assert Send2(ack).queues[Q := Queues.Queue([], [])] == Send3(ack).queues;
    assert Send2(ack).requests[1..] == [] && [0][1..] == [] && Sending(ack).channel + [0] == [0];
    Sub0Update(ack, true, None, Waiting, false, Some(Msg(0, MESSAGE_2)), Channel);
    assert Queues.Enqueue(QueueOf(Send2(ack), Q), Msg(0, MESSAGE_1)).queue == Queues.Queue([], []);
    assert PushToChannel(WithQueue(PopRequest(Send2(ack)), Q, Queues.Queue([], [])), 0, Msg(0, MESSAGE_1), false) == Send3(ack);
  }

  function Delivered(ack: string): Conn {
    Sending(ack).(pending := [0], lastMsgId := 1, sent := [Sent(CONNECTED_FRAME, None), Sent(MESSAGE_3, Some(Delivery(0, 0)))])
  }

  function Send4(ack: string): System {
    Send3(ack).(conns := Only(Delivered(ack)), subs := Sub0(ack, true, Some(Msg(0, MESSAGE_3)), Pending))
  }

  lemma {:induction false} PutLast(h: seq<Entry>, k: string, v: string)
    requires Find(h, k) == None
    ensures Put(h, k, v) == h + [Entry(k, v)]
  {
    if h != [] {
      PutLast(h[1..], k, v);
    }
  }

  lemma Stamps()
    ensures Stamp(MESSAGE_2, 1, false) == MESSAGE_3 && NextMsgId(0, MESSAGE_2) == 1 && NextMsgId(0, MESSAGE_3) == 1
  {
    var h := MESSAGE_2.header;
    assert h[1..] == [Entry("subscription", "a")] && h[1..][1..] == [];
    assert FormatDecimal(1) == "1";
    var h1 := h + [Entry("message-id", "1")];
    var h2 := h1 + [Entry("id", "1")];
    assert Find(h, "message-id") == None && Find(h, "id") == None && Find(h, "ack") == None;
    PutLast(h, "message-id", "1");
    FindAfterPut(h, "message-id", "1", "id");
    FindAfterPut(h, "message-id", "1", "ack");
    PutLast(h1, "id", "1");
    FindAfterPut(h1, "id", "1", "ack");
    PutLast(h2, "ack", "1");
    assert h2 + [Entry("ack", "1")] == MESSAGE_3.header;
  }

  lemma Delivers(ack: string)
    requires ack != "auto"
    ensures Step(Send3(ack), DeliverNext(0, true)) == Next(Send4(ack))
  {
    Stamps();
    hide Stamp, NextMsgId;
    OnlyUpdate(Sending(ack).(channel := [0]), Delivered(ack));
    Sub0Update(ack, false, Some(Msg(0, MESSAGE_2)), Channel, true, Some(Msg(0, MESSAGE_3)), Pending);
    assert [0][1..] == [] && Sending(ack).pending + [0] == [0];
    assert Sending(ack).sent + [Sent(MESSAGE_3, Some(Delivery(0, 0)))] == Delivered(ack).sent;
    assert Deliver(Send3(ack), 0, true) == Next(Send4(ack));
  }

  function Acking(ack: string): Conn {
    Delivered(ack).(pending := [], received := [CONNECT_FRAME, SubscribeFrame(ack), SEND_FRAME, ACK_FRAME])
  }

  function Ack1(ack: string): System {
    Send4(ack).(conns := Only(Acking(ack).(outbox := [Subscribe(0)])), subs := Sub0(ack, true, None, Outbox),
                     acked := multiset{0}, matched := {0})
  }

  function Ack2(ack: string): System {
    Ack1(ack).(conns := Only(Acking(ack)), subs := Sub0(ack, true, None, Requested), requests := [Request(0, Subscribe(0))])
  }

  function Acking0(ack: string): Conn {
    Acking(ack).(pending := [0])
  }

  function Ack0(ack: string): System {
    Send4(ack).(conns := Only(Acking0(ack)))
  }

  lemma AckSettles(ack: string)
    requires ack == "client"
    ensures Settle(Ack0(ack), 0, 1, 0, false) == Done(Ack1(ack))
  {
    hide Sub0;
    OnlyUpdate(Acking0(ack), Acking(ack).(outbox := [Subscribe(0)]));
    Sub0Is(ack, true, Some(Msg(0, MESSAGE_3)), Pending);
    Sub0Update(ack, true, Some(Msg(0, MESSAGE_3)), Pending, true, None, Outbox);
    assert Acking0(ack).outbox + [] + [Subscribe(0)] == [Subscribe(0)] && [0][..0] + [0][1..] == [];
    assert SettleAt(Ack0(ack), 0, 0, false) == Ack1(ack);
    assert Settle(Ack1(ack), 0, 1, 0, false) == Done(Ack1(ack));
  }

  lemma Sub0Is(ack: string, l: bool, f: Option<Msg>, a: Place)
    ensures 0 in Sub0(ack, l, f, a) && Sub0(ack, l, f, a)[0] == Sub(0, "/queue/q", "a", ack, 0, l, f, a)
  {
  }

  lemma AckIsOne()
    ensures Find(ACK_FRAME.header, "receipt") == None && Find(ACK_FRAME.header, "transaction") == None && AckId(ACK_FRAME) == Some("1")
    ensures StripReceipt(ACK_FRAME) == ACK_FRAME && ParseUint("1", UINT64_LIMIT - 1) == Some(1)
  {
    var h := ACK_FRAME.header;
    assert h[1..] == [];
    DropAbsent(h, "receipt");
    assert FormatDecimal(1) == "1";
    ParseFormat(1, UINT64_LIMIT - 1);
  }

  lemma AcksFirst(ack: string)
    requires ack == "client"
    ensures Step(Send4(ack), ReceiveFrame(0, ACK_FRAME, true, true)) == Next(Ack1(ack))
  {
    hide HandleAck, HandleTx, HandleSubscribe, HandleUnsubscribe, SendBody, ReceiptFails, Receipt, StripReceipt, HandleCommit;
    OnlyUpdate(Delivered(ack), Acking0(ack));
    assert Delivered(ack).received + [ACK_FRAME] == Acking(ack).received;
    AckHandled(ack);
  }

  lemma AckHandled(ack: string)
    requires ack == "client"
    ensures HandleAck(Ack0(ack), 0, ACK_FRAME, true, false) == Done(Ack1(ack))
  {
    hide Find, Settle, StripReceipt, ParseUint, AckId;
    AckIsOne();
    AckSettles(ack);
  }

  lemma AcksNext(ack: string)
    requires ack == "client"
    ensures Step(Ack1(ack), FlushNext(0)) == Next(Ack2(ack))
    ensures Step(Ack2(ack), ServeNext) == Crash(AlreadyListed(0))
  {
    OnlyUpdate(Acking(ack).(outbox := [Subscribe(0)]), Acking(ack));
    Sub0Update(ack, true, None, Outbox, true, None, Requested);
    assert [Subscribe(0)][1..] == [];
    assert "/queue" <= Q;
    assert QueueOf(Ack2(ack), Q).stored == [];
  }

  function EventsToSend3(ack: string): seq<Event> {
    CONNECT_EVENTS + [ReceiveFrame(0, SubscribeFrame(ack), true, true), FlushNext(0), ServeNext,
                      ReceiveFrame(0, SEND_FRAME, true, true), FlushNext(0), ServeNext]
  }

  function StatesToSend3(ack: string): seq<System> {
    [START, FRESH, GREETED, GREETING, READY, Sub1(ack), Sub2(ack), Sub3(ack), Send1(ack), Send2(ack), Send3(ack)]
  }

  lemma ReachSend3(ack: string)
    ensures Path(StatesToSend3(ack), EventsToSend3(ack)) && Reachable(Send3(ack))
  {
    hide Step;
    Connects();
    Subscribes(ack);
    SendsFirst(ack);
    SendsFlush(ack);
    SendsServe(ack);
    Arrives(StatesToSend3(ack), EventsToSend3(ack));
  }

  /** One more event. */
  lemma ReachMore(st: System, e: Event, st': System)
    requires Reachable(st) && Step(st, e) == Next(st')
    ensures Reachable(st')
  {
    hide Step;
    var states, events :| Path(states, events) && states[0] == START && states[|events|] == st;
    var states', events' := states + [st'], events + [e];
    forall i | 0 <= i < |events'| ensures Step(states'[i], events'[i]) == Next(states'[i + 1]) {
      if i < |events| { assert Step(states[i], events[i]) == Next(states[i + 1]); }
    }
    Arrives(states', events');
  }

  lemma ReachSend4(ack: string)
    requires ack != "auto"
    ensures Reachable(Send4(ack))
  {
    hide Reachable, Step;
    ReachSend3(ack);
    Delivers(ack);
    ReachMore(Send3(ack), DeliverNext(0, true), Send4(ack));
  }

  /** One client that subscribes in client mode, receives one message and acknowledges it brings the server down. */
  lemma AcknowledgingPanics()
    ensures exists st :: Reachable(st) && Step(st, ServeNext) == Crash(AlreadyListed(0))
  {
    hide Reachable, Step;
    ReachSend4("client");
    AcksFirst("client");
    AcksNext("client");
    ReachMore(Send4("client"), ReceiveFrame(0, ACK_FRAME, true, true), Ack1("client"));
    ReachMore(Ack1("client"), FlushNext(0), Ack2("client"));
  }

  // ---------------------------------------------------------------- an invalid ack mode

  lemma InvalidAckPanics(ack: string)
    requires !ValidAck(ack)
    ensures Step(Send4(ack), ReceiveFrame(0, ACK_FRAME, true, true)) == Crash(InvalidAckMode(0))
  {
    hide HandleTx, HandleSubscribe, HandleUnsubscribe, SendBody, HandleCommit, Find, ParseUint, AckId, StripReceipt, IsAckedBy;
    OnlyUpdate(Delivered(ack), Acking0(ack));
    assert Delivered(ack).received + [ACK_FRAME] == Acking(ack).received;
    AckIsOne();
    Sub0Is(ack, true, Some(Msg(0, MESSAGE_3)), Pending);
    assert Settle(Ack0(ack), 0, 1, 0, false) == Crashed(InvalidAckMode(0));
    assert HandleAck(Ack0(ack), 0, ACK_FRAME, true, false) == Crashed(InvalidAckMode(0));
  }

  /** For every invalid ack mode, a subscriber with that mode that acknowledges one message brings the server down. */
  lemma InvalidModePanics(ack: string)
    requires !ValidAck(ack)
    ensures exists st :: Reachable(st) && Step(st, ReceiveFrame(0, ACK_FRAME, true, true)) == Crash(InvalidAckMode(0))
  {
    hide Reachable, Step;
    ReachSend4(ack);
    InvalidAckPanics(ack);
  }

  const BEGIN_FRAME := Frame("BEGIN", [Entry("transaction", "t")], "")
  const ACK_LATER := Frame("ACK", [Entry("ack", "1"), Entry("transaction", "t")], "")
  const COMMIT_FRAME := Frame("COMMIT", [Entry("transaction", "t")], "")

  function Beginning(ack: string): Conn {
    Delivered(ack).(received := [CONNECT_FRAME, SubscribeFrame(ack), SEND_FRAME, BEGIN_FRAME], txs := map["t" := []])
  }

  function Begun(ack: string): System {
    Send4(ack).(conns := Only(Beginning(ack)))
  }

  function Storing(ack: string): Conn {
    Beginning(ack).(received := [CONNECT_FRAME, SubscribeFrame(ack), SEND_FRAME, BEGIN_FRAME, ACK_LATER], txs := map["t" := [ACK_FRAME]])
  }

  function Stored(ack: string): System {
    Begun(ack).(conns := Only(Storing(ack)))
  }

  lemma BeginIsOne()
    ensures Find(BEGIN_FRAME.header, "receipt") == None && Find(BEGIN_FRAME.header, "transaction") == Some("t")
  {
    assert BEGIN_FRAME.header[1..] == [];
  }

  lemma Begins(ack: string)
    ensures Step(Send4(ack), ReceiveFrame(0, BEGIN_FRAME, true, true)) == Next(Begun(ack))
  {
    hide Find, HandleAck, HandleSubscribe, HandleUnsubscribe, SendBody, HandleCommit, StripReceipt;
    BeginIsOne();
    var k1 := Delivered(ack).(received := Beginning(ack).received);
    OnlyUpdate(Delivered(ack), k1);
    OnlyUpdate(k1, Beginning(ack));
    assert Delivered(ack).received + [BEGIN_FRAME] == Beginning(ack).received;
    assert map[]["t" := []] == Beginning(ack).txs;
    assert HandleTx(Send4(ack).(conns := Only(k1)), 0, BEGIN_FRAME, true) == Done(Begun(ack));
  }

  lemma LaterIsOne()
    ensures Find(ACK_LATER.header, "receipt") == None && Find(ACK_LATER.header, "transaction") == Some("t") && AckId(ACK_LATER) == Some("1")
    ensures StripReceipt(ACK_LATER) == ACK_LATER && Drop(ACK_LATER.header, "transaction") == ACK_FRAME.header
  {
    var h := ACK_LATER.header;
    assert h[1..] == [Entry("transaction", "t")] && h[1..][1..] == [];
    assert Find(h, "receipt") == Find(h[1..], "receipt") == Find([], "receipt") == None;
    assert Find(h, "transaction") == Find(h[1..], "transaction") == Some("t");
    DropAbsent(h, "receipt");
    assert Drop(h, "transaction") == [h[0]] + Drop(h[1..], "transaction") == [h[0]] + Drop([], "transaction") == [h[0]];
  }

  lemma Stores(ack: string)
    ensures Step(Begun(ack), ReceiveFrame(0, ACK_LATER, true, true)) == Next(Stored(ack))
  {
    hide Find, HandleTx, HandleSubscribe, HandleUnsubscribe, SendBody, HandleCommit, StripReceipt, AckId, ParseUint, Drop;
    AckIsOne();
    LaterIsOne();
    var k1 := Beginning(ack).(received := Storing(ack).received);
    OnlyUpdate(Beginning(ack), k1);
    OnlyUpdate(k1, Storing(ack));
    assert Beginning(ack).received + [ACK_LATER] == Storing(ack).received;
    assert [] + [ACK_FRAME] == [ACK_FRAME] && k1.txs["t" := [ACK_FRAME]] == Storing(ack).txs;
    assert HandleAck(Begun(ack).(conns := Only(k1)), 0, ACK_LATER, true, false) == Done(Stored(ack));
  }

  lemma CommitIsBad(ack: string)
    requires !ValidAck(ack)
    ensures PendingOk(Stored(ack), 0) && Bad(Stored(ack), 0, [ACK_FRAME], 0, 0)
    ensures Find(COMMIT_FRAME.header, "transaction") == Some("t") && !ReceiptFails(COMMIT_FRAME, true)
  {
    hide ValidAck;
    assert COMMIT_FRAME.header[1..] == [];
  }

  /** For every invalid ack mode, so does a COMMIT of its acknowledgement; Bad is what CommitsAreAtomic says it is. */
  lemma InvalidModeCommitPanics(ack: string)
    requires !ValidAck(ack)
    ensures exists st :: Reachable(st) && 0 in st.conns && "t" in st.conns[0].txs && PendingOk(st, 0)
                         && Bad(st, 0, st.conns[0].txs["t"], 0, 0) && HandleCommit(st, 0, COMMIT_FRAME, true).Crashed?
  {
    hide Reachable, Step, Bad, PendingOk, HandleCommit, Find, ReceiptFails;
    ReachSend4(ack);
    Begins(ack);
    Stores(ack);
    ReachMore(Send4(ack), ReceiveFrame(0, BEGIN_FRAME, true, true), Begun(ack));
    ReachMore(Begun(ack), ReceiveFrame(0, ACK_LATER, true, true), Stored(ack));
    CommitIsBad(ack);
    CommitsAreAtomic(Stored(ack), 0, COMMIT_FRAME, true, "t");
    assert Bad(Stored(ack), 0, Stored(ack).conns[0].txs["t"], 0, 0);
  }

  // ---------------------------------------------------------------- a failed write

  /** A delivery whose write fails loses its frame. */
  lemma FailedWriteDrops()
    ensures exists st :: Reachable(st) && 0 in st.conns && st.conns[0].dropped == [0]
  {
    hide Reachable, Step;
    ReachSend3("client");
    DropsOne();
    ReachMore(Send3("client"), DeliverNext(0, false), Step(Send3("client"), DeliverNext(0, false)).st);
  }

  lemma DropsOne()
    ensures var o := Step(Send3("client"), DeliverNext(0, false)); o.Next? && 0 in o.st.conns && o.st.conns[0].dropped == [0]
  {
    hide Stamp, NextMsgId;
  }
}
