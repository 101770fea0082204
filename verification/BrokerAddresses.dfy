/** Every delivery reaches the subscription it was meant for: it is written on the connection of the
    subscription, under the id of the subscription, and was sent to the destination of the subscription. */
module BrokerAddresses {
  import opened Text
  import opened Frames
  import opened Broker
  import opened BrokerTokens
  import opened BrokerFrames
  import opened BrokerConservation
  import opened BrokerCleanup
  import opened BrokerRuns
  import opened BrokerAnswers
  import opened BrokerClients
  import opened BrokerTheorems
  import Queues

  /** A frame that a subscription holds carries its id. */
  predicate HeldRight(subs: map<SubId, Sub>) {
    forall s | s in subs && subs[s].frame.Some? :: Find(subs[s].frame.value.frame.header, "subscription") == Some(subs[s].id)
  }

  predicate SentRight(subs: map<SubId, Sub>, c: ConnId, x: Sent) {
    x.via.Some? ==>
      var s := x.via.value.sub;
      && s in subs && subs[s].conn == c
      && Find(x.frame.header, "subscription") == Some(subs[s].id)
      && Destination(x.frame) == Some(subs[s].dest)
  }

  predicate AllSentRight(subs: map<SubId, Sub>, c: ConnId, sent: seq<Sent>) {
    forall i | 0 <= i < |sent| :: SentRight(subs, c, sent[i])
  }

  predicate Addressed(st: System) {
    HeldRight(st.subs) && forall c | c in st.conns :: AllSentRight(st.subs, c, st.conns[c].sent)
  }

  /** Subscriptions never change their connection, destination or id. */
  predicate SubsStay(subs: map<SubId, Sub>, subs': map<SubId, Sub>) {
    forall s | s in subs :: s in subs' && subs'[s].conn == subs[s].conn && subs'[s].dest == subs[s].dest && subs'[s].id == subs[s].id
  }

  lemma SentStays(subs: map<SubId, Sub>, subs': map<SubId, Sub>, c: ConnId, sent: seq<Sent>)
    requires AllSentRight(subs, c, sent) && SubsStay(subs, subs')
    ensures AllSentRight(subs', c, sent)
  {
    hide Find, Destination;
    forall i | 0 <= i < |sent| ensures SentRight(subs', c, sent[i]) {
      assert SentRight(subs, c, sent[i]);
    }
  }

  lemma SentMore(subs: map<SubId, Sub>, c: ConnId, sent: seq<Sent>, out: seq<Sent>)
    requires AllSentRight(subs, c, sent) && AllSentRight(subs, c, out)
    ensures AllSentRight(subs, c, sent + out)
  {
    hide SentRight;
  }

  // ---------------------------------------------------------------- events of one connection

  lemma LocalHeld(st: System, st': System, c: ConnId)
    requires HeldRight(st.subs) && Local(st, st', c)
    ensures HeldRight(st'.subs) && SubsStay(st.subs, st'.subs)
  {
    hide Find;
  }

  /** Only connection c acted, and what it wrote is right. */
  lemma LocalAddressed(st: System, st': System, c: ConnId)
    requires Addressed(st) && Local(st, st', c) && (c in st'.conns ==> AllSentRight(st'.subs, c, st'.conns[c].sent))
    ensures Addressed(st')
  {
    LocalHeld(st, st', c);
    hide HeldRight, AllSentRight;
    forall e | e in st'.conns && e != c ensures AllSentRight(st'.subs, e, st'.conns[e].sent) {
      SentStays(st.subs, st'.subs, e, st.conns[e].sent);
    }
  }

  /** Frames that are no deliveries need no address. */
  predicate Undelivered(out: seq<Sent>) {
    forall i | 0 <= i < |out| :: out[i].via.None?
  }

  lemma WroteAddressed(st: System, st': System, c: ConnId, out: seq<Sent>)
    requires Addressed(st) && Local(st, st', c) && c in st.conns && c in st'.conns
    requires st'.conns[c].sent == st.conns[c].sent + out && Undelivered(out)
    ensures Addressed(st')
  {
    LocalHeld(st, st', c);
    SentStays(st.subs, st'.subs, c, st.conns[c].sent);
    assert AllSentRight(st'.subs, c, out);
    hide Local, SubsStay, HeldRight, Undelivered, AllSentRight;
    SentMore(st'.subs, c, st.conns[c].sent, out);
    LocalAddressed(st, st', c);
  }

  lemma SilentAddressed(st: System, st': System, c: ConnId)
    requires Addressed(st) && Local(st, st', c) && c in st.conns && c in st'.conns && st'.conns[c].sent == st.conns[c].sent
    ensures Addressed(st')
  {
    hide Addressed, Local;
    assert st.conns[c].sent + [] == st.conns[c].sent;
    WroteAddressed(st, st', c, []);
  }

  lemma RepliesUndelivered(k: Conn, h: Handled, c: ConnId, f: Frame)
    ensures Undelivered(Replies(k, h, c, f))
  {
  }

  lemma ReceiveAddressed(st: System, c: ConnId, f: Frame, io: bool, admit: bool)
    requires Inv(st) && Addressed(st) && InLoop(st, c) && TxOk(st.conns[c].txs) && Receive(st, c, f, io, admit).Next?
    ensures Addressed(Receive(st, c, f, io, admit).st)
  {
    hide Inv, Local, TxOk, Addressed, Replies, Told, Handle, HandleConnect, Undelivered, Receive;
    ReceiveGood(st, c, f, io, admit);
    var st' := Receive(st, c, f, io, admit).st;
    var st0 := Arrived(st, c, f);
    RepliesUndelivered(st0.conns[c], Handle(st0, c, f, io, admit), c, f);
    if st.conns[c].phase == Connecting {
      ConnectSent(st, c, f, io, admit);
      var out := ConnectReplies(st, c, f, admit);
      ConnectUndelivered(st, c, f, admit);
      WroteAddressed(st, st', c, out);
    } else {
      HandleTold(st0, c, f, io, admit);
      RepliesSent(st, c, f, io, admit);
      WroteAddressed(st, st', c, Replies(st0.conns[c], Handle(st0, c, f, io, admit), c, f));
    }
  }

  /** What a CONNECT frame is answered with. */
  function ConnectReplies(st: System, c: ConnId, f: Frame, admit: bool): seq<Sent>
    requires c in st.conns
  {
    match HandleConnect(Arrived(st, c, f), c, f, admit)
    case Failed(_, f', err) => [Sent(ErrorFrame(f', err), None)]
    case _ => [Sent(Frame("CONNECTED", [Entry("server", "stompd/x.y.z")], ""), None)]
  }

  lemma ConnectUndelivered(st: System, c: ConnId, f: Frame, admit: bool)
    requires c in st.conns
    ensures Undelivered(ConnectReplies(st, c, f, admit))
  {
    hide Find;
  }

  lemma ConnectSent(st: System, c: ConnId, f: Frame, io: bool, admit: bool)
    requires c in st.conns && st.conns[c].phase == Connecting && Receive(st, c, f, io, admit).Next?
    ensures var st' := Receive(st, c, f, io, admit).st;
            c in st'.conns && st'.conns[c].sent == st.conns[c].sent + ConnectReplies(st, c, f, admit)
  {
    hide Find, ErrorFrame, HandleCommit, Dispatch;
  }

  lemma DeliverAddressed(st: System, c: ConnId, io: bool)
    requires Inv(st) && Addressed(st) && InLoop(st, c) && st.conns[c].channel != [] && Deliver(st, c, io).Next?
    ensures Addressed(Deliver(st, c, io).st)
  {
    hide Inv, Local, Stamp, NextMsgId, AllSentRight, SentRight, HeldRight, Find;
    DeliverGood(st, c, io);
    var st' := Deliver(st, c, io).st;
    var k, s := st.conns[c], st.conns[c].channel[0];
    ChannelOwner(st, c);
    var m := st.subs[s].frame.value;
    var f := Stamp(m.frame, NextMsgId(k.lastMsgId, m.frame), st.subs[s].ack == "auto");
    LocalHeld(st, st', c);
    SentStays(st.subs, st'.subs, c, k.sent);
    if st.subs[s].id in k.subs {
      DeliveryRight(st, st', c, s, f);
      SentMore(st'.subs, c, k.sent, [Sent(f, Some(Delivery(s, m.ref)))]);
    }
    LocalAddressed(st, st', c);
  }

  lemma DeliveryRight(st: System, st': System, c: ConnId, s: SubId, f: Frame)
    requires Inv(st) && Addressed(st) && s in st.subs && st.subs[s].conn == c && st.subs[s].frame.Some? && SubsStay(st.subs, st'.subs)
    requires exists id, auto :: f == Stamp(st.subs[s].frame.value.frame, id, auto)
    ensures AllSentRight(st'.subs, c, [Sent(f, Some(Delivery(s, st.subs[s].frame.value.ref)))])
  {
    hide Tokens, Ordered, Places, Stamp, Find, AllSentRight, SameMessage, IsQueueFrame;
    var id, auto :| f == Stamp(st.subs[s].frame.value.frame, id, auto);
    StampKeepsSubscription(st.subs[s].frame.value.frame, id, auto);
    StampKeepsMessage(st.subs[s].frame.value.frame, id, auto);
    assert SubFrame(st.entered, st.subs[s]);
    assert SentRight(st'.subs, c, Sent(f, Some(Delivery(s, st.subs[s].frame.value.ref))));
    OneRight(st'.subs, c, Sent(f, Some(Delivery(s, st.subs[s].frame.value.ref))));
  }

  lemma OneRight(subs: map<SubId, Sub>, c: ConnId, x: Sent)
    requires SentRight(subs, c, x)
    ensures AllSentRight(subs, c, [x])
  {
  }

  lemma WriteAddressed(st: System, c: ConnId, io: bool)
    requires Inv(st) && Addressed(st) && InLoop(st, c) && st.conns[c].writes != []
    ensures Addressed(WriteTopicFrame(st, c, io))
  {
    hide Inv, Local, Addressed, Stamp, NextMsgId;
    WriteTopicGood(st, c, io);
    var k := st.conns[c];
    WroteAddressed(st, WriteTopicFrame(st, c, io), c, [Sent(Stamp(k.writes[0], NextMsgId(k.lastMsgId, k.writes[0]), true), None)]);
  }

  // ---------------------------------------------------------------- the processor

  /** The processor gives a frame to a subscription only with the id of that subscription. */
  predicate GivenRight(subs: map<SubId, Sub>, subs': map<SubId, Sub>) {
    && SubsStay(subs, subs')
    && forall s | s in subs' :: s in subs && (subs'[s].frame == subs[s].frame || (subs'[s].frame.Some? && Find(subs'[s].frame.value.frame.header, "subscription") == Some(subs[s].id)))
  }

  lemma GivenRefl(subs: map<SubId, Sub>)
    ensures GivenRight(subs, subs)
  {
  }

  lemma HandedRight(st: System, st': System, s: SubId, m: Msg, listed: bool)
    requires Known(st, s) && st'.subs == st.subs && st'.conns == st.conns && HandOver(st, st', s, m, listed).Next?
    ensures GivenRight(st.subs, HandOver(st, st', s, m, listed).st.subs)
  {
    hide Find;
  }

  lemma SubscribeRight(st: System, s: SubId)
    requires st.requests != [] && Known(st, s) && ServeSubscribe(st, s).Next?
    ensures GivenRight(st.subs, ServeSubscribe(st, s).st.subs)
  {
    hide HandOver, IsQueue, Find;
    var e := Queues.Subscribe(QueueOf(st, st.subs[s].dest), s);
    if IsQueue(st.subs[s].dest) && e.handed.Some? {
      hide GivenRight;
      HandedRight(st, WithQueue(PopRequest(st), st.subs[s].dest, e.queue), s, e.handed.value.msg, st.subs[s].listed);
    }
  }

  lemma MessageRight(st: System, d: string, m: Msg, front: bool)
    requires st.requests != [] && ServeMessage(st, d, m, front).Next?
    ensures GivenRight(st.subs, ServeMessage(st, d, m, front).st.subs)
  {
    hide HandOver, GivenRight;
    GivenRefl(st.subs);
    var q := QueueOf(st, d);
    var e := if front then Queues.Requeue(q, m) else Queues.Enqueue(q, m);
    if e.handed.Some? && Known(st, e.handed.value.sub) {
      HandedRight(st, WithQueue(PopRequest(st), d, e.queue), e.handed.value.sub, m, false);
    }
  }

  lemma ServeRight(st: System)
    requires Serve(st).Next?
    ensures GivenRight(st.subs, Serve(st).st.subs)
  {
    hide GivenRight, ServeSubscribe, ServeMessage, IsQueue, Destination;
    GivenRefl(st.subs);
    if st.requests != [] {
      match st.requests[0].op {
        case Subscribe(s) => if Known(st, s) { SubscribeRight(st, s); }
        case Unsubscribe(s) => if Known(st, s) { UnsubscribeRight(st, s); }
        case Enqueue(m) => if IsQueueFrame(m.frame) { MessageRight(st, Destination(m.frame).value, m, false); }
        case Requeue(m, _) => if IsQueueFrame(m.frame) { MessageRight(st, Destination(m.frame).value, m, true); }
        case Connected =>
        case Disconnected =>
      }
    }
  }

  lemma UnsubscribeRight(st: System, s: SubId)
    requires st.requests != [] && Known(st, s) && ServeUnsubscribe(st, s).Next?
    ensures GivenRight(st.subs, ServeUnsubscribe(st, s).st.subs)
  {
    hide Find, IsQueue;
  }

  lemma GivenHeld(subs: map<SubId, Sub>, subs': map<SubId, Sub>)
    requires HeldRight(subs) && GivenRight(subs, subs')
    ensures HeldRight(subs')
  {
    hide Find;
  }

  lemma ServeAddressed(st: System)
    requires Inv(st) && Addressed(st) && Serve(st).Next?
    ensures Addressed(Serve(st).st)
  {
    hide Tokens, Conserved, Ordered, Serve, WaitingShrinks, AllSentRight, HeldRight;
    ServeShrinks(st);
    ServeRight(st);
    var st' := Serve(st).st;
    GivenHeld(st.subs, st'.subs);
    if st' != st {
      forall c | c in st'.conns ensures AllSentRight(st'.subs, c, st'.conns[c].sent) {
        SentStays(st.subs, st'.subs, c, st.conns[c].sent);
      }
    }
  }

  // ---------------------------------------------------------------- every run

  lemma FlushAddressed(st: System, c: ConnId)
    requires Addressed(st) && c in st.conns && st.conns[c].outbox != []
    ensures Addressed(Flush(st, c))
  {
    var st' := Flush(st, c);
    assert HeldRight(st'.subs) && SubsStay(st.subs, st'.subs) by { hide Find; }
    hide HeldRight, AllSentRight;
    forall e | e in st'.conns ensures AllSentRight(st'.subs, e, st'.conns[e].sent) {
      SentStays(st.subs, st'.subs, e, st.conns[e].sent);
    }
  }

  lemma AcceptAddressed(st: System, c: ConnId)
    requires Addressed(st) && c !in st.conns
    ensures Addressed(WithConn(st, c, EMPTY_CONN))
  {
    assert AllSentRight(st.subs, c, EMPTY_CONN.sent);
    hide HeldRight, AllSentRight;
  }

  lemma CloseAddressed(st: System, c: ConnId, id: string)
    requires Inv(st) && Addressed(st) && c in st.conns && CloseStep(st, c, id).Next?
    ensures Addressed(CloseStep(st, c, id).st)
  {
    hide Inv, Local, Addressed, CloseStep;
    CloseGood(st, c, id);
    var st' := CloseStep(st, c, id).st;
    AcksFromLocal(st, st', c);
    CloseQuietly(st, c, id);
    SilentAddressed(st, st', c);
  }

  lemma QuietAddressed(st: System, c: ConnId, k': Conn)
    requires Addressed(st) && c in st.conns && k'.sent == st.conns[c].sent
    ensures Addressed(WithConn(st, c, k'))
  {
    hide Addressed, Local;
    LocalConn(st, WithConn(st, c, k'), c);
    SilentAddressed(st, WithConn(st, c, k'), c);
  }

  lemma StepAddressed(st: System, e: Event)
    requires Good(st) && Addressed(st) && Step(st, e).Next?
    ensures Addressed(Step(st, e).st)
  {
    hide Inv, ClientsGood, Local, Addressed, Serve, Flush, Receive, Deliver, WriteTopicFrame, CloseStep, Find;
    match e
    case Accept(c) => if c !in st.conns { AcceptAddressed(st, c); }
    case ServeNext => ServeAddressed(st);
    case FlushNext(c) => if c in st.conns && st.conns[c].outbox != [] { FlushAddressed(st, c); }
    case ReceiveFrame(c, f, io, admit) => if InLoop(st, c) { GoodTx(st, c); ReceiveAddressed(st, c, f, io, admit); }
    case ReadClosed(c) => if InLoop(st, c) { QuietAddressed(st, c, Exit(st, c).conns[c]); }
    case DeliverNext(c, io) => if InLoop(st, c) && st.conns[c].channel != [] { DeliverAddressed(st, c, io); }
    case WriteNext(c, io) => if InLoop(st, c) && st.conns[c].writes != [] { WriteAddressed(st, c, io); }
    case HeartBeat(c, io) => if InLoop(st, c) { QuietAddressed(st, c, Exit(st, c).conns[c]); }
    case TopicFrame(c, f) => if c in st.conns { QuietAddressed(st, c, st.conns[c].(writes := st.conns[c].writes + [f])); }
    case Close(c, id) => if c in st.conns && st.conns[c].outbox == [] { CloseAddressed(st, c, id); }
  }

  lemma {:induction false} PathAddressed(states: seq<System>, events: seq<Event>)
    requires Path(states, events) && Good(states[0]) && Addressed(states[0])
    ensures Good(states[|events|]) && Addressed(states[|events|])
    decreases |events|
  {
    hide Good, Addressed, Step;
    if events != [] {
      var n := |events| - 1;
      PathPrefix(states, events);
      PathAddressed(states[..n + 1], events[..n]);
      assert Step(states[n], events[n]) == Next(states[n + 1]);
      StepGood(states[n], events[n]);
      StepAddressed(states[n], events[n]);
    }
  }

  /** In every run, each delivery was written on the connection of its subscription, under the id of the subscription, and
      its message had been sent to the destination of the subscription. */
  lemma DeliveriesReachTheirSubscription(st: System, c: ConnId, i: nat)
    requires Reachable(st) && c in st.conns && i < |st.conns[c].sent|
    ensures SentRight(st.subs, c, st.conns[c].sent[i])
  {
    hide Good, Step, HeldRight, SentRight;
    StartGood();
    assert Addressed(START) by { StartAddressed(); }
    var states, events :| Path(states, events) && states[0] == START && states[|events|] == st;
    PathAddressed(states, events);
    assert AllSentRight(st.subs, c, st.conns[c].sent);
  }

  lemma StartAddressed()
    ensures Addressed(START)
  {
  }
}
