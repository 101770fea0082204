/** Closing a connection: because the request channel is first-in first-out and every UnsubscribeOp is
    sent before the first frame is given back, the connection does not get its own frames again. */
module BrokerCleanup {
  import opened Text
  import opened Sequences
  import opened Frames
  import opened Broker
  import opened BrokerTokens
  import Queues

  /** The requests that connection c has sent and the processor has not served, oldest first. */
  function Mine(rs: seq<Request>, c: ConnId): seq<Op> {
    if rs == [] then [] else (if rs[0].from == c then [rs[0].op] else []) + Mine(rs[1..], c)
  }

  function Stream(st: System, c: ConnId): seq<Op>
    requires c in st.conns
  {
    Mine(st.requests, c) + st.conns[c].outbox
  }

  /** A request that cleanupConn sends only after every UnsubscribeOp: a frame given back, or the DisconnectedOp. */
  predicate IsClosing(op: Op) {
    (op.Requeue? && op.closing) || op == Disconnected
  }

  /** An UnsubscribeOp of s is on its way, no SubscribeOp of s follows it, and it is ahead of every frame
      that the closing connection gives back. */
  predicate CoveredAt(q: seq<Op>, s: SubId, j: nat) {
    && j < |q| && q[j] == Unsubscribe(s)
    && (forall i | j < i < |q| :: q[i] != Subscribe(s))
    && (forall i | 0 <= i < j :: !IsClosing(q[i]))
  }

  ghost predicate Covered(q: seq<Op>, s: SubId) {
    exists j: nat :: CoveredAt(q, s, j)
  }

  /** The queue can hand s a frame, now or when a request that is on its way is served. */
  predicate Exposed(st: System, s: SubId)
    requires Known(st, s)
  {
    s in QueueOf(st, st.subs[s].dest).waiting || Subscribe(s) in Stream(st, st.subs[s].conn)
  }

  ghost predicate OrderedSub(st: System, s: SubId)
    requires Known(st, s)
  {
    s !in st.revived && !Live(st, s) && Exposed(st, s) ==> Covered(Stream(st, st.subs[s].conn), s)
  }

  predicate Early(p: Phase) {
    p == Connecting || p == Running || p == Unsubscribing
  }

  predicate OrderedConn(st: System, c: ConnId)
    requires c in st.conns
  {
    && (Early(st.conns[c].phase) ==> forall i | 0 <= i < |Stream(st, c)| :: !IsClosing(Stream(st, c)[i]))
    && (!Early(st.conns[c].phase) ==> st.conns[c].subs == map[])
  }

  ghost predicate Ordered(st: System) {
    && (forall s | s in st.subs && Known(st, s) :: OrderedSub(st, s))
    && (forall c | c in st.conns :: OrderedConn(st, c))
    && (forall i | 0 <= i < |st.requests| :: st.requests[i].from in st.conns)
  }

  // ---------------------------------------------------------------- streams

  lemma {:induction false} MineAppend(rs: seq<Request>, x: Request, c: ConnId)
    ensures Mine(rs + [x], c) == Mine(rs, c) + if x.from == c then [x.op] else []
  {
    if rs == [] {
      assert rs + [x] == [x] && [x][1..] == [];
    } else {
      MineAppend(rs[1..], x, c);
      assert (rs + [x])[1..] == rs[1..] + [x];
    }
  }

  lemma {:induction false} MineOfStranger(rs: seq<Request>, c: ConnId)
    requires forall i | 0 <= i < |rs| :: rs[i].from != c
    ensures Mine(rs, c) == []
  {
    if rs != [] {
      MineOfStranger(rs[1..], c);
    }
  }

  /** Serving the head request of connection c removes the head of its stream. */
  lemma StreamPop(st: System, st': System, c: ConnId)
    requires st.requests != [] && st'.requests == st.requests[1..]
    requires c in st.conns && c in st'.conns && st'.conns[c].outbox == st.conns[c].outbox
    ensures if st.requests[0].from == c then Stream(st, c) == [st.requests[0].op] + Stream(st', c)
            else Stream(st', c) == Stream(st, c)
  {
  }

  lemma CoveredPop(q: seq<Op>, op: Op, s: SubId)
    requires Covered([op] + q, s) && op != Unsubscribe(s)
    ensures Covered(q, s) && !IsClosing(op)
  {
    var j: nat :| CoveredAt([op] + q, s, j);
    assert ([op] + q)[0] == op && ([op] + q)[j] == q[j - 1];
    assert forall i | 0 <= i < |q| :: ([op] + q)[i + 1] == q[i];
    assert CoveredAt(q, s, j - 1);
  }

  /** Once the UnsubscribeOp itself is served, either another one follows or no SubscribeOp does. */
  lemma CoveredServed(q: seq<Op>, s: SubId)
    requires Covered([Unsubscribe(s)] + q, s)
    ensures Covered(q, s) || Subscribe(s) !in q
  {
    var j: nat :| CoveredAt([Unsubscribe(s)] + q, s, j);
    assert forall i | 0 <= i < |q| :: ([Unsubscribe(s)] + q)[i + 1] == q[i];
    if j > 0 {
      assert CoveredAt(q, s, j - 1);
    } else {
      assert forall i | 0 <= i < |q| :: q[i] == ([Unsubscribe(s)] + q)[i + 1] != Subscribe(s);
    }
  }

  lemma CoveredAppend(q: seq<Op>, ops: seq<Op>, s: SubId)
    requires Covered(q, s) && Subscribe(s) !in ops
    ensures Covered(q + ops, s)
  {
    var j: nat :| CoveredAt(q, s, j);
    assert CoveredAt(q + ops, s, j);
  }

  // ---------------------------------------------------------------- the processor

  /** Both states know the same subscriptions and connections, up to what the processor changes. */
  predicate SameClients(st: System, st': System) {
    && st'.subs.Keys == st.subs.Keys && st'.conns.Keys == st.conns.Keys && st'.revived == st.revived
    && (forall s | s in st.subs :: st'.subs[s].conn == st.subs[s].conn && st'.subs[s].dest == st.subs[s].dest
                                   && st'.subs[s].id == st.subs[s].id && st'.subs[s].ack == st.subs[s].ack)
    && (forall c | c in st.conns :: st'.conns[c] == st.conns[c].(channel := st'.conns[c].channel))
  }

  /** What one served request may do to the waiting lists. */
  predicate WaitingShrinks(st: System, st': System, op: Op) {
    && (forall s | Known(st, s) && s in st'.subs && s in QueueOf(st', st'.subs[s].dest).waiting ::
          s in QueueOf(st, st.subs[s].dest).waiting || op == Subscribe(s))
    && (op.Unsubscribe? && op.s in st'.subs ==> op.s !in QueueOf(st', st'.subs[op.s].dest).waiting)
  }

  lemma ServedOrderedSub(st: System, st': System, s: SubId)
    requires Tokens(st) && Known(st, s) && OrderedSub(st, s)
    requires st.requests != [] && st'.requests == st.requests[1..] && SameClients(st, st')
    requires WaitingShrinks(st, st', st.requests[0].op)
    ensures OrderedSub(st', s)
  {
    var c := st.subs[s].conn;
    var op := st.requests[0].op;
    StreamPop(st, st', c);
    if s !in st'.revived && !Live(st', s) && Exposed(st', s) {
      if op == Subscribe(s) || op == Unsubscribe(s) {
        assert st.requests[0].from == c by { assert RequestTokens(st.subs, st.requests); }
      }
      if op == Unsubscribe(s) {
        CoveredServed(Stream(st', c), s);
      } else if st.requests[0].from == c {
        CoveredPop(Stream(st', c), op, s);
      }
    }
  }

  lemma ServedOrderedConn(st: System, st': System, c: ConnId)
    requires c in st.conns && OrderedConn(st, c) && c in st'.conns && st.requests != [] && st'.requests == st.requests[1..]
    requires st'.conns[c].outbox == st.conns[c].outbox && st'.conns[c].subs == st.conns[c].subs && st'.conns[c].phase == st.conns[c].phase
    ensures OrderedConn(st', c)
  {
    hide Mine, IsClosing, Stream;
    StreamPop(st, st', c);
    assert st.requests[0].from == c ==> forall i | 0 <= i < |Stream(st', c)| :: Stream(st', c)[i] == Stream(st, c)[i + 1];
  }

  lemma ServedOrdered(st: System, st': System)
    requires Tokens(st) && Ordered(st)
    requires st.requests != [] && st'.requests == st.requests[1..] && SameClients(st, st')
    requires WaitingShrinks(st, st', st.requests[0].op)
    ensures Ordered(st')
  {
    hide Tokens, OrderedSub, OrderedConn, WaitingShrinks;
    forall s | s in st'.subs && Known(st', s) ensures OrderedSub(st', s) {
      assert Known(st, s);
      ServedOrderedSub(st, st', s);
    }
    forall c | c in st'.conns ensures OrderedConn(st', c) {
      ServedOrderedConn(st, st', c);
    }
  }

  /** Queue d became q; nobody but s, for a SubscribeOp of s, started to wait. */
  lemma QueueShrinks(st: System, st': System, d: string, q: Queues.Queue<SubId, Msg>, op: Op)
    requires SameClients(st, st') && st'.queues == st.queues[d := q]
    requires forall x | x in q.waiting :: x in QueueOf(st, d).waiting || op == Subscribe(x)
    requires op.Unsubscribe? && op.s in st'.subs ==> st'.subs[op.s].dest == d && op.s !in q.waiting
    ensures WaitingShrinks(st, st', op)
  {
  }

  lemma PushSame(st: System, st': System, s: SubId, m: Msg, listed: bool)
    requires Known(st, s) && st'.subs == st.subs && st'.conns == st.conns && st'.revived == st.revived
    ensures var st2 := PushToChannel(st', s, m, listed);
            SameClients(st, st2) && st2.queues == st'.queues && st2.requests == st'.requests
  {
  }

  lemma SubscribeShrinks(st: System, s: SubId)
    requires st.requests != [] && st.requests[0].op == Subscribe(s) && Known(st, s) && ServeSubscribe(st, s).Next?
    ensures var st' := ServeSubscribe(st, s).st;
            st' == st || (SameClients(st, st') && WaitingShrinks(st, st', Subscribe(s)) && st'.requests == st.requests[1..])
  {
    hide IsQueue, WaitingShrinks, PushToChannel, SameClients;
    var d := st.subs[s].dest;
    var st' := ServeSubscribe(st, s).st;
    if st' != st && IsQueue(d) {
      var e := Queues.Subscribe(QueueOf(st, d), s);
      if e.handed.Some? {
        PushSame(st, WithQueue(PopRequest(st), d, e.queue), s, e.handed.value.msg, st.subs[s].listed);
      } else {
        PlaceSame(st, st', s);
      }
      QueueShrinks(st, st', d, Queues.Subscribe(QueueOf(st, d), s).queue, Subscribe(s));
    } else if st' != st {
      PlaceSame(st, st', s);
      TopicShrinks(st, st', s);
    }
  }

  /** Only the place of s changed, and whether it is listed. */
  lemma PlaceSame(st: System, st': System, s: SubId)
    requires s in st.subs && s in st'.subs && st'.conns == st.conns && st'.revived == st.revived
    requires st'.subs == st.subs[s := st.subs[s].(at := st'.subs[s].at, listed := st'.subs[s].listed)]
    ensures SameClients(st, st')
  {
  }

  lemma TopicShrinks(st: System, st': System, s: SubId)
    requires SameClients(st, st') && st'.queues == st.queues
    ensures WaitingShrinks(st, st', Subscribe(s))
  {
  }

  lemma UnsubscribeFacts(st: System, s: SubId)
    requires Tokens(st) && Known(st, s)
    ensures Distinct(QueueOf(st, st.subs[s].dest).waiting)
    ensures !IsQueue(st.subs[s].dest) ==> st.subs[s].dest !in st.queues
  {
    var d := st.subs[s].dest;
    if d in st.queues { assert QueueTokens(st.subs, d, st.queues[d]); }
  }

  lemma UnsubscribeShrinks(st: System, s: SubId)
    requires Tokens(st) && st.requests != [] && st.requests[0].op == Unsubscribe(s) && Known(st, s)
    ensures ServeUnsubscribe(st, s).Next?
    ensures var st' := ServeUnsubscribe(st, s).st;
            SameClients(st, st') && WaitingShrinks(st, st', Unsubscribe(s)) && st'.requests == st.requests[1..]
  {
    hide Tokens, IsQueue;
    UnsubscribeFacts(st, s);
    var d := st.subs[s].dest;
    var st' := ServeUnsubscribe(st, s).st;
    DistinctRemoveFirst(QueueOf(st, d).waiting, s);
    if IsQueue(d) && s in QueueOf(st, d).waiting {
      hide WaitingShrinks;
      QueueShrinks(st, st', d, Queues.Unsubscribe(QueueOf(st, d), s).queue, Unsubscribe(s));
    }
  }

  lemma MessageShrinks(st: System, d: string, m: Msg, front: bool)
    requires st.requests != [] && !st.requests[0].op.Subscribe? && !st.requests[0].op.Unsubscribe?
    requires ServeMessage(st, d, m, front).Next?
    ensures var st' := ServeMessage(st, d, m, front).st;
            st' == st || (SameClients(st, st') && WaitingShrinks(st, st', st.requests[0].op) && st'.requests == st.requests[1..])
  {
    hide IsQueue, WaitingShrinks, PushToChannel;
    var st' := ServeMessage(st, d, m, front).st;
    if st' != st {
      var q := QueueOf(st, d);
      var e := if front then Queues.Requeue(q, m) else Queues.Enqueue(q, m);
      if e.handed.Some? {
        PushSame(st, WithQueue(PopRequest(st), d, e.queue), e.handed.value.sub, m, false);
      }
      QueueShrinks(st, st', d, e.queue, st.requests[0].op);
    }
  }

  /** Serving a request changes nothing (the processor waits), or removes it and touches the clients and
      the waiting lists only as far as SameClients and WaitingShrinks allow. */
  lemma ServeShrinks(st: System)
    requires Tokens(st) && Serve(st).Next?
    ensures var st' := Serve(st).st;
            || st' == st
            || (st.requests != [] && SameClients(st, st') && WaitingShrinks(st, st', st.requests[0].op) && st'.requests == st.requests[1..])
  {
    hide Tokens, SameClients, WaitingShrinks, ServeSubscribe, ServeUnsubscribe, ServeMessage, IsQueue, Destination;
    if st.requests != [] {
      match st.requests[0].op {
        case Subscribe(s) => if Known(st, s) { SubscribeShrinks(st, s); }
        case Unsubscribe(s) => if Known(st, s) { UnsubscribeShrinks(st, s); }
        case Enqueue(m) =>
          PopShrinks(st);
          if IsQueueFrame(m.frame) { MessageShrinks(st, Destination(m.frame).value, m, false); }
        case Requeue(m, _) =>
          PopShrinks(st);
          if IsQueueFrame(m.frame) { MessageShrinks(st, Destination(m.frame).value, m, true); }
        case Connected => PopShrinks(st);
        case Disconnected => PopShrinks(st);
      }
    }
  }

  lemma ServeOrdered(st: System)
    requires Tokens(st) && Ordered(st) && Serve(st).Next?
    ensures Ordered(Serve(st).st)
  {
    hide Tokens, Ordered, SameClients, WaitingShrinks, Serve;
    ServeShrinks(st);
    if Serve(st).st != st {
      ServedOrdered(st, Serve(st).st);
    }
  }

  lemma PopShrinks(st: System)
    requires st.requests != [] && !st.requests[0].op.Subscribe? && !st.requests[0].op.Unsubscribe?
    ensures SameClients(st, PopRequest(st)) && WaitingShrinks(st, PopRequest(st), st.requests[0].op)
  {
  }

  // ---------------------------------------------------------------- one connection

  lemma FlushStream(st: System, c: ConnId, e: ConnId)
    requires c in st.conns && st.conns[c].outbox != [] && e in st.conns
    ensures Stream(Flush(st, c), e) == Stream(st, e)
  {
    MineAppend(st.requests, Request(c, st.conns[c].outbox[0]), e);
  }

  lemma FlushOrdered(st: System, c: ConnId)
    requires Ordered(st) && c in st.conns && st.conns[c].outbox != []
    ensures Ordered(Flush(st, c))
  {
    hide Stream, Mine, Covered, IsClosing;
    var st' := Flush(st, c);
    forall e | e in st.conns ensures Stream(st', e) == Stream(st, e) { FlushStream(st, c, e); }
    forall s | s in st'.subs && Known(st', s) ensures OrderedSub(st', s) {
      assert OrderedSub(st, s);
    }
    forall e | e in st'.conns ensures OrderedConn(st', e) {
      assert OrderedConn(st, e);
    }
  }

  /** Connection c did something: it emitted ops, and its subscriptions may have changed. */
  predicate Acted(st: System, st': System, c: ConnId, ops: seq<Op>)
  {
    && c in st.conns && c in st'.conns && st'.conns == st.conns[c := st'.conns[c]]
    && st'.requests == st.requests && st'.queues == st.queues
    && st'.conns[c].outbox == st.conns[c].outbox + ops
    && (forall s | s in st.subs :: s in st'.subs && st'.subs[s].conn == st.subs[s].conn && st'.subs[s].dest == st.subs[s].dest
                                   && st'.subs[s].id == st.subs[s].id)
    && (forall s | s in st.revived :: s in st'.revived)
    && (Early(st'.conns[c].phase) ==> Early(st.conns[c].phase) && forall i | 0 <= i < |ops| :: !IsClosing(ops[i]))
    && (!Early(st'.conns[c].phase) ==> st'.conns[c].subs == map[])
  }

  /** A subscription that c emits a SubscribeOp for is known to c, or is recorded as revived; one that c no
      longer knows was just unsubscribed. */
  predicate ActedSub(st: System, st': System, c: ConnId, ops: seq<Op>, s: SubId)
    requires Known(st', s)
  {
    || s in st'.revived || Live(st', s)
    || (s in st.subs && Known(st, s) && !Live(st, s) && Subscribe(s) !in ops)
    || (ops == [Unsubscribe(s)] && c in st.conns && Early(st.conns[c].phase) && st'.subs[s].conn == c)
  }

  lemma ActedOrderedSub(st: System, st': System, c: ConnId, ops: seq<Op>, s: SubId)
    requires Ordered(st) && Acted(st, st', c, ops) && Known(st', s) && ActedSub(st, st', c, ops, s)
    ensures OrderedSub(st', s)
  {
    var e := st'.subs[s].conn;
    var q := Stream(st, e);
    assert e != c ==> Stream(st', e) == q;
    assert e == c ==> Stream(st', e) == q + ops;
    if s !in st'.revived && !Live(st', s) && Exposed(st', s) {
      if s in st.subs && Known(st, s) && !Live(st, s) && Subscribe(s) !in ops {
        assert OrderedSub(st, s);
        assert Exposed(st, s);
        if e == c { CoveredAppend(q, ops, s); }
      } else {
        assert OrderedConn(st, c);
        assert CoveredAt(q + ops, s, |q|);
      }
    }
  }

  lemma ActedOrdered(st: System, st': System, c: ConnId, ops: seq<Op>)
    requires Ordered(st) && Acted(st, st', c, ops)
    requires forall s | s in st'.subs && Known(st', s) :: ActedSub(st, st', c, ops, s)
    ensures Ordered(st')
  {
    forall s | s in st'.subs && Known(st', s) ensures OrderedSub(st', s) {
      ActedOrderedSub(st, st', c, ops, s);
    }
    forall e | e in st'.conns ensures OrderedConn(st', e) {
      assert OrderedConn(st, e);
      assert e == c ==> Stream(st', e) == Stream(st, e) + ops;
      assert e != c ==> Stream(st', e) == Stream(st, e);
    }
  }

  lemma QuietOrdered(st: System, c: ConnId, k': Conn)
    requires Ordered(st) && c in st.conns && k'.subs == st.conns[c].subs && k'.outbox == st.conns[c].outbox
    requires Early(k'.phase) ==> Early(st.conns[c].phase)
    requires !Early(k'.phase) ==> k'.subs == map[]
    ensures Ordered(WithConn(st, c, k'))
  {
    hide Ordered;
    var st' := WithConn(st, c, k');
    assert k'.outbox + [] == k'.outbox;
    ActedOrdered(st, st', c, []);
  }

  lemma EmitOrdered(st: System, c: ConnId, op: Op)
    requires Ordered(st) && c in st.conns && !op.Subscribe? && (IsClosing(op) ==> !Early(st.conns[c].phase))
    requires !Early(st.conns[c].phase) ==> st.conns[c].subs == map[]
    ensures Ordered(Emit(st, c, op))
  {
    hide Ordered;
    ActedOrdered(st, Emit(st, c, op), c, [op]);
  }

  lemma NewSubOrdered(st: System, c: ConnId, id: string, dest: string, ack: string)
    requires Tokens(st) && Ordered(st) && c in st.conns && id !in st.conns[c].subs && st.conns[c].phase == Running
    ensures Ordered(NewSub(st, c, id, dest, ack))
  {
    hide Ordered, ConnsOk, QueuesOk, RequestTokens, SubTokens;
    ActedOrdered(st, NewSub(st, c, id, dest, ack), c, [Subscribe(st.nextSub)]);
  }

  lemma EndSubOrdered(st: System, c: ConnId, id: string)
    requires Tokens(st) && Ordered(st) && c in st.conns && id in st.conns[c].subs && Early(st.conns[c].phase)
    ensures Ordered(EndSub(st, c, id))
  {
    hide Ordered, Tokens;
    SubById(st, c, id);
    var s := st.conns[c].subs[id];
    ActedOrdered(st, EndSub(st, c, id), c, [Unsubscribe(s)]);
  }

  lemma SettleAtOrdered(st: System, c: ConnId, i: nat, requeue: bool)
    requires Ordered(st) && c in st.conns && i < |st.conns[c].pending| && st.conns[c].phase == Running
    requires Known(st, st.conns[c].pending[i]) && st.subs[st.conns[c].pending[i]].frame.Some?
    requires st.subs[st.conns[c].pending[i]].conn == c
    ensures Ordered(SettleAt(st, c, i, requeue))
  {
    hide Ordered;
    var s := st.conns[c].pending[i];
    var st' := SettleAt(st, c, i, requeue);
    var ops := (if requeue then [Requeue(st.subs[s].frame.value, false)] else []) + [Subscribe(s)];
    assert st'.conns[c].outbox == st.conns[c].outbox + ops;
    assert Live(st', s) == Live(st, s);
    ActedOrdered(st, st', c, ops);
  }

  lemma DeliverOrdered(st: System, c: ConnId, io: bool)
    requires Tokens(st) && Ordered(st) && c in st.conns && st.conns[c].channel != [] && Early(st.conns[c].phase) && Deliver(st, c, io).Next?
    ensures Ordered(Deliver(st, c, io).st)
  {
    hide Ordered, Tokens, Deliver, Acted, ActedSub;
    ChannelFacts(st, c);
    var st' := Deliver(st, c, io).st;
    var ops := DeliverOps(st, c, io);
    DeliverActs(st, c, io);
    forall x | x in st'.subs && Known(st', x) ensures ActedSub(st, st', c, ops, x) { DeliveredSub(st, c, io, ops, x); }
    ActedOrdered(st, st', c, ops);
  }

  /** The requests that a delivery of c causes. */
  function DeliverOps(st: System, c: ConnId, io: bool): seq<Op>
    requires c in st.conns && st.conns[c].channel != []
    requires Known(st, st.conns[c].channel[0]) && st.subs[st.conns[c].channel[0]].frame.Some?
  {
    var s := st.conns[c].channel[0];
    if st.subs[s].id !in st.conns[c].subs then [Requeue(st.subs[s].frame.value, false)]
    else if io && st.subs[s].ack == "auto" then [Subscribe(s)]
    else []
  }

  lemma DeliverActs(st: System, c: ConnId, io: bool)
    requires c in st.conns && st.conns[c].channel != [] && Early(st.conns[c].phase) && Deliver(st, c, io).Next?
    requires Known(st, st.conns[c].channel[0]) && st.subs[st.conns[c].channel[0]].frame.Some? && st.subs[st.conns[c].channel[0]].conn == c
    ensures Acted(st, Deliver(st, c, io).st, c, DeliverOps(st, c, io))
  {
    hide Deliver, Acted, Early;
    var s := st.conns[c].channel[0];
    if st.subs[s].id !in st.conns[c].subs {
      DeliverActsBack(st, c, io);
    } else if !io {
      DeliverActsDropped(st, c, io);
    } else if st.subs[s].ack == "auto" {
      DeliverActsAuto(st, c, io);
    } else {
      DeliverActsPending(st, c, io);
    }
  }

  /** The id of the subscription is not in use. */
  lemma DeliverActsBack(st: System, c: ConnId, io: bool)
    requires c in st.conns && st.conns[c].channel != [] && Early(st.conns[c].phase) && Deliver(st, c, io).Next?
    requires Known(st, st.conns[c].channel[0]) && st.subs[st.conns[c].channel[0]].frame.Some? && st.subs[st.conns[c].channel[0]].conn == c
    requires st.subs[st.conns[c].channel[0]].id !in st.conns[c].subs
    ensures Acted(st, Deliver(st, c, io).st, c, DeliverOps(st, c, io))
  {
    hide Stamp, NextMsgId, Acted, Early;
    var s := st.conns[c].channel[0];
    assert Deliver(st, c, io).st == GiveBack(st, c, false);
    ActsOne(st, GiveBack(st, c, false), c, s, [Requeue(st.subs[s].frame.value, false)]);
  }

  /** The write fails. */
  lemma DeliverActsDropped(st: System, c: ConnId, io: bool)
    requires c in st.conns && st.conns[c].channel != [] && Early(st.conns[c].phase) && Deliver(st, c, io).Next?
    requires Known(st, st.conns[c].channel[0]) && st.subs[st.conns[c].channel[0]].frame.Some? && st.subs[st.conns[c].channel[0]].conn == c
    requires st.subs[st.conns[c].channel[0]].id in st.conns[c].subs && !io
    ensures Acted(st, Deliver(st, c, io).st, c, DeliverOps(st, c, io))
  {
    hide Stamp, NextMsgId, Acted;
    assert st.conns[c].outbox + [] == st.conns[c].outbox;
    ActsOne(st, Deliver(st, c, io).st, c, st.conns[c].channel[0], []);
  }

  lemma DeliverActsAuto(st: System, c: ConnId, io: bool)
    requires c in st.conns && st.conns[c].channel != [] && Early(st.conns[c].phase) && Deliver(st, c, io).Next?
    requires Known(st, st.conns[c].channel[0]) && st.subs[st.conns[c].channel[0]].frame.Some? && st.subs[st.conns[c].channel[0]].conn == c
    requires st.subs[st.conns[c].channel[0]].id in st.conns[c].subs && io && st.subs[st.conns[c].channel[0]].ack == "auto"
    ensures Acted(st, Deliver(st, c, io).st, c, DeliverOps(st, c, io))
  {
    hide Stamp, NextMsgId, Acted, Early;
    ActsOne(st, Deliver(st, c, io).st, c, st.conns[c].channel[0], [Subscribe(st.conns[c].channel[0])]);
  }

  lemma DeliverActsPending(st: System, c: ConnId, io: bool)
    requires c in st.conns && st.conns[c].channel != [] && Early(st.conns[c].phase) && Deliver(st, c, io).Next?
    requires Known(st, st.conns[c].channel[0]) && st.subs[st.conns[c].channel[0]].frame.Some? && st.subs[st.conns[c].channel[0]].conn == c
    requires st.subs[st.conns[c].channel[0]].id in st.conns[c].subs && io && st.subs[st.conns[c].channel[0]].ack != "auto"
    ensures Acted(st, Deliver(st, c, io).st, c, DeliverOps(st, c, io))
  {
    hide Stamp, NextMsgId, Acted, Early;
    assert st.conns[c].outbox + [] == st.conns[c].outbox;
    ActsOne(st, Deliver(st, c, io).st, c, st.conns[c].channel[0], []);
  }

  /** Connection c changed one of its subscriptions, and went on or stopped. */
  lemma ActsOne(st: System, st': System, c: ConnId, s: SubId, ops: seq<Op>)
    requires c in st.conns && c in st'.conns && s in st.subs && s in st'.subs
    requires st'.conns == st.conns[c := st'.conns[c]] && st'.subs == st.subs[s := st'.subs[s]]
    requires st'.requests == st.requests && st'.queues == st.queues && (st'.revived == st.revived || st'.revived == st.revived + {s})
    requires st'.conns[c].outbox == st.conns[c].outbox + ops && forall i | 0 <= i < |ops| :: !IsClosing(ops[i])
    requires st'.subs[s].conn == st.subs[s].conn && st'.subs[s].dest == st.subs[s].dest && st'.subs[s].id == st.subs[s].id
    requires Early(st.conns[c].phase) && Early(st'.conns[c].phase)
    ensures Acted(st, st', c, ops)
  {
  }

  lemma DeliveredSub(st: System, c: ConnId, io: bool, ops: seq<Op>, x: SubId)
    requires c in st.conns && st.conns[c].channel != [] && Deliver(st, c, io).Next?
    requires Known(st, st.conns[c].channel[0]) && st.subs[st.conns[c].channel[0]].frame.Some? && st.subs[st.conns[c].channel[0]].conn == c
    requires ops == DeliverOps(st, c, io)
    requires x in Deliver(st, c, io).st.subs && Known(Deliver(st, c, io).st, x)
    ensures ActedSub(st, Deliver(st, c, io).st, c, ops, x)
  {
    hide Stamp, NextMsgId;
  }

  /** A closing connection that has unsubscribed everything gives back a frame. */
  lemma GivenBackOrdered(st: System, st': System, c: ConnId, s: SubId, op: Op)
    requires Ordered(st) && c in st.conns && c in st'.conns && !Early(st.conns[c].phase)
    requires st'.conns == st.conns[c := st'.conns[c]] && st'.requests == st.requests && st'.queues == st.queues
    requires s in st.subs && s in st'.subs && st'.subs == st.subs[s := st'.subs[s]]
    requires st'.subs[s].conn == st.subs[s].conn && st'.subs[s].dest == st.subs[s].dest && st'.subs[s].id == st.subs[s].id
    requires op.Requeue? && st'.conns[c].outbox == st.conns[c].outbox + [op] && st'.revived == st.revived
    requires st'.conns[c].subs == st.conns[c].subs && st'.conns[c].phase == st.conns[c].phase
    ensures Ordered(st')
  {
    assert OrderedConn(st, c);
    hide Ordered;
    ActedOrdered(st, st', c, [op]);
  }
}
