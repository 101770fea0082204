/** The results about every run of the broker, from a server that has just started. */
module BrokerTheorems {
  import opened Text
  import opened Sequences
  import opened Frames
  import opened Broker
  import opened BrokerTokens
  import opened BrokerFrames
  import opened BrokerConservation
  import opened BrokerCleanup
  import opened BrokerRuns
  import opened BrokerAnswers
  import opened BrokerAcks
  import opened BrokerClients
  import opened BrokerCommits
  import opened Totals
  import Queues

  // ---------------------------------------------------------------- every reachable state

  ghost predicate Good(st: System) {
    Inv(st) && ClientsGood(st)
  }

  lemma ServeClients(st: System)
    requires Inv(st) && ClientsGood(st) && Serve(st).Next?
    ensures ClientsGood(Serve(st).st)
  {
    hide Ordered, Conserved, Tokens, Serve, ConnGood;
    ServeShrinks(st);
    var st' := Serve(st).st;
    if st' != st {
      SameClientsGood(st, st');
    }
  }

  lemma SameClientsGood(st: System, st': System)
    requires ClientsGood(st) && SameClients(st, st')
    ensures ClientsGood(st')
  {
    hide ConnGood;
    forall c | c in st'.conns ensures ConnGood(st'.subs, st'.conns[c]) {
      GoodStays(st.subs, st'.subs, st.conns[c]);
      ChannelGood(st'.subs, st.conns[c], st'.conns[c].channel);
    }
  }

  lemma ChannelGood(subs: map<SubId, Sub>, k: Conn, q: seq<SubId>)
    requires ConnGood(subs, k)
    ensures ConnGood(subs, k.(channel := q))
  {
    hide TxOk, WritesOk, MessagesOk, Answers, Asked, CountMessages;
  }

  lemma FlushClients(st: System, c: ConnId)
    requires ClientsGood(st) && c in st.conns && st.conns[c].outbox != []
    ensures ClientsGood(Flush(st, c))
  {
    hide ConnGood;
    var st' := Flush(st, c);
    forall e | e in st'.conns ensures ConnGood(st'.subs, st'.conns[e]) {
      GoodStays(st.subs, st'.subs, st.conns[e]);
      OutboxGood(st'.subs, st.conns[e], st'.conns[e].outbox);
    }
  }

  lemma OutboxGood(subs: map<SubId, Sub>, k: Conn, ops: seq<Op>)
    requires ConnGood(subs, k)
    ensures ConnGood(subs, k.(outbox := ops))
  {
    hide TxOk, WritesOk, MessagesOk, Answers, Asked, CountMessages;
  }

  /** Cleanup leaves the history of the connection alone. */
  predicate Quietly(k: Conn, k': Conn) {
    && k'.sent == k.sent && k'.received == k.received && k'.lastMsgId == k.lastMsgId && k'.dropped == k.dropped && k'.txs == k.txs
    && (k'.writes == k.writes || k'.writes == [])
    && (k.phase != Connecting && k.phase != Running ==> k'.phase != Connecting && k'.phase != Running)
  }

  lemma CloseQuietly(st: System, c: ConnId, id: string)
    requires c in st.conns && CloseStep(st, c, id).Next? && c in CloseStep(st, c, id).st.conns
    ensures Quietly(st.conns[c], CloseStep(st, c, id).st.conns[c])
  {
    hide Known;
    var st' := CloseStep(st, c, id).st;
    match st.conns[c].phase
    case Connecting =>
    case Running =>
    case Unsubscribing =>
    case Requeuing =>
    case Draining => DrainQuietly(st, c);
    case LastDrain => DrainQuietly(st, c);
    case Closed =>
  }

  lemma DrainQuietly(st: System, c: ConnId)
    requires c in st.conns
    ensures st.conns[c].channel != [] && DrainOne(st, c).Next? ==>
              c in DrainOne(st, c).st.conns && Quietly(st.conns[c], DrainOne(st, c).st.conns[c])
  {
  }

  lemma CloseClients(st: System, c: ConnId, id: string)
    requires Inv(st) && ClientsGood(st) && c in st.conns && CloseStep(st, c, id).Next?
    ensures ClientsGood(CloseStep(st, c, id).st)
  {
    hide Inv, Local, ConnGood, WritesOk, CloseStep;
    CloseGood(st, c, id);
    var st' := CloseStep(st, c, id).st;
    AcksFromLocal(st, st', c);
    CloseQuietly(st, c, id);
    EmptyWritesOk();
    GoodWrites(st.subs, st.conns[c]);
    SilentGood(st.subs, st.conns[c], st'.conns[c]);
    GoodStays(st.subs, st'.subs, st'.conns[c]);
    ClientsMoved(st, st', c);
  }

  lemma GoodWrites(subs: map<SubId, Sub>, k: Conn)
    requires ConnGood(subs, k)
    ensures WritesOk(k.writes)
  {
    hide TxOk, MessagesOk, Answers, Asked, CountMessages;
  }

  lemma TopicClients(st: System, c: ConnId, f: Frame)
    requires ClientsGood(st) && c in st.conns
    requires f.command == "MESSAGE" || (f.command == "ERROR" && Find(f.header, "receipt-id").None?)
    ensures ClientsGood(WithConn(st, c, st.conns[c].(writes := st.conns[c].writes + [f])))
  {
    hide ConnGood, Local, Find;
    var k' := st.conns[c].(writes := st.conns[c].writes + [f]);
    GoodWrites(st.subs, st.conns[c]);
    SilentGood(st.subs, st.conns[c], k');
    LocalConn(st, WithConn(st, c, k'), c);
    ClientsMoved(st, WithConn(st, c, k'), c);
  }

  lemma AcceptClients(st: System, c: ConnId)
    requires ClientsGood(st) && c !in st.conns
    ensures ClientsGood(WithConn(st, c, EMPTY_CONN))
  {
    assert ConnGood(st.subs, EMPTY_CONN);
    hide ConnGood;
  }

  lemma StepGood(st: System, e: Event)
    requires Good(st)
    ensures match Step(st, e)
            case Next(st') => Good(st')
            case Crash(why) => Explained(st, why) && why != StoredCommit
  {
    hide Inv, ClientsGood, Local, Serve, Flush, Receive, Deliver, WriteTopicFrame, CloseStep, Exit, Find;
    StepInv(st, e);
    match e
    case Accept(c) => if c !in st.conns { AcceptClients(st, c); }
    case ServeNext => if Serve(st).Next? { ServeClients(st); } else { ServeInv(st); }
    case FlushNext(c) => if c in st.conns && st.conns[c].outbox != [] { FlushClients(st, c); }
    case ReceiveFrame(c, f, io, admit) => if InLoop(st, c) { ReceiveClients(st, c, f, io, admit); }
    case ReadClosed(c) => if InLoop(st, c) { ExitClients(st, c); }
    case DeliverNext(c, io) =>
      if InLoop(st, c) && st.conns[c].channel != [] {
        if Deliver(st, c, io).Next? { DeliverClients(st, c, io); } else { DeliverInv(st, c, io); }
      }
    case WriteNext(c, io) => if InLoop(st, c) && st.conns[c].writes != [] { WriteClients(st, c, io); }
    case HeartBeat(c, io) => if InLoop(st, c) { ExitClients(st, c); }
    case TopicFrame(c, f) =>
      if c in st.conns && (f.command == "MESSAGE" || (f.command == "ERROR" && Find(f.header, "receipt-id").None?)) { TopicClients(st, c, f); }
    case Close(c, id) =>
      if c in st.conns {
        if CloseStep(st, c, id).Next? { CloseClients(st, c, id); } else { CloseCrash(st, c, id); }
      }
  }

  lemma CloseCrash(st: System, c: ConnId, id: string)
    requires Inv(st) && c in st.conns
    ensures CloseStep(st, c, id).Next?
  {
    hide Inv, EndSub, GiveBack, GiveBackPending, Emit;
    if st.conns[c].channel != [] { ChannelOwner(st, c); }
    if st.conns[c].pending != [] { PendingOwner(st, c, 0); }
  }

  lemma {:induction false} PathGood(states: seq<System>, events: seq<Event>)
    requires Path(states, events) && Good(states[0])
    ensures Good(states[|events|])
    decreases |events|
  {
    hide Good, Step;
    if events != [] {
      var n := |events| - 1;
      PathPrefix(states, events);
      PathGood(states[..n + 1], events[..n]);
      assert Step(states[n], events[n]) == Next(states[n + 1]);
      StepGood(states[n], events[n]);
    }
  }

  /** Every reachable state is good. */
  lemma ReachableGood(st: System)
    requires Reachable(st)
    ensures Good(st)
  {
    hide Good, Step;
    StartGood();
    var states, events :| Path(states, events) && states[0] == START && states[|events|] == st;
    PathGood(states, events);
  }

  lemma GoodTx(st: System, c: ConnId)
    requires Good(st) && c in st.conns
    ensures TxOk(st.conns[c].txs)
  {
    hide Inv, TxOk, WritesOk, MessagesOk, Answers, Asked, CountMessages;
    assert ConnGood(st.subs, st.conns[c]);
  }

  lemma StartGood()
    ensures Good(START)
  {
    hide Inv;
    StartInv();
  }

  // ---------------------------------------------------------------- conservation

  /** In every run, each frame that was sent to a queue is in exactly one place, and no other frame is in any. */
  lemma FramesConserved(st: System, r: Ref)
    requires Reachable(st)
    ensures Places(st, r) == if r in st.entered then 1 else 0
  {
    hide Tokens, Ordered, FramesOk, ClientsGood, Places, Reachable;
    ReachableGood(st);
    assert Places(st, r) == One(r in st.entered);
  }

  /** In every run, a connection loses at most one frame in a failed write, and none while it is running. */
  lemma AtMostOneFrameDropped(st: System, c: ConnId)
    requires Reachable(st) && c in st.conns
    ensures var k := st.conns[c];
            |k.dropped| <= 1 && (k.dropped != [] ==> k.phase != Connecting && k.phase != Running)
  {
    hide Inv, Reachable, TxOk, WritesOk, MessagesOk, Answers, Asked, CountMessages;
    ReachableGood(st);
    assert ConnGood(st.subs, st.conns[c]);
  }

  /** In every run, each frame delivered for a queue subscription is, up to the headers of a delivery, a frame that
      entered a queue; and every stored or held frame is with the destination it was sent to. */
  lemma DeliveriesKeepTheMessage(st: System)
    requires Reachable(st)
    ensures (forall c, i | c in st.conns && 0 <= i < |st.conns[c].sent| :: SentOk(st.entered, st.conns[c].sent[i]))
            && (forall d | d in st.queues :: QueueFrames(st.entered, d, st.queues[d]))
            && (forall s | s in st.subs :: SubFrame(st.entered, st.subs[s]))
  {
    hide Tokens, Ordered, ClientsGood, Places, Reachable, SentOk, OpOk, QueueFrames, SubFrame, RequestFrames;
    ReachableGood(st);
    forall c, i | c in st.conns && 0 <= i < |st.conns[c].sent| ensures SentOk(st.entered, st.conns[c].sent[i]) {
      assert ConnFrames(st.entered, st.conns[c]);
    }
  }

  /** What the delivery of the first subscription in the channel of c adds to each place that its frame may go to: the
      requests of c, the dropped frames, those written for good, and the pending list. */
  predicate GoesTo(st: System, st': System, c: ConnId, io: bool, r: Ref)
    requires c in st.conns && st.conns[c].channel != []
  {
    var k, s := st.conns[c], st.conns[c].channel[0];
    && Known(st, s) && st.subs[s].frame.Some? && c in st'.conns
    && var k' := st'.conns[c];
       var used, auto, mine := st.subs[s].id in k.subs, st.subs[s].ack == "auto", st.subs[s].frame.value.ref == r;
       && InOps(k'.outbox, r) == InOps(k.outbox, r) + One(mine && !used)
       && multiset(k'.dropped)[r] == multiset(k.dropped)[r] + One(mine && used && !io)
       && st'.written[r] == st.written[r] + One(mine && used && io && auto)
       && HeldIn(st'.subs, k'.pending, r) == HeldIn(st.subs, k.pending, r) + One(mine && used && io && !auto)
  }

  /** In every run, a delivery that does not panic moves its frame to exactly one place: back to its queue when the id of
      the subscription is not in use, else to the dropped frames when the write fails, else to the client for good when
      the subscription is in auto mode, else to the pending list. */
  lemma DeliveryGoesTo(st: System, c: ConnId, io: bool, r: Ref)
    requires Reachable(st) && InLoop(st, c) && st.conns[c].channel != [] && Deliver(st, c, io).Next?
    ensures GoesTo(st, Deliver(st, c, io).st, c, io, r)
  {
    hide Reachable, Tokens, Conserved, Ordered, ClientsGood, GoesTo, Deliver;
    ReachableGood(st);
    ChannelFacts(st, c);
    DeliveredPlaces(st, c, io, r);
  }

  /** A delivery drops its frame exactly when the id of the subscription is in use and the write fails. */
  lemma DropsIff(st: System, c: ConnId, io: bool)
    requires Reachable(st) && InLoop(st, c) && st.conns[c].channel != [] && Deliver(st, c, io).Next?
    ensures var s := st.conns[c].channel[0]; var st' := Deliver(st, c, io).st;
            && Known(st, s) && st.subs[s].frame.Some? && c in st'.conns
            && (st'.conns[c].dropped != st.conns[c].dropped <==> st.subs[s].id in st.conns[c].subs && !io)
  {
    hide Reachable, Tokens, Conserved, Ordered, ClientsGood, Stamp, NextMsgId;
    ReachableGood(st);
    ChannelFacts(st, c);
    var k := st.conns[c];
    var ref := st.subs[k.channel[0]].frame.value.ref;
    assert |k.dropped + [ref]| != |k.dropped|;
  }

  lemma DeliveredPlaces(st: System, c: ConnId, io: bool, r: Ref)
    requires Tokens(st) && c in st.conns && st.conns[c].channel != [] && Deliver(st, c, io).Next?
    requires Known(st, st.conns[c].channel[0]) && st.subs[st.conns[c].channel[0]].frame.Some?
    ensures GoesTo(st, Deliver(st, c, io).st, c, io, r)
  {
    hide Stamp, NextMsgId, Tokens, InOps, HeldIn, InOp, HeldBy;
    var k, s := st.conns[c], st.conns[c].channel[0];
    var m := st.subs[s].frame.value;
    var st' := Deliver(st, c, io).st;
    NotPending(st, c);
    HeldElsewhere(st.subs, s, st'.subs[s], k.pending, r);
    OneMoreOp(k.outbox, Requeue(m, false), r);
    OneMoreOp(k.outbox, Subscribe(s), r);
    OpsInPlaces(m, s, r);
    HeldInAppend(st'.subs, k.pending, [s], r);
    HeldInOne(st'.subs, s, r);
    if st'.subs[s].frame.Some? { HoldsRef(st'.subs, s, r); }
  }

  lemma OneMoreOp(ops: seq<Op>, op: Op, r: Ref)
    ensures InOps(ops + [op], r) == InOps(ops, r) + InOp(op, r)
  {
    hide InOps, InOp;
    InOpsAppend(ops, [op], r);
    InOpsOne(op, r);
  }

  lemma OpsInPlaces(m: Msg, s: SubId, r: Ref)
    ensures InOp(Requeue(m, false), r) == One(m.ref == r) && InOp(Subscribe(s), r) == 0
  {
  }

  lemma HoldsRef(subs: map<SubId, Sub>, s: SubId, r: Ref)
    requires s in subs && subs[s].frame.Some?
    ensures HeldBy(subs, s, r) == One(subs[s].frame.value.ref == r)
  {
  }

  // ---------------------------------------------------------------- subscriptions

  function SubscribesIn(ops: seq<Op>, s: SubId): nat {
    if ops == [] then 0 else One(ops[0] == Subscribe(s)) + SubscribesIn(ops[1..], s)
  }

  function SubscribeRequests(rs: seq<Request>, s: SubId): nat {
    if rs == [] then 0 else One(rs[0].op == Subscribe(s)) + SubscribeRequests(rs[1..], s)
  }

  function CountIn(k: Conn, s: SubId): nat {
    SubscribesIn(k.outbox, s) + multiset(k.channel)[s] + multiset(k.pending)[s]
  }

  function CountMap(conns: map<ConnId, Conn>, s: SubId): map<ConnId, nat> {
    map c | c in conns :: CountIn(conns[c], s)
  }

  function WaitMap(queues: map<string, Queues.Queue<SubId, Msg>>, s: SubId): map<string, nat> {
    map d | d in queues :: multiset(queues[d].waiting)[s]
  }

  /** How often s occurs in all SubscribeOps in flight, waiting lists, subscription channels and pending lists. */
  ghost function SubscriptionPlaces(st: System, s: SubId): nat {
    SubscribeRequests(st.requests, s) + Total(CountMap(st.conns, s)) + Total(WaitMap(st.queues, s))
  }

  lemma {:induction false} DistinctCount(q: seq<SubId>, s: SubId)
    requires Distinct(q)
    ensures multiset(q)[s] == One(s in q)
  {
    if q != [] {
      var rest := q[1..];
      assert q == [q[0]] + rest && q[0] !in rest by { FirstOnce(q); }
      DistinctCount(rest, s);
    }
  }

  lemma FirstOnce(q: seq<SubId>)
    requires q != [] && Distinct(q)
    ensures q == [q[0]] + q[1..] && q[0] !in q[1..]
  {
  }

  lemma {:induction false} OpsCount(ops: seq<Op>, s: SubId)
    requires forall i, j | 0 <= i < j < |ops| && ops[i].Subscribe? && ops[j].Subscribe? :: ops[i].s != ops[j].s
    ensures SubscribesIn(ops, s) == One(Subscribe(s) in ops)
  {
    if ops != [] {
      assert ops == [ops[0]] + ops[1..];
      OpsCount(ops[1..], s);
    }
  }

  lemma {:induction false} RequestsCount(rs: seq<Request>, s: SubId)
    requires forall i, j | 0 <= i < j < |rs| && rs[i].op.Subscribe? && rs[j].op.Subscribe? :: rs[i].op.s != rs[j].op.s
    ensures SubscribeRequests(rs, s) <= 1
    ensures SubscribeRequests(rs, s) == 1 ==> exists i :: 0 <= i < |rs| && rs[i].op == Subscribe(s)
  {
    if rs != [] {
      RequestsCount(rs[1..], s);
      if SubscribeRequests(rs[1..], s) == 1 {
        var i :| 0 <= i < |rs[1..]| && rs[1..][i].op == Subscribe(s);
        assert rs[i + 1].op == Subscribe(s);
      }
    }
  }

  lemma CountInConn(st: System, c: ConnId, s: SubId)
    requires Tokens(st) && c in st.conns
    ensures CountIn(st.conns[c], s) <= 1
    ensures CountIn(st.conns[c], s) == 1 ==>
              s in st.subs && st.subs[s].conn == c && (st.subs[s].at == Outbox || st.subs[s].at == Channel || st.subs[s].at == Pending)
  {
    var k := st.conns[c];
    assert ConnTokens(st.subs, c, k);
    hide Tokens;
    DistinctCount(k.channel, s);
    DistinctCount(k.pending, s);
    OpsCount(k.outbox, s);
  }

  lemma CountInQueue(st: System, d: string, s: SubId)
    requires Tokens(st) && d in st.queues
    ensures multiset(st.queues[d].waiting)[s] <= 1
    ensures multiset(st.queues[d].waiting)[s] == 1 ==> s in st.subs && st.subs[s].dest == d && st.subs[s].at == Waiting
  {
    assert QueueTokens(st.subs, d, st.queues[d]);
    hide Tokens;
    DistinctCount(st.queues[d].waiting, s);
  }

  lemma CountInRequests(st: System, s: SubId)
    requires Tokens(st)
    ensures SubscribeRequests(st.requests, s) <= One(s in st.subs && st.subs[s].at == Requested)
  {
    assert RequestTokens(st.subs, st.requests);
    hide Tokens;
    RequestsCount(st.requests, s);
  }

  lemma CountInConns(st: System, s: SubId)
    requires Tokens(st)
    ensures Total(CountMap(st.conns, s)) <= One(s in st.subs && st.subs[s].at != Requested && st.subs[s].at != Waiting)
  {
    hide Tokens, CountIn;
    var c: ConnId := if s in st.subs then st.subs[s].conn else 0;
    forall e | e in st.conns ensures CountIn(st.conns[e], s) <= One(s in st.subs && e == c && st.subs[s].at != Requested && st.subs[s].at != Waiting) {
      CountInConn(st, e, s);
    }
    TotalSingle(CountMap(st.conns, s), c);
  }

  lemma CountInQueues(st: System, s: SubId)
    requires Tokens(st)
    ensures Total(WaitMap(st.queues, s)) <= One(s in st.subs && st.subs[s].at == Waiting)
  {
    hide Tokens;
    var d := if s in st.subs then st.subs[s].dest else "";
    forall e | e in st.queues ensures multiset(st.queues[e].waiting)[s] <= One(s in st.subs && e == d && st.subs[s].at == Waiting) {
      CountInQueue(st, e, s);
    }
    TotalSingle(WaitMap(st.queues, s), d);
  }

  lemma OnePlace(st: System, s: SubId)
    requires Tokens(st)
    ensures SubscriptionPlaces(st, s) <= 1
  {
    hide Tokens, CountMap, WaitMap, SubscribeRequests;
    CountInRequests(st, s);
    CountInConns(st, s);
    CountInQueues(st, s);
  }

  /** In every run, a subscription is in at most one place, at most once. */
  lemma SubscriptionInOnePlace(st: System, s: SubId)
    requires Reachable(st)
    ensures SubscriptionPlaces(st, s) <= 1
  {
    hide Tokens, Conserved, Ordered, ClientsGood, Reachable, SubscriptionPlaces;
    ReachableGood(st);
    OnePlace(st, s);
  }

  // ---------------------------------------------------------------- panics

  /** In every run, the program can only panic because a frame has no destination, because of an invalid ack mode, or
      because a subscription that an ACK or NACK once matched is added to a list again. The other panics cannot happen. */
  lemma PanicsExplained(st: System, e: Event)
    requires Reachable(st) && Step(st, e).Crash?
    ensures var why := Step(st, e).why;
            || why == MissingDestination
            || why.InvalidAckMode?
            || (why.AlreadyListed? && why.s in st.matched)
  {
    hide Good, Reachable, Step;
    ReachableGood(st);
    StepGood(st, e);
  }

  /** The processor adds the subscription to the waiting list of an empty queue, or panics: it panics exactly when an ACK
      or NACK matched this subscription before. */
  lemma WaitingPanicsIff(st: System, s: SubId)
    requires Reachable(st)
    requires st.requests != [] && st.requests[0].op == Subscribe(s) && Known(st, s) && IsQueue(st.subs[s].dest) && QueueOf(st, st.subs[s].dest).stored == []
    ensures Serve(st) == Crash(AlreadyListed(s)) <==> s in st.matched
  {
    hide Conserved, Ordered, ClientsGood, Reachable, IsQueue, ConnsOk, QueuesOk;
    ReachableGood(st);
    assert SubTokens(s, st.subs[s], st.matched) && st.subs[s].at == Requested;
  }

  /** A delivery that needs an acknowledgement and is written goes to the pending list, or panics: it panics exactly when
      an ACK or NACK matched this subscription before. */
  lemma PendingPanicsIff(st: System, c: ConnId)
    requires Reachable(st)
    requires c in st.conns && st.conns[c].channel != [] && Known(st, st.conns[c].channel[0])
             && st.subs[st.conns[c].channel[0]].ack != "auto" && st.subs[st.conns[c].channel[0]].id in st.conns[c].subs
    ensures var s := st.conns[c].channel[0];
            Deliver(st, c, true) == Crash(AlreadyListed(s)) <==> s in st.matched
  {
    hide Conserved, Ordered, ClientsGood, Reachable, Tokens, Stamp, NextMsgId;
    ReachableGood(st);
    ChannelFacts(st, c);
  }

  /** Once matched by an ACK or NACK, a subscription is never in a waiting or pending list again. */
  lemma MatchedNeverListed(st: System, s: SubId)
    requires Reachable(st) && s in st.matched
    ensures (forall d | d in st.queues :: s !in st.queues[d].waiting)
            && (forall c | c in st.conns :: s !in st.conns[c].pending)
  {
    hide Conserved, Ordered, ClientsGood, Reachable;
    ReachableGood(st);
    assert SubTokens(s, st.subs[s], st.matched);
    forall d | d in st.queues ensures s !in st.queues[d].waiting { assert QueueTokens(st.subs, d, st.queues[d]); }
    forall c | c in st.conns ensures s !in st.conns[c].pending { assert ConnTokens(st.subs, c, st.conns[c]); }
  }

  /** msgId is never set: an ACK of any message id acknowledges every pending subscription in client mode, and one in
      client-individual mode is acknowledged only by the id 0. */
  lemma AckIgnoresTheMessageId(st: System, s: SubId, n: nat)
    requires Reachable(st) && s in st.subs
    ensures var sub := st.subs[s];
            && (sub.ack == "client" ==> Matches(sub, n, false))
            && (sub.ack == "client-individual" ==> (Matches(sub, n, false) <==> n == 0))
            && (Matches(sub, n, true) <==> n == 0)
  {
    hide Conserved, Ordered, ClientsGood, Reachable, ConnsOk, QueuesOk, RequestTokens;
    ReachableGood(st);
    assert SubTokens(s, st.subs[s], st.matched);
  }

  /** A frame that is given back always has a queue as its destination, so serving a RequeueOp never panics for lack of
      one and never drops the frame. */
  lemma RequeuesHaveAQueue(st: System, i: nat)
    requires Reachable(st) && i < |st.requests| && st.requests[i].op.Requeue?
    ensures IsQueueFrame(st.requests[i].op.m.frame)
  {
    hide Tokens, Ordered, ClientsGood, Reachable, Places, IsQueueFrame;
    ReachableGood(st);
    assert OpOk(st.entered, st.requests[i].op);
  }

  /** In every run, the processor panics for a missing destination exactly when the next request is an EnqueueOp of a
      frame without one. */
  lemma MissingDestinationIff(st: System)
    requires Reachable(st)
    ensures Serve(st) == Crash(MissingDestination) <==> st.requests != [] && Lost(st.requests[0].op)
  {
    hide Reachable, Find, IsQueue, ServeSubscribe, ServeUnsubscribe, ServeMessage;
    if st.requests != [] {
      if st.requests[0].op.Requeue? { RequeuesHaveAQueue(st, 0); }
      OtherCrashes(st);
    }
  }

  lemma OtherCrashes(st: System)
    requires st.requests != []
    ensures forall s | Known(st, s) :: ServeSubscribe(st, s) != Crash(MissingDestination) && ServeUnsubscribe(st, s) != Crash(MissingDestination)
    ensures forall d, m, front :: ServeMessage(st, d, m, front) != Crash(MissingDestination)
  {
    hide IsQueue;
  }

  /** A SEND outside a transaction, whose receipt can be written, is accepted with one EnqueueOp, and this one is lost,
      so that serving it panics, exactly when the SEND has no destination. */
  lemma SendIsLostIff(st: System, c: ConnId, f: Frame, io: bool, admit: bool)
    requires InLoop(st, c) && st.conns[c].phase == Running && f.command == "SEND"
    requires Find(f.header, "transaction").None? && !ReceiptFails(f, io)
    ensures Receive(st, c, f, io, admit).Next? && c in Receive(st, c, f, io, admit).st.conns
    ensures var out := Receive(st, c, f, io, admit).st.conns[c].outbox;
            |out| == 1 && out[0].Enqueue? && (Lost(out[0]) <==> Destination(f).None?)
  {
    hide Find, Drop, IsQueueFrame;
    FindAfterDrop(f.header, "receipt", "transaction");
    FindAfterDrop(f.header, "receipt", "destination");
  }

  /** A DISCONNECT is answered, and that is all: the connection goes on as before, and the next SEND is accepted. */
  lemma DisconnectGoesOn(st: System, c: ConnId, f: Frame, io: bool, admit: bool, g: Frame, io': bool)
    requires InLoop(st, c) && st.conns[c].phase == Running && f.command == "DISCONNECT"
    requires g.command == "SEND" && Find(g.header, "transaction").None? && !ReceiptFails(g, io')
    ensures Receive(st, c, f, io, admit).Next? && InLoop(Receive(st, c, f, io, admit).st, c)
    ensures var st' := Receive(st, c, f, io, admit).st;
            && st'.conns[c].phase == Running && st'.conns[c].subs == st.conns[c].subs && st'.conns[c].txs == st.conns[c].txs
            && Receive(st', c, g, io', admit).Next? && c in Receive(st', c, g, io', admit).st.conns
            && |Receive(st', c, g, io', admit).st.conns[c].outbox| == 1 && Receive(st', c, g, io', admit).st.conns[c].outbox[0].Enqueue?
  {
    DisconnectQuietly(st, c, f, io, admit);
    hide Receive, Find, ReceiptFails;
    SendIsLostIff(Receive(st, c, f, io, admit).st, c, g, io', admit);
  }

  lemma DisconnectQuietly(st: System, c: ConnId, f: Frame, io: bool, admit: bool)
    requires InLoop(st, c) && st.conns[c].phase == Running && f.command == "DISCONNECT"
    ensures Receive(st, c, f, io, admit).Next? && InLoop(Receive(st, c, f, io, admit).st, c)
    ensures var st' := Receive(st, c, f, io, admit).st;
            st'.conns[c].phase == Running && st'.conns[c].subs == st.conns[c].subs && st'.conns[c].txs == st.conns[c].txs
  {
    hide Find, HandleAck, HandleTx, HandleSubscribe, HandleUnsubscribe, SendBody;
  }

  /** An ACK or NACK is refused for want of a message id exactly when it has neither an ack nor a message-id entry; the id
      entry, which a 1.2 client sends, does not help. */
  lemma AckNeedsIdIff(st: System, c: ConnId, f: Frame, io: bool, nack: bool)
    requires c in st.conns
    ensures HandleAck(st, c, f, io, nack) == Failed(st, f, "missing header: message-id")
            <==> Find(f.header, "ack").None? && Find(f.header, "message-id").None?
  {
    hide Find, ParseUint, Settle, Receipt, StripReceipt, ReceiptFails;
    OtherTexts();
    if AckId(f).Some? && ParseUint(AckId(f).value, UINT64_LIMIT - 1).Some? {
      var st' := Receipt(st, c, f);
      ReceiptKeepsOutbox(st, c, f);
      if c in st'.conns { SettleSilent(st', c, ParseUint(AckId(f).value, UINT64_LIMIT - 1).value, 0, nack); }
    }
  }

  lemma OtherTexts()
    ensures "missing header: message-id" != "invalid syntax" && "missing header: message-id" != "write failed"
            && "missing header: message-id" != "unknown transaction"
  {
    assert |"missing header: message-id"| == 26 && |"unknown transaction"| == 19;
  }

  /** In every run, a COMMIT that is not brought down sends a lost EnqueueOp exactly when the transaction has a SEND
      without a destination. */
  lemma CommitLosesIff(st: System, c: ConnId, f: Frame, io: bool, tx: string)
    requires Reachable(st) && c in st.conns && f.command == "COMMIT"
    requires Find(f.header, "transaction") == Some(tx) && tx in st.conns[c].txs && !ReceiptFails(f, io)
    requires HandleCommit(st, c, f, io).Done?
    ensures var st' := HandleCommit(st, c, f, io).st; var frames := st.conns[c].txs[tx];
            && c in st'.conns && |st.conns[c].outbox| <= |st'.conns[c].outbox|
            && ((exists op :: op in st'.conns[c].outbox[|st.conns[c].outbox|..] && Lost(op))
                <==> exists i :: 0 <= i < |frames| && frames[i].command == "SEND" && Destination(frames[i]).None?)
  {
    hide Reachable, Find, HandleCommit, ReceiptFails, Lost, TxOps, TxPending, PendingOk, Bad, Enqueued, Sends, Destination;
    CommitsAreAtomic(st, c, f, io, tx);
    var ops := TxOps(st.subs, st.conns[c].pending, st.nextRef, st.conns[c].txs[tx]);
    LosesIff(st.subs, st.conns[c].pending, st.nextRef, st.conns[c].txs[tx]);
    assert (st.conns[c].outbox + ops)[|st.conns[c].outbox|..] == ops;
  }

  // ---------------------------------------------------------------- clients

  lemma ReachableConn(st: System, c: ConnId)
    requires Reachable(st) && c in st.conns
    ensures ConnGood(st.subs, st.conns[c])
  {
    hide Inv, Reachable, ConnGood;
    ReachableGood(st);
  }

  /** In every run, a client gets at most as many RECEIPT and ERROR frames with one receipt-id as it sent frames asking
      for that receipt. */
  lemma ReceiptsAnsweredAtMostOnce(st: System, c: ConnId, v: string)
    requires Reachable(st) && c in st.conns
    ensures var k := st.conns[c]; Answers(k.sent, v) <= Asked(k.received, v)
  {
    hide Reachable, TxOk, WritesOk, MessagesOk, Answers, Asked, CountMessages;
    ReachableConn(st, c);
  }

  /** In every run, a frame that asks for a receipt causes exactly one RECEIPT or ERROR with that receipt-id, and any other
      frame none, unless the server panics; only a SUBSCRIBE with a new id and a destination, and an UNSUBSCRIBE of an id
      in use, are not answered. */
  lemma EachFrameAnswered(st: System, c: ConnId, f: Frame, io: bool, admit: bool, v: string)
    requires Reachable(st) && InLoop(st, c)
    ensures Receive(st, c, f, io, admit).Next? ==> AnsweredOnce(st, Receive(st, c, f, io, admit).st, c, f, v)
  {
    hide Reachable, TxOk, WritesOk, MessagesOk, Answers, Asked, CountMessages, AnsweredOnce, Receive;
    ReachableConn(st, c);
    AnsweredExactly(st, c, f, io, admit, v);
  }

  /** In every run, the n-th MESSAGE of a connection carries the identifier n (modulo 2^64), and an ack entry equal to it
      exactly when it was delivered to a queue subscription that acknowledges. */
  lemma MessagesNumbered(st: System, c: ConnId, i: nat)
    requires Reachable(st) && c in st.conns && i < |st.conns[c].sent|
    ensures var sent := st.conns[c].sent;
            MessageOk(st.subs, sent[i], CountMessages(sent[..i + 1]))
  {
    hide Reachable, TxOk, WritesOk, MessageOk, Answers, Asked, CountMessages;
    ReachableConn(st, c);
  }

  /** In every run, no destination has both a waiting subscription and a stored message. */
  lemma WaitingOrStored(st: System, d: string)
    requires Reachable(st)
    ensures var q := QueueOf(st, d); q.waiting == [] || q.stored == []
  {
    hide Conserved, Ordered, ClientsGood, Reachable, ConnsOk, RequestTokens, SubsOk;
    ReachableGood(st);
    if d in st.queues { assert QueueTokens(st.subs, d, st.queues[d]); }
  }

  // ---------------------------------------------------------------- transactions

  lemma TokensPending(st: System, c: ConnId)
    requires Tokens(st) && c in st.conns
    ensures PendingOk(st, c)
  {
    assert ConnTokens(st.subs, c, st.conns[c]);
    hide ConnsOk, QueuesOk, RequestTokens;
  }

  lemma ReceiptPendingOk(st: System, c: ConnId, f: Frame, frames: seq<Frame>)
    requires PendingOk(st, c)
    ensures PendingOk(Receipt(st, c, f), c)
    ensures forall i: nat, s :: Bad(Receipt(st, c, f), c, frames, i, s) <==> Bad(st, c, frames, i, s)
  {
    hide Find, AckNumber;
  }

  /** What COMMIT of an open transaction does: the requests of all its frames in order, or a panic, and the panic exactly when the transaction has an
      ACK and a subscription with an invalid ack mode is pending that no earlier NACK of the transaction takes away. */
  ghost predicate Committed(st: System, c: ConnId, f: Frame, io: bool, tx: string)
    requires PendingOk(st, c) && tx in st.conns[c].txs
  {
    var frames := st.conns[c].txs[tx];
    match HandleCommit(st, c, f, io)
    case Done(st') =>
      && c in st'.conns
      && st'.conns[c].txs == st.conns[c].txs - {tx}
      && st'.conns[c].sent == st.conns[c].sent + ReceiptFor(f)
      && Enqueued(st'.conns[c].outbox) == Enqueued(st.conns[c].outbox) + Sends(frames)
      && AllReplayed(st, st', c, frames)
      && !exists i: nat, s :: Bad(st, c, frames, i, s)
    case Failed(_, _, _) => false
    case Crashed(_) => exists i: nat, s :: Bad(st, c, frames, i, s)
  }

  lemma CommitPanics(st: System, c: ConnId, f: Frame, io: bool, tx: string)
    requires PendingOk(st, c) && TxOk(st.conns[c].txs) && f.command == "COMMIT"
    requires Find(f.header, "transaction") == Some(tx) && tx in st.conns[c].txs && !ReceiptFails(f, io)
    ensures Committed(st, c, f, io, tx)
  {
    hide Find, Replay, Enqueued, Sends, Replayable, ReceiptFails, Receipt, Bad, PendingOk, AllReplayed;
    PendingHasConn(st, c);
    CommitAllOrNothing(st, c, f, io, tx);
    CommitDoesAll(st, c, f, io, tx);
    ReceiptWrote(st, c, f);
    var st' := Receipt(st, c, f);
    var frames := st.conns[c].txs[tx];
    ReceiptPendingOk(st, c, f, frames);
    ReplayPanicsIff(st', c, frames, io);
    ReplayAll(st', c, frames, io);
  }

  /** In every run, a COMMIT of an open transaction whose receipt can be written is all or nothing. */
  lemma CommitsAreAtomic(st: System, c: ConnId, f: Frame, io: bool, tx: string)
    requires Reachable(st) && c in st.conns && f.command == "COMMIT"
    requires Find(f.header, "transaction") == Some(tx) && tx in st.conns[c].txs && !ReceiptFails(f, io)
    ensures PendingOk(st, c) && Committed(st, c, f, io, tx)
  {
    hide Reachable, Tokens, Conserved, Ordered, Find, ReceiptFails, Committed, PendingOk, WritesOk, MessagesOk, Answers, Asked, CountMessages, TxOk;
    ReachableGood(st);
    assert ConnGood(st.subs, st.conns[c]);
    TokensPending(st, c);
    CommitPanics(st, c, f, io, tx);
  }
}
