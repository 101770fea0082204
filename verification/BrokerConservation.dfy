/** No frame is duplicated and none vanishes: in every run of the broker, the places that can hold a
    frame hold each frame that entered a queue exactly once. */
module BrokerConservation {
  import opened Text
  import opened Sequences
  import opened Frames
  import opened Broker
  import opened BrokerTokens
  import opened BrokerFrames
  import opened Totals
  import Queues

  // ---------------------------------------------------------------- the places

  function One(b: bool): nat {
    if b then 1 else 0
  }

  function InOp(op: Op, r: Ref): nat {
    match op
    case Enqueue(m) => One(IsQueueFrame(m.frame) && m.ref == r)
    case Requeue(m, _) => One(m.ref == r)
    case _ => 0
  }

  function InOps(ops: seq<Op>, r: Ref): nat {
    if ops == [] then 0 else InOp(ops[0], r) + InOps(ops[1..], r)
  }

  function InRequests(rs: seq<Request>, r: Ref): nat {
    if rs == [] then 0 else InOp(rs[0].op, r) + InRequests(rs[1..], r)
  }

  function InStored(ms: seq<Msg>, r: Ref): nat {
    if ms == [] then 0 else One(ms[0].ref == r) + InStored(ms[1..], r)
  }

  /** The frame of a subscription that is in a channel or list. */
  function HeldBy(subs: map<SubId, Sub>, s: SubId, r: Ref): nat {
    One(s in subs && subs[s].frame.Some? && subs[s].frame.value.ref == r)
  }

  function HeldIn(subs: map<SubId, Sub>, q: seq<SubId>, r: Ref): nat {
    if q == [] then 0 else HeldBy(subs, q[0], r) + HeldIn(subs, q[1..], r)
  }

  /** Frames in the hands of one connection: in requests it has not sent yet, in its subscription
      channel, waiting for an acknowledgement, or lost in a failed write. */
  function InConn(subs: map<SubId, Sub>, k: Conn, r: Ref): nat {
    InOps(k.outbox, r) + HeldIn(subs, k.channel, r) + HeldIn(subs, k.pending, r) + multiset(k.dropped)[r]
  }

  function StoredMap(queues: map<string, Queues.Queue<SubId, Msg>>, r: Ref): map<string, nat> {
    map d | d in queues :: InStored(queues[d].stored, r)
  }

  function ConnMap(subs: map<SubId, Sub>, conns: map<ConnId, Conn>, r: Ref): map<ConnId, nat> {
    map c | c in conns :: InConn(subs, conns[c], r)
  }

  ghost function StoredTotal(queues: map<string, Queues.Queue<SubId, Msg>>, r: Ref): nat {
    Total(StoredMap(queues, r))
  }

  ghost function ConnTotal(subs: map<SubId, Sub>, conns: map<ConnId, Conn>, r: Ref): nat {
    Total(ConnMap(subs, conns, r))
  }

  /** How often frame r occurs in all the places a frame that entered a queue can be: requests in flight,
      queue storage, the connections, acknowledged, or written to an auto subscriber. */
  ghost function Places(st: System, r: Ref): nat {
    InRequests(st.requests, r) + StoredTotal(st.queues, r) + ConnTotal(st.subs, st.conns, r) + st.acked[r] + st.written[r]
  }

  // ---------------------------------------------------------------- sums over sequences

  lemma {:induction false} InOpsAppend(a: seq<Op>, b: seq<Op>, r: Ref)
    ensures InOps(a + b, r) == InOps(a, r) + InOps(b, r)
  {
    hide InOp;
    if a == [] {
      assert a + b == b;
    } else {
      InOpsAppend(a[1..], b, r);
      assert (a + b)[1..] == a[1..] + b;
    }
  }

  lemma InOpsOne(op: Op, r: Ref)
    ensures InOps([op], r) == InOp(op, r)
  {
    hide InOp;
    assert [op][1..] == [];
  }

  lemma {:induction false} InRequestsAppend(a: seq<Request>, x: Request, r: Ref)
    ensures InRequests(a + [x], r) == InRequests(a, r) + InOp(x.op, r)
  {
    hide InOp;
    if a == [] {
      assert [x][1..] == [] && a + [x] == [x];
    } else {
      InRequestsAppend(a[1..], x, r);
      assert (a + [x])[1..] == a[1..] + [x];
    }
  }

  lemma {:induction false} InStoredAppend(a: seq<Msg>, m: Msg, r: Ref)
    ensures InStored(a + [m], r) == InStored(a, r) + One(m.ref == r)
  {
    if a == [] {
      assert [m][1..] == [] && a + [m] == [m];
    } else {
      InStoredAppend(a[1..], m, r);
      assert (a + [m])[1..] == a[1..] + [m];
    }
  }

  lemma {:induction false} HeldInAppend(subs: map<SubId, Sub>, a: seq<SubId>, b: seq<SubId>, r: Ref)
    ensures HeldIn(subs, a + b, r) == HeldIn(subs, a, r) + HeldIn(subs, b, r)
  {
    hide HeldBy;
    if a == [] {
      assert a + b == b;
    } else {
      HeldInAppend(subs, a[1..], b, r);
      assert (a + b)[1..] == a[1..] + b;
    }
  }

  lemma HeldInOne(subs: map<SubId, Sub>, s: SubId, r: Ref)
    ensures HeldIn(subs, [s], r) == HeldBy(subs, s, r)
  {
    hide HeldBy;
    assert [s][1..] == [];
  }

  lemma HeldInAt(subs: map<SubId, Sub>, q: seq<SubId>, i: nat, r: Ref)
    requires i < |q|
    ensures HeldIn(subs, q, r) == HeldBy(subs, q[i], r) + HeldIn(subs, q[..i] + q[i + 1..], r)
  {
    hide HeldBy;
    assert q == q[..i] + ([q[i]] + q[i + 1..]);
    HeldInAppend(subs, q[..i], [q[i]] + q[i + 1..], r);
    HeldInAppend(subs, [q[i]], q[i + 1..], r);
    HeldInAppend(subs, q[..i], q[i + 1..], r);
    HeldInOne(subs, q[i], r);
  }

  /** A list that does not contain s holds the same frames after a change to s. */
  lemma {:induction false} HeldElsewhere(subs: map<SubId, Sub>, s: SubId, sub': Sub, q: seq<SubId>, r: Ref)
    requires s !in q
    ensures HeldIn(subs[s := sub'], q, r) == HeldIn(subs, q, r)
  {
    if q != [] {
      assert q[0] in q && forall x | x in q[1..] :: x in q;
      HeldElsewhere(subs, s, sub', q[1..], r);
    }
  }

  // ---------------------------------------------------------------- sums over the maps

  lemma StoredUpdate(queues: map<string, Queues.Queue<SubId, Msg>>, d: string, q: Queues.Queue<SubId, Msg>, r: Ref)
    ensures StoredTotal(queues[d := q], r) + (if d in queues then InStored(queues[d].stored, r) else 0)
            == StoredTotal(queues, r) + InStored(q.stored, r)
  {
    hide InStored, Total;
    TotalUpdate(StoredMap(queues, r), d, InStored(q.stored, r));
    assert StoredMap(queues, r)[d := InStored(q.stored, r)] == StoredMap(queues[d := q], r);
  }

  lemma ConnUpdate(subs: map<SubId, Sub>, subs': map<SubId, Sub>, conns: map<ConnId, Conn>, c: ConnId, k': Conn, r: Ref)
    requires forall e | e in conns && e != c :: InConn(subs', conns[e], r) == InConn(subs, conns[e], r)
    ensures ConnTotal(subs', conns[c := k'], r) + (if c in conns then InConn(subs, conns[c], r) else 0)
            == ConnTotal(subs, conns, r) + InConn(subs', k', r)
  {
    hide InConn, Total;
    TotalUpdate(ConnMap(subs, conns, r), c, InConn(subs', k', r));
    assert ConnMap(subs, conns, r)[c := InConn(subs', k', r)] == ConnMap(subs', conns[c := k'], r);
  }

  /** A change to s leaves the other connections' frames alone. */
  lemma OtherConnsHold(st: System, s: SubId, sub': Sub, r: Ref)
    requires ConnsOk(st.subs, st.conns)
    ensures forall e | e in st.conns && (s in st.subs ==> e != st.subs[s].conn) ::
              InConn(st.subs[s := sub'], st.conns[e], r) == InConn(st.subs, st.conns[e], r)
  {
    forall e | e in st.conns && (s in st.subs ==> e != st.subs[s].conn)
      ensures InConn(st.subs[s := sub'], st.conns[e], r) == InConn(st.subs, st.conns[e], r)
    {
      var k := st.conns[e];
      assert ConnTokens(st.subs, e, k);
      HeldElsewhere(st.subs, s, sub', k.channel, r);
      HeldElsewhere(st.subs, s, sub', k.pending, r);
    }
  }

  /** The total over connections after a change to one subscription and its connection. */
  lemma ConnDelta(st: System, s: SubId, sub': Sub, k': Conn, r: Ref)
    requires ConnsOk(st.subs, st.conns) && sub'.conn in st.conns && (s in st.subs ==> st.subs[s].conn == sub'.conn)
    ensures ConnTotal(st.subs[s := sub'], st.conns[sub'.conn := k'], r) + InConn(st.subs, st.conns[sub'.conn], r)
            == ConnTotal(st.subs, st.conns, r) + InConn(st.subs[s := sub'], k', r)
  {
    hide ConnTokens, InConn;
    OtherConnsHold(st, s, sub', r);
    ConnUpdate(st.subs, st.subs[s := sub'], st.conns, sub'.conn, k', r);
  }

  // ---------------------------------------------------------------- changes that move no frame

  lemma {:induction false} HeldSameFrame(subs: map<SubId, Sub>, s: SubId, sub': Sub, q: seq<SubId>, r: Ref)
    requires (if s in subs then subs[s].frame else None) == sub'.frame
    ensures HeldIn(subs[s := sub'], q, r) == HeldIn(subs, q, r)
  {
    if q != [] {
      HeldSameFrame(subs, s, sub', q[1..], r);
    }
  }

  /** The total over connections when s keeps its frame and connection c becomes k'. */
  lemma SameFrameDelta(subs: map<SubId, Sub>, conns: map<ConnId, Conn>, s: SubId, sub': Sub, c: ConnId, k': Conn, r: Ref)
    requires (if s in subs then subs[s].frame else None) == sub'.frame && c in conns
    ensures InConn(subs[s := sub'], k', r) == InConn(subs, k', r)
    ensures ConnTotal(subs[s := sub'], conns, r) == ConnTotal(subs, conns, r)
    ensures ConnTotal(subs[s := sub'], conns[c := k'], r) + InConn(subs, conns[c], r) == ConnTotal(subs, conns, r) + InConn(subs, k', r)
  {
    forall k: Conn ensures InConn(subs[s := sub'], k, r) == InConn(subs, k, r) {
      HeldSameFrame(subs, s, sub', k.channel, r);
      HeldSameFrame(subs, s, sub', k.pending, r);
    }
    hide InConn, Total;
    assert ConnMap(subs[s := sub'], conns, r) == ConnMap(subs, conns, r);
    ConnUpdate(subs, subs[s := sub'], conns, c, k', r);
  }

  lemma ConnAloneDelta(subs: map<SubId, Sub>, conns: map<ConnId, Conn>, c: ConnId, k': Conn, r: Ref)
    requires c in conns
    ensures ConnTotal(subs, conns[c := k'], r) + InConn(subs, conns[c], r) == ConnTotal(subs, conns, r) + InConn(subs, k', r)
  {
    hide InConn, Total;
    ConnUpdate(subs, subs, conns, c, k', r);
  }

  // ---------------------------------------------------------------- the processor

  ghost predicate Kept(st: System, o: Outcome, r: Ref) {
    o.Next? ==> FramesOk(o.st) && Places(o.st, r) == Places(st, r) && o.st.entered == st.entered
  }

  lemma PushPlaces(st: System, s: SubId, m: Msg, listed: bool, r: Ref)
    requires ConnsOk(st.subs, st.conns) && Known(st, s) && st.subs[s].frame.None?
    requires st.subs[s].at == Requested || st.subs[s].at == Waiting
    ensures var st' := PushToChannel(st, s, m, listed);
            ConnTotal(st'.subs, st'.conns, r) == ConnTotal(st.subs, st.conns, r) + One(m.ref == r)
  {
    var st' := PushToChannel(st, s, m, listed);
    var sub' := st'.subs[s];
    var k := st.conns[sub'.conn];
    assert ConnTokens(st.subs, sub'.conn, k);
    HeldElsewhere(st.subs, s, sub', k.channel, r);
    HeldElsewhere(st.subs, s, sub', k.pending, r);
    HeldInAppend(st'.subs, k.channel, [s], r);
    HeldInOne(st'.subs, s, r);
    ConnDelta(st, s, sub', st'.conns[sub'.conn], r);
  }

  lemma PushFrames(st: System, s: SubId, m: Msg, listed: bool)
    requires FramesOk(st) && Known(st, s) && MsgOk(st.entered, m) && Destination(m.frame) == Some(st.subs[s].dest)
    ensures FramesOk(PushToChannel(st, s, m, listed))
  {
    hide RequestFrames, QueueFrames, OpOk, SentOk;
    var st' := PushToChannel(st, s, m, listed);
    var id := st.subs[s].id;
    PutKeepsMessage(m.frame, "subscription", id);
    MsgStays(st.entered, m, ForSubscription(m, id).frame);
    assert ConnFrames(st.entered, st.conns[st.subs[s].conn]);
    FramesMoved(st, st', s, st.subs[s].conn, "");
  }

  /** Popping the head request and changing queue d, before any hand-over. */
  lemma PopFrames(st: System, d: string, q: Queues.Queue<SubId, Msg>)
    requires FramesOk(st) && st.requests != [] && QueueFrames(st.entered, d, q)
    ensures FramesOk(PopRequest(st)) && FramesOk(WithQueue(PopRequest(st), d, q))
  {
    hide OpOk, QueueFrames, SubFrame, ConnFrames;
    assert RequestFrames(st.entered, st.requests[1..]);
  }

  lemma ServedSubscribeKeeps(st: System, s: SubId, r: Ref)
    requires Tokens(st) && FramesOk(st) && st.requests != [] && st.requests[0].op == Subscribe(s) && Known(st, s)
    ensures Kept(st, ServeSubscribe(st, s), r)
  {
    var sub := st.subs[s];
    var q := QueueOf(st, sub.dest);
    assert SubTokens(s, sub, st.matched) && sub.at == Requested;
    assert QueueFrames(st.entered, sub.dest, q);
    assert SubFrame(st.entered, sub);
    if IsQueue(sub.dest) && q.stored != [] {
      ServedStoredKeeps(st, s, r);
    } else {
      ServedWaitKeeps(st, s, r);
    }
  }

  lemma ServedWaitKeeps(st: System, s: SubId, r: Ref)
    requires FramesOk(st) && st.requests != [] && st.requests[0].op == Subscribe(s) && Known(st, s)
    requires IsQueue(st.subs[s].dest) ==> QueueOf(st, st.subs[s].dest).stored == []
    requires st.subs[s].frame.None?
    ensures Kept(st, ServeSubscribe(st, s), r)
  {
    hide ConnTotal, StoredTotal, RequestFrames, QueueFrames, ConnFrames, MsgOk;
    var sub := st.subs[s];
    var q := QueueOf(st, sub.dest);
    match ServeSubscribe(st, s)
    case Crash(_) =>
    case Next(st') =>
      assert QueueFrames(st.entered, sub.dest, q.(waiting := q.waiting + [s])) by { WaitingFrames(st, sub.dest, q.waiting + [s]); }
      PopFrames(st, sub.dest, q.(waiting := q.waiting + [s]));
      SameFrameDelta(st.subs, st.conns, s, st'.subs[s], sub.conn, st.conns[sub.conn], r);
      StoredUpdate(st.queues, sub.dest, q.(waiting := q.waiting + [s]), r);
  }

  lemma WaitingFrames(st: System, d: string, w: seq<SubId>)
    requires FramesOk(st)
    ensures QueueFrames(st.entered, d, QueueOf(st, d).(waiting := w))
  {
  }

  lemma StoredHead(st: System, d: string)
    requires FramesOk(st) && QueueOf(st, d).stored != []
    ensures var q := QueueOf(st, d);
            && MsgOk(st.entered, q.stored[0]) && Destination(q.stored[0].frame) == Some(d)
            && QueueFrames(st.entered, d, q.(stored := q.stored[1..]))
  {
    assert QueueFrames(st.entered, d, QueueOf(st, d));
  }

  lemma WaitingHead(st: System, d: string)
    requires Tokens(st) && QueueOf(st, d).waiting != []
    ensures var s := QueueOf(st, d).waiting[0];
            Known(st, s) && st.subs[s].at == Waiting && st.subs[s].frame.None? && st.subs[s].dest == d
  {
    assert QueueTokens(st.subs, d, QueueOf(st, d));
  }

  lemma ServedStoredKeeps(st: System, s: SubId, r: Ref)
    requires Tokens(st) && FramesOk(st) && st.requests != [] && st.requests[0].op == Subscribe(s) && Known(st, s)
    requires IsQueue(st.subs[s].dest) && QueueOf(st, st.subs[s].dest).stored != []
    requires st.subs[s].frame.None? && st.subs[s].at == Requested
    ensures Kept(st, ServeSubscribe(st, s), r)
  {
    hide ConnTotal, StoredTotal, FramesOk, ConnsOk, QueuesOk, SubsOk, RequestTokens, QueueFrames, MsgOk, Destination, IsQueue, PushToChannel;
    var d := st.subs[s].dest;
    var q := QueueOf(st, d);
    var q' := q.(stored := q.stored[1..]);
    var st1 := WithQueue(PopRequest(st), d, q');
    StoredHead(st, d);
    PopFrames(st, d, q');
    StoredUpdate(st.queues, d, q', r);
    PushPlaces(st1, s, q.stored[0], st.subs[s].listed, r);
    PushFrames(st1, s, q.stored[0], st.subs[s].listed);
    PushRest(st1, s, q.stored[0], st.subs[s].listed);
  }

  lemma PushRest(st: System, s: SubId, m: Msg, listed: bool)
    requires Known(st, s)
    ensures var st' := PushToChannel(st, s, m, listed);
            && st'.requests == st.requests && st'.queues == st.queues && st'.entered == st.entered
            && st'.acked == st.acked && st'.written == st.written
  {
  }

  lemma ServedUnsubscribeKeeps(st: System, s: SubId, r: Ref)
    requires FramesOk(st) && st.requests != [] && st.requests[0].op == Unsubscribe(s) && Known(st, s)
    ensures Kept(st, ServeUnsubscribe(st, s), r)
  {
    hide ConnTotal, StoredTotal, RequestFrames, QueueFrames, ConnFrames, MsgOk;
    var sub := st.subs[s];
    var q := QueueOf(st, sub.dest);
    var q' := Queues.Unsubscribe(q, s).queue;
    var st' := ServeUnsubscribe(st, s).st;
    WaitingFrames(st, sub.dest, q'.waiting);
    PopFrames(st, sub.dest, q');
    SameFrameDelta(st.subs, st.conns, s, st'.subs[s], sub.conn, st.conns[sub.conn], r);
    StoredUpdate(st.queues, sub.dest, q', r);
  }

  lemma ServedMessageKeeps(st: System, d: string, m: Msg, front: bool, r: Ref)
    requires Tokens(st) && FramesOk(st) && st.requests != []
    requires InOp(st.requests[0].op, r) == One(m.ref == r) && MsgOk(st.entered, m) && Destination(m.frame) == Some(d)
    ensures Kept(st, ServeMessage(st, d, m, front), r)
  {
    var q := QueueOf(st, d);
    if q.waiting == [] {
      ServedStoreKeeps(st, d, m, front, r);
    } else {
      ServedHandKeeps(st, d, m, front, r);
    }
  }

  lemma ServedStoreKeeps(st: System, d: string, m: Msg, front: bool, r: Ref)
    requires FramesOk(st) && st.requests != [] && QueueOf(st, d).waiting == []
    requires InOp(st.requests[0].op, r) == One(m.ref == r) && MsgOk(st.entered, m) && Destination(m.frame) == Some(d)
    ensures Kept(st, ServeMessage(st, d, m, front), r)
  {
    hide ConnTotal, StoredTotal, RequestFrames, ConnFrames, SubFrame, MsgOk, Destination, InOp;
    var q := QueueOf(st, d);
    var q' := q.(stored := if front then [m] + q.stored else q.stored + [m]);
    assert QueueFrames(st.entered, d, q);
    assert QueueFrames(st.entered, d, q');
    PopFrames(st, d, q');
    StoredUpdate(st.queues, d, q', r);
    InStoredAppend(q.stored, m, r);
    assert ([m] + q.stored)[1..] == q.stored;
  }

  lemma ServedHandKeeps(st: System, d: string, m: Msg, front: bool, r: Ref)
    requires Tokens(st) && FramesOk(st) && st.requests != [] && QueueOf(st, d).waiting != []
    requires InOp(st.requests[0].op, r) == One(m.ref == r) && MsgOk(st.entered, m) && Destination(m.frame) == Some(d)
    ensures Kept(st, ServeMessage(st, d, m, front), r)
  {
    hide ConnTotal, StoredTotal, FramesOk, ConnsOk, QueuesOk, SubsOk, RequestTokens, QueueFrames, MsgOk, Destination, IsQueue, PushToChannel, InOp, One;
    var q := QueueOf(st, d);
    var q' := q.(waiting := q.waiting[1..]);
    var s := q.waiting[0];
    var st1 := WithQueue(PopRequest(st), d, q');
    WaitingHead(st, d);
    WaitingFrames(st, d, q'.waiting);
    PopFrames(st, d, q');
    StoredUpdate(st.queues, d, q', r);
    PushPlaces(st1, s, m, false, r);
    PushFrames(st1, s, m, false);
    PushRest(st1, s, m, false);
  }

  lemma ServedKeeps(st: System, r: Ref)
    requires Tokens(st) && FramesOk(st)
    ensures Kept(st, Serve(st), r)
  {
    if st.requests != [] {
      assert OpOk(st.entered, st.requests[0].op);
      hide Tokens, FramesOk, Kept, ServeSubscribe, ServeUnsubscribe, ServeMessage, Places, IsQueue;
      match st.requests[0].op
      case Subscribe(s) => if Known(st, s) { ServedSubscribeKeeps(st, s, r); } else { NoChange(st, r); }
      case Unsubscribe(s) => if Known(st, s) { ServedUnsubscribeKeeps(st, s, r); } else { NoChange(st, r); }
      case Enqueue(m) =>
        if IsQueueFrame(m.frame) { ServedMessageKeeps(st, Destination(m.frame).value, m, false, r); } else { PopKeeps(st, r); }
      case Requeue(m, _) => ServedMessageKeeps(st, Destination(m.frame).value, m, true, r);
      case Connected => PopKeeps(st, r);
      case Disconnected => PopKeeps(st, r);
    } else {
      NoChange(st, r);
    }
  }

  lemma NoChange(st: System, r: Ref)
    requires FramesOk(st)
    ensures Kept(st, Next(st), r)
  {
    hide FramesOk, Places;
  }

  lemma PopKeeps(st: System, r: Ref)
    requires FramesOk(st) && st.requests != [] && InOp(st.requests[0].op, r) == 0
    ensures Kept(st, Next(PopRequest(st)), r)
  {
    hide StoredTotal, ConnTotal, InOp;
    PopFrames(st, "", EMPTY_QUEUE);
  }

  // ---------------------------------------------------------------- one connection

  /** Only the parts of connection c that name no frame change. */
  lemma QuietKeeps(st: System, c: ConnId, k': Conn, r: Ref)
    requires FramesOk(st) && c in st.conns && SameTokens(st.conns[c], k') && k'.dropped == st.conns[c].dropped
    requires ConnFrames(st.entered, k')
    ensures Kept(st, Next(WithConn(st, c, k')), r)
  {
    hide ConnTotal, StoredTotal, RequestFrames, QueueFrames, SubFrame, ConnFrames;
    ConnAloneDelta(st.subs, st.conns, c, k', r);
  }

  lemma EmitKeeps(st: System, c: ConnId, op: Op, r: Ref)
    requires FramesOk(st) && c in st.conns && OpOk(st.entered, op)
    ensures FramesOk(Emit(st, c, op)) && Places(Emit(st, c, op), r) == Places(st, r) + InOp(op, r)
  {
    hide ConnTotal, StoredTotal, FramesOk, InOp, OpOk;
    var k := st.conns[c];
    InOpsAppend(k.outbox, [op], r);
    InOpsOne(op, r);
    ConnAloneDelta(st.subs, st.conns, c, k.(outbox := k.outbox + [op]), r);
    EmitFrames(st, c, op);
  }

  lemma SubmitKeeps(st: System, c: ConnId, f: Frame, r: Ref)
    requires FramesOk(st) && c in st.conns && Places(st, r) == One(r in st.entered)
    ensures FramesOk(Submit(st, c, f)) && Places(Submit(st, c, f), r) == One(r in Submit(st, c, f).entered)
  {
    assert st.nextRef !in st.entered;
    hide ConnTotal, StoredTotal, FramesOk;
    SubmitFrames(st, c, f);
    var op := Enqueue(Msg(st.nextRef, f.(command := "MESSAGE")));
    var k := st.conns[c];
    InOpsAppend(k.outbox, [op], r);
    InOpsOne(op, r);
    ConnAloneDelta(st.subs, st.conns, c, k.(outbox := k.outbox + [op]), r);
  }

  lemma NewSubKeeps(st: System, c: ConnId, id: string, dest: string, ack: string, r: Ref)
    requires FramesOk(st) && c in st.conns && st.nextSub !in st.subs
    ensures Kept(st, Next(NewSub(st, c, id, dest, ack)), r)
  {
    hide ConnTotal, StoredTotal, RequestFrames, QueueFrames, MsgOk, SentOk;
    var k := st.conns[c];
    var st' := NewSub(st, c, id, dest, ack);
    assert ConnFrames(st.entered, k);
    FramesMoved(st, st', st.nextSub, c, "");
    InOpsAppend(k.outbox, [Subscribe(st.nextSub)], r);
    InOpsOne(Subscribe(st.nextSub), r);
    SameFrameDelta(st.subs, st.conns, st.nextSub, st'.subs[st.nextSub], c, st'.conns[c], r);
  }

  lemma EndSubKeeps(st: System, c: ConnId, id: string, r: Ref)
    requires FramesOk(st) && c in st.conns && id in st.conns[c].subs
    ensures Kept(st, Next(EndSub(st, c, id)), r)
  {
    hide ConnTotal, StoredTotal, RequestFrames, QueueFrames, SubFrame, SentOk;
    var k := st.conns[c];
    var st' := EndSub(st, c, id);
    assert ConnFrames(st.entered, k);
    assert ConnFrames(st.entered, st'.conns[c]);
    InOpsAppend(k.outbox, [Unsubscribe(k.subs[id])], r);
    InOpsOne(Unsubscribe(k.subs[id]), r);
    ConnAloneDelta(st.subs, st.conns, c, st'.conns[c], r);
  }

  /** The frames of subscription s and connection c after the connection dealt with s. */
  lemma ConnFramesMoved(st: System, st': System, s: SubId, c: ConnId)
    requires FramesOk(st) && st'.entered == st.entered && st'.nextRef == st.nextRef
    requires s in st.subs && c in st.conns && s in st'.subs && c in st'.conns
    requires st'.subs == st.subs[s := st'.subs[s]] && st'.conns == st.conns[c := st'.conns[c]]
    requires st'.queues == st.queues && st'.requests == st.requests
    requires SubFrame(st.entered, st'.subs[s]) && ConnFrames(st.entered, st'.conns[c])
    ensures FramesOk(st')
  {
    hide RequestFrames, QueueFrames, SubFrame, ConnFrames;
  }

  /** Emitting operations that carry only good frames, and writing good frames. */
  lemma ConnFramesExtended(entered: map<Ref, Frame>, k: Conn, k': Conn)
    requires ConnFrames(entered, k) && |k.outbox| <= |k'.outbox| && |k.sent| <= |k'.sent|
    requires k'.outbox[..|k.outbox|] == k.outbox && k'.sent[..|k.sent|] == k.sent
    requires forall i | |k.outbox| <= i < |k'.outbox| :: OpOk(entered, k'.outbox[i])
    requires forall i | |k.sent| <= i < |k'.sent| :: SentOk(entered, k'.sent[i])
    ensures ConnFrames(entered, k')
  {
    hide OpOk, SentOk;
    forall i | 0 <= i < |k'.outbox| ensures OpOk(entered, k'.outbox[i]) {
      if i < |k.outbox| { assert k'.outbox[i] == k'.outbox[..|k.outbox|][i] == k.outbox[i]; }
    }
    forall i | 0 <= i < |k'.sent| ensures SentOk(entered, k'.sent[i]) {
      if i < |k.sent| { assert k'.sent[i] == k'.sent[..|k.sent|][i] == k.sent[i]; }
    }
  }

  lemma SettledOps(k: Conn, s: SubId, m: Msg, requeue: bool, r: Ref)
    ensures InOps(k.outbox + (if requeue then [Requeue(m, false)] else []) + [Subscribe(s)], r)
            == InOps(k.outbox, r) + if requeue then One(m.ref == r) else 0
  {
    var ops := if requeue then [Requeue(m, false)] else [];
    InOpsAppend(k.outbox + ops, [Subscribe(s)], r);
    InOpsOne(Subscribe(s), r);
    InOpsAppend(k.outbox, ops, r);
    InOpsOne(Requeue(m, false), r);
  }

  lemma SettleAtFrames(st: System, c: ConnId, i: nat, requeue: bool)
    requires FramesOk(st) && c in st.conns && i < |st.conns[c].pending|
    requires Known(st, st.conns[c].pending[i]) && st.subs[st.conns[c].pending[i]].frame.Some?
    ensures FramesOk(SettleAt(st, c, i, requeue))
  {
    hide RequestFrames, QueueFrames, MsgOk, Destination, SentOk;
    var k := st.conns[c];
    var st' := SettleAt(st, c, i, requeue);
    assert SubFrame(st.entered, st.subs[k.pending[i]]) && ConnFrames(st.entered, k);
    ConnFramesExtended(st.entered, k, st'.conns[c]);
    ConnFramesMoved(st, st', k.pending[i], c);
  }

  lemma SettleAtKeeps(st: System, c: ConnId, i: nat, requeue: bool, r: Ref)
    requires Tokens(st) && FramesOk(st) && c in st.conns && i < |st.conns[c].pending|
    ensures Known(st, st.conns[c].pending[i]) && st.subs[st.conns[c].pending[i]].frame.Some?
    ensures Kept(st, Next(SettleAt(st, c, i, requeue)), r)
  {
    hide ConnTotal, StoredTotal, FramesOk, QueuesOk, SubsOk, RequestTokens, ConnTokens;
    PendingFacts(st, c, i);
    SettleAtFrames(st, c, i, requeue);
    var k := st.conns[c];
    var s := k.pending[i];
    var st' := SettleAt(st, c, i, requeue);
    var sub' := st'.subs[s];
    NotHeld(st, c, s, k.pending[..i] + k.pending[i + 1..]);
    HeldInAt(st.subs, k.pending, i, r);
    HeldElsewhere(st.subs, s, sub', k.channel, r);
    HeldElsewhere(st.subs, s, sub', k.pending[..i] + k.pending[i + 1..], r);
    SettledOps(k, s, st.subs[s].frame.value, requeue, r);
    ConnDelta(st, s, sub', st'.conns[c], r);
  }

  /** A pending subscription is not in the channel, nor in the rest of the pending list. */
  lemma NotHeld(st: System, c: ConnId, s: SubId, rest: seq<SubId>)
    requires Tokens(st) && c in st.conns && s in st.conns[c].pending
    requires exists i :: 0 <= i < |st.conns[c].pending| && st.conns[c].pending[i] == s
                         && rest == st.conns[c].pending[..i] + st.conns[c].pending[i + 1..]
    ensures s !in st.conns[c].channel && s !in rest
  {
    var k := st.conns[c];
    assert ConnTokens(st.subs, c, k);
    var i :| 0 <= i < |k.pending| && k.pending[i] == s && rest == k.pending[..i] + k.pending[i + 1..];
    RemovedAt(k.pending, i);
  }

  lemma NotPending(st: System, c: ConnId)
    requires Tokens(st) && c in st.conns && st.conns[c].channel != []
    ensures var s := st.conns[c].channel[0]; s !in st.conns[c].channel[1..] && s !in st.conns[c].pending
  {
    assert ConnTokens(st.subs, c, st.conns[c]);
  }

  lemma GiveBackKeeps(st: System, c: ConnId, closing: bool, r: Ref)
    requires Tokens(st) && FramesOk(st) && c in st.conns && st.conns[c].channel != []
    ensures Known(st, st.conns[c].channel[0]) && st.subs[st.conns[c].channel[0]].frame.Some?
    ensures Kept(st, Next(GiveBack(st, c, closing)), r)
  {
    hide ConnTotal, StoredTotal, FramesOk, ConnsOk, QueuesOk, SubsOk, RequestTokens;
    ChannelFacts(st, c);
    var k := st.conns[c];
    var s := k.channel[0];
    var st' := GiveBack(st, c, closing);
    GiveBackFrames(st, st', c, s, Requeue(st.subs[s].frame.value, closing));
    InOpsAppend(k.outbox, [Requeue(st.subs[s].frame.value, closing)], r);
    InOpsOne(Requeue(st.subs[s].frame.value, closing), r);
    SameFrameDelta(st.subs, st.conns, s, st'.subs[s], c, st'.conns[c], r);
  }

  /** The frame of s goes back to the processor. */
  lemma GiveBackFrames(st: System, st': System, c: ConnId, s: SubId, op: Op)
    requires FramesOk(st) && c in st.conns && s in st.subs && st.subs[s].frame.Some?
    requires op.Requeue? && op.m == st.subs[s].frame.value
    requires s in st'.subs && c in st'.conns && st'.subs[s].frame == st.subs[s].frame && st'.subs[s].dest == st.subs[s].dest
    requires st'.subs == st.subs[s := st'.subs[s]] && st'.conns == st.conns[c := st'.conns[c]]
    requires st'.queues == st.queues && st'.requests == st.requests && st'.entered == st.entered && st'.nextRef == st.nextRef
    requires st'.conns[c].outbox == st.conns[c].outbox + [op] && st'.conns[c].sent == st.conns[c].sent
    ensures FramesOk(st')
  {
    hide RequestFrames, QueueFrames, MsgOk, Destination, SentOk;
    assert SubFrame(st.entered, st.subs[s]) && ConnFrames(st.entered, st.conns[c]);
    ConnFramesExtended(st.entered, st.conns[c], st'.conns[c]);
    ConnFramesMoved(st, st', s, c);
  }

  lemma GiveBackPendingKeeps(st: System, c: ConnId, r: Ref)
    requires Tokens(st) && FramesOk(st) && c in st.conns && st.conns[c].pending != []
    ensures Known(st, st.conns[c].pending[0]) && st.subs[st.conns[c].pending[0]].frame.Some?
    ensures Kept(st, Next(GiveBackPending(st, c)), r)
  {
    hide ConnTotal, StoredTotal, FramesOk, ConnsOk, QueuesOk, SubsOk, RequestTokens;
    PendingFacts(st, c, 0);
    var k := st.conns[c];
    var s := k.pending[0];
    var st' := GiveBackPending(st, c);
    GiveBackFrames(st, st', c, s, Requeue(st.subs[s].frame.value, true));
    InOpsAppend(k.outbox, [Requeue(st.subs[s].frame.value, true)], r);
    InOpsOne(Requeue(st.subs[s].frame.value, true), r);
    SameFrameDelta(st.subs, st.conns, s, st'.subs[s], c, st'.conns[c], r);
  }

  lemma DeliverFrames(st: System, st': System, c: ConnId, s: SubId, f: Frame)
    requires FramesOk(st) && c in st.conns && s in st.subs && st.subs[s].frame.Some? && s in st'.subs && c in st'.conns
    requires SameMessage(st.subs[s].frame.value.frame, f) && Destination(f) == Destination(st.subs[s].frame.value.frame)
    requires st'.subs[s].dest == st.subs[s].dest
    requires st'.subs[s].frame == None || st'.subs[s].frame == st.subs[s].frame || st'.subs[s].frame == Some(Msg(st.subs[s].frame.value.ref, f))
    requires st'.subs == st.subs[s := st'.subs[s]] && st'.conns == st.conns[c := st'.conns[c]]
    requires st'.queues == st.queues && st'.requests == st.requests && st'.entered == st.entered && st'.nextRef == st.nextRef
    requires st'.conns[c].outbox == st.conns[c].outbox || st'.conns[c].outbox == st.conns[c].outbox + [Subscribe(s)]
    requires st'.conns[c].sent == st.conns[c].sent + [Sent(f, Some(Delivery(s, st.subs[s].frame.value.ref)))]
    ensures FramesOk(st')
  {
    hide RequestFrames, QueueFrames;
    assert SubFrame(st.entered, st.subs[s]) && ConnFrames(st.entered, st.conns[c]);
    MsgStays(st.entered, st.subs[s].frame.value, f);
    ConnFramesExtended(st.entered, st.conns[c], st'.conns[c]);
    ConnFramesMoved(st, st', s, c);
  }

  lemma DeliverKeeps(st: System, c: ConnId, io: bool, r: Ref)
    requires Tokens(st) && FramesOk(st) && c in st.conns && st.conns[c].channel != []
    ensures Kept(st, Deliver(st, c, io), r)
  {
    hide ConnTotal, StoredTotal, FramesOk, QueuesOk, SubsOk, RequestTokens, ConnTokens, Stamp, NextMsgId, Destination, SameMessage;
    ChannelFacts(st, c);
    NotPending(st, c);
    GiveBackKeeps(st, c, false, r);
    var k := st.conns[c];
    var s := k.channel[0];
    var m := st.subs[s].frame.value;
    var f := Stamp(m.frame, NextMsgId(k.lastMsgId, m.frame), st.subs[s].ack == "auto");
    StampKeepsMessage(m.frame, NextMsgId(k.lastMsgId, m.frame), st.subs[s].ack == "auto");
    match Deliver(st, c, io)
    case Crash(_) =>
    case Next(st') =>
      if st.subs[s].id in k.subs {
        DeliverFrames(st, st', c, s, f);
        InOpsAppend(k.outbox, [Subscribe(s)], r);
        InOpsOne(Subscribe(s), r);
        HeldElsewhere(st.subs, s, st'.subs[s], k.channel[1..], r);
        HeldElsewhere(st.subs, s, st'.subs[s], k.pending, r);
        HeldInAppend(st'.subs, k.pending, [s], r);
        HeldInOne(st'.subs, s, r);
        ConnDelta(st, s, st'.subs[s], st'.conns[c], r);
      }
  }

  lemma FlushKeeps(st: System, c: ConnId, r: Ref)
    requires Tokens(st) && FramesOk(st) && c in st.conns && st.conns[c].outbox != []
    ensures Kept(st, Next(Flush(st, c)), r)
  {
    hide ConnTotal, StoredTotal, ConnsOk, QueuesOk, SubsOk, RequestTokens, QueueFrames, OpOk, SentOk, InOp, MsgOk;
    var k := st.conns[c];
    var st' := Flush(st, c);
    var op := k.outbox[0];
    assert ConnFrames(st.entered, k);
    assert ConnFrames(st.entered, st'.conns[c]) && RequestFrames(st.entered, st'.requests);
    InRequestsAppend(st.requests, Request(c, op), r);
    if op.Subscribe? && op.s in st.subs {
      assert SubFrame(st.entered, st.subs[op.s]);
      FramesMoved(st, st', op.s, c, "");
      SameFrameDelta(st.subs, st.conns, op.s, st'.subs[op.s], c, st'.conns[c], r);
    } else {
      ConnAloneDelta(st.subs, st.conns, c, st'.conns[c], r);
    }
  }
}
