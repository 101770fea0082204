/** A closing connection never gets its own messages back: once the processor reaches the first frame that cleanupConn gave
    back, or the DisconnectedOp, no queue hands a frame to a subscription of that connection again, whatever happens in the
    rest of the run. And the order in which the frames are given back. */
module BrokerClosing {
  import opened Text
  import opened Sequences
  import opened Frames
  import opened Broker
  import opened BrokerTokens
  import opened BrokerCleanup
  import opened BrokerRuns
  import opened BrokerAcks
  import Queues

  /** No queue can hand a frame to a subscription of c, now or later. A subscription that was subscribed
      again after it was unsubscribed (an id was used twice, or a frame of an ended subscription was
      acknowledged) is exempt. */
  ghost predicate Away(st: System, c: ConnId) {
    && c in st.conns && !Early(st.conns[c].phase)
    && forall s | s in st.subs && st.subs[s].conn == c && s !in st.revived :: !Exposed(st, s)
  }

  /** When a frame given back by the cleanup of c, or its DisconnectedOp, is the next request, every UnsubscribeOp of c has
      been served. */
  lemma AwayAtHead(st: System, c: ConnId)
    requires Inv(st) && st.requests != [] && st.requests[0].from == c && IsClosing(st.requests[0].op)
    ensures Away(st, c)
  {
    hide Tokens, Conserved;
    assert OrderedConn(st, c);
    var q := Stream(st, c);
    assert q[0] == st.requests[0].op;
    forall s | s in st.subs && st.subs[s].conn == c && s !in st.revived ensures !Exposed(st, s) {
      assert OrderedSub(st, s) && !Live(st, s);
      NotCovered(q, s);
    }
  }

  lemma NotCovered(q: seq<Op>, s: SubId)
    requires q != [] && IsClosing(q[0])
    ensures !Covered(q, s)
  {
  }

  // ---------------------------------------------------------------- every event keeps it

  lemma ServeAway(st: System, c: ConnId)
    requires Inv(st) && Away(st, c) && Serve(st).Next?
    ensures Away(Serve(st).st, c)
  {
    hide Tokens, Conserved, Ordered, Serve, WaitingShrinks;
    ServeShrinks(st);
    var st' := Serve(st).st;
    if st' != st {
      forall s | s in st'.subs && st'.subs[s].conn == c && s !in st'.revived ensures !Exposed(st', s) {
        ServedStaysAway(st, st', c, s);
      }
    }
  }

  lemma ServedStaysAway(st: System, st': System, c: ConnId, s: SubId)
    requires Tokens(st) && c in st.conns && c in st'.conns && s in st.subs && s in st'.subs && st.subs[s].conn == c && !Exposed(st, s)
    requires st.requests != [] && SameClients(st, st') && WaitingShrinks(st, st', st.requests[0].op) && st'.requests == st.requests[1..]
    ensures Known(st', s) && !Exposed(st', s)
  {
    hide ConnsOk, QueuesOk, SubsOk;
    StreamPop(st, st', c);
    assert Subscribe(s) !in Stream(st, c) && Subscribe(s) !in Stream(st', c);
    if st.requests[0].from == c {
      assert Stream(st, c)[0] == st.requests[0].op;
    }
    assert st.requests[0].op != Subscribe(s);
  }

  lemma FlushAway(st: System, e: ConnId, c: ConnId)
    requires Away(st, c) && e in st.conns && st.conns[e].outbox != []
    ensures Away(Flush(st, e), c)
  {
    var st' := Flush(st, e);
    MineAppend(st.requests, Request(e, st.conns[e].outbox[0]), c);
    assert Stream(st', c) == Stream(st, c);
    forall s | s in st'.subs && st'.subs[s].conn == c && s !in st'.revived ensures !Exposed(st', s) {
      assert !Exposed(st, s);
    }
  }

  /** Another connection acts. */
  lemma LocalAway(st: System, st': System, e: ConnId, c: ConnId)
    requires Away(st, c) && Local(st, st', e) && e != c
    ensures Away(st', c)
  {
    assert Stream(st', c) == Stream(st, c);
    forall s | s in st'.subs && st'.subs[s].conn == c && s !in st'.revived ensures !Exposed(st', s) {
      assert !Exposed(st, s);
    }
  }

  /** Connection c itself acts: it sends no SubscribeOp. */
  lemma ActedAway(st: System, st': System, c: ConnId, ops: seq<Op>)
    requires Away(st, c) && Acted(st, st', c, ops) && !Early(st'.conns[c].phase)
    requires forall i | 0 <= i < |ops| :: !ops[i].Subscribe?
    requires forall s | s in st'.subs :: s in st.subs
    ensures Away(st', c)
  {
    assert Stream(st', c) == Stream(st, c) + ops;
    forall s | s in st'.subs && st'.subs[s].conn == c && s !in st'.revived ensures !Exposed(st', s) {
      assert !Exposed(st, s);
    }
  }

  lemma DrainAway(st: System, c: ConnId)
    requires Inv(st) && Away(st, c) && st.conns[c].channel != [] && DrainOne(st, c).Next?
    ensures Away(DrainOne(st, c).st, c)
  {
    hide Inv, Away;
    AwayIsLate(st, c);
    LateHasNoSubs(st, c);
    ActedAway(st, DrainOne(st, c).st, c, [Requeue(st.subs[st.conns[c].channel[0]].frame.value, true)]);
  }

  lemma GiveBackAway(st: System, c: ConnId)
    requires Inv(st) && Away(st, c) && st.conns[c].pending != []
    requires Known(st, st.conns[c].pending[0]) && st.subs[st.conns[c].pending[0]].frame.Some?
    ensures Away(GiveBackPending(st, c), c)
  {
    hide Inv, Away;
    AwayIsLate(st, c);
    LateHasNoSubs(st, c);
    ActedAway(st, GiveBackPending(st, c), c, [Requeue(st.subs[st.conns[c].pending[0]].frame.value, true)]);
  }

  lemma AwayIsLate(st: System, c: ConnId)
    requires Away(st, c)
    ensures c in st.conns && !Early(st.conns[c].phase)
  {
  }

  lemma CloseAway(st: System, c: ConnId, id: string)
    requires Inv(st) && Away(st, c) && CloseStep(st, c, id).Next?
    ensures Away(CloseStep(st, c, id).st, c)
  {
    hide Inv, Away, DrainOne, GiveBackPending;
    AwayIsLate(st, c);
    LateHasNoSubs(st, c);
    var k, st' := st.conns[c], CloseStep(st, c, id).st;
    if (k.phase == Draining || k.phase == LastDrain) && k.channel != [] {
      DrainAway(st, c);
    } else if k.phase == Requeuing && k.pending != [] {
      GiveBackAway(st, c);
    } else if k.phase == Draining {
      ActedAway(st, st', c, [Disconnected]);
    } else {
      assert k.outbox + [] == k.outbox;
      ActedAway(st, st', c, []);
    }
  }

  lemma TopicAway(st: System, e: ConnId, f: Frame, c: ConnId)
    requires Inv(st) && Away(st, c) && e in st.conns
    ensures Away(WithConn(st, e, st.conns[e].(writes := st.conns[e].writes + [f])), c)
  {
    hide Inv, Away, Local;
    AwayIsLate(st, c);
    LateHasNoSubs(st, c);
    var st' := WithConn(st, e, st.conns[e].(writes := st.conns[e].writes + [f]));
    if e == c {
      assert st.conns[c].outbox + [] == st.conns[c].outbox;
      ActedAway(st, st', c, []);
    } else {
      LocalConn(st, st', e);
      LocalAway(st, st', e, c);
    }
  }

  lemma AcceptAway(st: System, e: ConnId, c: ConnId)
    requires Away(st, c) && e !in st.conns
    requires Inv(st)
    ensures Away(WithConn(st, e, EMPTY_CONN), c)
  {
    hide Tokens, Conserved, Ordered;
    SubsKnown(st);
    var st' := WithConn(st, e, EMPTY_CONN);
    assert Stream(st', c) == Stream(st, c);
    forall s | s in st'.subs && st'.subs[s].conn == c && s !in st'.revived ensures !Exposed(st', s) {
      assert !Exposed(st, s);
    }
  }

  lemma StepAway(st: System, e: Event, c: ConnId)
    requires Inv(st) && Away(st, c) && Step(st, e).Next?
    ensures Away(Step(st, e).st, c)
  {
    hide Inv, Away, Local, Serve, Flush, Receive, Deliver, WriteTopicFrame, CloseStep, Find;
    AwayIsLate(st, c);
    match e
    case Accept(d) => if d !in st.conns { AcceptAway(st, d, c); }
    case ServeNext => ServeAway(st, c);
    case FlushNext(d) => if d in st.conns && st.conns[d].outbox != [] { FlushAway(st, d, c); }
    case ReceiveFrame(d, f, io, admit) => if InLoop(st, d) { ReceiveGood(st, d, f, io, admit); LocalAway(st, Step(st, e).st, d, c); }
    case ReadClosed(d) => if InLoop(st, d) { LocalConn(st, Exit(st, d), d); LocalAway(st, Exit(st, d), d, c); }
    case DeliverNext(d, io) =>
      if InLoop(st, d) && st.conns[d].channel != [] { DeliverGood(st, d, io); LocalAway(st, Step(st, e).st, d, c); }
    case WriteNext(d, io) =>
      if InLoop(st, d) && st.conns[d].writes != [] { WriteTopicGood(st, d, io); LocalAway(st, Step(st, e).st, d, c); }
    case HeartBeat(d, io) => if InLoop(st, d) { LocalConn(st, Exit(st, d), d); LocalAway(st, Exit(st, d), d, c); }
    case TopicFrame(d, f) => if d in st.conns { TopicAway(st, d, f, c); }
    case Close(d, id) =>
      if d in st.conns && st.conns[d].outbox == [] {
        if d == c {
          CloseAway(st, c, id);
        } else {
          CloseGood(st, d, id);
          LocalAway(st, CloseStep(st, d, id).st, d, c);
        }
      }
  }

  lemma {:induction false} PathAway(states: seq<System>, events: seq<Event>, c: ConnId)
    requires Path(states, events) && Inv(states[0]) && Away(states[0], c)
    ensures Inv(states[|events|]) && Away(states[|events|], c)
    decreases |events|
  {
    hide Inv, Away, Step;
    if events != [] {
      var n := |events| - 1;
      PathPrefix(states, events);
      PathAway(states[..n + 1], events[..n], c);
      assert Step(states[n], events[n]) == Next(states[n + 1]);
      StepAway(states[n], events[n], c);
      StepInv(states[n], events[n]);
    }
  }

  lemma LeadsAway(st: System, st': System, c: ConnId)
    requires Inv(st) && Away(st, c) && Leads(st, st')
    ensures Inv(st') && Away(st', c)
  {
    hide Inv, Away, Step;
    var states, events :| Path(states, events) && states[0] == st && states[|events|] == st';
    PathAway(states, events, c);
  }

  // ---------------------------------------------------------------- what it means

  /** The frame held by s, and its place in the channel of c, are not changed by the processor. */
  predicate NotServed(st: System, st': System, s: SubId) {
    s in st.subs && s in st'.subs && st'.subs[s].frame == st.subs[s].frame
  }

  lemma HandOverElsewhere(st: System, st1: System, t: SubId, m: Msg, listed: bool, s: SubId)
    requires Known(st, t) && st1.subs == st.subs && st1.conns == st.conns && s in st.subs && s != t
    requires HandOver(st, st1, t, m, listed).Next?
    ensures NotServed(st, HandOver(st, st1, t, m, listed).st, s)
  {
  }

  /** The processor gives s nothing when the next request is no SubscribeOp of s and s waits in no queue. */
  lemma BystanderNotServed(st: System, s: SubId)
    requires s in st.subs && Serve(st).Next? && (st.requests != [] ==> st.requests[0].op != Subscribe(s))
    requires forall d | d in st.queues :: s !in st.queues[d].waiting
    ensures NotServed(st, Serve(st).st, s)
  {
    hide HandOver, IsQueue, Destination;
    if st.requests != [] {
      match st.requests[0].op {
        case Subscribe(t) =>
          if Known(st, t) && IsQueue(st.subs[t].dest) {
            var e := Queues.Subscribe(QueueOf(st, st.subs[t].dest), t);
            if e.handed.Some? {
              HandOverElsewhere(st, WithQueue(PopRequest(st), st.subs[t].dest, e.queue), t, e.handed.value.msg, st.subs[t].listed, s);
            }
          }
        case Unsubscribe(t) =>
        case Enqueue(m) => if IsQueueFrame(m.frame) { MessageNotServed(st, Destination(m.frame).value, m, false, s); }
        case Requeue(m, _) => if IsQueueFrame(m.frame) { MessageNotServed(st, Destination(m.frame).value, m, true, s); }
        case Connected =>
        case Disconnected =>
      }
    }
  }

  lemma UnexposedNotServed(st: System, s: SubId)
    requires Tokens(st) && s in st.subs && Known(st, s) && !Exposed(st, s) && Serve(st).Next?
    ensures NotServed(st, Serve(st).st, s)
  {
    hide Tokens, Serve, Exposed;
    if st.requests != [] { HeadNotOf(st, s); }
    NowhereWaiting(st, s);
    BystanderNotServed(st, s);
  }

  lemma NowhereWaiting(st: System, s: SubId)
    requires Tokens(st) && s in st.subs && Known(st, s) && !Exposed(st, s)
    ensures forall d | d in st.queues :: s !in st.queues[d].waiting
  {
    forall d | d in st.queues ensures s !in st.queues[d].waiting { assert QueueTokens(st.subs, d, st.queues[d]); }
  }

  lemma HeadNotOf(st: System, s: SubId)
    requires Tokens(st) && s in st.subs && Known(st, s) && !Exposed(st, s) && st.requests != []
    ensures st.requests[0].op != Subscribe(s)
  {
    assert RequestTokens(st.subs, st.requests);
    if st.requests[0].from == st.subs[s].conn {
      assert Stream(st, st.subs[s].conn)[0] == st.requests[0].op;
    }
  }

  lemma MessageNotServed(st: System, d: string, m: Msg, front: bool, s: SubId)
    requires st.requests != [] && ServeMessage(st, d, m, front).Next? && s in st.subs && s !in QueueOf(st, d).waiting
    ensures NotServed(st, ServeMessage(st, d, m, front).st, s)
  {
    hide HandOver;
    var q := QueueOf(st, d);
    if q.waiting != [] && Known(st, q.waiting[0]) {
      HandOverElsewhere(st, ServedQueue(st, d, m, front), q.waiting[0], m, false, s);
    }
  }

  function ServedQueue(st: System, d: string, m: Msg, front: bool): System
    requires st.requests != []
  {
    var q := QueueOf(st, d);
    WithQueue(PopRequest(st), d, (if front then Queues.Requeue(q, m) else Queues.Enqueue(q, m)).queue)
  }

  /** Let a run reach a state st whose next request is a frame given back by the cleanup of c, or its DisconnectedOp.
      In every continuation, no subscription of c waits in a queue or is on its way to one, unless it was subscribed
      again after it was unsubscribed. */
  lemma CleanupLeavesNobodyWaiting(st: System, st': System, c: ConnId, s: SubId)
    requires Reachable(st) && st.requests != [] && st.requests[0].from == c && IsClosing(st.requests[0].op)
    requires Leads(st, st') && s in st'.subs && st'.subs[s].conn == c && s !in st'.revived
    ensures Known(st', s) && !Exposed(st', s)
  {
    hide Reachable, Leads, Inv;
    ReachableInv(st);
    AwayAtHead(st, c);
    LeadsAway(st, st', c);
  }

  /** And so the processor hands it nothing: in no continuation does serving a request give it a frame. */
  lemma CleanupNeverGetsItsMessagesBack(st: System, st': System, c: ConnId, s: SubId)
    requires Reachable(st) && st.requests != [] && st.requests[0].from == c && IsClosing(st.requests[0].op)
    requires Leads(st, st') && s in st'.subs && st'.subs[s].conn == c && s !in st'.revived
    ensures Serve(st').Next? ==> NotServed(st', Serve(st').st, s)
  {
    hide Reachable, Leads, Tokens, Conserved, Ordered, Serve, NotServed, Exposed;
    CleanupLeavesNobodyWaiting(st, st', c, s);
    ReachableInv(st);
    LeadsInv(st, st');
    if Serve(st').Next? { UnexposedNotServed(st', s); }
  }

  // ---------------------------------------------------------------- the order of what is given back

  /** The messages that the entries of q hold, in order. */
  function HeldMessages(subs: map<SubId, Sub>, q: seq<SubId>): seq<Msg>
    requires forall s | s in q :: s in subs && subs[s].frame.Some?
  {
    if q == [] then [] else [subs[q[0]].frame.value] + HeldMessages(subs, q[1..])
  }

  lemma {:induction false} HeldMessagesSame(subs: map<SubId, Sub>, subs': map<SubId, Sub>, q: seq<SubId>)
    requires forall s | s in q :: s in subs && subs[s].frame.Some? && s in subs' && subs'[s].frame == subs[s].frame
    ensures HeldMessages(subs', q) == HeldMessages(subs, q)
  {
    if q != [] {
      HeldMessagesSame(subs, subs', q[1..]);
    }
  }

  /** The entries of the pending list hold a frame. */
  predicate AllHold(st: System, c: ConnId) {
    c in st.conns && forall s | s in st.conns[c].pending :: s in st.subs && st.subs[s].frame.Some?
  }

  lemma PendingHold(st: System, c: ConnId)
    requires Inv(st) && c in st.conns
    ensures AllHold(st, c) && forall s | s in st.conns[c].pending :: st.subs[s].conn == c && st.subs[s].at == Pending
  {
    hide Conserved, Ordered;
    assert ConnTokens(st.subs, c, st.conns[c]);
    forall s | s in st.conns[c].pending ensures s in st.subs && st.subs[s].frame.Some? { assert SubTokens(s, st.subs[s], st.matched); }
  }

  /** The frame that c gives back in a step of its cleanup from st to st'. */
  function Emitted(st: System, st': System, e: Event, c: ConnId): seq<Msg> {
    if e.Close? && e.c == c && c in st.conns && c in st'.conns && st.conns[c].outbox == []
       && |st'.conns[c].outbox| == 1 && st'.conns[c].outbox[0].Requeue?
    then [st'.conns[c].outbox[0].m] else []
  }

  /** All frames that c gives back along a path, in order. */
  function GivenBack(states: seq<System>, events: seq<Event>, c: ConnId): seq<Msg>
    requires |states| == |events| + 1
    decreases |events|
  {
    if events == [] then []
    else
      var n := |events| - 1;
      GivenBack(states[..n + 1], events[..n], c) + Emitted(states[n], states[n + 1], events[n], c)
  }

  /** The pending list of c and the frames in it are as they were. */
  lemma PendingStays(st: System, st': System, c: ConnId)
    requires AllHold(st, c) && c in st'.conns && st'.conns[c].pending == st.conns[c].pending
    requires forall s | s in st.conns[c].pending :: s in st'.subs && st'.subs[s].frame == st.subs[s].frame
    ensures AllHold(st', c) && HeldMessages(st'.subs, st'.conns[c].pending) == HeldMessages(st.subs, st.conns[c].pending)
  {
    HeldMessagesSame(st.subs, st'.subs, st.conns[c].pending);
  }

  lemma ServePending(st: System, c: ConnId)
    requires Inv(st) && c in st.conns && Serve(st).Next?
    ensures c in Serve(st).st.conns && Serve(st).st.conns[c].pending == st.conns[c].pending
    ensures forall s | s in st.conns[c].pending :: s in st.subs && NotServed(st, Serve(st).st, s)
  {
    hide Tokens, Conserved, Ordered, Serve, WaitingShrinks;
    ServeShrinks(st);
    PendingHold(st, c);
    forall s | s in st.conns[c].pending ensures s in st.subs && NotServed(st, Serve(st).st, s) { PendingNotServed(st, s); }
  }

  lemma PendingNotServed(st: System, s: SubId)
    requires Tokens(st) && s in st.subs && st.subs[s].at == Pending && Serve(st).Next?
    ensures NotServed(st, Serve(st).st, s)
  {
    assert RequestTokens(st.subs, st.requests);
    forall d | d in st.queues ensures s !in st.queues[d].waiting { assert QueueTokens(st.subs, d, st.queues[d]); }
    hide Tokens, Serve, RequestTokens, QueueTokens;
    assert st.requests != [] ==> st.requests[0].op != Subscribe(s) by { HeadNotPending(st, s); }
    BystanderNotServed(st, s);
  }

  lemma HeadNotPending(st: System, s: SubId)
    requires Tokens(st) && s in st.subs && st.subs[s].at == Pending
    ensures st.requests != [] ==> st.requests[0].op != Subscribe(s)
  {
    assert RequestTokens(st.subs, st.requests);
  }

  lemma CloseGivesBack(st: System, c: ConnId, id: string)
    requires Inv(st) && c in st.conns && st.conns[c].phase == Requeuing && st.conns[c].outbox == [] && CloseStep(st, c, id).Next?
    requires c in CloseStep(st, c, id).st.conns && CloseStep(st, c, id).st.conns[c].phase == Requeuing
    ensures var st' := CloseStep(st, c, id).st; var k' := st'.conns[c];
            && AllHold(st, c) && AllHold(st', c) && |k'.outbox| == 1 && k'.outbox[0].Requeue?
            && [k'.outbox[0].m] + HeldMessages(st'.subs, k'.pending) == HeldMessages(st.subs, st.conns[c].pending)
  {
    PendingHold(st, c);
    hide Inv, CloseStep, GiveBackPending, Distinct, AllHold, Known;
    PendingDistinct(st, c);
    CloseIsGiveBack(st, c, id);
    FirstGone(st, c);
    GivesFirst(st, GiveBackPending(st, c), c);
  }

  lemma GivesFirst(st: System, st': System, c: ConnId)
    requires AllHold(st, c) && AllHold(st', c) && st.conns[c].pending != [] && st.conns[c].outbox == []
    requires st'.conns[c].pending == st.conns[c].pending[1..]
    requires st'.conns[c].outbox == [] + [Requeue(st.subs[st.conns[c].pending[0]].frame.value, true)]
    requires forall s | s in st.conns[c].pending[1..] ::
               s in st.subs && s in st'.subs && st.subs[s].frame.Some? && st'.subs[s].frame == st.subs[s].frame
    ensures var k' := st'.conns[c];
            && |k'.outbox| == 1 && k'.outbox[0].Requeue?
            && [k'.outbox[0].m] + HeldMessages(st'.subs, k'.pending) == HeldMessages(st.subs, st.conns[c].pending)
  {
    HeldMessagesSame(st.subs, st'.subs, st.conns[c].pending[1..]);
  }

  lemma CloseIsGiveBack(st: System, c: ConnId, id: string)
    requires c in st.conns && st.conns[c].phase == Requeuing && CloseStep(st, c, id).Next?
    requires c in CloseStep(st, c, id).st.conns && CloseStep(st, c, id).st.conns[c].phase == Requeuing
    ensures st.conns[c].pending != [] && Known(st, st.conns[c].pending[0]) && st.subs[st.conns[c].pending[0]].frame.Some?
    ensures CloseStep(st, c, id).st == GiveBackPending(st, c)
  {
  }

  lemma PendingDistinct(st: System, c: ConnId)
    requires Inv(st) && c in st.conns
    ensures Distinct(st.conns[c].pending)
  {
    hide Conserved, Ordered;
    assert ConnTokens(st.subs, c, st.conns[c]);
  }

  lemma FirstGone(st: System, c: ConnId)
    requires AllHold(st, c) && Distinct(st.conns[c].pending) && st.conns[c].pending != [] && Known(st, st.conns[c].pending[0])
    ensures var q, st' := st.conns[c].pending, GiveBackPending(st, c);
            && AllHold(st', c) && st'.conns[c].pending == q[1..]
            && st'.conns[c].outbox == st.conns[c].outbox + [Requeue(st.subs[q[0]].frame.value, true)]
            && forall s | s in q[1..] :: s in st.subs && s in st'.subs && st.subs[s].frame.Some? && st'.subs[s].frame == st.subs[s].frame
  {
    var q := st.conns[c].pending;
    assert q[0] !in q[1..];
    assert forall s | s in q[1..] :: s in q;
  }

  /** What c gives back in a step, followed by what is still pending, is what was pending. */
  predicate Keeps(st: System, st': System, e: Event, c: ConnId) {
    && AllHold(st, c) && AllHold(st', c)
    && Emitted(st, st', e, c) + HeldMessages(st'.subs, st'.conns[c].pending) == HeldMessages(st.subs, st.conns[c].pending)
  }

  lemma SameKeeps(st: System, st': System, e: Event, c: ConnId)
    requires AllHold(st, c) && AllHold(st', c)
    requires HeldMessages(st'.subs, st'.conns[c].pending) == HeldMessages(st.subs, st.conns[c].pending)
    requires !(e.Close? && e.c == c) || st.conns[c].outbox != []
    ensures Keeps(st, st', e, c)
  {
  }

  lemma CloseKeepsOrder(st: System, c: ConnId, id: string)
    requires Inv(st) && c in st.conns && st.conns[c].phase == Requeuing && st.conns[c].outbox == [] && CloseStep(st, c, id).Next?
    requires c in CloseStep(st, c, id).st.conns && CloseStep(st, c, id).st.conns[c].phase == Requeuing
    ensures Keeps(st, CloseStep(st, c, id).st, Close(c, id), c)
  {
    hide Inv, CloseStep;
    CloseGivesBack(st, c, id);
  }

  /** While c gives back its pending list, an event gives back the first frame of it, or leaves it alone. */
  lemma StepGivesBack(st: System, e: Event, c: ConnId)
    requires Inv(st) && c in st.conns && st.conns[c].phase == Requeuing && Step(st, e).Next?
    requires c in Step(st, e).st.conns && Step(st, e).st.conns[c].phase == Requeuing
    ensures Keeps(st, Step(st, e).st, e, c)
  {
    hide Inv, Serve, Flush, Receive, Deliver, WriteTopicFrame, CloseStep, Find, Keeps, Local, Exit;
    PendingHold(st, c);
    var st' := Step(st, e).st;
    match e
    case Accept(d) => if d !in st.conns { AcceptPending(st, d, c); SameKeeps(st, st', e, c); } else { SameKeeps(st, st, e, c); }
    case ServeNext => ServePending(st, c); PendingStays(st, st', c); SameKeeps(st, st', e, c);
    case FlushNext(d) =>
      if d in st.conns && st.conns[d].outbox != [] { FlushPending(st, d, c); }
      SameKeeps(st, st', e, c);
    case ReceiveFrame(d, f, io, admit) =>
      if InLoop(st, d) { ReceiveGood(st, d, f, io, admit); OtherPending(st, st', d, c); }
      SameKeeps(st, st', e, c);
    case ReadClosed(d) => if InLoop(st, d) { LocalExit(st, d); OtherPending(st, st', d, c); } SameKeeps(st, st', e, c);
    case DeliverNext(d, io) =>
      if InLoop(st, d) && st.conns[d].channel != [] { DeliverGood(st, d, io); OtherPending(st, st', d, c); }
      SameKeeps(st, st', e, c);
    case WriteNext(d, io) =>
      if InLoop(st, d) && st.conns[d].writes != [] { WriteTopicGood(st, d, io); OtherPending(st, st', d, c); }
      SameKeeps(st, st', e, c);
    case HeartBeat(d, io) => if InLoop(st, d) && !io { LocalExit(st, d); OtherPending(st, st', d, c); } SameKeeps(st, st', e, c);
    case TopicFrame(d, f) => TopicKeeps(st, d, f, c);
    case Close(d, id) =>
      if d == c && st.conns[c].outbox == [] {
        CloseKeepsOrder(st, c, id);
      } else {
        if d in st.conns && st.conns[d].outbox == [] {
          CloseGood(st, d, id);
          OtherPending(st, st', d, c);
        }
        SameKeeps(st, st', e, c);
      }
  }

  lemma TopicKeeps(st: System, d: ConnId, f: Frame, c: ConnId)
    requires AllHold(st, c)
    ensures Step(st, TopicFrame(d, f)).Next? && Keeps(st, Step(st, TopicFrame(d, f)).st, TopicFrame(d, f), c)
  {
    hide Keeps, Find;
    SameKeeps(st, Step(st, TopicFrame(d, f)).st, TopicFrame(d, f), c);
  }

  lemma LocalExit(st: System, d: ConnId)
    requires d in st.conns
    ensures Local(st, Exit(st, d), d)
  {
    LocalConn(st, Exit(st, d), d);
  }

  lemma OtherPending(st: System, st': System, d: ConnId, c: ConnId)
    requires AllHold(st, c) && Local(st, st', d) && d != c && forall s | s in st.conns[c].pending :: st.subs[s].conn == c
    ensures AllHold(st', c) && HeldMessages(st'.subs, st'.conns[c].pending) == HeldMessages(st.subs, st.conns[c].pending)
  {
    PendingStays(st, st', c);
  }

  lemma FlushPending(st: System, d: ConnId, c: ConnId)
    requires AllHold(st, c) && d in st.conns && st.conns[d].outbox != []
    ensures AllHold(Flush(st, d), c)
    ensures HeldMessages(Flush(st, d).subs, Flush(st, d).conns[c].pending) == HeldMessages(st.subs, st.conns[c].pending)
  {
    PendingStays(st, Flush(st, d), c);
  }

  lemma AcceptPending(st: System, d: ConnId, c: ConnId)
    requires AllHold(st, c) && d !in st.conns
    ensures AllHold(WithConn(st, d, EMPTY_CONN), c) && WithConn(st, d, EMPTY_CONN).conns[c].pending == st.conns[c].pending
  {
  }

  /** In every run, as long as a connection gives back its pending list, the frames given back so far followed by those
      still pending are the frames that were pending when it began: each is given back once, in the order in which it
      became pending, whatever the other goroutines do in between. */
  lemma {:induction false} PendingGivenBackInOrder(states: seq<System>, events: seq<Event>, c: ConnId)
    requires Path(states, events) && Inv(states[0])
    requires forall i | 0 <= i <= |events| :: c in states[i].conns && states[i].conns[c].phase == Requeuing
    ensures Inv(states[|events|]) && AllHold(states[0], c) && AllHold(states[|events|], c)
    ensures GivenBack(states, events, c) + HeldMessages(states[|events|].subs, states[|events|].conns[c].pending)
            == HeldMessages(states[0].subs, states[0].conns[c].pending)
    decreases |events|
  {
    hide Inv, Step, Emitted;
    if events == [] {
      PendingHold(states[0], c);
    } else {
      var n := |events| - 1;
      PathPrefix(states, events);
      PendingGivenBackInOrder(states[..n + 1], events[..n], c);
      assert Step(states[n], events[n]) == Next(states[n + 1]);
      StepInv(states[n], events[n]);
      StepGivesBack(states[n], events[n], c);
      Regroup(GivenBack(states[..n + 1], events[..n], c), Emitted(states[n], states[n + 1], events[n], c),
              HeldMessages(states[n + 1].subs, states[n + 1].conns[c].pending));
    }
  }

  // ---------------------------------------------------------------- what a queue makes of it

  /** The processor serves n requests, and nothing else happens. */
  function Serves(st: System, n: nat): Outcome {
    if n == 0 then Next(st)
    else
      match Serves(st, n - 1)
      case Next(st') => Serve(st')
      case Crash(why) => Crash(why)
  }

  /** The next requests give these messages back to destination d. */
  predicate GivesBackTo(st: System, d: string, ms: seq<Msg>) {
    && |ms| <= |st.requests|
    && forall i | 0 <= i < |ms| ::
         && st.requests[i].op.Requeue? && st.requests[i].op.m == ms[i]
         && IsQueueFrame(ms[i].frame) && Destination(ms[i].frame) == Some(d)
  }

  lemma ServesRequeue(st: System, d: string, m: Msg)
    requires GivesBackTo(st, d, [m]) && QueueOf(st, d).waiting == []
    ensures Serve(st).Next? && Serve(st).st.requests == st.requests[1..]
    ensures QueueOf(Serve(st).st, d) == Queues.Requeue(QueueOf(st, d), m).queue
  {
    assert [m][0] == m;
    assert st.requests[0].op.m == m && Destination(m.frame) == Some(d) && IsQueueFrame(m.frame);
    hide IsQueue, Destination;
  }

  /** Given back one after the other to a queue on which nobody waits, messages are stored in the reverse order, ahead of
      those stored before. */
  lemma {:induction false} ServedInReverse(st: System, d: string, ms: seq<Msg>)
    requires GivesBackTo(st, d, ms) && QueueOf(st, d).waiting == []
    ensures Serves(st, |ms|).Next? && Serves(st, |ms|).st.requests == st.requests[|ms|..]
    ensures QueueOf(Serves(st, |ms|).st, d) == QueueOf(st, d).(stored := Queues.Reversed(ms) + QueueOf(st, d).stored)
    decreases |ms|
  {
    hide Serve, IsQueueFrame, Destination;
    Queues.GivenBackInReverse(QueueOf(st, d), ms);
    if ms != [] {
      var n := |ms| - 1;
      ServedInReverse(st, d, ms[..n]);
      Queues.GivenBackInReverse(QueueOf(st, d), ms[..n]);
      var st1 := Serves(st, n).st;
      assert st1.requests[0] == st.requests[n] && st.requests[n..][1..] == st.requests[n + 1..];
      ServesRequeue(st1, d, ms[n]);
    }
  }
}
