/** What cleanup leaves, that it gets to its end, and that no channel holds more than it has room for. */
module BrokerBounds {
  import opened Text
  import opened Frames
  import opened Sequences
  import opened Broker
  import opened BrokerTokens
  import opened BrokerConservation
  import opened BrokerCleanup
  import opened BrokerRuns
  import opened BrokerAnswers
  import opened BrokerAcks
  import opened BrokerClients
  import opened BrokerTheorems
  import opened BrokerHandlers
  import opened BrokerLoop
  import opened BrokerStranded
  import Queues

  // ---------------------------------------------------------------- the invariant

  /** The channels of a connection are not over-full, and cleanup has emptied the pending list by the time it drains. */
  predicate Within(k: Conn) {
    && |k.channel| <= 16 && |k.writes| <= 16
    && (k.phase == Draining || k.phase == LastDrain || k.phase == Closed ==> k.pending == [])
  }

  predicate Bounded(st: System) {
    |st.requests| <= 128 && forall c | c in st.conns :: Within(st.conns[c])
  }

  lemma LocalBounded(st: System, st': System, c: ConnId)
    requires Bounded(st) && Local(st, st', c) && c in st.conns && c in st'.conns && Within(st'.conns[c])
    ensures Bounded(st')
  {
    hide Within;
  }

  lemma ServeBounded(st: System)
    requires Inv(st) && Bounded(st) && Serve(st).Next?
    ensures Bounded(Serve(st).st)
  {
    hide Tokens, Conserved, Ordered, Serve, WaitingShrinks, Receiver;
    ServeShrinks(st);
    var st' := Serve(st).st;
    if st' != st {
      forall c | c in st'.conns ensures Within(st'.conns[c]) {
        ServeChannel(st, c);
        PushesIff(st, c);
      }
    }
  }

  lemma FlushBounded(st: System, c: ConnId)
    requires Bounded(st) && c in st.conns && st.conns[c].outbox != [] && |st.requests| < MAX_REQUESTS
    ensures Bounded(Flush(st, c))
  {
    forall d | d in st.conns ensures Within(Flush(st, c).conns[d]) { FlushKeepsConn(st, c, d); }
  }

  lemma ReceiveBounded(st: System, c: ConnId, f: Frame, io: bool, admit: bool)
    requires Reachable(st) && Inv(st) && Bounded(st) && InLoop(st, c) && Receive(st, c, f, io, admit).Next?
    ensures Bounded(Receive(st, c, f, io, admit).st)
  {
    hide Reachable, Inv, Receive, Accepts, Effect, Local, Find;
    ReceiveGood(st, c, f, io, admit);
    if st.conns[c].phase == Running {
      FramesHandled(st, c, f, io, admit);
    } else {
      ConnectHandled(st, c, f, io, admit);
    }
    LocalBounded(st, Receive(st, c, f, io, admit).st, c);
  }

  lemma DeliverBounded(st: System, c: ConnId, io: bool)
    requires Inv(st) && Bounded(st) && InLoop(st, c) && st.conns[c].channel != [] && Deliver(st, c, io).Next?
    ensures Bounded(Deliver(st, c, io).st)
  {
    hide Inv, Local;
    DeliverGood(st, c, io);
    DeliverWithin(st, c, io);
    hide Deliver, Within;
    LocalBounded(st, Deliver(st, c, io).st, c);
  }

  lemma DeliverWithin(st: System, c: ConnId, io: bool)
    requires InLoop(st, c) && Within(st.conns[c]) && st.conns[c].channel != [] && Deliver(st, c, io).Next?
    ensures c in Deliver(st, c, io).st.conns && Within(Deliver(st, c, io).st.conns[c])
  {
    hide Stamp, NextMsgId;
  }

  lemma CloseWithin(st: System, c: ConnId, id: string)
    requires c in st.conns && Within(st.conns[c]) && CloseStep(st, c, id).Next?
    ensures c in CloseStep(st, c, id).st.conns && Within(CloseStep(st, c, id).st.conns[c])
  {
    hide Known;
  }

  lemma CloseBounded(st: System, c: ConnId, id: string)
    requires Inv(st) && Bounded(st) && c in st.conns && CloseStep(st, c, id).Next?
    ensures Bounded(CloseStep(st, c, id).st)
  {
    hide Inv, Local, CloseStep, Within;
    CloseGood(st, c, id);
    CloseWithin(st, c, id);
    LocalBounded(st, CloseStep(st, c, id).st, c);
  }

  lemma ConnBounded(st: System, c: ConnId, k': Conn)
    requires Bounded(st) && Within(k')
    ensures Bounded(WithConn(st, c, k'))
  {
    hide Within;
  }

  lemma WriteBounded(st: System, c: ConnId, io: bool)
    requires Bounded(st) && InLoop(st, c) && st.conns[c].writes != []
    ensures Bounded(WriteTopicFrame(st, c, io))
  {
    hide Stamp, NextMsgId;
    var st' := WriteTopicFrame(st, c, io);
    ConnBounded(st, c, st'.conns[c]);
    assert st' == WithConn(st, c, st'.conns[c]);
  }

  lemma StepBounded(st: System, e: Event)
    requires Reachable(st) && Inv(st) && Bounded(st) && Step(st, e).Next?
    ensures Bounded(Step(st, e).st)
  {
    hide Reachable, Inv, Serve, Flush, Receive, Deliver, WriteTopicFrame, CloseStep, Find, Local;
    match e
    case Accept(c) => if c !in st.conns { ConnBounded(st, c, EMPTY_CONN); }
    case ServeNext => ServeBounded(st);
    case FlushNext(c) => if c in st.conns && st.conns[c].outbox != [] && |st.requests| < MAX_REQUESTS { FlushBounded(st, c); }
    case ReceiveFrame(c, f, io, admit) => if InLoop(st, c) { ReceiveBounded(st, c, f, io, admit); }
    case ReadClosed(c) => if InLoop(st, c) { ConnBounded(st, c, Exit(st, c).conns[c]); }
    case DeliverNext(c, io) => if InLoop(st, c) && st.conns[c].channel != [] { DeliverBounded(st, c, io); }
    case WriteNext(c, io) => if InLoop(st, c) && st.conns[c].writes != [] { WriteBounded(st, c, io); }
    case HeartBeat(c, io) => if InLoop(st, c) { ConnBounded(st, c, Exit(st, c).conns[c]); }
    case TopicFrame(c, f) =>
      if c in st.conns && |st.conns[c].writes| < MAX_PENDING_WRITES {
        ConnBounded(st, c, st.conns[c].(writes := st.conns[c].writes + [f]));
      }
    case Close(c, id) => if c in st.conns && st.conns[c].outbox == [] { CloseBounded(st, c, id); }
  }

  // ---------------------------------------------------------------- every run

  lemma LeadsByPath(states: seq<System>, events: seq<Event>)
    requires Path(states, events)
    ensures Leads(states[0], states[|events|])
  {
  }

  lemma {:induction false} PathBounded(states: seq<System>, events: seq<Event>)
    requires Path(states, events) && states[0] == START
    ensures Reachable(states[|events|]) && Bounded(states[|events|])
    decreases |events|
  {
    hide Bounded, Step, Inv, Leads;
    LeadsByPath(states, events);
    if events == [] {
      assert Bounded(START) by { StartBounded(); }
    } else {
      var n := |events| - 1;
      PathPrefix(states, events);
      PathBounded(states[..n + 1], events[..n]);
      assert Step(states[n], events[n]) == Next(states[n + 1]);
      ReachableInv(states[n]);
      StepBounded(states[n], events[n]);
    }
  }

  lemma StartBounded()
    ensures Bounded(START)
  {
  }

  /** In every run, the request channel holds at most 128 requests, and the channels of each connection at most 16
      subscriptions and 16 topic frames; and a connection that drains its channel, or is closed, has no subscription any more
      and no pending entry. */
  lemma ChannelsBounded(st: System, c: ConnId)
    requires Reachable(st) && c in st.conns
    ensures |st.requests| <= 128 && |st.conns[c].channel| <= 16 && |st.conns[c].writes| <= 16
    ensures st.conns[c].phase == Draining || st.conns[c].phase == LastDrain || st.conns[c].phase == Closed ==>
              st.conns[c].subs == map[] && st.conns[c].pending == []
  {
    hide Step, Tokens, Conserved;
    var states, events :| Path(states, events) && states[0] == START && states[|events|] == st;
    PathBounded(states, events);
    ReachableInv(st);
    assert OrderedConn(st, c);
  }

  /** In every run, the processor takes the next request off the channel, whatever it is, unless it waits for room in the
      channel of the subscription that the request gives a frame to. */
  lemma ServesOrWaits(st: System)
    requires Reachable(st) && st.requests != [] && Serve(st).Next?
    ensures var to := Receiver(st);
            if to.Some? && to.value in st.subs && st.subs[to.value].conn in st.conns && |st.conns[st.subs[to.value].conn].channel| >= 16
            then Serve(st).st == st else Serve(st).st.requests == st.requests[1..]
  {
    hide Reachable, Conserved, Ordered, Inv;
    ReachableInv(st);
    match st.requests[0].op
    case Subscribe(s) => NextIsKnown(st);
    case Unsubscribe(s) => NextIsKnown(st);
    case Enqueue(m) => if IsQueueFrame(m.frame) { WaiterIsKnown(st, Destination(m.frame).value); }
    case Requeue(m, _) => if IsQueueFrame(m.frame) { WaiterIsKnown(st, Destination(m.frame).value); }
    case Connected =>
    case Disconnected =>
  }

  lemma NextIsKnown(st: System)
    requires Inv(st) && st.requests != [] && (st.requests[0].op.Subscribe? || st.requests[0].op.Unsubscribe?)
    ensures Known(st, st.requests[0].op.s)
  {
    hide Conserved, Ordered, ConnsOk, QueuesOk;
  }

  lemma WaiterIsKnown(st: System, d: string)
    requires Inv(st)
    ensures QueueOf(st, d).waiting != [] ==> Known(st, QueueOf(st, d).waiting[0])
  {
    hide Conserved, Ordered, ConnsOk, RequestTokens;
    if d in st.queues { assert QueueTokens(st.subs, d, st.queues[d]); }
  }

  /** A request leaves its connection exactly when the request channel has room. */
  lemma FlushesIff(st: System, c: ConnId)
    requires c in st.conns
    ensures Step(st, FlushNext(c)).Next?
    ensures Step(st, FlushNext(c)).st.requests == (if st.conns[c].outbox != [] && |st.requests| < 128
                                                   then st.requests + [Request(c, st.conns[c].outbox[0])] else st.requests)
    ensures Step(st, FlushNext(c)) != Next(st) <==> st.conns[c].outbox != [] && |st.requests| < 128
  {
  }

  // ---------------------------------------------------------------- cleanup

  /** The work of the present phase of cleanup is done. */
  predicate WorkDone(k: Conn) {
    match k.phase
    case Unsubscribing => k.subs == map[]
    case Requeuing => k.pending == []
    case Draining => k.channel == []
    case LastDrain => k.channel == []
    case _ => false
  }

  function Stage(p: Phase): nat {
    match p
    case Unsubscribing => 4
    case Requeuing => 3
    case Draining => 2
    case LastDrain => 1
    case Closed => 0
    case _ => 5
  }

  /** One stage further, or one piece of work less. */
  predicate Further(k: Conn, k': Conn) {
    || Stage(k'.phase) == Stage(k.phase) - 1
    || (k'.phase == k.phase && |k'.subs| + |k'.pending| + |k'.channel| == |k.subs| + |k.pending| + |k.channel| - 1)
  }

  /** Cleanup goes on to the next phase exactly when the work of this one is done. */
  lemma PhaseMovesIff(st: System, c: ConnId, id: string)
    requires c in st.conns && CloseStep(st, c, id).Next?
    ensures c in CloseStep(st, c, id).st.conns
    ensures CloseStep(st, c, id).st.conns[c].phase != st.conns[c].phase <==> WorkDone(st.conns[c])
  {
    hide Known;
  }

  /** In every run, a connection in cleanup that is not blocked has a step that brings it further: to the next stage, or to
      the same one with one subscription, pending entry or queued frame less. */
  lemma CleanupAdvances(st: System, c: ConnId)
    requires Reachable(st) && c in st.conns && st.conns[c].outbox == [] && !Up(st.conns[c]) && st.conns[c].phase != Closed
    ensures exists id :: Step(st, Close(c, id)).Next? && c in Step(st, Close(c, id)).st.conns
                         && Further(st.conns[c], Step(st, Close(c, id)).st.conns[c])
  {
    hide Reachable, Conserved, Ordered, Tokens, Further;
    ReachableInv(st);
    var k := st.conns[c];
    if k.phase == Unsubscribing && k.subs != map[] {
      var id :| id in k.subs;
      OneLess(k.subs, id);
      UnsubscribeFurther(st, c, id);
    } else {
      if k.pending != [] { PendingFacts(st, c, 0); }
      if k.channel != [] { ChannelFacts(st, c); }
      OtherFurther(st, c);
    }
  }

  lemma OneLess(m: map<string, SubId>, id: string)
    requires id in m
    ensures |m - {id}| == |m| - 1
  {
    assert (m - {id}).Keys == m.Keys - {id};
  }

  lemma UnsubscribeFurther(st: System, c: ConnId, id: string)
    requires c in st.conns && st.conns[c].outbox == [] && st.conns[c].phase == Unsubscribing
    requires id in st.conns[c].subs && |st.conns[c].subs - {id}| == |st.conns[c].subs| - 1
    ensures Step(st, Close(c, id)).Next? && c in Step(st, Close(c, id)).st.conns
            && Further(st.conns[c], Step(st, Close(c, id)).st.conns[c])
  {
  }

  lemma OtherFurther(st: System, c: ConnId)
    requires c in st.conns && st.conns[c].outbox == [] && !Up(st.conns[c]) && st.conns[c].phase != Closed
    requires st.conns[c].phase == Unsubscribing ==> st.conns[c].subs == map[]
    requires st.conns[c].pending != [] ==> Known(st, st.conns[c].pending[0]) && st.subs[st.conns[c].pending[0]].frame.Some?
    requires st.conns[c].channel != [] ==> Known(st, st.conns[c].channel[0]) && st.subs[st.conns[c].channel[0]].frame.Some?
    ensures Step(st, Close(c, "")).Next? && c in Step(st, Close(c, "")).st.conns
            && Further(st.conns[c], Step(st, Close(c, "")).st.conns[c])
  {
    hide Known;
  }
}
