/** Frames that reach a connection too late. The processor does not react to a DisconnectedOp, so it can still push a
    frame to a connection that has drained its channel for the last time. Such a frame is lost for good. */
module BrokerStranded {
  import opened Text
  import opened Sequences
  import opened Frames
  import opened Broker
  import opened BrokerTokens
  import opened BrokerCleanup
  import opened BrokerRuns
  import opened BrokerClosing
  import Queues

  // ---------------------------------------------------------------- a closed connection keeps what it gets

  /** Everything in the channel of c stays in it, with its frame. */
  predicate Stuck(st: System, st': System, c: ConnId) {
    && c in st.conns && c in st'.conns && st.conns[c].phase == Closed && st'.conns[c].phase == Closed
    && st.conns[c].channel <= st'.conns[c].channel
    && forall s | s in st.conns[c].channel :: s in st.subs && s in st'.subs && st'.subs[s].frame == st.subs[s].frame
  }

  lemma InChannelNotServed(st: System, c: ConnId, s: SubId)
    requires Tokens(st) && c in st.conns && s in st.conns[c].channel && Serve(st).Next?
    ensures s in st.subs && NotServed(st, Serve(st).st, s)
  {
    assert ConnTokens(st.subs, c, st.conns[c]);
    forall d | d in st.queues ensures s !in st.queues[d].waiting { assert QueueTokens(st.subs, d, st.queues[d]); }
    hide Serve, Tokens, ConnTokens, QueueTokens;
    assert st.requests != [] ==> st.requests[0].op != Subscribe(s) by { HeadElsewhere(st, s); }
    BystanderNotServed(st, s);
  }

  lemma HeadElsewhere(st: System, s: SubId)
    requires Tokens(st) && s in st.subs && st.subs[s].at == Channel
    ensures st.requests != [] ==> st.requests[0].op != Subscribe(s)
  {
    assert RequestTokens(st.subs, st.requests);
  }

  /** What serving a request may do to a channel: nothing, or one subscription more. */
  lemma ServeChannel(st: System, c: ConnId)
    requires c in st.conns && Serve(st).Next?
    ensures c in Serve(st).st.conns && Serve(st).st.conns[c].phase == st.conns[c].phase
    ensures Serve(st).st.conns[c].channel == st.conns[c].channel
            || exists s :: Serve(st).st.conns[c].channel == st.conns[c].channel + [s]
  {
    hide IsQueue, Destination, ForSubscription;
    if st.requests != [] {
      match st.requests[0].op {
        case Subscribe(s) =>
          if Known(st, s) { assert st.conns[st.subs[s].conn].channel + [s] == st.conns[st.subs[s].conn].channel + [s]; }
        case Unsubscribe(_) =>
        case Enqueue(m) =>
        case Requeue(m, _) =>
        case Connected =>
        case Disconnected =>
      }
    }
  }

  lemma ServeStuck(st: System, c: ConnId)
    requires Inv(st) && c in st.conns && st.conns[c].phase == Closed && Serve(st).Next?
    ensures Stuck(st, Serve(st).st, c)
  {
    hide Tokens, Conserved, Ordered, Serve;
    ServeChannel(st, c);
    forall s | s in st.conns[c].channel ensures s in st.subs && NotServed(st, Serve(st).st, s) { InChannelNotServed(st, c, s); }
  }

  lemma OwnedByConn(st: System, c: ConnId)
    requires Inv(st) && c in st.conns
    ensures forall s | s in st.conns[c].channel :: s in st.subs && st.subs[s].conn == c
  {
    hide Conserved, Ordered;
    assert ConnTokens(st.subs, c, st.conns[c]);
  }

  lemma LocalStuck(st: System, st': System, d: ConnId, c: ConnId)
    requires Inv(st) && c in st.conns && st.conns[c].phase == Closed && Local(st, st', d) && d != c
    ensures Stuck(st, st', c)
  {
    hide Inv;
    OwnedByConn(st, c);
  }

  lemma FlushStuck(st: System, d: ConnId, c: ConnId)
    requires Inv(st) && c in st.conns && st.conns[c].phase == Closed && d in st.conns && st.conns[d].outbox != []
    ensures Stuck(st, Flush(st, d), c)
  {
    hide Inv;
    OwnedByConn(st, c);
  }

  /** Whatever happens, a closed connection stays closed, and what is in its channel stays there with its frame. */
  lemma StepStuck(st: System, e: Event, c: ConnId)
    requires Inv(st) && c in st.conns && st.conns[c].phase == Closed && Step(st, e).Next?
    ensures Stuck(st, Step(st, e).st, c)
  {
    hide Inv, Stuck, Local, Serve, Flush, Receive, Deliver, WriteTopicFrame, Find;
    assert Stuck(st, st, c) by { OwnedByConn(st, c); Unchanged(st, c); }
    match e
    case Accept(d) => if d !in st.conns { OwnedByConn(st, c); AcceptStuck(st, d, c); }
    case ServeNext => ServeStuck(st, c);
    case FlushNext(d) => if d in st.conns && st.conns[d].outbox != [] { FlushStuck(st, d, c); }
    case ReceiveFrame(d, f, io, admit) => if InLoop(st, d) { ReceiveGood(st, d, f, io, admit); LocalStuck(st, Step(st, e).st, d, c); }
    case ReadClosed(d) => if InLoop(st, d) { LocalConn(st, Exit(st, d), d); LocalStuck(st, Exit(st, d), d, c); }
    case DeliverNext(d, io) => if InLoop(st, d) && st.conns[d].channel != [] { DeliverGood(st, d, io); LocalStuck(st, Step(st, e).st, d, c); }
    case WriteNext(d, io) => if InLoop(st, d) && st.conns[d].writes != [] { WriteTopicGood(st, d, io); LocalStuck(st, Step(st, e).st, d, c); }
    case HeartBeat(d, io) => if InLoop(st, d) { LocalConn(st, Exit(st, d), d); LocalStuck(st, Exit(st, d), d, c); }
    case TopicFrame(d, f) => if d in st.conns { OwnedByConn(st, c); TopicStuck(st, d, f, c); }
    case Close(d, id) =>
      if d in st.conns && st.conns[d].outbox == [] && d != c {
        CloseGood(st, d, id);
        LocalStuck(st, CloseStep(st, d, id).st, d, c);
      }
  }

  lemma Unchanged(st: System, c: ConnId)
    requires c in st.conns && st.conns[c].phase == Closed && forall s | s in st.conns[c].channel :: s in st.subs
    ensures Stuck(st, st, c)
  {
  }

  lemma AcceptStuck(st: System, d: ConnId, c: ConnId)
    requires c in st.conns && st.conns[c].phase == Closed && d !in st.conns && forall s | s in st.conns[c].channel :: s in st.subs
    ensures Stuck(st, WithConn(st, d, EMPTY_CONN), c)
  {
  }

  lemma TopicStuck(st: System, d: ConnId, f: Frame, c: ConnId)
    requires c in st.conns && st.conns[c].phase == Closed && d in st.conns && forall s | s in st.conns[c].channel :: s in st.subs
    ensures Stuck(st, WithConn(st, d, st.conns[d].(writes := st.conns[d].writes + [f])), c)
  {
  }

  lemma StuckTrans(st: System, st': System, st'': System, c: ConnId)
    requires Stuck(st, st', c) && Stuck(st', st'', c)
    ensures Stuck(st, st'', c)
  {
    forall s | s in st.conns[c].channel ensures s in st'.conns[c].channel {
      var i :| 0 <= i < |st.conns[c].channel| && st.conns[c].channel[i] == s;
      assert st'.conns[c].channel[i] == s;
    }
  }

  lemma {:induction false} PathStuck(states: seq<System>, events: seq<Event>, c: ConnId)
    requires Path(states, events) && Inv(states[0]) && c in states[0].conns && states[0].conns[c].phase == Closed
    ensures Inv(states[|events|]) && Stuck(states[0], states[|events|], c)
    decreases |events|
  {
    hide Inv, Step, Stuck;
    if events == [] {
      OwnedByConn(states[0], c);
      Unchanged(states[0], c);
    } else {
      var n := |events| - 1;
      PathPrefix(states, events);
      PathStuck(states[..n + 1], events[..n], c);
      StuckIsClosed(states[0], states[n], c);
      assert Step(states[n], events[n]) == Next(states[n + 1]);
      StepStuck(states[n], events[n], c);
      StepInv(states[n], events[n]);
      StuckTrans(states[0], states[n], states[n + 1], c);
    }
  }

  lemma StuckIsClosed(st: System, st': System, c: ConnId)
    requires Stuck(st, st', c)
    ensures c in st'.conns && st'.conns[c].phase == Closed
  {
  }

  /** A frame in the channel of a closed connection is stranded: it is there in every continuation of the run. */
  lemma StrandedForever(st: System, st': System, c: ConnId)
    requires Reachable(st) && c in st.conns && st.conns[c].phase == Closed && Leads(st, st')
    ensures Stuck(st, st', c)
  {
    hide Reachable, Inv, Step, Stuck;
    ReachableInv(st);
    var states, events :| Path(states, events) && states[0] == st && states[|events|] == st';
    PathStuck(states, events, c);
  }

  // ---------------------------------------------------------------- when the processor pushes a frame

  /** The subscription that the next request gives a frame to, if its channel has room. */
  function Receiver(st: System): Option<SubId> {
    if st.requests == [] then None
    else
      match st.requests[0].op
      case Subscribe(s) =>
        if Known(st, s) && IsQueue(st.subs[s].dest) && QueueOf(st, st.subs[s].dest).stored != [] then Some(s) else None
      case Enqueue(m) => FirstWaiting(st, m.frame)
      case Requeue(m, _) => FirstWaiting(st, m.frame)
      case _ => None
  }

  /** The first subscription that waits for a frame with this destination. */
  function FirstWaiting(st: System, f: Frame): Option<SubId> {
    if IsQueueFrame(f) && QueueOf(st, Destination(f).value).waiting != [] then Some(QueueOf(st, Destination(f).value).waiting[0])
    else None
  }

  /** Serving a request that does not panic pushes a frame to connection c exactly when the request is a SubscribeOp of one
      of its subscriptions and a message is stored, or a message for a queue on which one of its subscriptions waits
      first; and the channel has room. This is so for a closed connection as for any other. */
  lemma PushesIff(st: System, c: ConnId)
    requires c in st.conns && Serve(st).Next?
    ensures c in Serve(st).st.conns
    ensures Serve(st).st.conns[c].channel != st.conns[c].channel
            <==> Receiver(st).Some? && Receiver(st).value in st.subs && st.subs[Receiver(st).value].conn == c
                 && |st.conns[c].channel| < 16
  {
    hide IsQueue, Destination, ForSubscription;
    if st.requests != [] {
      match st.requests[0].op {
        case Subscribe(s) => if Known(st, s) { Longer(st.conns[st.subs[s].conn].channel, s); }
        case Unsubscribe(_) =>
        case Enqueue(m) => MessagePushes(st, m, false, c);
        case Requeue(m, _) => MessagePushes(st, m, true, c);
        case Connected =>
        case Disconnected =>
      }
    }
  }

  lemma Longer(q: seq<SubId>, s: SubId)
    ensures q + [s] != q
  {
    assert |q + [s]| == |q| + 1;
  }

  lemma MessagePushes(st: System, m: Msg, front: bool, c: ConnId)
    requires c in st.conns && st.requests != [] && IsQueueFrame(m.frame) ==> ServeMessage(st, Destination(m.frame).value, m, front).Next?
    ensures c in st.conns && st.requests != [] && IsQueueFrame(m.frame) ==>
              var st' := ServeMessage(st, Destination(m.frame).value, m, front).st;
              var to := FirstWaiting(st, m.frame);
              c in st'.conns &&
              (st'.conns[c].channel != st.conns[c].channel
               <==> to.Some? && to.value in st.subs && st.subs[to.value].conn == c && |st.conns[c].channel| < 16)
  {
    hide IsQueue, Destination, ForSubscription;
    if c in st.conns && st.requests != [] && IsQueueFrame(m.frame) {
      var w := QueueOf(st, Destination(m.frame).value).waiting;
      if w != [] && Known(st, w[0]) { Longer(st.conns[st.subs[w[0]].conn].channel, w[0]); }
    }
  }

  // ---------------------------------------------------------------- not after the DisconnectedOp

  predicate Late(p: Phase) {
    p == LastDrain || p == Closed
  }

  /** A connection that has sent its DisconnectedOp: it is still on its way, or no queue can hand c anything. */
  ghost predicate Announced(st: System, c: ConnId) {
    c in st.conns && Late(st.conns[c].phase) ==> Disconnected in Stream(st, c) || Away(st, c)
  }

  lemma ServeAnnounced(st: System, c: ConnId)
    requires Inv(st) && Announced(st, c) && c in st.conns && Serve(st).Next?
    ensures Announced(Serve(st).st, c)
  {
    hide Tokens, Conserved, Ordered, Serve, WaitingShrinks, Away;
    ServeShrinks(st);
    var st' := Serve(st).st;
    if st' != st && Late(st'.conns[c].phase) {
      StreamPop(st, st', c);
      if Away(st, c) {
        ServeAway(st, c);
      } else if st.requests[0].from == c && st.requests[0].op == Disconnected {
        AwayAtHead(st, c);
        ServeAway(st, c);
      }
    }
  }

  /** An event other than serving a request only adds to the stream of a connection that stays late. */
  lemma GrownAnnounced(st: System, st': System, c: ConnId)
    requires Announced(st, c) && c in st.conns && c in st'.conns && Late(st.conns[c].phase)
    requires Stream(st, c) <= Stream(st', c) && (Away(st, c) ==> Away(st', c))
    ensures Announced(st', c)
  {
    hide Away;
    if Disconnected in Stream(st, c) {
      var i :| 0 <= i < |Stream(st, c)| && Stream(st, c)[i] == Disconnected;
      assert Stream(st', c)[i] == Disconnected;
    }
  }

  lemma LocalStream(st: System, st': System, d: ConnId, c: ConnId)
    requires Local(st, st', d) && c in st.conns && d != c
    ensures c in st'.conns && st'.conns[c] == st.conns[c] && Stream(st', c) == Stream(st, c)
  {
  }

  /** Another connection acts. */
  lemma LocalAnnounced(st: System, st': System, d: ConnId, c: ConnId)
    requires Announced(st, c) && Local(st, st', d) && d != c && c in st.conns
    ensures Announced(st', c)
  {
    hide Away, Local, Stream;
    LocalStream(st, st', d, c);
    if Away(st, c) { LocalAway(st, st', d, c); }
  }

  lemma CloseAnnounced(st: System, c: ConnId, id: string)
    requires Inv(st) && Announced(st, c) && c in st.conns && CloseStep(st, c, id).Next?
    ensures Announced(CloseStep(st, c, id).st, c)
  {
    hide Inv, Away, Local;
    CloseGood(st, c, id);
    var k, st' := st.conns[c], CloseStep(st, c, id).st;
    CloseStream(st, c, id);
    if c in st'.conns && Late(st'.conns[c].phase) {
      if Late(k.phase) {
        if Away(st, c) { CloseAway(st, c, id); }
        GrownAnnounced(st, st', c);
      } else {
        assert Stream(st', c) == Stream(st, c) + [Disconnected];
        assert Stream(st', c)[|Stream(st, c)|] == Disconnected;
      }
    }
  }

  lemma CloseStream(st: System, c: ConnId, id: string)
    requires c in st.conns && CloseStep(st, c, id).Next?
    ensures var st' := CloseStep(st, c, id).st;
            && c in st'.conns && Stream(st, c) <= Stream(st', c)
            && (!Late(st.conns[c].phase) && Late(st'.conns[c].phase) ==> Stream(st', c) == Stream(st, c) + [Disconnected])
  {
    hide Mine, Known, Stream, CloseStep;
    CloseOutbox(st, c, id);
    OutboxStream(st, CloseStep(st, c, id).st, c);
  }

  predicate ClosesOn(st: System, st': System, c: ConnId) {
    && c in st.conns && c in st'.conns && st'.requests == st.requests && st.conns[c].outbox <= st'.conns[c].outbox
    && (!Late(st.conns[c].phase) && Late(st'.conns[c].phase) ==> st'.conns[c].outbox == st.conns[c].outbox + [Disconnected])
  }

  lemma CloseOutbox(st: System, c: ConnId, id: string)
    requires c in st.conns && CloseStep(st, c, id).Next?
    ensures ClosesOn(st, CloseStep(st, c, id).st, c)
  {
    hide EndSub, GiveBackPending, DrainOne;
    match st.conns[c].phase
    case Connecting =>
    case Running =>
    case Closed =>
    case Unsubscribing => UnsubscribingOutbox(st, c, id);
    case Requeuing => RequeuingOutbox(st, c, id);
    case Draining => DrainingOutbox(st, c, id);
    case LastDrain => DrainingOutbox(st, c, id);
  }

  lemma UnsubscribingOutbox(st: System, c: ConnId, id: string)
    requires c in st.conns && CloseStep(st, c, id).Next? && st.conns[c].phase == Unsubscribing
    ensures ClosesOn(st, CloseStep(st, c, id).st, c)
  {
  }

  lemma RequeuingOutbox(st: System, c: ConnId, id: string)
    requires c in st.conns && CloseStep(st, c, id).Next? && st.conns[c].phase == Requeuing
    ensures ClosesOn(st, CloseStep(st, c, id).st, c)
  {
    hide GiveBackPending;
    if st.conns[c].pending != [] { PendingOutbox(st, c); }
  }

  lemma DrainingOutbox(st: System, c: ConnId, id: string)
    requires c in st.conns && CloseStep(st, c, id).Next? && (st.conns[c].phase == Draining || st.conns[c].phase == LastDrain)
    ensures ClosesOn(st, CloseStep(st, c, id).st, c)
  {
    hide DrainOne;
    if st.conns[c].channel != [] { DrainOutbox(st, c); }
  }

  /** The outbox of c only grows, and c stays in its phase. */
  predicate OutboxGrows(st: System, st': System, c: ConnId) {
    && c in st.conns && c in st'.conns && st'.requests == st.requests && st.conns[c].outbox <= st'.conns[c].outbox
    && st'.conns[c].phase == st.conns[c].phase
  }

  lemma DrainOutbox(st: System, c: ConnId)
    requires c in st.conns && st.conns[c].channel != []
    ensures DrainOne(st, c).Next? ==> OutboxGrows(st, DrainOne(st, c).st, c)
  {
  }

  lemma PendingOutbox(st: System, c: ConnId)
    requires c in st.conns && st.conns[c].pending != []
    ensures Known(st, st.conns[c].pending[0]) && st.subs[st.conns[c].pending[0]].frame.Some? ==> OutboxGrows(st, GiveBackPending(st, c), c)
  {
  }

  lemma OutboxStream(st: System, st': System, c: ConnId)
    requires c in st.conns && c in st'.conns && st'.requests == st.requests && st.conns[c].outbox <= st'.conns[c].outbox
    ensures Stream(st, c) <= Stream(st', c)
    ensures Stream(st', c) == Stream(st, c) + st'.conns[c].outbox[|st.conns[c].outbox|..]
  {
    var a, b := st.conns[c].outbox, st'.conns[c].outbox;
    assert b == a + b[|a|..];
    Regroup(Mine(st.requests, c), a, b[|a|..]);
  }

  lemma QuietAnnounced(st: System, st': System, c: ConnId)
    requires Announced(st, c) && c in st.conns && c in st'.conns && st'.conns[c].phase == st.conns[c].phase
    requires Stream(st', c) == Stream(st, c) && (Away(st, c) ==> Away(st', c))
    ensures Announced(st', c)
  {
    hide Away, Stream;
  }

  /** An event of the loop of d leaves d before the end of its cleanup. */
  lemma ActAnnounced(st: System, st': System, d: ConnId, c: ConnId)
    requires Announced(st, c) && c in st.conns && Local(st, st', d) && d in st'.conns && Early(st'.conns[d].phase)
    ensures Announced(st', c)
  {
    hide Away, Local, Stream;
    if d != c { LocalAnnounced(st, st', d, c); }
  }

  lemma ReceiveEarly(st: System, c: ConnId, f: Frame, io: bool, admit: bool)
    requires Inv(st) && InLoop(st, c) && Receive(st, c, f, io, admit).Next?
    ensures var st' := Receive(st, c, f, io, admit).st; c in st'.conns && Early(st'.conns[c].phase)
  {
    hide Inv, Local, Handle, ErrorFrame;
    var st0 := WithConn(st, c, st.conns[c].(received := st.conns[c].received + [f]));
    QuietInv(st, c, st0.conns[c]);
    HandleFine(st0, c, f, io, admit);
  }

  lemma ExitLocal(st: System, d: ConnId)
    requires d in st.conns
    ensures Local(st, Exit(st, d), d) && d in Exit(st, d).conns && Early(Exit(st, d).conns[d].phase)
  {
    LocalConn(st, Exit(st, d), d);
  }

  lemma DeliverEarly(st: System, d: ConnId, io: bool)
    requires InLoop(st, d) && st.conns[d].channel != [] && Deliver(st, d, io).Next?
    ensures d in Deliver(st, d, io).st.conns && Early(Deliver(st, d, io).st.conns[d].phase)
  {
    hide Stamp, NextMsgId;
  }

  lemma WriteEarly(st: System, d: ConnId, io: bool)
    requires InLoop(st, d) && st.conns[d].writes != []
    ensures d in WriteTopicFrame(st, d, io).conns && Early(WriteTopicFrame(st, d, io).conns[d].phase)
  {
    hide Stamp, NextMsgId;
  }

  lemma AcceptAnnounced(st: System, d: ConnId, c: ConnId)
    requires Inv(st) && Announced(st, c) && c in st.conns && d !in st.conns
    ensures Announced(WithConn(st, d, EMPTY_CONN), c)
  {
    hide Inv, Away;
    if Away(st, c) { AcceptAway(st, d, c); }
    assert Stream(WithConn(st, d, EMPTY_CONN), c) == Stream(st, c);
    QuietAnnounced(st, WithConn(st, d, EMPTY_CONN), c);
  }

  lemma FlushAnnounced(st: System, d: ConnId, c: ConnId)
    requires Announced(st, c) && c in st.conns && d in st.conns && st.conns[d].outbox != []
    ensures Announced(Flush(st, d), c)
  {
    hide Away, Stream;
    if Away(st, c) { FlushAway(st, d, c); }
    FlushStream(st, d, c);
    QuietAnnounced(st, Flush(st, d), c);
  }

  lemma TopicAnnounced(st: System, d: ConnId, f: Frame, c: ConnId)
    requires Inv(st) && Announced(st, c) && c in st.conns && d in st.conns
    ensures Announced(WithConn(st, d, st.conns[d].(writes := st.conns[d].writes + [f])), c)
  {
    hide Inv, Away;
    var st' := WithConn(st, d, st.conns[d].(writes := st.conns[d].writes + [f]));
    if Away(st, c) { TopicAway(st, d, f, c); }
    assert Stream(st', c) == Stream(st, c);
    QuietAnnounced(st, st', c);
  }

  lemma StepAnnounced(st: System, e: Event, c: ConnId)
    requires Inv(st) && Announced(st, c) && c in st.conns && Step(st, e).Next?
    ensures Announced(Step(st, e).st, c)
  {
    hide Inv, Announced, Away, Local, Serve, Flush, Receive, Deliver, WriteTopicFrame, CloseStep, Find, Exit;
    match e
    case Accept(d) => if d !in st.conns { AcceptAnnounced(st, d, c); }
    case ServeNext => ServeAnnounced(st, c);
    case FlushNext(d) => if d in st.conns && st.conns[d].outbox != [] { FlushAnnounced(st, d, c); }
    case ReceiveFrame(d, f, io, admit) => if InLoop(st, d) { ReceiveGood(st, d, f, io, admit); ReceiveEarly(st, d, f, io, admit); ActAnnounced(st, Step(st, e).st, d, c); }
    case ReadClosed(d) => if InLoop(st, d) { ExitLocal(st, d); ActAnnounced(st, Exit(st, d), d, c); }
    case DeliverNext(d, io) => if InLoop(st, d) && st.conns[d].channel != [] { DeliverGood(st, d, io); DeliverEarly(st, d, io); ActAnnounced(st, Step(st, e).st, d, c); }
    case WriteNext(d, io) => if InLoop(st, d) && st.conns[d].writes != [] { WriteTopicGood(st, d, io); WriteEarly(st, d, io); ActAnnounced(st, Step(st, e).st, d, c); }
    case HeartBeat(d, io) => if InLoop(st, d) { ExitLocal(st, d); ActAnnounced(st, Exit(st, d), d, c); }
    case TopicFrame(d, f) => if d in st.conns { TopicAnnounced(st, d, f, c); }
    case Close(d, id) =>
      if d in st.conns && st.conns[d].outbox == [] {
        if d == c {
          CloseAnnounced(st, c, id);
        } else {
          CloseGood(st, d, id);
          LocalAnnounced(st, CloseStep(st, d, id).st, d, c);
        }
      }
  }

  ghost predicate AllAnnounced(st: System) {
    forall c | c in st.conns :: Announced(st, c)
  }

  lemma StepAllAnnounced(st: System, e: Event)
    requires Inv(st) && AllAnnounced(st) && Step(st, e).Next?
    ensures AllAnnounced(Step(st, e).st)
  {
    hide Inv, Announced, Step;
    ConnsStay(st, e);
    forall c | c in Step(st, e).st.conns ensures Announced(Step(st, e).st, c) {
      if c in st.conns { StepAnnounced(st, e, c); } else { NewAnnounced(st, e, c); }
    }
  }

  lemma NewAnnounced(st: System, e: Event, c: ConnId)
    requires Inv(st) && Step(st, e).Next? && c !in st.conns && c in Step(st, e).st.conns
    ensures Announced(Step(st, e).st, c)
  {
    hide Inv, Stream, Away, Find;
    ConnsStay(st, e);
  }

  /** Only Accept makes a connection. */
  lemma ConnsStay(st: System, e: Event)
    requires Inv(st) && Step(st, e).Next?
    ensures forall c | c in Step(st, e).st.conns && c !in st.conns :: e == Accept(c)
  {
    hide Inv, Serve, Flush, Receive, Deliver, WriteTopicFrame, CloseStep, Find, Tokens, Local;
    match e
    case Accept(_) =>
    case ServeNext => ServeConns(st);
    case FlushNext(d) => if d in st.conns && st.conns[d].outbox != [] { FlushConns(st, d); }
    case ReceiveFrame(d, f, io, admit) => if InLoop(st, d) { ReceiveGood(st, d, f, io, admit); LocalConns(st, Step(st, e).st, d); }
    case ReadClosed(d) =>
    case DeliverNext(d, io) => if InLoop(st, d) && st.conns[d].channel != [] { DeliverGood(st, d, io); LocalConns(st, Step(st, e).st, d); }
    case WriteNext(d, io) => if InLoop(st, d) && st.conns[d].writes != [] { WriteTopicGood(st, d, io); LocalConns(st, Step(st, e).st, d); }
    case HeartBeat(d, io) =>
    case TopicFrame(d, f) =>
    case Close(d, id) => if d in st.conns && st.conns[d].outbox == [] { CloseGood(st, d, id); LocalConns(st, CloseStep(st, d, id).st, d); }
  }

  lemma LocalConns(st: System, st': System, d: ConnId)
    requires Local(st, st', d)
    ensures st'.conns.Keys == st.conns.Keys
  {
  }

  lemma FlushConns(st: System, d: ConnId)
    requires d in st.conns && st.conns[d].outbox != []
    ensures Flush(st, d).conns.Keys == st.conns.Keys
  {
  }

  lemma ServeConns(st: System)
    requires Inv(st) && Serve(st).Next?
    ensures Serve(st).st.conns.Keys == st.conns.Keys
  {
    hide Tokens, Conserved, Ordered, Serve, WaitingShrinks;
    ServeShrinks(st);
  }

  lemma {:induction false} PathAnnounced(states: seq<System>, events: seq<Event>)
    requires Path(states, events) && Inv(states[0]) && AllAnnounced(states[0])
    ensures Inv(states[|events|]) && AllAnnounced(states[|events|])
    decreases |events|
  {
    hide Inv, Step, AllAnnounced;
    if events != [] {
      var n := |events| - 1;
      PathPrefix(states, events);
      PathAnnounced(states[..n + 1], events[..n]);
      assert Step(states[n], events[n]) == Next(states[n + 1]);
      StepInv(states[n], events[n]);
      StepAllAnnounced(states[n], events[n]);
    }
  }

  lemma ReachableAnnounced(st: System, c: ConnId)
    requires Reachable(st) && c in st.conns
    ensures Announced(st, c)
  {
    hide Inv, Step, Announced;
    StartInv();
    var states, events :| Path(states, events) && states[0] == START && states[|events|] == st;
    PathAnnounced(states, events);
  }

  /** In every run, the processor pushes a frame to a closed connection, for a subscription that was not revived, only as
      long as the DisconnectedOp of the connection is still on its way. */
  lemma StrandsOnlyBeforeDisconnected(st: System, c: ConnId)
    requires Reachable(st) && c in st.conns && st.conns[c].phase == Closed && Serve(st).Next?
    requires c in Serve(st).st.conns ==> Serve(st).st.conns[c].channel != st.conns[c].channel
    requires Receiver(st).Some? ==> Receiver(st).value !in st.revived
    ensures Disconnected in Stream(st, c)
  {
    hide Reachable, Serve, Receiver, Stream, Inv, Away;
    ReachableInv(st);
    ReachableAnnounced(st, c);
    PushesIff(st, c);
    if Away(st, c) { AwayReceivesNothing(st, c); }
  }

  lemma AwayReceivesNothing(st: System, c: ConnId)
    requires Inv(st) && Away(st, c) && Receiver(st).Some? && Receiver(st).value in st.subs && st.subs[Receiver(st).value].conn == c
    ensures Receiver(st).value in st.revived
  {
    hide Conserved, Ordered, IsQueue, Stream, Destination;
    var s := Receiver(st).value;
    if s !in st.revived {
      HeadNotOf(st, s);
      NowhereWaiting(st, s);
    }
  }
}
