/** The loop of one connection, event by event: what ends it, what a delivery does, how cleanup goes on, and what bounds the
    channels. */
module BrokerLoop {
  import opened Text
  import opened Frames
  import opened Sequences
  import opened Broker
  import opened BrokerTokens
  import opened BrokerConservation
  import opened BrokerCleanup
  import opened BrokerRuns
  import opened BrokerAnswers
  import opened BrokerAcks
  import opened BrokerClients
  import opened BrokerTheorems
  import opened BrokerHandlers
  import opened BrokerClosing
  import Queues

  // ---------------------------------------------------------------- what ends the loop

  /** The event ends the loop of connection c: the client is gone, a frame or a heart-beat cannot be written, an ERROR of a
      topic was written, or a frame is not accepted. */
  ghost predicate Ends(st: System, e: Event, c: ConnId)
    requires c in st.conns
  {
    var k := st.conns[c];
    match e
    case ReadClosed(d) => d == c
    case HeartBeat(d, io) => d == c && !io
    case WriteNext(d, io) => d == c && k.writes != [] && (!io || k.writes[0].command == "ERROR")
    case DeliverNext(d, io) =>
      d == c && k.channel != [] && !io && k.channel[0] in st.subs && st.subs[k.channel[0]].id in k.subs
    case ReceiveFrame(d, f, io, admit) =>
      d == c && if k.phase == Running then !Accepts(k, f, io) else !Connects(f, admit)
    case _ => false
  }

  predicate Connects(f: Frame, admit: bool) {
    (f.command == "CONNECT" || f.command == "STOMP") && Find(f.header, "receipt").None? && admit
  }

  /** How far the connection is. */
  predicate Up(k: Conn) {
    k.phase == Connecting || k.phase == Running
  }

  /** k' is still in the loop, or just out of it. */
  predicate Stays(k': Conn, ends: bool) {
    if ends then k'.phase == Unsubscribing else Up(k')
  }

  lemma ServeStays(st: System, c: ConnId)
    requires Inv(st) && InLoop(st, c) && Serve(st).Next?
    ensures c in Serve(st).st.conns && Up(Serve(st).st.conns[c])
  {
    hide Tokens, Conserved, Ordered, Serve, WaitingShrinks;
    ServeShrinks(st);
  }

  lemma OtherStays(st: System, st': System, d: ConnId, c: ConnId)
    requires Local(st, st', d) && c in st.conns && d != c
    ensures c in st'.conns && st'.conns[c] == st.conns[c]
  {
  }

  lemma ReceiveStays(st: System, c: ConnId, f: Frame, io: bool, admit: bool)
    requires Reachable(st) && InLoop(st, c) && Receive(st, c, f, io, admit).Next?
    ensures c in Receive(st, c, f, io, admit).st.conns
    ensures Stays(Receive(st, c, f, io, admit).st.conns[c], Ends(st, ReceiveFrame(c, f, io, admit), c))
  {
    hide Reachable, Receive, Accepts, Effect, Still, Find;
    if st.conns[c].phase == Running {
      FramesHandled(st, c, f, io, admit);
    } else {
      ConnectHandled(st, c, f, io, admit);
    }
  }

  lemma DeliverStays(st: System, c: ConnId, io: bool)
    requires InLoop(st, c) && st.conns[c].channel != [] && Deliver(st, c, io).Next?
    ensures c in Deliver(st, c, io).st.conns && Stays(Deliver(st, c, io).st.conns[c], Ends(st, DeliverNext(c, io), c))
  {
    hide Stamp, NextMsgId, Accepts;
  }

  lemma WriteStays(st: System, c: ConnId, io: bool)
    requires InLoop(st, c) && st.conns[c].writes != []
    ensures c in WriteTopicFrame(st, c, io).conns && Stays(WriteTopicFrame(st, c, io).conns[c], Ends(st, WriteNext(c, io), c))
  {
    hide Accepts, NextMsgId;
    StampNames(st.conns[c].writes[0], NextMsgId(st.conns[c].lastMsgId, st.conns[c].writes[0]), true);
    hide Stamp;
  }

  lemma StampNames(f: Frame, id: nat, auto: bool)
    ensures Stamp(f, id, auto).command == f.command
  {
  }

  /** In every run, after an event the connection is out of its loop exactly when the event ends it. */
  lemma LoopEndsIff(st: System, e: Event, c: ConnId)
    requires Reachable(st) && InLoop(st, c) && Step(st, e).Next?
    ensures c in Step(st, e).st.conns && Stays(Step(st, e).st.conns[c], Ends(st, e, c))
  {
    hide Reachable, Inv, Serve, Flush, Receive, Deliver, WriteTopicFrame, CloseStep, Find, Local, Accepts, Connects;
    ReachableInv(st);
    match e
    case Accept(d) =>
    case ServeNext => ServeStays(st, c);
    case FlushNext(d) => if d in st.conns && st.conns[d].outbox != [] { FlushKeepsConn(st, d, c); }
    case ReceiveFrame(d, f, io, admit) =>
      if d == c { ReceiveStays(st, c, f, io, admit); }
      else if InLoop(st, d) { ReceiveGood(st, d, f, io, admit); OtherStays(st, Step(st, e).st, d, c); }
    case ReadClosed(d) =>
    case DeliverNext(d, io) =>
      if InLoop(st, d) && st.conns[d].channel != [] {
        if d == c { DeliverStays(st, c, io); } else { DeliverGood(st, d, io); OtherStays(st, Step(st, e).st, d, c); }
      }
    case WriteNext(d, io) =>
      if InLoop(st, d) && st.conns[d].writes != [] {
        if d == c { WriteStays(st, c, io); } else { WriteTopicGood(st, d, io); OtherStays(st, Step(st, e).st, d, c); }
      }
    case HeartBeat(d, io) =>
    case TopicFrame(d, f) =>
    case Close(d, id) =>
      if d == c { assert CloseStep(st, c, id) == Next(st) by { UpDoesNotClose(st, c, id); } }
      else if d in st.conns && st.conns[d].outbox == [] { CloseGood(st, d, id); OtherStays(st, Step(st, e).st, d, c); }
  }

  lemma UpDoesNotClose(st: System, c: ConnId, id: string)
    requires c in st.conns && Up(st.conns[c])
    ensures CloseStep(st, c, id) == Next(st)
  {
  }

  lemma FlushKeepsConn(st: System, d: ConnId, c: ConnId)
    requires d in st.conns && st.conns[d].outbox != [] && c in st.conns
    ensures c in Flush(st, d).conns && Flush(st, d).conns[c] == st.conns[c].(outbox := Flush(st, d).conns[c].outbox)
  {
  }

  // ---------------------------------------------------------------- a delivery

  /** The frame of the first subscription s in the channel went back to its queue, because s is unsubscribed. */
  predicate WentBack(st: System, st': System, c: ConnId, s: SubId, m: Msg) {
    && c in st.conns && c in st'.conns && st'.conns[c].outbox == [Requeue(m, false)]
    && st'.conns[c].sent == st.conns[c].sent && st'.conns[c].pending == st.conns[c].pending && st'.conns[c].phase == st.conns[c].phase
  }

  /** The frame was given to the writer, as the next MESSAGE. Unless that failed, s then asks for its next message at once if it
      is automatic, and otherwise waits behind the others for an acknowledgement, with its frame. */
  predicate WasWritten(st: System, st': System, c: ConnId, s: SubId, m: Msg, io: bool)
    requires c in st.conns && s in st.subs
  {
    var k := st.conns[c];
    && c in st'.conns && s in st'.subs
    && |st'.conns[c].sent| == |k.sent| + 1 && st'.conns[c].sent[..|k.sent|] == k.sent
    && st'.conns[c].sent[|k.sent|].via == Some(Delivery(s, m.ref))
    && st'.conns[c].sent[|k.sent|].frame.command == "MESSAGE" && st'.conns[c].sent[|k.sent|].frame.body == m.frame.body
    && if !io then st'.conns[c].outbox == [] && st'.conns[c].pending == k.pending && st'.conns[c].phase == Unsubscribing
       else if st.subs[s].ack == "auto" then
         st'.conns[c].outbox == [Subscribe(s)] && st'.conns[c].pending == k.pending && st'.subs[s].frame.None?
         && st'.conns[c].phase == k.phase
       else
         st'.conns[c].outbox == [] && st'.conns[c].pending == k.pending + [s] && st'.conns[c].phase == k.phase
         && st'.subs[s].frame == Some(Msg(m.ref, st'.conns[c].sent[|k.sent|].frame))
  }

  /** In every run, what a delivery does with the frame of the first subscription in the channel, which is off it then. */
  lemma DeliveryDoes(st: System, c: ConnId, io: bool)
    requires Reachable(st) && InLoop(st, c) && st.conns[c].channel != [] && Deliver(st, c, io).Next?
    ensures var k, st' := st.conns[c], Deliver(st, c, io).st;
            && k.channel[0] in st.subs && st.subs[k.channel[0]].frame.Some?
            && c in st'.conns && st'.conns[c].channel == k.channel[1..]
            && var s := k.channel[0]; var m := st.subs[s].frame.value;
               if st.subs[s].id in k.subs then WasWritten(st, st', c, s, m, io) else WentBack(st, st', c, s, m)
  {
    hide Reachable, Conserved, Ordered, Tokens, ClientsGood;
    ReachableGood(st);
    ChannelFacts(st, c);
    QueueFrameIsMessage(st, st.conns[c].channel[0]);
    StampBody(st.subs[st.conns[c].channel[0]].frame.value.frame);
    hide Stamp, NextMsgId;
  }

  lemma StampBody(f: Frame)
    ensures forall id, auto :: Stamp(f, id, auto).command == f.command && Stamp(f, id, auto).body == f.body
  {
    hide Put, Drop, FormatDecimal;
  }

  /** A topic frame that is taken off the write channel is the next frame written; only the entries of a delivery are set. */
  lemma TopicFrameIsWritten(st: System, c: ConnId, io: bool)
    requires InLoop(st, c) && st.conns[c].writes != []
    ensures Step(st, WriteNext(c, io)).Next? && c in Step(st, WriteNext(c, io)).st.conns
    ensures var k, k' := st.conns[c], Step(st, WriteNext(c, io)).st.conns[c];
            && |k'.sent| == |k.sent| + 1 && k'.sent[..|k.sent|] == k.sent
            && k'.sent[|k.sent|].frame.command == k.writes[0].command && k'.sent[|k.sent|].frame.body == k.writes[0].body
            && Without(k'.sent[|k.sent|].frame.header, {"message-id", "id", "ack"}) == Without(k.writes[0].header, {"message-id", "id", "ack"})
            && (Up(k') ==> k'.writes == k.writes[1..])
  {
    hide NextMsgId;
    var f := st.conns[c].writes[0];
    StampBody(f);
    StampOutside(f, NextMsgId(st.conns[c].lastMsgId, f), true);
    hide Stamp, Without;
  }

  lemma StampOutside(f: Frame, id: nat, auto: bool)
    ensures Without(Stamp(f, id, auto).header, {"message-id", "id", "ack"}) == Without(f.header, {"message-id", "id", "ack"})
  {
    hide FormatDecimal;
    var t := FormatDecimal(id);
    var keys := {"message-id", "id", "ack"};
    var h1 := Put(f.header, "message-id", t);
    var h := Put(h1, "id", t);
    PutKeepsOthers(f.header, "message-id", t, keys);
    PutKeepsOthers(h1, "id", t, keys);
    PutKeepsOthers(h, "ack", t, keys);
    DropKeepsOthers(h, "ack", keys);
  }
}
