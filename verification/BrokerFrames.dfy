/** What a queue does to the frames that pass through it: the body and every header entry that does not
    belong to one delivery stay as they entered, however often the frame is requeued. */
module BrokerFrames {
  import opened Text
  import opened Frames
  import opened Broker
  import Queues

  /** The header entries that belong to one delivery. */
  const DELIVERY_KEYS := {"subscription", "message-id", "id", "ack"}

  function Core(f: Frame): seq<Entry> {
    Without(f.header, DELIVERY_KEYS)
  }

  /** g is f, up to the header entries of a delivery. */
  predicate SameMessage(f: Frame, g: Frame) {
    g.command == f.command && g.body == f.body && Core(g) == Core(f)
  }

  predicate MsgOk(entered: map<Ref, Frame>, m: Msg) {
    m.ref in entered && SameMessage(entered[m.ref], m.frame) && m.frame.command == "MESSAGE" && IsQueueFrame(m.frame)
  }

  predicate OpOk(entered: map<Ref, Frame>, op: Op) {
    match op
    case Enqueue(m) => IsQueueFrame(m.frame) ==> MsgOk(entered, m)
    case Requeue(m, _) => MsgOk(entered, m)
    case _ => true
  }

  predicate RequestFrames(entered: map<Ref, Frame>, rs: seq<Request>) {
    forall i | 0 <= i < |rs| :: OpOk(entered, rs[i].op)
  }

  /** Messages stored for destination d were sent to d. */
  predicate QueueFrames(entered: map<Ref, Frame>, d: string, q: Queues.Queue<SubId, Msg>) {
    forall i | 0 <= i < |q.stored| :: MsgOk(entered, q.stored[i]) && Destination(q.stored[i].frame) == Some(d)
  }

  /** The frame of a subscription was sent to the destination of the subscription. */
  predicate SubFrame(entered: map<Ref, Frame>, sub: Sub) {
    sub.frame.Some? ==> MsgOk(entered, sub.frame.value) && Destination(sub.frame.value.frame) == Some(sub.dest)
  }

  predicate SentOk(entered: map<Ref, Frame>, x: Sent) {
    x.via.Some? ==> x.via.value.ref in entered && SameMessage(entered[x.via.value.ref], x.frame)
  }

  predicate ConnFrames(entered: map<Ref, Frame>, k: Conn) {
    && (forall i | 0 <= i < |k.outbox| :: OpOk(entered, k.outbox[i]))
    && (forall i | 0 <= i < |k.sent| :: SentOk(entered, k.sent[i]))
  }

  predicate FramesOk(st: System) {
    && RequestFrames(st.entered, st.requests)
    && (forall d | d in st.queues :: QueueFrames(st.entered, d, st.queues[d]))
    && (forall s | s in st.subs :: SubFrame(st.entered, st.subs[s]))
    && (forall c | c in st.conns :: ConnFrames(st.entered, st.conns[c]))
    && (forall r | r in st.entered :: r < st.nextRef)
  }

  // ---------------------------------------------------------------- header changes of a delivery

  lemma PutKeepsMessage(f: Frame, k: string, v: string)
    requires k in DELIVERY_KEYS
    ensures SameMessage(f, f.(header := Put(f.header, k, v)))
    ensures Destination(f.(header := Put(f.header, k, v))) == Destination(f)
  {
    PutKeepsOthers(f.header, k, v, DELIVERY_KEYS);
    FindAfterPut(f.header, k, v, "destination");
  }

  lemma DropKeepsMessage(f: Frame, k: string)
    requires k in DELIVERY_KEYS
    ensures SameMessage(f, f.(header := Drop(f.header, k)))
    ensures Destination(f.(header := Drop(f.header, k))) == Destination(f)
  {
    DropKeepsOthers(f.header, k, DELIVERY_KEYS);
    FindAfterDrop(f.header, k, "destination");
  }

  lemma StampKeepsMessage(f: Frame, id: nat, auto: bool)
    ensures SameMessage(f, Stamp(f, id, auto)) && Destination(Stamp(f, id, auto)) == Destination(f)
  {
    hide Find, Put, Drop, Without, FormatDecimal;
    var t := FormatDecimal(id);
    var f1 := f.(header := Put(f.header, "message-id", t));
    var f2 := f1.(header := Put(f1.header, "id", t));
    PutKeepsMessage(f, "message-id", t);
    PutKeepsMessage(f1, "id", t);
    PutKeepsMessage(f2, "ack", t);
    DropKeepsMessage(f2, "ack");
  }

  lemma StampKeepsSubscription(f: Frame, id: nat, auto: bool)
    ensures Find(Stamp(f, id, auto).header, "subscription") == Find(f.header, "subscription")
  {
    hide Find, Put, Drop, FormatDecimal;
    var t := FormatDecimal(id);
    var h1 := Put(f.header, "message-id", t);
    var h2 := Put(h1, "id", t);
    FindAfterPut(f.header, "message-id", t, "subscription");
    FindAfterPut(h1, "id", t, "subscription");
    FindAfterPut(h2, "ack", t, "subscription");
    FindAfterDrop(h2, "ack", "subscription");
  }

  /** setSubscriptionHeader and allocateMessageId keep the message. */
  lemma MsgStays(entered: map<Ref, Frame>, m: Msg, f: Frame)
    requires MsgOk(entered, m) && SameMessage(m.frame, f) && Destination(f) == Destination(m.frame)
    ensures MsgOk(entered, Msg(m.ref, f))
  {
  }

  // ---------------------------------------------------------------- one lemma for every kind of change

  /** A change to subscription s, connection c, queue d and the requests keeps the frames in order when
      the changed parts do. */
  lemma FramesMoved(st: System, st': System, s: SubId, c: ConnId, d: string)
    requires FramesOk(st) && st'.entered == st.entered && st'.nextRef == st.nextRef
    requires RequestFrames(st.entered, st'.requests)
    requires forall e | e in st'.queues && e != d :: e in st.queues && st'.queues[e] == st.queues[e]
    requires d in st'.queues ==> QueueFrames(st.entered, d, st'.queues[d])
    requires forall x | x in st'.subs && x != s :: x in st.subs && st'.subs[x] == st.subs[x]
    requires s in st'.subs ==> SubFrame(st.entered, st'.subs[s])
    requires forall e | e in st'.conns && e != c :: e in st.conns && st'.conns[e] == st.conns[e]
    requires c in st'.conns ==> ConnFrames(st.entered, st'.conns[c])
    ensures FramesOk(st')
  {
    hide RequestFrames, QueueFrames, SubFrame, ConnFrames;
  }

  /** A new frame enters. */
  lemma FramesEnter(st: System, f: Frame)
    requires FramesOk(st)
    ensures FramesOk(st.(entered := st.entered[st.nextRef := f], nextRef := st.nextRef + 1))
  {
    hide SameMessage, IsQueueFrame, Destination;
    assert st.nextRef !in st.entered;
  }

  lemma SubmitFrames(st: System, c: ConnId, f: Frame)
    requires FramesOk(st) && c in st.conns
    ensures FramesOk(Submit(st, c, f))
  {
    var f' := f.(command := "MESSAGE");
    var m := Msg(st.nextRef, f');
    var st1 := st.(nextRef := st.nextRef + 1, entered := if IsQueueFrame(f') then st.entered[st.nextRef := f'] else st.entered);
    FramesEnter(st, f');
    assert FramesOk(st1);
    assert OpOk(st1.entered, Enqueue(m));
    EmitFrames(st1, c, Enqueue(m));
  }

  lemma EmitFrames(st: System, c: ConnId, op: Op)
    requires FramesOk(st) && c in st.conns && OpOk(st.entered, op)
    ensures FramesOk(Emit(st, c, op))
  {
    hide OpOk, SentOk, RequestFrames, QueueFrames, SubFrame;
    assert ConnFrames(st.entered, st.conns[c]);
    assert ConnFrames(st.entered, Emit(st, c, op).conns[c]);
  }
}
