/** The broker as a step system: client connections (server/client/conn.go), the request processor
    (server/processor.go) and the queues. One event is one loop iteration of one goroutine. A send on
    the request channel happens in two parts: the connection puts the request in its outbox, and a
    later Flush moves it to the channel; a connection with a full outbox does nothing else, which is
    what blocking on the channel means. A subscription channel that is full blocks the processor.

    Subscriptions are shared objects, so they live in one table. Fields marked "history" are never
    read by a step; they record what the theorems talk about. */
module Broker {
  import opened Text
  import opened Frames
  import Queues

  type ConnId = nat
  type SubId = nat
  type Ref = nat

  const MAX_REQUESTS := 128
  const MAX_PENDING_WRITES := 16
  const UINT64_LIMIT := 0x1_0000_0000_0000_0000

  /** A frame that entered a queue, with the identity of the frame object. */
  datatype Msg = Msg(ref: Ref, frame: Frame)

  datatype Op =
    | Subscribe(s: SubId)
    | Unsubscribe(s: SubId)
    | Enqueue(m: Msg)
    | Requeue(m: Msg, closing: bool)  // closing: sent by cleanupConn (history)
    | Connected
    | Disconnected

  datatype Request = Request(from: ConnId, op: Op)  // from: history

  /** Where a subscription is (history). */
  datatype Place = Outbox | Requested | Waiting | Channel | Pending | Topic | Gone

  datatype Sub = Sub(
    conn: ConnId, dest: string, id: string, ack: string, msgId: nat,
    listed: bool,         // subList is not nil
    frame: Option<Msg>,
    at: Place)

  datatype Phase = Connecting | Running | Unsubscribing | Requeuing | Draining | LastDrain | Closed

  datatype Delivery = Delivery(sub: SubId, ref: Ref)

  /** A frame given to the writer, and the queue delivery it was (history). */
  datatype Sent = Sent(frame: Frame, via: Option<Delivery>)

  datatype Conn = Conn(
    phase: Phase,
    txs: map<string, seq<Frame>>,
    lastMsgId: nat,
    subs: map<string, SubId>,
    pending: seq<SubId>,   // subList
    channel: seq<SubId>,   // subChannel
    writes: seq<Frame>,    // writeChannel
    outbox: seq<Op>,
    sent: seq<Sent>,       // history
    received: seq<Frame>,  // history
    dropped: seq<Ref>)     // history: frames whose write failed

  datatype System = System(
    requests: seq<Request>,
    queues: map<string, Queues.Queue<SubId, Msg>>,
    subs: map<SubId, Sub>,
    conns: map<ConnId, Conn>,
    nextRef: Ref,
    nextSub: SubId,
    entered: map<Ref, Frame>,  // history: frames sent to a queue destination, as they entered
    acked: multiset<Ref>,      // history
    written: multiset<Ref>,    // history: written to an auto subscriber
    matched: set<SubId>,       // history: matched by an ACK or NACK
    revived: set<SubId>)       // history: subscribed again after it was unsubscribed

  datatype Panic =
    | AlreadyListed(s: SubId)      // subscription_list.go: "subscription is already in a subscription list"
    | FramePending(s: SubId)       // subscription.go: "subscription already has a frame pending"
    | NilFrame(s: SubId)           // a nil frame would be dereferenced
    | InvalidAckMode(s: SubId)     // subscription.go: "invalid value for subscript.ack"
    | MissingDestination           // processor.go: "missing destination"
    | StoredCommit                 // a transaction would contain a COMMIT frame

  datatype Outcome = Next(st: System) | Crash(why: Panic)

  /** What a state function did with a frame. Failed carries the frame as the handler left it. */
  datatype Handled = Done(st: System) | Failed(st: System, f: Frame, err: string) | Crashed(why: Panic)

  const EMPTY_CONN := Conn(Connecting, map[], 0, map[], [], [], [], [], [], [], [])
  const EMPTY_QUEUE := Queues.Queue<SubId, Msg>.Queue([], [])
  const START := System([], map[], map[], map[], 0, 0, map[], multiset{}, multiset{}, {}, {})

  // ---------------------------------------------------------------- frames and small updates

  function Destination(f: Frame): Option<string> {
    Find(f.header, "destination")
  }

  /** isQueueDestination */
  predicate IsQueue(d: string) {
    "/queue" <= d
  }

  predicate IsQueueFrame(f: Frame) {
    Destination(f).Some? && IsQueue(Destination(f).value)
  }

  /** IsAckedBy, for a valid ack mode. */
  predicate IsAckedBy(ack: string, msgId: nat, n: nat) {
    || ack == "auto"
    || (ack == "client" && n >= msgId)
    || (ack == "client-individual" && n == msgId)
  }

  predicate ValidAck(ack: string) {
    ack == "auto" || ack == "client" || ack == "client-individual"
  }

  function QueueOf(st: System, d: string): Queues.Queue<SubId, Msg> {
    if d in st.queues then st.queues[d] else EMPTY_QUEUE
  }

  predicate Known(st: System, s: SubId) {
    s in st.subs && st.subs[s].conn in st.conns
  }

  function WithConn(st: System, c: ConnId, k: Conn): System {
    st.(conns := st.conns[c := k])
  }

  function Emit(st: System, c: ConnId, op: Op): System
    requires c in st.conns
  {
    WithConn(st, c, st.conns[c].(outbox := st.conns[c].outbox + [op]))
  }

  function Write(st: System, c: ConnId, f: Frame): System
    requires c in st.conns
  {
    WithConn(st, c, st.conns[c].(sent := st.conns[c].sent + [Sent(f, None)]))
  }

  /** allocateMessageId: the new lastMsgId and the frame with its identifying headers set. */
  function NextMsgId(last: nat, f: Frame): nat {
    if f.command == "MESSAGE" || f.command == "ACK" then (last + 1) % UINT64_LIMIT else last
  }

  function Stamp(f: Frame, id: nat, auto: bool): Frame {
    if f.command == "MESSAGE" || f.command == "ACK" then
      var t := FormatDecimal(id);
      var h := Put(Put(f.header, "message-id", t), "id", t);
      f.(header := if auto then Drop(h, "ack") else Put(h, "ack", t))
    else f
  }

  /** setSubscriptionHeader */
  function ForSubscription(m: Msg, id: string): Msg {
    m.(frame := m.frame.(header := Put(m.frame.header, "subscription", id)))
  }

  /** The loop returns, and cleanupConn starts: transactions and unsent topic frames are discarded. */
  function Exit(st: System, c: ConnId): System
    requires c in st.conns
  {
    WithConn(st, c, st.conns[c].(phase := Unsubscribing, txs := map[], writes := []))
  }

  // ---------------------------------------------------------------- the request processor

  function PopRequest(st: System): System
    requires st.requests != []
  {
    st.(requests := st.requests[1..])
  }

  function WithQueue(st: System, d: string, q: Queues.Queue<SubId, Msg>): System {
    st.(queues := st.queues[d := q])
  }

  /** SendQueueFrame: puts the subscription, holding the message, on its connection's channel. */
  function PushToChannel(st: System, s: SubId, m: Msg, listed: bool): System
    requires Known(st, s)
  {
    var sub := st.subs[s];
    var k := st.conns[sub.conn];
    st.(subs := st.subs[s := sub.(frame := Some(ForSubscription(m, sub.id)), listed := listed, at := Channel)],
        conns := st.conns[sub.conn := k.(channel := k.channel + [s])])
  }

  /** Hands m to s, or waits (no change) while the channel of s is full. */
  function HandOver(st: System, st': System, s: SubId, m: Msg, listed: bool): Outcome
    requires Known(st, s) && st'.subs == st.subs && st'.conns == st.conns
  {
    if st.subs[s].frame.Some? then Crash(FramePending(s))
    else if |st.conns[st.subs[s].conn].channel| >= MAX_PENDING_WRITES then Next(st)
    else Next(PushToChannel(st', s, m, listed))
  }

  function ServeSubscribe(st: System, s: SubId): Outcome
    requires st.requests != [] && Known(st, s)
  {
    var sub := st.subs[s];
    if !IsQueue(sub.dest) then
      Next(PopRequest(st).(subs := st.subs[s := sub.(at := Topic)]))
    else
      var e := Queues.Subscribe(QueueOf(st, sub.dest), s);
      var st' := WithQueue(PopRequest(st), sub.dest, e.queue);
      match e.handed
      case Some(h) => HandOver(st, st', s, h.msg, sub.listed)
      case None =>
        if sub.listed then Crash(AlreadyListed(s))
        else Next(st'.(subs := st.subs[s := sub.(listed := true, at := Waiting)]))
  }

  function ServeUnsubscribe(st: System, s: SubId): Outcome
    requires st.requests != [] && Known(st, s)
  {
    var sub := st.subs[s];
    var q := QueueOf(st, sub.dest);
    if !IsQueue(sub.dest) then
      Next(PopRequest(st).(subs := st.subs[s := sub.(at := if sub.at == Topic then Gone else sub.at)]))
    else if s in q.waiting then
      Next(WithQueue(PopRequest(st), sub.dest, Queues.Unsubscribe(q, s).queue)
           .(subs := st.subs[s := sub.(listed := false, at := Gone)]))
    else
      Next(PopRequest(st))
  }

  /** EnqueueOp and RequeueOp for a queue destination. */
  function ServeMessage(st: System, d: string, m: Msg, front: bool): Outcome
    requires st.requests != []
  {
    var q := QueueOf(st, d);
    var e := if front then Queues.Requeue(q, m) else Queues.Enqueue(q, m);
    var st' := WithQueue(PopRequest(st), d, e.queue);
    match e.handed
    case None => Next(st')
    case Some(h) => if Known(st, h.sub) then HandOver(st, st', h.sub, m, false) else Next(st)
  }

  function Serve(st: System): Outcome {
    if st.requests == [] then Next(st)
    else
      match st.requests[0].op
      case Subscribe(s) => if Known(st, s) then ServeSubscribe(st, s) else Next(st)
      case Unsubscribe(s) => if Known(st, s) then ServeUnsubscribe(st, s) else Next(st)
      case Enqueue(m) =>
        if Destination(m.frame).None? then Crash(MissingDestination)
        else if IsQueueFrame(m.frame) then ServeMessage(st, Destination(m.frame).value, m, false)
        else Next(PopRequest(st))
      case Requeue(m, _) =>
        if Destination(m.frame).None? then Crash(MissingDestination)
        else if IsQueueFrame(m.frame) then ServeMessage(st, Destination(m.frame).value, m, true)
        else Next(PopRequest(st))
      case Connected => Next(PopRequest(st))
      case Disconnected => Next(PopRequest(st))
  }

  // ---------------------------------------------------------------- handlers of one connection

  /** SEND outside a transaction: the frame becomes a MESSAGE and is sent to the processor. */
  function Submit(st: System, c: ConnId, f: Frame): System
    requires c in st.conns
  {
    var f' := f.(command := "MESSAGE");
    Emit(st, c, Enqueue(Msg(st.nextRef, f')))
    .(nextRef := st.nextRef + 1,
      entered := if IsQueueFrame(f') then st.entered[st.nextRef := f'] else st.entered)
  }

  function NewSub(st: System, c: ConnId, id: string, dest: string, ack: string): System
    requires c in st.conns
  {
    var s := st.nextSub;
    var k := st.conns[c];
    st.(subs := st.subs[s := Sub(c, dest, id, ack, 0, false, None, Outbox)],
        conns := st.conns[c := k.(subs := k.subs[id := s], outbox := k.outbox + [Subscribe(s)])],
        nextSub := s + 1)
  }

  function EndSub(st: System, c: ConnId, id: string): System
    requires c in st.conns && id in st.conns[c].subs
  {
    var k := st.conns[c];
    WithConn(st, c, k.(subs := k.subs - {id}, outbox := k.outbox + [Unsubscribe(k.subs[id])]))
  }

  /** True when s is the subscription the connection knows under its id. */
  predicate Live(st: System, s: SubId)
    requires Known(st, s)
  {
    var k := st.conns[st.subs[s].conn];
    st.subs[s].id in k.subs && k.subs[st.subs[s].id] == s
  }

  /** The callback of Ack (requeue is false) or Nack (true) for the i-th pending subscription, which
      leaves the list but keeps its subList pointer. */
  function SettleAt(st: System, c: ConnId, i: nat, requeue: bool): System
    requires c in st.conns && i < |st.conns[c].pending|
    requires Known(st, st.conns[c].pending[i]) && st.subs[st.conns[c].pending[i]].frame.Some?
  {
    var k := st.conns[c];
    var s := k.pending[i];
    var sub := st.subs[s];
    st.(subs := st.subs[s := sub.(frame := None, at := Outbox)],
        conns := st.conns[c := k.(pending := k.pending[..i] + k.pending[i + 1..],
                                  outbox := k.outbox + (if requeue then [Requeue(sub.frame.value, false)] else [])
                                            + [Subscribe(s)])],
        acked := if requeue then st.acked else st.acked + multiset{sub.frame.value.ref},
        matched := st.matched + {s},
        revived := if Live(st, s) then st.revived else st.revived + {s})
  }

  /** subList.Ack(n, ...) and subList.Nack(n, ...) from list position i. */
  function Settle(st: System, c: ConnId, n: nat, i: nat, nack: bool): Handled
    requires c in st.conns && i <= |st.conns[c].pending|
    decreases |st.conns[c].pending| - i
  {
    if i == |st.conns[c].pending| then Done(st)
    else
      var s := st.conns[c].pending[i];
      if !Known(st, s) || st.subs[s].frame.None? then Crashed(NilFrame(s))
      else if !nack && !ValidAck(st.subs[s].ack) then Crashed(InvalidAckMode(s))
      else if if nack then n == st.subs[s].msgId else IsAckedBy(st.subs[s].ack, st.subs[s].msgId, n) then
        Settle(SettleAt(st, c, i, nack), c, n, i, nack)
      else Settle(st, c, n, i + 1, nack)
  }

  /** sendReceiptImmediately: the connection after it, and the frame without its receipt header. */
  function Receipt(st: System, c: ConnId, f: Frame): System
    requires c in st.conns
  {
    match Find(f.header, "receipt")
    case Some(r) => Write(st, c, Frame("RECEIPT", [Entry("receipt-id", r)], ""))
    case None => st
  }

  function StripReceipt(f: Frame): Frame {
    f.(header := Drop(f.header, "receipt"))
  }

  /** The receipt was wanted and could not be written. */
  predicate ReceiptFails(f: Frame, io: bool) {
    Find(f.header, "receipt").Some? && !io
  }

  /** txStore.Add */
  function AddToTx(st: System, c: ConnId, tx: string, f: Frame): Handled
    requires c in st.conns
  {
    var k := st.conns[c];
    if tx in k.txs then
      Done(WithConn(st, c, k.(txs := k.txs[tx := k.txs[tx] + [f.(header := Drop(f.header, "transaction"))]])))
    else Failed(st, f, "unknown transaction")
  }

  /** handleSend, after the receipt. */
  function SendBody(st: System, c: ConnId, f: Frame): Handled
    requires c in st.conns
  {
    match Find(f.header, "transaction")
    case Some(tx) => AddToTx(st, c, tx, f)
    case None => Done(Submit(st, c, f))
  }

  /** The message id of an ACK or NACK frame. */
  function AckId(f: Frame): Option<string> {
    match Find(f.header, "ack")
    case Some(v) => Some(v)
    case None => Find(f.header, "message-id")
  }

  /** handleAck and handleNack. */
  function HandleAck(st: System, c: ConnId, f: Frame, io: bool, nack: bool): Handled
    requires c in st.conns
  {
    if AckId(f).None? then Failed(st, f, "missing header: message-id")
    else if ParseUint(AckId(f).value, UINT64_LIMIT - 1).None? then Failed(st, f, "invalid syntax")
    else
      var n := ParseUint(AckId(f).value, UINT64_LIMIT - 1).value;
      var st' := Receipt(st, c, f);
      var f' := StripReceipt(f);
      if ReceiptFails(f, io) then Failed(st', f', "write failed")
      else
        match Find(f'.header, "transaction")
        case Some(tx) => AddToTx(st', c, tx, f')
        case None => Settle(st', c, n, 0, nack)
  }

  /** handleSubscribe */
  function HandleSubscribe(st: System, c: ConnId, f: Frame): Handled
    requires c in st.conns
  {
    if Find(f.header, "id").None? then Failed(st, f, "missing header: id")
    else if Destination(f).None? then Failed(st, f, "missing header: destination")
    else
      var id := Find(f.header, "id").value;
      var ack := match Find(f.header, "ack") case Some(a) => a case None => "auto";
      if id in st.conns[c].subs then Failed(st, f, "subscription already exists")
      else Done(NewSub(st, c, id, Destination(f).value, ack))
  }

  /** handleUnsubscribe */
  function HandleUnsubscribe(st: System, c: ConnId, f: Frame): Handled
    requires c in st.conns
  {
    if Find(f.header, "id").None? then Failed(st, f, "missing header: id")
    else if Find(f.header, "id").value !in st.conns[c].subs then Failed(st, f, "subscription not found")
    else Done(EndSub(st, c, Find(f.header, "id").value))
  }

  /** handleBegin and handleAbort, and the part of handleCommit before the replay. */
  function HandleTx(st: System, c: ConnId, f: Frame, io: bool): Handled
    requires c in st.conns
  {
    match Find(f.header, "transaction")
    case None => Failed(st, f, "missing header: transaction")
    case Some(tx) =>
      var st' := Receipt(st, c, f);
      var f' := StripReceipt(f);
      var k := st'.conns[c];
      if ReceiptFails(f, io) then Failed(st', f', "write failed")
      else if f.command == "BEGIN" then
        if tx in k.txs then Failed(st', f', "transaction already in progress")
        else Done(WithConn(st', c, k.(txs := k.txs[tx := []])))
      else if tx !in k.txs then Failed(st', f', "unknown transaction")
      else if f.command == "ABORT" then Done(WithConn(st', c, k.(txs := k.txs - {tx})))
      else Done(st')
  }

  /** The state function connected, for every command but COMMIT. */
  function Dispatch(st: System, c: ConnId, f: Frame, io: bool): Handled
    requires c in st.conns
  {
    match f.command
    case "CONNECT" => Failed(st, f, "unexpected frame command")
    case "STOMP" => Failed(st, f, "unexpected frame command")
    case "DISCONNECT" => Done(Receipt(st, c, f))
    case "BEGIN" => HandleTx(st, c, f, io)
    case "ABORT" => HandleTx(st, c, f, io)
    case "SEND" =>
      if ReceiptFails(f, io) then Failed(Receipt(st, c, f), StripReceipt(f), "write failed")
      else SendBody(Receipt(st, c, f), c, StripReceipt(f))
    case "SUBSCRIBE" => HandleSubscribe(st, c, f)
    case "UNSUBSCRIBE" => HandleUnsubscribe(st, c, f)
    case "ACK" => HandleAck(st, c, f, io, false)
    case "NACK" => HandleAck(st, c, f, io, true)
    case "MESSAGE" => Failed(st, f, "unexpected frame command")
    case "RECEIPT" => Failed(st, f, "unexpected frame command")
    case "ERROR" => Failed(st, f, "unexpected frame command")
    case _ => Failed(st, f, "unknown command")
  }

  /** The loop of txStore.Commit: the state function again, for each stored frame in order. */
  function Replay(st: System, c: ConnId, frames: seq<Frame>, io: bool): Handled
    requires c in st.conns
    decreases |frames|
  {
    if frames == [] then Done(st)
    else if frames[0].command == "COMMIT" then Crashed(StoredCommit)
    else
      match Dispatch(st, c, frames[0], io)
      case Done(st') => if c in st'.conns then Replay(st', c, frames[1..], io) else Done(st')
      case Failed(st', f, err) => Failed(st', f, err)
      case Crashed(why) => Crashed(why)
  }

  /** handleCommit. A replayed frame is not the frame the caller reports an error for. */
  function HandleCommit(st: System, c: ConnId, f: Frame, io: bool): Handled
    requires c in st.conns
  {
    match HandleTx(st, c, f, io)
    case Failed(st', f', err) => Failed(st', f', err)
    case Crashed(why) => Crashed(why)
    case Done(st') =>
      var tx := Find(f.header, "transaction");
      if c !in st'.conns || tx.None? || tx.value !in st'.conns[c].txs then Done(st')
      else
        match Replay(st', c, st'.conns[c].txs[tx.value], io)
        case Done(st'') =>
          if c in st''.conns then Done(WithConn(st'', c, st''.conns[c].(txs := st''.conns[c].txs - {tx.value})))
          else Done(st'')
        case Failed(st'', _, err) => Failed(st'', StripReceipt(f), err)
        case Crashed(why) => Crashed(why)
  }

  /** The state function connecting. admit stands for the checks of handleConnect on credentials, version
      and heart-beat. */
  function HandleConnect(st: System, c: ConnId, f: Frame, admit: bool): Handled
    requires c in st.conns
  {
    if f.command != "CONNECT" && f.command != "STOMP" then Failed(st, f, "expected CONNECT or STOMP frame")
    else if Find(f.header, "receipt").Some? then Failed(st, f, "receipt header prohibited in CONNECT or STOMP frame")
    else if !admit then Failed(st, f, "connection refused")
    else
      var k := st.conns[c];
      Done(WithConn(st, c, k.(sent := k.sent + [Sent(Frame("CONNECTED", [Entry("server", "stompd/x.y.z")], ""), None)],
                              phase := Running, outbox := k.outbox + [Connected])))
  }

  /** The state function of the connection: connecting or connected. */
  function Handle(st: System, c: ConnId, f: Frame, io: bool, admit: bool): Handled
    requires c in st.conns
  {
    if st.conns[c].phase == Connecting then HandleConnect(st, c, f, admit)
    else if f.command == "COMMIT" then HandleCommit(st, c, f, io)
    else Dispatch(st, c, f, io)
  }

  /** sendErrorImmediately */
  function ErrorFrame(f: Frame, err: string): Frame {
    match Find(f.header, "receipt")
    case Some(r) => Frame("ERROR", [Entry("message", err), Entry("receipt-id", r)], "")
    case None => Frame("ERROR", [Entry("message", err)], "")
  }

  function Receive(st: System, c: ConnId, f: Frame, io: bool, admit: bool): Outcome
    requires c in st.conns
  {
    var st0 := WithConn(st, c, st.conns[c].(received := st.conns[c].received + [f]));
    match Handle(st0, c, f, io, admit)
    case Done(st') => Next(st')
    case Failed(st', f', err) => if c in st'.conns then Next(Exit(Write(st', c, ErrorFrame(f', err)), c)) else Next(st')
    case Crashed(why) => Crash(why)
  }

  // ---------------------------------------------------------------- deliveries and cleanup

  /** Takes the subscription at the head of the channel; it has been unsubscribed, or the connection is
      closing, so its frame goes back to the queue. */
  function GiveBack(st: System, c: ConnId, closing: bool): System
    requires c in st.conns && st.conns[c].channel != []
    requires Known(st, st.conns[c].channel[0]) && st.subs[st.conns[c].channel[0]].frame.Some?
  {
    var k := st.conns[c];
    var s := k.channel[0];
    st.(subs := st.subs[s := st.subs[s].(at := Gone)],
        conns := st.conns[c := k.(channel := k.channel[1..],
                                  outbox := k.outbox + [Requeue(st.subs[s].frame.value, closing)])])
  }

  /** The connection after the frame of the first subscription in the channel was given to the writer. */
  function Delivering(k: Conn, d: Delivery, f: Frame): Conn
    requires k.channel != []
  {
    k.(channel := k.channel[1..], lastMsgId := NextMsgId(k.lastMsgId, f), sent := k.sent + [Sent(f, Some(d))])
  }

  function Deliver(st: System, c: ConnId, io: bool): Outcome
    requires c in st.conns && st.conns[c].channel != []
  {
    var k := st.conns[c];
    var s := k.channel[0];
    if !Known(st, s) || st.subs[s].frame.None? then Crash(NilFrame(s))
    else
      var sub := st.subs[s];
      var m := sub.frame.value;
      var f := Stamp(m.frame, NextMsgId(k.lastMsgId, m.frame), sub.ack == "auto");
      var k' := Delivering(k, Delivery(s, m.ref), f);
      if sub.id !in k.subs then Next(GiveBack(st, c, false))
      else if !io then
        Next(st.(subs := st.subs[s := sub.(at := Gone)],
                 conns := st.conns[c := k'.(dropped := k.dropped + [m.ref], phase := Unsubscribing, txs := map[], writes := [])]))
      else if sub.ack == "auto" then
        Next(st.(subs := st.subs[s := sub.(frame := None, at := Outbox)],
                 conns := st.conns[c := k'.(outbox := k.outbox + [Subscribe(s)])],
                 written := st.written + multiset{m.ref},
                 revived := if k.subs[sub.id] == s then st.revived else st.revived + {s}))
      else if sub.listed then Crash(AlreadyListed(s))
      else
        Next(st.(subs := st.subs[s := sub.(frame := Some(Msg(m.ref, f)), listed := true, at := Pending)],
                 conns := st.conns[c := k'.(pending := k.pending + [s])]))
  }

  function WriteTopicFrame(st: System, c: ConnId, io: bool): System
    requires c in st.conns && st.conns[c].writes != []
  {
    var k := st.conns[c];
    var f := Stamp(k.writes[0], NextMsgId(k.lastMsgId, k.writes[0]), true);
    var st' := WithConn(st, c, k.(writes := k.writes[1..], lastMsgId := NextMsgId(k.lastMsgId, f), sent := k.sent + [Sent(f, None)]));
    if !io || f.command == "ERROR" then Exit(st', c) else st'
  }

  /** subList.Get and requeue, in cleanupConn. */
  function GiveBackPending(st: System, c: ConnId): System
    requires c in st.conns && st.conns[c].pending != []
    requires Known(st, st.conns[c].pending[0]) && st.subs[st.conns[c].pending[0]].frame.Some?
  {
    var k := st.conns[c];
    var s := k.pending[0];
    st.(subs := st.subs[s := st.subs[s].(listed := false, at := Gone)],
        conns := st.conns[c := k.(pending := k.pending[1..],
                                  outbox := k.outbox + [Requeue(st.subs[s].frame.value, true)])])
  }

  /** One iteration of cleanupSubChannel. */
  function DrainOne(st: System, c: ConnId): Outcome
    requires c in st.conns && st.conns[c].channel != []
  {
    var s := st.conns[c].channel[0];
    if !Known(st, s) || st.subs[s].frame.None? then Crash(NilFrame(s)) else Next(GiveBack(st, c, true))
  }

  /** One step of cleanupConn. id picks the next subscription, as map iteration does. */
  function CloseStep(st: System, c: ConnId, id: string): Outcome
    requires c in st.conns
  {
    var k := st.conns[c];
    match k.phase
    case Connecting => Next(st)
    case Running => Next(st)
    case Unsubscribing =>
      if id in k.subs then Next(EndSub(st, c, id))
      else if k.subs == map[] then Next(WithConn(st, c, k.(phase := Requeuing)))
      else Next(st)
    case Requeuing =>
      if k.pending == [] then Next(WithConn(st, c, k.(phase := Draining, writes := [])))
      else if !Known(st, k.pending[0]) || st.subs[k.pending[0]].frame.None? then Crash(NilFrame(k.pending[0]))
      else Next(GiveBackPending(st, c))
    case Draining =>
      if k.channel != [] then DrainOne(st, c)
      else Next(Emit(WithConn(st, c, k.(phase := LastDrain)), c, Disconnected))
    case LastDrain =>
      if k.channel != [] then DrainOne(st, c)
      else Next(WithConn(st, c, k.(phase := Closed, writes := [])))
    case Closed => Next(st)
  }

  /** The head of the outbox enters the request channel. */
  function Flush(st: System, c: ConnId): System
    requires c in st.conns && st.conns[c].outbox != []
  {
    var k := st.conns[c];
    var op := k.outbox[0];
    st.(requests := st.requests + [Request(c, op)],
        conns := st.conns[c := k.(outbox := k.outbox[1..])],
        subs := if op.Subscribe? && op.s in st.subs
                then st.subs[op.s := st.subs[op.s].(at := Requested)] else st.subs)
  }

  // ---------------------------------------------------------------- runs

  datatype Event =
    | Accept(c: ConnId)
    | ServeNext
    | FlushNext(c: ConnId)
    | ReceiveFrame(c: ConnId, f: Frame, io: bool, admit: bool)
    | ReadClosed(c: ConnId)
    | DeliverNext(c: ConnId, io: bool)
    | WriteNext(c: ConnId, io: bool)
    | HeartBeat(c: ConnId, io: bool)
    | TopicFrame(c: ConnId, f: Frame)   // a topic MESSAGE or an ERROR is put on the write channel
    | Close(c: ConnId, id: string)

  /** The connection is in its processing loop and not blocked in a send. */
  predicate InLoop(st: System, c: ConnId) {
    c in st.conns && (st.conns[c].phase == Connecting || st.conns[c].phase == Running) && st.conns[c].outbox == []
  }

  /** One event. An event that is not possible in st changes nothing. */
  function Step(st: System, e: Event): Outcome {
    match e
    case Accept(c) => if c in st.conns then Next(st) else Next(WithConn(st, c, EMPTY_CONN))
    case ServeNext => Serve(st)
    case FlushNext(c) =>
      if c in st.conns && st.conns[c].outbox != [] && |st.requests| < MAX_REQUESTS then Next(Flush(st, c)) else Next(st)
    case ReceiveFrame(c, f, io, admit) => if InLoop(st, c) then Receive(st, c, f, io, admit) else Next(st)
    case ReadClosed(c) => if InLoop(st, c) then Next(Exit(st, c)) else Next(st)
    case DeliverNext(c, io) => if InLoop(st, c) && st.conns[c].channel != [] then Deliver(st, c, io) else Next(st)
    case WriteNext(c, io) =>
      if InLoop(st, c) && st.conns[c].writes != [] then Next(WriteTopicFrame(st, c, io)) else Next(st)
    case HeartBeat(c, io) => if InLoop(st, c) && !io then Next(Exit(st, c)) else Next(st)
    case TopicFrame(c, f) =>
      if c in st.conns && |st.conns[c].writes| < MAX_PENDING_WRITES
         && (f.command == "MESSAGE" || (f.command == "ERROR" && Find(f.header, "receipt-id").None?))
      then Next(WithConn(st, c, st.conns[c].(writes := st.conns[c].writes + [f]))) else Next(st)
    case Close(c, id) => if c in st.conns && st.conns[c].outbox == [] then CloseStep(st, c, id) else Next(st)
  }

  /** A run: each event leads from one state to the next, and none of them panics. */
  ghost predicate Path(states: seq<System>, events: seq<Event>) {
    && |states| == |events| + 1
    && forall i {:trigger Step(states[i], events[i])} | 0 <= i < |events| :: Step(states[i], events[i]) == Next(states[i + 1])
  }

  /** Some run leads from st to st'. */
  ghost predicate Leads(st: System, st': System) {
    exists states, events :: Path(states, events) && states[0] == st && states[|events|] == st'
  }

  /** A state of some run of a server that has just started. */
  ghost predicate Reachable(st: System) {
    Leads(START, st)
  }
}
