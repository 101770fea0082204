/** What a client sees, in every run of the broker: at most one answer for each receipt it asks for,
    consecutive message identifiers, and at most one frame lost in a failed write. */
module BrokerClients {
  import opened Text
  import opened Frames
  import opened Broker
  import opened BrokerTokens
  import opened BrokerFrames
  import opened BrokerConservation
  import opened BrokerCleanup
  import opened BrokerRuns
  import opened BrokerAnswers

  // ---------------------------------------------------------------- counting answers

  /** The frame is a RECEIPT or ERROR that carries this receipt-id. */
  predicate IsAnswer(f: Frame, v: string) {
    (f.command == "RECEIPT" || f.command == "ERROR") && Find(f.header, "receipt-id") == Some(v)
  }

  function Answers(sent: seq<Sent>, v: string): nat {
    if sent == [] then 0 else Answers(sent[..|sent| - 1], v) + One(IsAnswer(sent[|sent| - 1].frame, v))
  }

  predicate Asks(f: Frame, v: string) {
    Find(f.header, "receipt") == Some(v)
  }

  function Asked(received: seq<Frame>, v: string): nat {
    if received == [] then 0 else Asked(received[..|received| - 1], v) + One(Asks(received[|received| - 1], v))
  }

  lemma AnswersOne(sent: seq<Sent>, x: Sent, v: string)
    ensures Answers(sent + [x], v) == Answers(sent, v) + One(IsAnswer(x.frame, v))
  {
    assert (sent + [x])[..|sent|] == sent;
  }

  lemma {:induction false} AnswersAppend(a: seq<Sent>, b: seq<Sent>, v: string)
    ensures Answers(a + b, v) == Answers(a, v) + Answers(b, v)
    decreases |b|
  {
    hide IsAnswer;
    if b == [] {
      assert a + b == a;
    } else {
      AnswersAppend(a, b[..|b| - 1], v);
      assert (a + b)[..|a + b| - 1] == a + b[..|b| - 1];
    }
  }

  lemma AskedOne(received: seq<Frame>, f: Frame, v: string)
    ensures Asked(received + [f], v) == Asked(received, v) + One(Asks(f, v))
  {
    assert (received + [f])[..|received|] == received;
  }

  // ---------------------------------------------------------------- counting messages

  function CountMessages(sent: seq<Sent>): nat {
    if sent == [] then 0 else CountMessages(sent[..|sent| - 1]) + One(sent[|sent| - 1].frame.command == "MESSAGE")
  }

  /** A MESSAGE that is the n-th on its connection: its identifiers are n, and it has an ack entry, equal to
      them, exactly when it was delivered to a queue subscription that acknowledges. */
  predicate MessageOk(subs: map<SubId, Sub>, x: Sent, n: nat) {
    x.frame.command == "MESSAGE" ==>
      var id := Some(FormatDecimal(n % UINT64_LIMIT));
      && Find(x.frame.header, "message-id") == id && Find(x.frame.header, "id") == id
      && (x.via.Some? ==> x.via.value.sub in subs)
      && Find(x.frame.header, "ack") == if x.via.Some? && subs[x.via.value.sub].ack != "auto" then id else None
  }

  predicate MessagesOk(subs: map<SubId, Sub>, sent: seq<Sent>) {
    forall i | 0 <= i < |sent| :: MessageOk(subs, sent[i], CountMessages(sent[..i + 1]))
  }

  lemma MessagesAppend(subs: map<SubId, Sub>, sent: seq<Sent>, x: Sent)
    requires MessagesOk(subs, sent) && MessageOk(subs, x, CountMessages(sent) + 1)
    ensures MessagesOk(subs, sent + [x])
    ensures CountMessages(sent + [x]) == CountMessages(sent) + One(x.frame.command == "MESSAGE")
  {
    var out := sent + [x];
    assert out[..|sent|] == sent && out[..|sent| + 1] == out;
    forall i | 0 <= i < |out| ensures MessageOk(subs, out[i], CountMessages(out[..i + 1])) {
      hide FormatDecimal, Find;
      if i < |sent| {
        assert out[..i + 1] == sent[..i + 1];
      }
    }
  }

  /** Frames that are not messages do not disturb the numbering. */
  lemma {:induction false} MessagesAppendOthers(subs: map<SubId, Sub>, sent: seq<Sent>, out: seq<Sent>)
    requires MessagesOk(subs, sent) && forall i | 0 <= i < |out| :: out[i].frame.command != "MESSAGE"
    ensures MessagesOk(subs, sent + out) && CountMessages(sent + out) == CountMessages(sent)
    decreases |out|
  {
    hide MessagesOk, CountMessages, Find, FormatDecimal;
    if out == [] {
      assert sent + out == sent;
    } else {
      var x := out[|out| - 1];
      MessagesAppendOthers(subs, sent, out[..|out| - 1]);
      MessagesAppend(subs, sent + out[..|out| - 1], x);
      assert sent + out == (sent + out[..|out| - 1]) + [x];
    }
  }

  lemma StampNumbers(subs: map<SubId, Sub>, f: Frame, last: nat, auto: bool, via: Option<Delivery>, n: nat)
    requires last == n % UINT64_LIMIT && f.command != "ACK"
    requires via.Some? ==> via.value.sub in subs && auto == (subs[via.value.sub].ack == "auto")
    requires via.None? ==> auto
    ensures NextMsgId(last, f) == (n + One(f.command == "MESSAGE")) % UINT64_LIMIT
    ensures MessageOk(subs, Sent(Stamp(f, NextMsgId(last, f), auto), via), n + 1)
    ensures Stamp(f, NextMsgId(last, f), auto).command == f.command
  {
    hide FormatDecimal, Find, Put, Drop;
    var t := FormatDecimal(NextMsgId(last, f));
    var h1 := Put(f.header, "message-id", t);
    var h2 := Put(h1, "id", t);
    FindAfterPut(h1, "id", t, "message-id");
    FindAfterPut(h2, "ack", t, "message-id");
    FindAfterPut(h2, "ack", t, "id");
    FindAfterDrop(h2, "ack", "message-id");
    FindAfterDrop(h2, "ack", "id");
  }

  // ---------------------------------------------------------------- the invariant

  predicate WritesOk(writes: seq<Frame>) {
    forall i | 0 <= i < |writes| ::
      writes[i].command == "MESSAGE" || (writes[i].command == "ERROR" && Find(writes[i].header, "receipt-id").None?)
  }

  ghost predicate ConnGood(subs: map<SubId, Sub>, k: Conn) {
    && TxOk(k.txs) && WritesOk(k.writes)
    && (forall v: string :: Answers(k.sent, v) <= Asked(k.received, v))
    && MessagesOk(subs, k.sent) && k.lastMsgId == CountMessages(k.sent) % UINT64_LIMIT
    && |k.dropped| <= One(k.phase != Connecting && k.phase != Running)
  }

  ghost predicate ClientsGood(st: System) {
    forall c | c in st.conns :: ConnGood(st.subs, st.conns[c])
  }

  predicate AcksStay(subs: map<SubId, Sub>, subs': map<SubId, Sub>) {
    forall s | s in subs :: s in subs' && subs'[s].ack == subs[s].ack
  }

  lemma GoodStays(subs: map<SubId, Sub>, subs': map<SubId, Sub>, k: Conn)
    requires ConnGood(subs, k) && AcksStay(subs, subs')
    ensures ConnGood(subs', k)
  {
    hide TxOk, WritesOk, FormatDecimal, Find, CountMessages;
  }

  /** Only connection c acts; its new record is good. */
  lemma ClientsMoved(st: System, st': System, c: ConnId)
    requires ClientsGood(st) && Local(st, st', c) && (c in st'.conns ==> ConnGood(st'.subs, st'.conns[c]))
    ensures ClientsGood(st')
  {
    hide ConnGood;
    forall e | e in st'.conns && e != c ensures ConnGood(st'.subs, st'.conns[e]) {
      GoodStays(st.subs, st'.subs, st.conns[e]);
    }
  }

  /** Changes that touch neither the history nor the transactions of the connection. */
  lemma SilentGood(subs: map<SubId, Sub>, k: Conn, k': Conn)
    requires ConnGood(subs, k) && k'.sent == k.sent && k'.received == k.received && k'.lastMsgId == k.lastMsgId && k'.dropped == k.dropped
    requires (k'.txs == k.txs || k'.txs == map[]) && WritesOk(k'.writes)
    requires k.phase != Connecting && k.phase != Running ==> k'.phase != Connecting && k'.phase != Running
    ensures ConnGood(subs, k')
  {
    hide MessagesOk, Answers, Asked, CountMessages, WritesOk;
  }

  // ---------------------------------------------------------------- received frames

  /** The frames written while one received frame is handled. */
  ghost predicate Replied(k: Conn, k': Conn, out: seq<Sent>) {
    && k'.sent == k.sent + out && k'.received == k.received && k'.lastMsgId == k.lastMsgId && k'.dropped == k.dropped
    && TxOk(k'.txs) && (forall i | 0 <= i < |out| :: out[i].frame.command != "MESSAGE")
  }

  lemma FindOne(k: string, v: string, k': string)
    ensures Find([Entry(k, v)], k') == if k == k' then Some(v) else None
  {
    assert [Entry(k, v)][1..] == [];
  }

  lemma ReceiptForAnswers(f: Frame, v: string)
    ensures Answers(ReceiptFor(f), v) == One(Asks(f, v))
    ensures forall i | 0 <= i < |ReceiptFor(f)| :: ReceiptFor(f)[i].frame.command != "MESSAGE"
  {
    hide Find, Answers;
    if Find(f.header, "receipt").Some? {
      FindOne("receipt-id", Find(f.header, "receipt").value, "receipt-id");
      AnswersSingle(ReceiptFor(f)[0], v);
    } else {
      AnswersNothing(v);
    }
  }

  lemma AnswersSingle(x: Sent, v: string)
    ensures Answers([x], v) == One(IsAnswer(x.frame, v))
  {
    hide IsAnswer;
    assert [x][..0] == [];
  }

  lemma AnswersNothing(v: string)
    ensures Answers([], v) == 0
  {
  }

  /** An ERROR mentions the receipt the frame still asks for. */
  lemma ErrorAnswers(f: Frame, err: string, v: string)
    ensures IsAnswer(ErrorFrame(f, err), v) <==> Asks(f, v)
  {
    FindOne("message", err, "receipt-id");
    assert "message" != "receipt-id" by { assert |"message"| != |"receipt-id"|; }
    if Find(f.header, "receipt").Some? {
      var r := Find(f.header, "receipt").value;
      var h := [Entry("message", err), Entry("receipt-id", r)];
      FindOne("receipt-id", r, "receipt-id");
      assert h[1..] == [Entry("receipt-id", r)];
      assert Find(h, "receipt-id") == Find(h[1..], "receipt-id");
    }
  }

  lemma CommitTold(st: System, c: ConnId, f: Frame, io: bool)
    requires c in st.conns && TxOk(st.conns[c].txs) && f.command == "COMMIT"
    ensures Told(st.conns[c], HandleCommit(st, c, f, io), c, f)
    ensures HandleCommit(st, c, f, io).Crashed? ==> HandleCommit(st, c, f, io).why != StoredCommit
  {
    TxTold(st, c, f, io);
    var tx := Find(f.header, "transaction");
    if tx.Some? && tx.value in st.conns[c].txs && !ReceiptFails(f, io) {
      OpenCommitTold(st, c, f, io, tx.value);
    } else {
      hide Find, Replay, ReceiptFor, Receipt;
      ReceiptWrote(st, c, f);
    }
  }

  lemma OpenCommitTold(st: System, c: ConnId, f: Frame, io: bool, tx: string)
    requires c in st.conns && TxOk(st.conns[c].txs) && f.command == "COMMIT"
    requires Find(f.header, "transaction") == Some(tx) && tx in st.conns[c].txs && !ReceiptFails(f, io)
    ensures Told(st.conns[c], HandleCommit(st, c, f, io), c, f)
    ensures HandleCommit(st, c, f, io).Crashed? ==> HandleCommit(st, c, f, io).why != StoredCommit
  {
    hide Find, Replay, Replayable, ReceiptFails, Receipt, ReceiptFor;
    ReceiptWrote(st, c, f);
    ReplayAll(Receipt(st, c, f), c, st.conns[c].txs[tx], io);
  }

  lemma HandleTold(st: System, c: ConnId, f: Frame, io: bool, admit: bool)
    requires c in st.conns && TxOk(st.conns[c].txs) && st.conns[c].phase != Connecting
    ensures Told(st.conns[c], Handle(st, c, f, io, admit), c, f)
    ensures Handle(st, c, f, io, admit).Crashed? ==> Handle(st, c, f, io, admit).why != StoredCommit
  {
    hide TxOk, Told, HandleCommit, Dispatch;
    if f.command == "COMMIT" {
      CommitTold(st, c, f, io);
    } else {
      DispatchTold(st, c, f, io);
      DispatchNoStoredCommit(st, c, f, io);
    }
  }

  lemma DispatchNoStoredCommit(st: System, c: ConnId, f: Frame, io: bool)
    requires c in st.conns
    ensures Dispatch(st, c, f, io).Crashed? ==> Dispatch(st, c, f, io).why != StoredCommit
  {
    hide Settle, Find, Drop, ParseUint, NewSub, EndSub, Submit;
    var st' := Receipt(st, c, f);
    if AckId(f).Some? && ParseUint(AckId(f).value, UINT64_LIMIT - 1).Some? {
      SettleSilent(st', c, ParseUint(AckId(f).value, UINT64_LIMIT - 1).value, 0, true);
      SettleSilent(st', c, ParseUint(AckId(f).value, UINT64_LIMIT - 1).value, 0, false);
    }
  }

  lemma TwoReplies(f: Frame, e: Frame, v: string)
    ensures Answers(ReceiptFor(f) + [Sent(e, None)], v) == One(Asks(f, v)) + One(IsAnswer(e, v))
    ensures Answers([Sent(e, None)], v) == One(IsAnswer(e, v))
  {
    hide IsAnswer, Asks, ReceiptFor, Answers;
    ReceiptForAnswers(f, v);
    AnswersOne(ReceiptFor(f), Sent(e, None), v);
    AnswersSingle(Sent(e, None), v);
  }

  /** A SUBSCRIBE that makes a new subscription, or an UNSUBSCRIBE of one there is: these are never answered. */
  predicate Unanswered(k: Conn, f: Frame) {
    && k.phase == Running
    && match Find(f.header, "id")
       case None => false
       case Some(id) =>
         || (f.command == "SUBSCRIBE" && Destination(f).Some? && id !in k.subs)
         || (f.command == "UNSUBSCRIBE" && id in k.subs)
  }

  lemma UnansweredIff(st: System, c: ConnId, f: Frame, io: bool, admit: bool)
    requires c in st.conns && st.conns[c].phase == Running
    ensures Unanswered(st.conns[c], f) <==> !AnswersReceipt(f.command) && Handle(st, c, f, io, admit).Done?
  {
    hide Find, NewSub, EndSub, HandleCommit, HandleTx, HandleAck, SendBody;
  }

  /** st with f recorded as received by c. */
  function Arrived(st: System, c: ConnId, f: Frame): System
    requires c in st.conns
  {
    WithConn(st, c, st.conns[c].(received := st.conns[c].received + [f]))
  }

  /** The frames written for f, as the outcome of its handler determines them. */
  function Replies(k: Conn, h: Handled, c: ConnId, f: Frame): seq<Sent> {
    match h
    case Done(_) => if AnswersReceipt(f.command) then ReceiptFor(f) else []
    case Failed(st', f', err) =>
      (if c in st'.conns && st'.conns[c].sent == k.sent then [] else ReceiptFor(f)) + [Sent(ErrorFrame(f', err), None)]
    case Crashed(_) => []
  }

  lemma RepliesAnswer(k: Conn, h: Handled, c: ConnId, f: Frame, v: string)
    requires Told(k, h, c, f) && !h.Crashed?
    ensures Answers(Replies(k, h, c, f), v) == if !AnswersReceipt(f.command) && h.Done? then 0 else One(Asks(f, v))
    ensures forall i | 0 <= i < |Replies(k, h, c, f)| :: Replies(k, h, c, f)[i].frame.command != "MESSAGE"
  {
    hide TxOk, ErrorFrame, IsAnswer, ReceiptFor, Find, Answers;
    ReceiptForAnswers(f, v);
    match h
    case Done(_) => AnswersNothing(v);
    case Failed(st', f', err) =>
      var e := ErrorFrame(f', err);
      ErrorAnswers(f', err, v);
      ErrorCommand(f', err);
      TwoReplies(f, e, v);
      NoReceipt(f, v);
      assert [] + [Sent(e, None)] == [Sent(e, None)];
  }

  lemma NoReceipt(f: Frame, v: string)
    ensures ReceiptFor(f) == [] ==> !Asks(f, v)
  {
  }

  /** st' is st after c handled f; v names a receipt. */
  ghost predicate AnsweredOnce(st: System, st': System, c: ConnId, f: Frame, v: string)
    requires c in st.conns
  {
    exists out ::
      && c in st'.conns && Replied(Arrived(st, c, f).conns[c], st'.conns[c], out)
      && Answers(out, v) == if Unanswered(st.conns[c], f) then 0 else One(Asks(f, v))
  }

  lemma RepliesSent(st: System, c: ConnId, f: Frame, io: bool, admit: bool)
    requires c in st.conns && TxOk(st.conns[c].txs) && Told(Arrived(st, c, f).conns[c], Handle(Arrived(st, c, f), c, f, io, admit), c, f)
    requires Receive(st, c, f, io, admit).Next?
    ensures var st' := Receive(st, c, f, io, admit).st; var h := Handle(Arrived(st, c, f), c, f, io, admit); var k := Arrived(st, c, f).conns[c];
            && !h.Crashed? && c in st'.conns && st'.conns[c].sent == k.sent + Replies(k, h, c, f) && TxOk(st'.conns[c].txs)
            && st'.conns[c].received == k.received && st'.conns[c].lastMsgId == k.lastMsgId && st'.conns[c].dropped == k.dropped
            && (st'.conns[c].writes == k.writes || st'.conns[c].writes == [])
  {
    hide TxOk, ErrorFrame, ReceiptFor, Find, Handle, AnswersReceipt;
    EmptyTxOk();
    var k := Arrived(st, c, f).conns[c];
    match Handle(Arrived(st, c, f), c, f, io, admit)
    case Done(_) =>
    case Crashed(_) =>
    case Failed(st', f', err) =>
      var e := [Sent(ErrorFrame(f', err), None)];
      assert k.sent + ReceiptFor(f) + e == k.sent + (ReceiptFor(f) + e);
      assert k.sent + [] == k.sent && [] + e == e;
  }

  lemma RunningAnswers(st: System, c: ConnId, f: Frame, io: bool, admit: bool, v: string)
    requires c in st.conns && TxOk(st.conns[c].txs) && st.conns[c].phase == Running
    ensures Receive(st, c, f, io, admit).Next? ==> AnsweredOnce(st, Receive(st, c, f, io, admit).st, c, f, v)
    ensures Receive(st, c, f, io, admit).Crash? ==> Receive(st, c, f, io, admit).why != StoredCommit
  {
    hide TxOk, Handle, Told, Replies, Asks, Find, Unanswered, AnswersReceipt;
    var st0 := Arrived(st, c, f);
    var h := Handle(st0, c, f, io, admit);
    HandleTold(st0, c, f, io, admit);
    UnansweredIff(st0, c, f, io, admit);
    SameUnanswered(st.conns[c], st0.conns[c], f);
    if Receive(st, c, f, io, admit).Next? {
      RepliesSent(st, c, f, io, admit);
      RepliesAnswer(st0.conns[c], h, c, f, v);
      assert Replied(st0.conns[c], Receive(st, c, f, io, admit).st.conns[c], Replies(st0.conns[c], h, c, f));
    }
  }

  lemma SameUnanswered(k: Conn, k': Conn, f: Frame)
    requires k'.phase == k.phase && k'.subs == k.subs
    ensures Unanswered(k', f) <==> Unanswered(k, f)
  {
  }

  /** While connecting, a frame that asks for a receipt is refused with an ERROR for it, and a CONNECT that is accepted
      asks for none. */
  lemma ConnectingAnswers(st: System, c: ConnId, f: Frame, io: bool, admit: bool, v: string)
    requires c in st.conns && TxOk(st.conns[c].txs) && st.conns[c].phase == Connecting
    ensures Receive(st, c, f, io, admit).Next? && AnsweredOnce(st, Receive(st, c, f, io, admit).st, c, f, v)
  {
    hide TxOk, HandleConnect, Told, Replies, Find, Replied, Answers, Asks;
    var st0 := Arrived(st, c, f);
    ConnectTold(st0, c, f, admit);
    NotRunning(st.conns[c], f);
    match HandleConnect(st0, c, f, admit)
    case Failed(_, _, _) => ConnectRefused(st, c, f, io, admit, v);
    case Done(st') =>
      AcceptedAsksNothing(st0, c, f, admit, v);
      var ok := Frame("CONNECTED", [Entry("server", "stompd/x.y.z")], "");
      TwoReplies(f, ok, v);
      assert Replied(st0.conns[c], st'.conns[c], [Sent(ok, None)]);
  }

  lemma NotRunning(k: Conn, f: Frame)
    ensures k.phase == Connecting ==> !Unanswered(k, f)
  {
  }

  lemma AcceptedAsksNothing(st: System, c: ConnId, f: Frame, admit: bool, v: string)
    requires c in st.conns
    ensures HandleConnect(st, c, f, admit).Done? ==> !Asks(f, v) && !IsAnswer(Frame("CONNECTED", [Entry("server", "stompd/x.y.z")], ""), v)
  {
  }

  lemma ConnectRefused(st: System, c: ConnId, f: Frame, io: bool, admit: bool, v: string)
    requires c in st.conns && TxOk(st.conns[c].txs) && st.conns[c].phase == Connecting && HandleConnect(Arrived(st, c, f), c, f, admit).Failed?
    ensures Receive(st, c, f, io, admit).Next? && AnsweredOnce(st, Receive(st, c, f, io, admit).st, c, f, v)
  {
    hide TxOk, HandleConnect, Told, Replies, Asks, Find, Answers;
    var st0 := Arrived(st, c, f);
    var h := Handle(st0, c, f, io, admit);
    ConnectTold(st0, c, f, admit);
    RepliesSent(st, c, f, io, admit);
    RepliesAnswer(st0.conns[c], h, c, f, v);
    NotRunning(st.conns[c], f);
    assert Replied(st0.conns[c], Receive(st, c, f, io, admit).st.conns[c], Replies(st0.conns[c], h, c, f));
  }

  /** Exactly one RECEIPT or ERROR answers a frame that asks for a receipt, and none a frame that does not; the only
      exceptions are a SUBSCRIBE that makes a subscription and an UNSUBSCRIBE that ends one. */
  lemma AnsweredExactly(st: System, c: ConnId, f: Frame, io: bool, admit: bool, v: string)
    requires c in st.conns && TxOk(st.conns[c].txs) && (st.conns[c].phase == Running || st.conns[c].phase == Connecting)
    ensures Receive(st, c, f, io, admit).Next? ==> AnsweredOnce(st, Receive(st, c, f, io, admit).st, c, f, v)
    ensures Receive(st, c, f, io, admit).Crash? ==> Receive(st, c, f, io, admit).why != StoredCommit
  {
    hide TxOk, Receive, AnsweredOnce;
    if st.conns[c].phase == Running {
      RunningAnswers(st, c, f, io, admit, v);
    } else {
      ConnectingAnswers(st, c, f, io, admit, v);
    }
  }

  lemma ErrorCommand(f: Frame, err: string)
    ensures ErrorFrame(f, err).command == "ERROR"
  {
  }

  lemma EmptyWritesOk()
    ensures WritesOk([])
  {
  }

  lemma EmptyTxOk()
    ensures TxOk(map[])
  {
  }

  // ---------------------------------------------------------------- events

  lemma RepliedGood(subs: map<SubId, Sub>, k: Conn, k': Conn, f: Frame, out: seq<Sent>)
    requires ConnGood(subs, k) && (k.phase == Connecting || k.phase == Running)
    requires Replied(k.(received := k.received + [f]), k', out) && (k'.writes == k.writes || k'.writes == [])
    requires forall v: string :: Answers(out, v) <= One(Asks(f, v))
    ensures ConnGood(subs, k')
  {
    hide TxOk, MessagesOk, Asks, IsAnswer, CountMessages;
    MessagesAppendOthers(subs, k.sent, out);
    forall v: string ensures Answers(k'.sent, v) <= Asked(k'.received, v) {
      AnswersAppend(k.sent, out, v);
      AskedOne(k.received, f, v);
    }
  }

  lemma ConnectTold(st: System, c: ConnId, f: Frame, admit: bool)
    requires c in st.conns && TxOk(st.conns[c].txs)
    ensures match HandleConnect(st, c, f, admit)
            case Failed(_, _, _) => Told(st.conns[c], HandleConnect(st, c, f, admit), c, f)
            case Done(st') => c in st'.conns && Replied(st.conns[c], st'.conns[c], [Sent(Frame("CONNECTED", [Entry("server", "stompd/x.y.z")], ""), None)])
                              && st'.conns[c].writes == st.conns[c].writes
            case Crashed(_) => false
  {
    hide TxOk, Find, ReceiptFor;
  }

  lemma ConnectedGood(subs: map<SubId, Sub>, k: Conn, k': Conn, f: Frame)
    requires ConnGood(subs, k) && k.phase == Connecting && k'.writes == k.writes
    requires Replied(k.(received := k.received + [f]), k', [Sent(Frame("CONNECTED", [Entry("server", "stompd/x.y.z")], ""), None)])
    ensures ConnGood(subs, k')
  {
    hide ConnGood, TxOk, Find, Asks;
    var ok := Frame("CONNECTED", [Entry("server", "stompd/x.y.z")], "");
    forall v: string ensures Answers([Sent(ok, None)], v) <= One(Asks(f, v)) { TwoReplies(f, ok, v); }
    RepliedGood(subs, k, k', f, [Sent(ok, None)]);
  }

  lemma ReceiveClients(st: System, c: ConnId, f: Frame, io: bool, admit: bool)
    requires Inv(st) && ClientsGood(st) && InLoop(st, c)
    ensures match Receive(st, c, f, io, admit)
            case Next(st') => ClientsGood(st')
            case Crash(why) => why != StoredCommit
  {
    hide Inv, Local, Receive, ConnGood;
    ReceiveGood(st, c, f, io, admit);
    RunningGood(st, c, f, io, admit);
    match Receive(st, c, f, io, admit)
    case Crash(_) =>
    case Next(st') =>
      AcksFromLocal(st, st', c);
      GoodStays(st.subs, st'.subs, st'.conns[c]);
      ClientsMoved(st, st', c);
  }

  lemma AcksFromLocal(st: System, st': System, c: ConnId)
    requires Local(st, st', c)
    ensures AcksStay(st.subs, st'.subs) && st'.conns.Keys == st.conns.Keys
  {
  }

  /** A handler that told the client what Told allows. */
  lemma ToldGood(st: System, c: ConnId, f: Frame, io: bool, admit: bool)
    requires c in st.conns && ConnGood(st.subs, st.conns[c]) && (st.conns[c].phase == Connecting || st.conns[c].phase == Running)
    requires Told(Arrived(st, c, f).conns[c], Handle(Arrived(st, c, f), c, f, io, admit), c, f)
    requires Receive(st, c, f, io, admit).Next?
    ensures var st' := Receive(st, c, f, io, admit).st; c in st'.conns && ConnGood(st.subs, st'.conns[c])
  {
    hide TxOk, Handle, Told, Replies, Asks, MessagesOk, WritesOk, Answers, Asked, Receive, CountMessages;
    var st0 := Arrived(st, c, f);
    RepliesSent(st, c, f, io, admit);
    var st' := Receive(st, c, f, io, admit).st;
    var h := Handle(st0, c, f, io, admit);
    var out := Replies(st0.conns[c], h, c, f);
    forall v: string ensures Answers(out, v) <= One(Asks(f, v)) { RepliesAnswer(st0.conns[c], h, c, f, v); }
    RepliesAnswer(st0.conns[c], h, c, f, "");
    RepliedGood(st.subs, st.conns[c], st'.conns[c], f, out);
  }

  lemma RunningGood(st: System, c: ConnId, f: Frame, io: bool, admit: bool)
    requires c in st.conns && ConnGood(st.subs, st.conns[c]) && (st.conns[c].phase == Connecting || st.conns[c].phase == Running)
    ensures match Receive(st, c, f, io, admit)
            case Next(st') => c in st'.conns && ConnGood(st.subs, st'.conns[c])
            case Crash(why) => why != StoredCommit
  {
    hide TxOk, HandleConnect, HandleCommit, Dispatch, Told, Replied, MessagesOk, WritesOk, Answers, Asked, CountMessages;
    var st0 := Arrived(st, c, f);
    if st.conns[c].phase == Connecting {
      ConnectTold(st0, c, f, admit);
      match HandleConnect(st0, c, f, admit)
      case Crashed(_) =>
      case Failed(_, _, _) => ToldGood(st, c, f, io, admit);
      case Done(st') => ConnectedGood(st.subs, st.conns[c], st'.conns[c], f);
    } else {
      HandleTold(st0, c, f, io, admit);
      if Receive(st, c, f, io, admit).Next? { ToldGood(st, c, f, io, admit); }
    }
  }

  lemma ExitClients(st: System, c: ConnId)
    requires ClientsGood(st) && c in st.conns && (st.conns[c].phase == Connecting || st.conns[c].phase == Running)
    ensures ClientsGood(Exit(st, c))
  {
    hide ConnGood, Local;
    LocalConn(st, Exit(st, c), c);
    SilentGood(st.subs, st.conns[c], Exit(st, c).conns[c]);
    ClientsMoved(st, Exit(st, c), c);
  }

  /** A frame with identifiers was given to the writer; f is the frame before that. */
  lemma NumberedGood(subs: map<SubId, Sub>, k: Conn, k': Conn, f: Frame, auto: bool, via: Option<Delivery>)
    requires ConnGood(subs, k) && (k.phase == Connecting || k.phase == Running)
    requires f.command == "MESSAGE" || (f.command == "ERROR" && Find(f.header, "receipt-id").None?)
    requires via.Some? ==> via.value.sub in subs && auto == (subs[via.value.sub].ack == "auto")
    requires via.None? ==> auto
    requires k'.sent == k.sent + [Sent(Stamp(f, NextMsgId(k.lastMsgId, f), auto), via)]
    requires k'.lastMsgId == NextMsgId(k.lastMsgId, f) && k'.received == k.received && WritesOk(k'.writes)
    requires k'.txs == k.txs || k'.txs == map[]
    requires |k'.dropped| <= One(k'.phase != Connecting && k'.phase != Running)
    ensures ConnGood(subs, k')
  {
    hide MessagesOk, FormatDecimal, WritesOk, Put, Drop, NextMsgId, CountMessages, Asked;
    var g := Stamp(f, NextMsgId(k.lastMsgId, f), auto);
    StampNumbers(subs, f, k.lastMsgId, auto, via, CountMessages(k.sent));
    MessagesAppend(subs, k.sent, Sent(g, via));
    forall v: string ensures Answers(k'.sent, v) <= Asked(k'.received, v) {
      AnswersOne(k.sent, Sent(g, via), v);
      hide Stamp;
    }
  }

  lemma WriteClients(st: System, c: ConnId, io: bool)
    requires Inv(st) && ClientsGood(st) && InLoop(st, c) && st.conns[c].writes != []
    ensures ClientsGood(WriteTopicFrame(st, c, io))
  {
    hide Inv, Local, Stamp, NextMsgId, MessagesOk, Answers, Asked, CountMessages, TxOk;
    WriteTopicGood(st, c, io);
    var k := st.conns[c];
    var st' := WriteTopicFrame(st, c, io);
    StampCommand(k.writes[0], k.lastMsgId);
    NumberedGood(st.subs, k, st'.conns[c], k.writes[0], true, None);
    ClientsMoved(st, st', c);
  }

  lemma StampCommand(f: Frame, last: nat)
    ensures Stamp(f, NextMsgId(last, f), true).command == f.command
    ensures NextMsgId(last, Stamp(f, NextMsgId(last, f), true)) == NextMsgId(last, f)
  {
  }

  lemma DeliverClients(st: System, c: ConnId, io: bool)
    requires Inv(st) && ClientsGood(st) && InLoop(st, c) && st.conns[c].channel != [] && Deliver(st, c, io).Next?
    ensures ClientsGood(Deliver(st, c, io).st)
  {
    hide Inv, Local, Stamp, NextMsgId, MessagesOk, Answers, Asked, CountMessages, TxOk, WritesOk;
    DeliverGood(st, c, io);
    ChannelOwner(st, c);
    var k := st.conns[c];
    var s := k.channel[0];
    var m := st.subs[s].frame.value;
    var auto := st.subs[s].ack == "auto";
    var st' := Deliver(st, c, io).st;
    EmptyWritesOk();
    QueueFrameIsMessage(st, s);
    StampIsMessage(m.frame, k.lastMsgId, auto);
    AcksFromLocal(st, st', c);
    if st.subs[s].id in k.subs {
      NumberedGood(st.subs, k, st'.conns[c], m.frame, auto, Some(Delivery(s, m.ref)));
    } else {
      SilentGood(st.subs, k, st'.conns[c]);
    }
    GoodStays(st.subs, st'.subs, st'.conns[c]);
    ClientsMoved(st, st', c);
  }

  lemma StampIsMessage(f: Frame, last: nat, auto: bool)
    requires f.command == "MESSAGE"
    ensures NextMsgId(last, Stamp(f, NextMsgId(last, f), auto)) == NextMsgId(last, f)
  {
  }

  lemma QueueFrameIsMessage(st: System, s: SubId)
    requires Inv(st) && s in st.subs && st.subs[s].frame.Some?
    ensures st.subs[s].frame.value.frame.command == "MESSAGE"
  {
    hide Tokens, Ordered, Places;
    assert SubFrame(st.entered, st.subs[s]);
  }
}
