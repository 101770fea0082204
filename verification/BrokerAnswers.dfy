/** What one connection answers and stores: receipts, transactions and message identifiers, in every run
    of the broker. */
module BrokerAnswers {
  import opened Text
  import opened Sequences
  import opened Frames
  import opened Broker
  import opened BrokerTokens
  import opened BrokerFrames
  import opened BrokerCleanup
  import opened BrokerRuns

  // ---------------------------------------------------------------- transactions

  /** A stored frame can be replayed: it is a SEND, or an ACK or NACK whose message id was already read as
      a number, and it asks for no receipt and names no transaction. */
  predicate Replayable(f: Frame) {
    && Find(f.header, "transaction").None? && Find(f.header, "receipt").None?
    && (f.command == "SEND"
        || ((f.command == "ACK" || f.command == "NACK") && AckId(f).Some? && ParseUint(AckId(f).value, UINT64_LIMIT - 1).Some?))
  }

  predicate TxOk(txs: map<string, seq<Frame>>) {
    forall tx, i | tx in txs && 0 <= i < |txs[tx]| :: Replayable(txs[tx][i])
  }

  /** Nothing the client can see or replay later has changed. */
  predicate Silent(k: Conn, k': Conn) {
    && k'.sent == k.sent && k'.txs == k.txs && k'.lastMsgId == k.lastMsgId && k'.received == k.received
    && k'.dropped == k.dropped && k'.phase == k.phase && k'.writes == k.writes && k'.channel == k.channel
  }

  lemma {:induction false} SettleSilent(st: System, c: ConnId, n: nat, i: nat, nack: bool)
    requires c in st.conns && i <= |st.conns[c].pending|
    ensures match Settle(st, c, n, i, nack)
            case Done(st') => c in st'.conns && Silent(st.conns[c], st'.conns[c])
            case Failed(_, _, _) => false
            case Crashed(why) => why.NilFrame? || (why.InvalidAckMode? && !nack)
    decreases |st.conns[c].pending| - i
  {
    hide IsAckedBy, ValidAck;
    if i < |st.conns[c].pending| {
      var s := st.conns[c].pending[i];
      if Known(st, s) && st.subs[s].frame.Some? && (nack || ValidAck(st.subs[s].ack)) {
        if if nack then n == st.subs[s].msgId else IsAckedBy(st.subs[s].ack, st.subs[s].msgId, n) {
          SettleSilent(SettleAt(st, c, i, nack), c, n, i, nack);
        } else {
          SettleSilent(st, c, n, i + 1, nack);
        }
      }
    }
  }

  /** The RECEIPT that a frame asks for. */
  function ReceiptFor(f: Frame): seq<Sent> {
    match Find(f.header, "receipt")
    case Some(r) => [Sent(Frame("RECEIPT", [Entry("receipt-id", r)], ""), None)]
    case None => []
  }

  /** k' is k after a handler that wrote only these frames. */
  predicate Wrote(k: Conn, k': Conn, out: seq<Sent>) {
    && k'.sent == k.sent + out && k'.lastMsgId == k.lastMsgId && k'.received == k.received
    && k'.dropped == k.dropped && TxOk(k'.txs) && k'.writes == k.writes
  }

  lemma ReceiptWrote(st: System, c: ConnId, f: Frame)
    requires c in st.conns && TxOk(st.conns[c].txs)
    ensures Receipt(st, c, f).conns.Keys == st.conns.Keys
    ensures Wrote(st.conns[c], Receipt(st, c, f).conns[c], ReceiptFor(f)) && Receipt(st, c, f).conns[c].txs == st.conns[c].txs
    ensures Receipt(st, c, f).conns[c].pending == st.conns[c].pending && Receipt(st, c, f).conns[c].phase == st.conns[c].phase
  {
    hide TxOk;
  }

  /** A command whose handler answers a receipt before anything else can fail. */
  predicate AnswersReceipt(command: string) {
    command != "SUBSCRIBE" && command != "UNSUBSCRIBE"
  }

  /** What a handler may write, and what it leaves in the frame for an ERROR to mention. */
  predicate Told(k: Conn, h: Handled, c: ConnId, f: Frame) {
    match h
    case Done(st') => c in st'.conns && Wrote(k, st'.conns[c], if AnswersReceipt(f.command) then ReceiptFor(f) else [])
    case Failed(st', f', _) =>
      c in st'.conns && ((f' == f && Wrote(k, st'.conns[c], []))
                         || (Find(f'.header, "receipt").None? && Wrote(k, st'.conns[c], ReceiptFor(f))))
    case Crashed(_) => true
  }

  lemma AddToTxTold(st: System, c: ConnId, tx: string, f: Frame)
    requires c in st.conns && TxOk(st.conns[c].txs)
    requires Replayable(f.(header := Drop(f.header, "transaction")))
    ensures match AddToTx(st, c, tx, f)
            case Done(st') => c in st'.conns && Wrote(st.conns[c], st'.conns[c], [])
            case Failed(st', f', _) => f' == f && st' == st
            case Crashed(_) => false
  {
    hide Replayable;
  }

  lemma StripReplayable(f: Frame)
    requires f.command == "SEND"
             || ((f.command == "ACK" || f.command == "NACK") && AckId(f).Some? && ParseUint(AckId(f).value, UINT64_LIMIT - 1).Some?)
    ensures Replayable(StripReceipt(f).(header := Drop(StripReceipt(f).header, "transaction")))
    ensures AckId(StripReceipt(f)) == AckId(f)
  {
    hide ParseUint, Drop, Find;
    var g := StripReceipt(f);
    FindAfterDrop(f.header, "receipt", "ack");
    FindAfterDrop(f.header, "receipt", "message-id");
    FindAfterDrop(g.header, "transaction", "ack");
    FindAfterDrop(g.header, "transaction", "message-id");
    FindAfterDrop(g.header, "transaction", "receipt");
  }

  lemma SendTold(st: System, c: ConnId, f: Frame, io: bool)
    requires c in st.conns && TxOk(st.conns[c].txs) && f.command == "SEND"
    ensures Told(st.conns[c], Dispatch(st, c, f, io), c, f)
  {
    hide Find, Drop, Replayable, TxOk, Receipt, IsQueueFrame;
    ReceiptWrote(st, c, f);
    StripReplayable(f);
    var st' := Receipt(st, c, f);
    var g := StripReceipt(f);
    match Find(g.header, "transaction")
    case None =>
    case Some(tx) => AddToTxTold(st', c, tx, g);
  }

  lemma AckTold(st: System, c: ConnId, f: Frame, io: bool)
    requires c in st.conns && TxOk(st.conns[c].txs) && (f.command == "ACK" || f.command == "NACK")
    ensures Told(st.conns[c], Dispatch(st, c, f, io), c, f)
  {
    hide Find, Drop, Replayable, TxOk, Receipt, Settle, ParseUint, AckId;
    ReceiptWrote(st, c, f);
    if AckId(f).Some? && ParseUint(AckId(f).value, UINT64_LIMIT - 1).Some? {
      StripReplayable(f);
      var st' := Receipt(st, c, f);
      var g := StripReceipt(f);
      match Find(g.header, "transaction")
      case None => SettleSilent(st', c, ParseUint(AckId(f).value, UINT64_LIMIT - 1).value, 0, f.command == "NACK");
      case Some(tx) => AddToTxTold(st', c, tx, g);
    }
  }

  lemma TxTold(st: System, c: ConnId, f: Frame, io: bool)
    requires c in st.conns && TxOk(st.conns[c].txs) && f.command != "SUBSCRIBE" && f.command != "UNSUBSCRIBE"
    ensures Told(st.conns[c], HandleTx(st, c, f, io), c, f) && !HandleTx(st, c, f, io).Crashed?
  {
    hide Find, Drop, TxOk, Receipt, StripReceipt, ReceiptFails;
    ReceiptWrote(st, c, f);
    if Find(f.header, "transaction").Some? {
      TxOkChanged(st.conns[c].txs, Find(f.header, "transaction").value);
    }
    StripFinds(f);
  }

  lemma StripFinds(f: Frame)
    ensures Find(StripReceipt(f).header, "receipt").None?
  {
  }

  lemma TxOkChanged(txs: map<string, seq<Frame>>, tx: string)
    requires TxOk(txs)
    ensures TxOk(txs[tx := []]) && TxOk(txs - {tx})
  {
    hide Replayable;
  }

  lemma SubscribeTold(st: System, c: ConnId, f: Frame)
    requires c in st.conns && TxOk(st.conns[c].txs)
    ensures f.command == "SUBSCRIBE" ==> Told(st.conns[c], HandleSubscribe(st, c, f), c, f)
    ensures f.command == "UNSUBSCRIBE" ==> Told(st.conns[c], HandleUnsubscribe(st, c, f), c, f)
  {
    hide Find, TxOk, ReceiptFor;
  }

  lemma OtherTold(st: System, c: ConnId, f: Frame, io: bool)
    requires c in st.conns && TxOk(st.conns[c].txs) && f.command != "SEND" && f.command != "ACK" && f.command != "NACK"
    ensures Told(st.conns[c], Dispatch(st, c, f, io), c, f)
  {
    hide Find, Drop, TxOk, HandleTx, Receipt, HandleAck, SendBody, ReceiptFor, StripReceipt, ReceiptFails, HandleSubscribe, HandleUnsubscribe;
    ReceiptWrote(st, c, f);
    SubscribeTold(st, c, f);
    if f.command == "BEGIN" || f.command == "ABORT" { TxTold(st, c, f, io); }
  }

  lemma DispatchTold(st: System, c: ConnId, f: Frame, io: bool)
    requires c in st.conns && TxOk(st.conns[c].txs)
    ensures Told(st.conns[c], Dispatch(st, c, f, io), c, f)
  {
    hide Dispatch, Told, TxOk;
    if f.command == "SEND" {
      SendTold(st, c, f, io);
    } else if f.command == "ACK" || f.command == "NACK" {
      AckTold(st, c, f, io);
    } else {
      OtherTold(st, c, f, io);
    }
  }

  // ---------------------------------------------------------------- commit

  /** The frames of the EnqueueOps in a list of requests. */
  function Enqueued(ops: seq<Op>): seq<Frame> {
    if ops == [] then []
    else if ops[0].Enqueue? then [ops[0].m.frame] + Enqueued(ops[1..])
    else Enqueued(ops[1..])
  }

  /** The SEND frames of a transaction, as the messages they become. */
  function Sends(frames: seq<Frame>): seq<Frame> {
    if frames == [] then []
    else if frames[0].command == "SEND" then [frames[0].(command := "MESSAGE")] + Sends(frames[1..])
    else Sends(frames[1..])
  }

  lemma {:induction false} EnqueuedAppend(a: seq<Op>, b: seq<Op>)
    ensures Enqueued(a + b) == Enqueued(a) + Enqueued(b)
  {
    if a == [] {
      assert a + b == b;
    } else {
      EnqueuedAppend(a[1..], b);
      assert (a + b)[1..] == a[1..] + b;
      if a[0].Enqueue? { Regroup([a[0].m.frame], Enqueued(a[1..]), Enqueued(b)); }
    }
  }

  lemma {:induction false} SettleEnqueuesNothing(st: System, c: ConnId, n: nat, i: nat, nack: bool)
    requires c in st.conns && i <= |st.conns[c].pending|
    ensures match Settle(st, c, n, i, nack)
            case Done(st') => c in st'.conns && Enqueued(st'.conns[c].outbox) == Enqueued(st.conns[c].outbox)
            case _ => true
    decreases |st.conns[c].pending| - i
  {
    hide IsAckedBy, ValidAck, Enqueued;
    if i < |st.conns[c].pending| {
      var s := st.conns[c].pending[i];
      if Known(st, s) && st.subs[s].frame.Some? && (nack || ValidAck(st.subs[s].ack)) {
        if if nack then n == st.subs[s].msgId else IsAckedBy(st.subs[s].ack, st.subs[s].msgId, n) {
          SettleEnqueuesNothing(SettleAt(st, c, i, nack), c, n, i, nack);
          SettledEnqueued(st.conns[c].outbox, s, st.subs[s].frame.value, nack);
        } else {
          SettleEnqueuesNothing(st, c, n, i + 1, nack);
        }
      }
    }
  }

  lemma SettledEnqueued(out: seq<Op>, s: SubId, m: Msg, nack: bool)
    ensures Enqueued(out + (if nack then [Requeue(m, false)] else []) + [Subscribe(s)]) == Enqueued(out)
  {
    EnqueuedAppend(out + (if nack then [Requeue(m, false)] else []), [Subscribe(s)]);
    EnqueuedAppend(out, if nack then [Requeue(m, false)] else []);
    assert [Requeue(m, false)][1..] == [] && [Subscribe(s)][1..] == [];
  }

  /** Replaying one stored frame never fails and never comes back to the transaction store. */
  lemma ReplayOne(st: System, c: ConnId, f: Frame, io: bool)
    requires c in st.conns && Replayable(f)
    ensures match Dispatch(st, c, f, io)
            case Done(st') => c in st'.conns && Silent(st.conns[c], st'.conns[c])
                              && Enqueued(st'.conns[c].outbox) == Enqueued(st.conns[c].outbox) + Sends([f])
            case Failed(_, _, _) => false
            case Crashed(why) => why.NilFrame? || why.InvalidAckMode?
  {
    hide Settle, ParseUint, IsQueueFrame;
    var g := StripReceipt(f);
    DropAbsent(f.header, "receipt");
    assert g == f;
    assert [f][1..] == [];
    if f.command == "SEND" {
      EnqueuedAppend(st.conns[c].outbox, [Enqueue(Msg(st.nextRef, f.(command := "MESSAGE")))]);
      assert [Enqueue(Msg(st.nextRef, f.(command := "MESSAGE")))][1..] == [];
    } else {
      var n := ParseUint(AckId(f).value, UINT64_LIMIT - 1).value;
      SettleSilent(st, c, n, 0, f.command == "NACK");
      SettleEnqueuesNothing(st, c, n, 0, f.command == "NACK");
    }
  }

  lemma SendsFirst(frames: seq<Frame>)
    requires frames != []
    ensures Sends(frames) == Sends([frames[0]]) + Sends(frames[1..])
  {
    var f := frames[0];
    assert [f][1..] == [] && Sends([]) == [];
    if f.command == "SEND" {
      assert Sends([f]) == [f.(command := "MESSAGE")];
    } else {
      assert Sends([f]) == [];
    }
  }

  lemma {:induction false} ReplayAll(st: System, c: ConnId, frames: seq<Frame>, io: bool)
    requires c in st.conns && forall i | 0 <= i < |frames| :: Replayable(frames[i])
    ensures match Replay(st, c, frames, io)
            case Done(st') => c in st'.conns && Silent(st.conns[c], st'.conns[c])
                              && Enqueued(st'.conns[c].outbox) == Enqueued(st.conns[c].outbox) + Sends(frames)
            case Failed(_, _, _) => false
            case Crashed(why) => why.NilFrame? || why.InvalidAckMode?
    decreases |frames|
  {
    hide Dispatch, Enqueued;
    if frames != [] {
      assert Replayable(frames[0]) && frames[0].command != "COMMIT";
      hide Replayable;
      ReplayOne(st, c, frames[0], io);
      SendsFirst(frames);
      hide Sends;
      match Dispatch(st, c, frames[0], io)
      case Done(st') =>
        ReplayAll(st', c, frames[1..], io);
        Regroup(Enqueued(st.conns[c].outbox), Sends([frames[0]]), Sends(frames[1..]));
      case _ =>
    }
  }

  /** COMMIT is all or nothing. When the transaction is open and the receipt can be written, every stored
      frame is replayed: the SEND frames become messages in the order they were stored, the transaction is
      gone, and the other transactions are as they were. The only way out is a panic. */
  lemma CommitAllOrNothing(st: System, c: ConnId, f: Frame, io: bool, tx: string)
    requires c in st.conns && TxOk(st.conns[c].txs) && f.command == "COMMIT"
    requires Find(f.header, "transaction") == Some(tx) && tx in st.conns[c].txs && !ReceiptFails(f, io)
    ensures match HandleCommit(st, c, f, io)
            case Done(st') =>
              && c in st'.conns
              && st'.conns[c].txs == st.conns[c].txs - {tx}
              && st'.conns[c].sent == st.conns[c].sent + ReceiptFor(f)
              && Enqueued(st'.conns[c].outbox) == Enqueued(st.conns[c].outbox) + Sends(st.conns[c].txs[tx])
            case Failed(_, _, _) => false
            case Crashed(why) => why.NilFrame? || why.InvalidAckMode?
  {
    hide Find, Replay, Enqueued, Sends, Replayable, ReceiptFails, Receipt;
    ReceiptWrote(st, c, f);
    ReceiptKeepsOutbox(st, c, f);
    var st' := Receipt(st, c, f);
    ReplayAll(st', c, st.conns[c].txs[tx], io);
  }

  lemma ReceiptKeepsOutbox(st: System, c: ConnId, f: Frame)
    requires c in st.conns
    ensures c in Receipt(st, c, f).conns && Receipt(st, c, f).conns[c].outbox == st.conns[c].outbox
  {
  }
}
