/** Where frames come from: the transactions of a connection are those of a transaction store that was told every
    frame the client sent, and every message that enters a queue is a SEND that some client sent. */
module BrokerHistory {
  import opened Text
  import opened Frames
  import opened Broker
  import opened BrokerTokens
  import opened BrokerFrames
  import opened BrokerConservation
  import opened BrokerCleanup
  import opened BrokerRuns
  import opened BrokerAnswers
  import opened BrokerAcks
  import opened BrokerClients
  import opened BrokerTheorems
  import opened BrokerCommits
  import TxStores

  // ---------------------------------------------------------------- received frames as calls

  /** The call of the transaction store that a received frame means. */
  function CallOf(f: Frame): Option<TxStores.Call> {
    match Find(f.header, "transaction")
    case None => None
    case Some(tx) =>
      match f.command
      case "BEGIN" => Some(TxStores.Begin(tx))
      case "COMMIT" => Some(TxStores.Commit(tx))
      case "ABORT" => Some(TxStores.Abort(tx))
      case "SEND" => Some(TxStores.Add(tx, StripReceipt(f)))
      case "ACK" => Some(TxStores.Add(tx, StripReceipt(f)))
      case "NACK" => Some(TxStores.Add(tx, StripReceipt(f)))
      case _ => None
  }

  function Calls(received: seq<Frame>): seq<TxStores.Call> {
    if received == [] then []
    else
      match CallOf(received[|received| - 1])
      case Some(call) => Calls(received[..|received| - 1]) + [call]
      case None => Calls(received[..|received| - 1])
  }

  function AfterCall(txs: map<string, seq<Frame>>, f: Frame): map<string, seq<Frame>> {
    match CallOf(f)
    case Some(call) => TxStores.Do(txs, call).txs
    case None => txs
  }

  lemma CallsMore(received: seq<Frame>, f: Frame)
    ensures TxStores.After(Calls(received + [f])) == AfterCall(TxStores.After(Calls(received)), f)
  {
    hide CallOf;
    assert (received + [f])[..|received|] == received;
    match CallOf(f)
    case None =>
    case Some(call) => assert (Calls(received) + [call])[..|Calls(received)|] == Calls(received);
  }

  // ---------------------------------------------------------------- the invariant

  /** A running connection has the transactions that its client's frames make. */
  predicate ConnHistory(k: Conn) {
    && (k.phase == Connecting ==> k.received == [] && k.txs == map[])
    && (k.phase == Running ==> k.txs == TxStores.After(Calls(k.received)))
  }

  predicate History(st: System) {
    forall c | c in st.conns :: ConnHistory(st.conns[c])
  }

  /** While the connection works, its transactions and what it has received are as they were. */
  predicate SameHistory(k: Conn, k': Conn) {
    (k'.phase == Connecting || k'.phase == Running) ==> k'.phase == k.phase && k'.txs == k.txs && k'.received == k.received
  }

  lemma HistoryStays(k: Conn, k': Conn)
    requires ConnHistory(k) && SameHistory(k, k')
    ensures ConnHistory(k')
  {
  }

  /** Only connection c acted. */
  lemma HistoryMoved(st: System, st': System, c: ConnId)
    requires History(st) && Local(st, st', c) && (c in st'.conns ==> ConnHistory(st'.conns[c]))
    ensures History(st')
  {
    hide ConnHistory;
  }

  // ---------------------------------------------------------------- handlers

  lemma AddIsDone(st: System, c: ConnId, tx: string, f: Frame)
    requires c in st.conns && AddToTx(st, c, tx, f).Done?
    ensures c in AddToTx(st, c, tx, f).st.conns
    ensures AddToTx(st, c, tx, f).st.conns[c].txs == TxStores.Do(st.conns[c].txs, TxStores.Add(tx, f)).txs
  {
    hide Drop;
  }

  lemma CallOfAdd(f: Frame)
    requires f.command == "SEND" || f.command == "ACK" || f.command == "NACK"
    ensures Find(StripReceipt(f).header, "transaction") == Find(f.header, "transaction")
    ensures CallOf(f) == match Find(f.header, "transaction") case Some(tx) => Some(TxStores.Add(tx, StripReceipt(f))) case None => None
  {
    hide Find, Drop;
    FindAfterDrop(f.header, "receipt", "transaction");
  }

  lemma ReceiptTxs(st: System, c: ConnId, f: Frame)
    requires c in st.conns
    ensures c in Receipt(st, c, f).conns && Receipt(st, c, f).conns[c].txs == st.conns[c].txs
  {
  }

  /** The transactions after a handler that did not fail are those after the call that the frame means. */
  predicate Called(st: System, h: Handled, c: ConnId, f: Frame)
    requires c in st.conns
  {
    h.Done? ==> c in h.st.conns && h.st.conns[c].txs == AfterCall(st.conns[c].txs, f)
  }

  lemma SendCalled(st: System, c: ConnId, f: Frame, io: bool)
    requires c in st.conns && f.command == "SEND"
    ensures Called(st, Dispatch(st, c, f, io), c, f)
  {
    hide Find, StripReceipt, Receipt, IsQueueFrame, CallOf, AddToTx, ReceiptFails;
    ReceiptTxs(st, c, f);
    CallOfAdd(f);
    match Find(StripReceipt(f).header, "transaction")
    case None =>
    case Some(tx) => if AddToTx(Receipt(st, c, f), c, tx, StripReceipt(f)).Done? { AddIsDone(Receipt(st, c, f), c, tx, StripReceipt(f)); }
  }

  lemma AckCalled(st: System, c: ConnId, f: Frame, io: bool)
    requires c in st.conns && (f.command == "ACK" || f.command == "NACK")
    ensures Called(st, Dispatch(st, c, f, io), c, f)
  {
    hide Find, StripReceipt, Receipt, Settle, CallOf, AddToTx, ParseUint, AckId, ReceiptFails;
    ReceiptTxs(st, c, f);
    CallOfAdd(f);
    if AckId(f).Some? && ParseUint(AckId(f).value, UINT64_LIMIT - 1).Some? {
      match Find(StripReceipt(f).header, "transaction")
      case None => SettleSilent(Receipt(st, c, f), c, ParseUint(AckId(f).value, UINT64_LIMIT - 1).value, 0, f.command == "NACK");
      case Some(tx) => if AddToTx(Receipt(st, c, f), c, tx, StripReceipt(f)).Done? { AddIsDone(Receipt(st, c, f), c, tx, StripReceipt(f)); }
    }
  }

  lemma TxCalled(st: System, c: ConnId, f: Frame, io: bool)
    requires c in st.conns && (f.command == "BEGIN" || f.command == "ABORT")
    ensures Called(st, HandleTx(st, c, f, io), c, f)
  {
    hide Find, StripReceipt, Receipt, ReceiptFails;
    ReceiptTxs(st, c, f);
  }

  lemma OtherCalled(st: System, c: ConnId, f: Frame, io: bool)
    requires c in st.conns && f.command !in {"BEGIN", "ABORT", "SEND", "ACK", "NACK", "COMMIT"}
    ensures Called(st, Dispatch(st, c, f, io), c, f)
  {
    hide Find, StripReceipt, Receipt, HandleTx, HandleAck, SendBody, ReceiptFails;
    ReceiptTxs(st, c, f);
  }

  lemma DispatchCalled(st: System, c: ConnId, f: Frame, io: bool)
    requires c in st.conns && f.command != "COMMIT"
    ensures Called(st, Dispatch(st, c, f, io), c, f)
  {
    hide Called, HandleTx, HandleAck, SendBody, HandleSubscribe, HandleUnsubscribe;
    if f.command == "SEND" {
      SendCalled(st, c, f, io);
    } else if f.command == "ACK" || f.command == "NACK" {
      AckCalled(st, c, f, io);
    } else if f.command == "BEGIN" || f.command == "ABORT" {
      TxCalled(st, c, f, io);
    } else {
      OtherCalled(st, c, f, io);
    }
  }

  lemma CommitCalled(st: System, c: ConnId, f: Frame, io: bool)
    requires c in st.conns && f.command == "COMMIT" && TxOk(st.conns[c].txs)
    ensures Called(st, HandleCommit(st, c, f, io), c, f)
  {
    hide Find, Replay, Receipt, StripReceipt, TxOk, Enqueued, Sends;
    var tx := Find(f.header, "transaction");
    if tx.Some? && tx.value in st.conns[c].txs && !ReceiptFails(f, io) {
      hide HandleCommit;
      CommitAllOrNothing(st, c, f, io, tx.value);
    } else {
      ReceiptTxs(st, c, f);
    }
  }

  lemma HandleCalled(st: System, c: ConnId, f: Frame, io: bool, admit: bool)
    requires c in st.conns && st.conns[c].phase == Running && TxOk(st.conns[c].txs)
    ensures Called(st, Handle(st, c, f, io, admit), c, f)
  {
    hide Called, HandleCommit, Dispatch, TxOk;
    if f.command == "COMMIT" { CommitCalled(st, c, f, io); } else { DispatchCalled(st, c, f, io); }
  }

  // ---------------------------------------------------------------- what enters

  /** f is the SEND frame g as a message: without its receipt and transaction entries. */
  predicate FromSend(f: Frame, g: Frame) {
    g.command == "SEND" && f == TxStores.Bare(StripReceipt(g)).(command := "MESSAGE")
  }

  ghost predicate Received(st: System, f: Frame) {
    exists c, j :: c in st.conns && 0 <= j < |st.conns[c].received| && FromSend(f, st.conns[c].received[j])
  }

  /** Every frame that entered a queue was sent by a client. */
  ghost predicate EntersFromClients(st: System) {
    forall r | r in st.entered :: Received(st, st.entered[r])
  }

  /** Nothing received is forgotten. */
  predicate Remembers(st: System, st': System) {
    forall c | c in st.conns :: c in st'.conns && st.conns[c].received <= st'.conns[c].received
  }

  lemma ReceivedStays(st: System, st': System, f: Frame)
    requires Received(st, f) && Remembers(st, st')
    ensures Received(st', f)
  {
    hide FromSend;
    var c, j :| c in st.conns && 0 <= j < |st.conns[c].received| && FromSend(f, st.conns[c].received[j]);
    assert st'.conns[c].received[j] == st.conns[c].received[j];
  }

  lemma EntersSame(st: System, st': System)
    requires EntersFromClients(st) && st'.entered == st.entered && Remembers(st, st')
    ensures EntersFromClients(st')
  {
    hide Received;
    forall r | r in st'.entered ensures Received(st', st'.entered[r]) { ReceivedStays(st, st', st.entered[r]); }
  }

  /** The frames that entered since st are messages made of frames of fs. */
  predicate Entered(st: System, st': System, fs: seq<Frame>) {
    forall r | r in st'.entered && !(r in st.entered && st'.entered[r] == st.entered[r]) ::
      exists i :: 0 <= i < |fs| && fs[i].command == "SEND" && st'.entered[r] == fs[i].(command := "MESSAGE")
  }

  lemma EnteredTrans(st: System, st': System, st'': System, a: seq<Frame>, b: seq<Frame>)
    requires Entered(st, st', a) && Entered(st', st'', b)
    ensures Entered(st, st'', a + b)
  {
    forall r | r in st''.entered && !(r in st.entered && st''.entered[r] == st.entered[r])
      ensures exists i :: 0 <= i < |a + b| && (a + b)[i].command == "SEND" && st''.entered[r] == (a + b)[i].(command := "MESSAGE")
    {
      if r in st'.entered && st''.entered[r] == st'.entered[r] {
        var i :| 0 <= i < |a| && a[i].command == "SEND" && st'.entered[r] == a[i].(command := "MESSAGE");
        assert (a + b)[i] == a[i];
      } else {
        var i :| 0 <= i < |b| && b[i].command == "SEND" && st''.entered[r] == b[i].(command := "MESSAGE");
        assert (a + b)[|a| + i] == b[i];
      }
    }
  }

  lemma {:induction false} SettleEnters(st: System, c: ConnId, n: nat, i: nat, nack: bool)
    requires c in st.conns && i <= |st.conns[c].pending|
    ensures Settle(st, c, n, i, nack).Done? ==> Settle(st, c, n, i, nack).st.entered == st.entered
    decreases |st.conns[c].pending| - i
  {
    hide IsAckedBy, ValidAck;
    if i < |st.conns[c].pending| {
      var s := st.conns[c].pending[i];
      if Known(st, s) && st.subs[s].frame.Some? && (nack || ValidAck(st.subs[s].ack)) {
        if if nack then n == st.subs[s].msgId else IsAckedBy(st.subs[s].ack, st.subs[s].msgId, n) {
          SettleEnters(SettleAt(st, c, i, nack), c, n, i, nack);
        } else {
          SettleEnters(st, c, n, i + 1, nack);
        }
      }
    }
  }

  predicate HandledEnters(st: System, h: Handled, fs: seq<Frame>) {
    !h.Crashed? ==> Entered(st, h.st, fs)
  }

  lemma ReceiptEnters(st: System, c: ConnId, f: Frame)
    requires c in st.conns
    ensures Receipt(st, c, f).entered == st.entered && c in Receipt(st, c, f).conns
  {
  }

  lemma SubmitEnters(st: System, c: ConnId, f: Frame)
    requires c in st.conns && f.command == "SEND"
    ensures Entered(st, Submit(st, c, f), [f])
  {
    hide IsQueueFrame;
    assert [f][0].command == "SEND";
  }

  /** A frame outside a transaction enters as it is; one inside a transaction is only stored. */
  function Entering(f: Frame): seq<Frame> {
    if f.command == "SEND" && Find(f.header, "transaction").None? then [StripReceipt(f)] else []
  }

  lemma DispatchEnters(st: System, c: ConnId, f: Frame, io: bool)
    requires c in st.conns
    ensures HandledEnters(st, Dispatch(st, c, f, io), Entering(f))
  {
    hide Find, StripReceipt, Receipt, Settle, ParseUint, AckId, ReceiptFails, Submit, Entered, NewSub, EndSub;
    ReceiptEnters(st, c, f);
    SubsEnter(st, c);
    SameEnters(st, Entering(f));
    if f.command == "SEND" {
      CallOfAdd(f);
      SubmitAfterReceipt(st, c, f);
    } else if (f.command == "ACK" || f.command == "NACK") && AckId(f).Some? && ParseUint(AckId(f).value, UINT64_LIMIT - 1).Some? {
      SettleEnters(Receipt(st, c, f), c, ParseUint(AckId(f).value, UINT64_LIMIT - 1).value, 0, f.command == "NACK");
      SettleSilent(Receipt(st, c, f), c, ParseUint(AckId(f).value, UINT64_LIMIT - 1).value, 0, f.command == "NACK");
    }
  }

  lemma SubsEnter(st: System, c: ConnId)
    requires c in st.conns
    ensures forall id, dest, ack :: NewSub(st, c, id, dest, ack).entered == st.entered
    ensures forall id | id in st.conns[c].subs :: EndSub(st, c, id).entered == st.entered
  {
  }

  lemma SubmitAfterReceipt(st: System, c: ConnId, f: Frame)
    requires c in st.conns && f.command == "SEND"
    ensures c in Receipt(st, c, f).conns && Entered(st, Submit(Receipt(st, c, f), c, StripReceipt(f)), [StripReceipt(f)])
  {
    hide Find, Drop, Submit;
    SubmitEnters(Receipt(st, c, f), c, StripReceipt(f));
  }

  lemma SameEnters(st: System, fs: seq<Frame>)
    ensures forall st': System | st'.entered == st.entered :: Entered(st, st', fs)
  {
  }

  lemma {:induction false} ReplayEnters(st: System, c: ConnId, frames: seq<Frame>, io: bool)
    requires c in st.conns && forall i | 0 <= i < |frames| :: Replayable(frames[i])
    ensures Replay(st, c, frames, io).Done? ==> Entered(st, Replay(st, c, frames, io).st, frames)
    decreases |frames|
  {
    hide Dispatch, Replayable, Entered, Enqueued, Sends;
    SameEnters(st, frames);
    if frames != [] && frames[0].command != "COMMIT" {
      assert Replayable(frames[0]);
      ReplayOne(st, c, frames[0], io);
      if Dispatch(st, c, frames[0], io).Done? {
        var st' := Dispatch(st, c, frames[0], io).st;
        FirstEnters(st, c, frames[0], io);
        ReplayEnters(st', c, frames[1..], io);
        if Replay(st', c, frames[1..], io).Done? {
          EnteredTrans(st, st', Replay(st', c, frames[1..], io).st, [frames[0]], frames[1..]);
          assert [frames[0]] + frames[1..] == frames;
        }
      }
    }
  }

  lemma FirstEnters(st: System, c: ConnId, f: Frame, io: bool)
    requires c in st.conns && Replayable(f) && f.command != "COMMIT" && Dispatch(st, c, f, io).Done?
    ensures Entered(st, Dispatch(st, c, f, io).st, [f])
  {
    hide Dispatch, Replayable, Entered;
    DispatchEnters(st, c, f, io);
    ReplayEntering(f);
    EnteredOne(st, Dispatch(st, c, f, io).st, f);
  }

  lemma ReplayEntering(f: Frame)
    requires Replayable(f)
    ensures Entering(f) == if f.command == "SEND" then [f] else []
  {
    hide Find;
    DropAbsent(f.header, "receipt");
  }

  lemma EnteredOne(st: System, st': System, f: Frame)
    requires Entered(st, st', if f.command == "SEND" then [f] else [])
    ensures Entered(st, st', [f])
  {
    if f.command == "SEND" { assert [f][0].command == "SEND"; }
  }

  /** The frames that handling f can make enter. */
  function Sources(k: Conn, f: Frame): seq<Frame> {
    if f.command == "COMMIT" then
      match Find(f.header, "transaction")
      case Some(tx) => if tx in k.txs then k.txs[tx] else []
      case None => []
    else Entering(f)
  }

  lemma HandleTxEnters(st: System, c: ConnId, f: Frame, io: bool)
    requires c in st.conns
    ensures match HandleTx(st, c, f, io)
            case Done(st') => st'.entered == st.entered
            case Failed(st', _, _) => st'.entered == st.entered
            case Crashed(_) => false
    ensures f.command == "COMMIT" && HandleTx(st, c, f, io).Done? ==>
              HandleTx(st, c, f, io).st == Receipt(st, c, f) && c in Receipt(st, c, f).conns && Receipt(st, c, f).conns[c].txs == st.conns[c].txs
              && Find(f.header, "transaction").Some? && Find(f.header, "transaction").value in st.conns[c].txs
  {
    hide Find, StripReceipt, ReceiptFails;
  }

  lemma CommitEnters(st: System, c: ConnId, f: Frame, io: bool)
    requires c in st.conns && f.command == "COMMIT" && TxOk(st.conns[c].txs)
    ensures HandledEnters(st, HandleCommit(st, c, f, io), Sources(st.conns[c], f))
  {
    hide Find, Replay, Receipt, StripReceipt, HandleTx, Replayable, Entered;
    HandleTxEnters(st, c, f, io);
    SameEnters(st, Sources(st.conns[c], f));
    if HandleTx(st, c, f, io).Done? {
      var st' := Receipt(st, c, f);
      var frames := st.conns[c].txs[Find(f.header, "transaction").value];
      ReplayAll(st', c, frames, io);
      ReplayEnters(st', c, frames, io);
      if Replay(st', c, frames, io).Done? { EnteredSince(st, st', Replay(st', c, frames, io).st, HandleCommit(st, c, f, io).st, frames); }
    }
  }

  lemma EnteredSince(st: System, st': System, st'': System, st3: System, fs: seq<Frame>)
    requires st'.entered == st.entered && Entered(st', st'', fs) && st3.entered == st''.entered
    ensures Entered(st, st3, fs)
  {
  }

  lemma HandleEnters(st: System, c: ConnId, f: Frame, io: bool, admit: bool)
    requires c in st.conns && TxOk(st.conns[c].txs) && (st.conns[c].phase == Running || st.conns[c].phase == Connecting)
    ensures HandledEnters(st, Handle(st, c, f, io, admit), Sources(st.conns[c], f))
  {
    hide HandleCommit, Dispatch, TxOk, Entered, Sources, Entering, Find;
    if st.conns[c].phase == Connecting {
      SameEnters(st, Sources(st.conns[c], f));
    } else if f.command == "COMMIT" {
      CommitEnters(st, c, f, io);
    } else {
      DispatchEnters(st, c, f, io);
      assert Sources(st.conns[c], f) == Entering(f) by { SourcesOther(st.conns[c], f); }
    }
  }

  lemma SourcesOther(k: Conn, f: Frame)
    requires f.command != "COMMIT"
    ensures Sources(k, f) == Entering(f)
  {
  }

  // ---------------------------------------------------------------- where stored frames come from

  /** f is g without its receipt and transaction entries. */
  predicate StoredFrom(f: Frame, g: Frame) {
    f == TxStores.Bare(StripReceipt(g))
  }

  predicate AllStoredFrom(txs: map<string, seq<Frame>>, received: seq<Frame>) {
    forall tx, i | tx in txs && 0 <= i < |txs[tx]| :: exists j :: 0 <= j < |received| && StoredFrom(txs[tx][i], received[j])
  }

  lemma StoredMore(txs: map<string, seq<Frame>>, received: seq<Frame>, f: Frame)
    requires AllStoredFrom(txs, received)
    ensures AllStoredFrom(AfterCall(txs, f), received + [f])
  {
    CallAdds(f);
    hide StoredFrom, CallOf, TxStores.Bare, StripReceipt;
    var txs' := AfterCall(txs, f);
    assert (received + [f])[|received|] == f;
    forall tx, i | tx in txs' && 0 <= i < |txs'[tx]| ensures exists j :: 0 <= j < |received + [f]| && StoredFrom(txs'[tx][i], (received + [f])[j]) {
      if tx in txs && i < |txs[tx]| && txs'[tx][i] == txs[tx][i] {
        var j :| 0 <= j < |received| && StoredFrom(txs[tx][i], received[j]);
        assert (received + [f])[j] == received[j];
      } else {
        assert StoredFrom(txs'[tx][i], (received + [f])[|received|]);
      }
    }
  }

  lemma CallAdds(f: Frame)
    ensures CallOf(f).Some? && CallOf(f).value.Add? ==> StoredFrom(TxStores.Bare(CallOf(f).value.f), f)
  {
  }

  lemma {:induction false} StoredReceived(received: seq<Frame>)
    ensures AllStoredFrom(TxStores.After(Calls(received)), received)
    decreases |received|
  {
    hide AllStoredFrom, AfterCall, Calls, TxStores.After;
    if received == [] {
      assert AllStoredFrom(TxStores.After(Calls([])), []) by { NothingStored(); }
    } else {
      var n := |received| - 1;
      StoredReceived(received[..n]);
      CallsMore(received[..n], received[n]);
      StoredMore(TxStores.After(Calls(received[..n])), received[..n], received[n]);
      assert received[..n] + [received[n]] == received;
    }
  }

  lemma NothingStored()
    ensures AllStoredFrom(TxStores.After(Calls([])), [])
  {
  }

  /** Every frame that handling f makes enter comes from a frame the connection has received, f included. */
  lemma SourcesReceived(k: Conn, f: Frame, g: Frame)
    requires k.phase == Running && k.txs == TxStores.After(Calls(k.received)) && g in Sources(k, f) && g.command == "SEND"
    ensures exists j :: 0 <= j < |k.received + [f]| && FromSend(g.(command := "MESSAGE"), (k.received + [f])[j])
  {
    hide Calls, TxStores.After, Find, Drop;
    StoredReceived(k.received);
    if f.command == "COMMIT" {
      var tx := Find(f.header, "transaction").value;
      var i :| 0 <= i < |k.txs[tx]| && k.txs[tx][i] == g;
      var j :| 0 <= j < |k.received| && StoredFrom(k.txs[tx][i], k.received[j]);
      assert (k.received + [f])[j] == k.received[j];
      assert FromSend(g.(command := "MESSAGE"), (k.received + [f])[j]);
    } else {
      FindAfterDrop(f.header, "receipt", "transaction");
      DropAbsent(StripReceipt(f).header, "transaction");
      assert (k.received + [f])[|k.received|] == f;
      assert FromSend(g.(command := "MESSAGE"), (k.received + [f])[|k.received|]);
    }
  }

  // ---------------------------------------------------------------- receiving a frame

  /** While connecting nothing can enter: the connection has no transaction, and its handler submits nothing. */
  lemma ConnectEnters(st: System, c: ConnId, f: Frame, admit: bool)
    requires c in st.conns
    ensures match HandleConnect(st, c, f, admit)
            case Done(st') =>
              && st'.entered == st.entered && c in st'.conns && st'.conns[c].phase == Running
              && st'.conns[c].txs == st.conns[c].txs && st'.conns[c].received == st.conns[c].received
            case Failed(st', _, _) => st' == st
            case Crashed(_) => false
    ensures HandleConnect(st, c, f, admit).Done? ==> CallOf(f).None?
  {
    hide Find;
  }

  lemma ReceiveEntered(st: System, c: ConnId, f: Frame, io: bool, admit: bool)
    requires InLoop(st, c) && Receive(st, c, f, io, admit).Next?
    ensures !Handle(Arrived(st, c, f), c, f, io, admit).Crashed?
    ensures Receive(st, c, f, io, admit).st.entered == Handle(Arrived(st, c, f), c, f, io, admit).st.entered
  {
    hide Handle, ErrorFrame;
  }

  lemma ReceiveFromClients(st: System, c: ConnId, f: Frame, io: bool, admit: bool)
    requires Inv(st) && InLoop(st, c) && TxOk(st.conns[c].txs) && ConnHistory(st.conns[c]) && EntersFromClients(st)
    requires Receive(st, c, f, io, admit).Next?
    ensures EntersFromClients(Receive(st, c, f, io, admit).st)
  {
    hide Inv, TxOk, Handle, Sources, FromSend, Receive, Calls, TxStores.After, HandleConnect, Local;
    var st0 := Arrived(st, c, f);
    var st' := Receive(st, c, f, io, admit).st;
    ReceiveEntered(st, c, f, io, admit);
    ReceivedGrows(st, c, f, io, admit);
    if st.conns[c].phase == Connecting {
      ConnectEnters(st0, c, f, admit);
      assert Handle(st0, c, f, io, admit) == HandleConnect(st0, c, f, admit) by { HandleConnecting(st0, c, f, io, admit); }
      EntersSame(st, st');
    } else {
      HandleEnters(st0, c, f, io, admit);
      assert Sources(st0.conns[c], f) == Sources(st.conns[c], f) by { SourcesSame(st0.conns[c], st.conns[c], f); }
      forall r | r in st'.entered ensures Received(st', st'.entered[r]) {
        if r in st.entered && st'.entered[r] == st.entered[r] {
          ReceivedStays(st, st', st.entered[r]);
        } else {
          var fs := Sources(st.conns[c], f);
          var i :| 0 <= i < |fs| && fs[i].command == "SEND" && st'.entered[r] == fs[i].(command := "MESSAGE");
          SourcesReceived(st.conns[c], f, fs[i]);
        }
      }
    }
  }

  lemma HandleConnecting(st: System, c: ConnId, f: Frame, io: bool, admit: bool)
    requires c in st.conns && st.conns[c].phase == Connecting
    ensures Handle(st, c, f, io, admit) == HandleConnect(st, c, f, admit)
  {
  }

  lemma SourcesSame(k: Conn, k': Conn, f: Frame)
    requires k.txs == k'.txs
    ensures Sources(k, f) == Sources(k', f)
  {
  }

  lemma ReceivedGrows(st: System, c: ConnId, f: Frame, io: bool, admit: bool)
    requires Inv(st) && InLoop(st, c) && TxOk(st.conns[c].txs) && Receive(st, c, f, io, admit).Next?
    ensures var st' := Receive(st, c, f, io, admit).st;
            c in st'.conns && st'.conns[c].received == st.conns[c].received + [f] && Remembers(st, st') && Local(st, st', c)
  {
    hide Inv, TxOk, Handle, HandleConnect, Told, Replies, Receive;
    var st0 := Arrived(st, c, f);
    ReceiveGood(st, c, f, io, admit);
    if st.conns[c].phase == Connecting {
      ConnectTold(st0, c, f, admit);
      ConnectReceived(st, c, f, io, admit);
    } else {
      HandleTold(st0, c, f, io, admit);
      RepliesSent(st, c, f, io, admit);
    }
  }

  lemma ConnectReceived(st: System, c: ConnId, f: Frame, io: bool, admit: bool)
    requires c in st.conns && st.conns[c].phase == Connecting && Receive(st, c, f, io, admit).Next?
    ensures var st' := Receive(st, c, f, io, admit).st; c in st'.conns && st'.conns[c].received == st.conns[c].received + [f]
  {
    hide HandleConnect, ErrorFrame, HandleCommit, Dispatch;
    ConnectEnters(Arrived(st, c, f), c, f, admit);
  }

  lemma ReceiveHistory(st: System, c: ConnId, f: Frame, io: bool, admit: bool)
    requires Inv(st) && InLoop(st, c) && TxOk(st.conns[c].txs) && ConnHistory(st.conns[c]) && Receive(st, c, f, io, admit).Next?
    ensures var st' := Receive(st, c, f, io, admit).st; c in st'.conns && ConnHistory(st'.conns[c])
  {
    hide Inv, TxOk, Local, Remembers, Calls, TxStores.After, AfterCall, HandleConnect, HandleCommit, Dispatch, ErrorFrame;
    ReceivedGrows(st, c, f, io, admit);
    CallsMore(st.conns[c].received, f);
    var st0 := Arrived(st, c, f);
    if st.conns[c].phase == Connecting {
      ConnectEnters(st0, c, f, admit);
      assert HandleConnect(st0, c, f, admit).Done? ==> AfterCall(map[], f) == map[] by { NoCall(f); }
      assert TxStores.After(Calls([])) == map[] by { NoCalls(); }
    } else {
      HandleCalled(st0, c, f, io, admit);
      StaysRunning(st, c, f, io, admit);
    }
  }

  lemma StaysRunning(st: System, c: ConnId, f: Frame, io: bool, admit: bool)
    requires Inv(st) && InLoop(st, c) && st.conns[c].phase == Running
    ensures var h := Handle(Arrived(st, c, f), c, f, io, admit); h.Done? ==> c in h.st.conns && h.st.conns[c].phase == Running
  {
    hide Inv, Local, Handle;
    QuietInv(st, c, Arrived(st, c, f).conns[c]);
    HandleFine(Arrived(st, c, f), c, f, io, admit);
  }

  lemma NoCall(f: Frame)
    ensures CallOf(f).None? ==> AfterCall(map[], f) == map[]
  {
  }

  lemma NoCalls()
    ensures TxStores.After(Calls([])) == map[]
  {
  }

  // ---------------------------------------------------------------- every run

  ghost predicate Traced(st: System) {
    History(st) && EntersFromClients(st)
  }

  /** An event in which connection c takes no frame from its client. */
  lemma QuietHistory(st: System, st': System, c: ConnId)
    requires Traced(st) && Local(st, st', c) && st'.entered == st.entered && c in st.conns && c in st'.conns
    requires SameHistory(st.conns[c], st'.conns[c]) && st.conns[c].received <= st'.conns[c].received
    ensures Traced(st')
  {
    hide ConnHistory, Received, SameHistory;
    HistoryStays(st.conns[c], st'.conns[c]);
    HistoryMoved(st, st', c);
    EntersSame(st, st');
  }

  lemma ServeEntered(st: System)
    requires Inv(st) && Serve(st).Next?
    ensures Serve(st).st.entered == st.entered
  {
    hide Places, Serve;
    ServedKeeps(st, 0);
  }

  lemma ServeHistory(st: System)
    requires Inv(st) && Traced(st) && Serve(st).Next?
    ensures Traced(Serve(st).st)
  {
    hide Tokens, Conserved, Ordered, Serve, WaitingShrinks, Received, ConnHistory;
    ServeShrinks(st);
    ServeEntered(st);
    var st' := Serve(st).st;
    if st' != st {
      forall c | c in st'.conns ensures ConnHistory(st'.conns[c]) { HistoryStays(st.conns[c], st'.conns[c]); }
      EntersSame(st, st');
    }
  }

  lemma FlushHistory(st: System, c: ConnId)
    requires Traced(st) && c in st.conns && st.conns[c].outbox != []
    ensures Traced(Flush(st, c))
  {
    hide ConnHistory, Received;
    var st' := Flush(st, c);
    HistoryStays(st.conns[c], st'.conns[c]);
    EntersSame(st, st');
  }

  lemma AcceptHistory(st: System, c: ConnId)
    requires Traced(st) && c !in st.conns
    ensures Traced(WithConn(st, c, EMPTY_CONN))
  {
    assert ConnHistory(EMPTY_CONN);
    hide ConnHistory, Received;
    EntersSame(st, WithConn(st, c, EMPTY_CONN));
  }

  lemma ConnOnlyHistory(st: System, c: ConnId, k': Conn)
    requires Traced(st) && c in st.conns && SameHistory(st.conns[c], k') && st.conns[c].received <= k'.received
    ensures Traced(WithConn(st, c, k'))
  {
    hide Traced, Local;
    LocalConn(st, WithConn(st, c, k'), c);
    QuietHistory(st, WithConn(st, c, k'), c);
  }

  lemma DeliverHistory(st: System, c: ConnId, io: bool)
    requires Inv(st) && Traced(st) && InLoop(st, c) && st.conns[c].channel != [] && Deliver(st, c, io).Next?
    ensures Traced(Deliver(st, c, io).st)
  {
    hide Inv, Traced, Local, Stamp, NextMsgId;
    DeliverGood(st, c, io);
    ChannelOwner(st, c);
    QuietHistory(st, Deliver(st, c, io).st, c);
  }

  lemma CloseEntered(st: System, c: ConnId, id: string)
    requires c in st.conns && CloseStep(st, c, id).Next?
    ensures CloseStep(st, c, id).st.entered == st.entered
    ensures st.conns[c].phase == Connecting || st.conns[c].phase == Running ==> CloseStep(st, c, id).st == st
  {
    hide Known;
  }

  lemma CloseHistory(st: System, c: ConnId, id: string)
    requires Inv(st) && Traced(st) && c in st.conns && CloseStep(st, c, id).Next?
    ensures Traced(CloseStep(st, c, id).st)
  {
    hide Inv, Traced, Local, CloseStep;
    CloseGood(st, c, id);
    CloseEntered(st, c, id);
    var st' := CloseStep(st, c, id).st;
    AcksFromLocal(st, st', c);
    CloseQuietly(st, c, id);
    QuietHistory(st, st', c);
  }

  lemma ReceiveTraced(st: System, c: ConnId, f: Frame, io: bool, admit: bool)
    requires Inv(st) && Traced(st) && InLoop(st, c) && TxOk(st.conns[c].txs) && Receive(st, c, f, io, admit).Next?
    ensures Traced(Receive(st, c, f, io, admit).st)
  {
    hide Inv, TxOk, ConnHistory, EntersFromClients, Receive, Local, Remembers;
    ReceivedGrows(st, c, f, io, admit);
    ReceiveHistory(st, c, f, io, admit);
    ReceiveFromClients(st, c, f, io, admit);
    HistoryMoved(st, Receive(st, c, f, io, admit).st, c);
  }

  lemma StepHistory(st: System, e: Event)
    requires Good(st) && Traced(st) && Step(st, e).Next?
    ensures Traced(Step(st, e).st)
  {
    hide Inv, ClientsGood, Traced, Serve, Flush, Receive, Deliver, CloseStep, Find, Stamp, NextMsgId;
    match e
    case Accept(c) => if c !in st.conns { AcceptHistory(st, c); }
    case ServeNext => ServeHistory(st);
    case FlushNext(c) => if c in st.conns && st.conns[c].outbox != [] { FlushHistory(st, c); }
    case ReceiveFrame(c, f, io, admit) => if InLoop(st, c) { GoodTx(st, c); ReceiveTraced(st, c, f, io, admit); }
    case ReadClosed(c) => if InLoop(st, c) { ConnOnlyHistory(st, c, Exit(st, c).conns[c]); }
    case DeliverNext(c, io) => if InLoop(st, c) && st.conns[c].channel != [] { DeliverHistory(st, c, io); }
    case WriteNext(c, io) => if InLoop(st, c) && st.conns[c].writes != [] { WriteHistory(st, c, io); }
    case HeartBeat(c, io) => if InLoop(st, c) { ConnOnlyHistory(st, c, Exit(st, c).conns[c]); }
    case TopicFrame(c, f) => if c in st.conns { ConnOnlyHistory(st, c, st.conns[c].(writes := st.conns[c].writes + [f])); }
    case Close(c, id) => if c in st.conns && st.conns[c].outbox == [] { CloseHistory(st, c, id); }
  }

  lemma WriteHistory(st: System, c: ConnId, io: bool)
    requires Traced(st) && InLoop(st, c) && st.conns[c].writes != []
    ensures Traced(WriteTopicFrame(st, c, io))
  {
    hide Traced, Stamp, NextMsgId;
    var st' := WriteTopicFrame(st, c, io);
    ConnOnlyHistory(st, c, st'.conns[c]);
    assert st' == WithConn(st, c, st'.conns[c]);
  }

  lemma {:induction false} PathHistory(states: seq<System>, events: seq<Event>)
    requires Path(states, events) && Good(states[0]) && Traced(states[0])
    ensures Good(states[|events|]) && Traced(states[|events|])
    decreases |events|
  {
    hide Good, Traced, Step;
    if events != [] {
      var n := |events| - 1;
      PathPrefix(states, events);
      PathHistory(states[..n + 1], events[..n]);
      assert Step(states[n], events[n]) == Next(states[n + 1]);
      StepGood(states[n], events[n]);
      StepHistory(states[n], events[n]);
    }
  }

  lemma ReachableHistory(st: System)
    requires Reachable(st)
    ensures Traced(st)
  {
    hide Good, Traced, Step;
    StartGood();
    assert Traced(START) by { StartHistory(); }
    var states, events :| Path(states, events) && states[0] == START && states[|events|] == st;
    PathHistory(states, events);
  }

  lemma StartHistory()
    ensures Traced(START)
  {
  }

  // ---------------------------------------------------------------- main results

  /** In every run, a frame that entered a queue is a SEND that some client sent, without its receipt and transaction
      entries. */
  lemma MessagesComeFromClients(st: System, r: Ref)
    requires Reachable(st) && r in st.entered
    ensures Received(st, st.entered[r])
  {
    hide Reachable, Received, History;
    ReachableHistory(st);
  }

  /** In every run, a running connection has a transaction open exactly when its client sent a BEGIN for it that no later
      COMMIT or ABORT ended, and stores for it exactly the SEND, ACK and NACK frames the client has sent for it since, in
      order and without their receipt and transaction entries. These are what COMMIT replays. */
  lemma TransactionsAreWhatClientsSent(st: System, c: ConnId, tx: string)
    requires Reachable(st) && c in st.conns && st.conns[c].phase == Running
    ensures TxStores.Follows(st.conns[c].txs, Calls(st.conns[c].received), tx)
  {
    hide Reachable, EntersFromClients, TxStores.Do, CallOf, TxStores.Follows;
    ReachableHistory(st);
    assert ConnHistory(st.conns[c]);
    TxStores.StoreIsHistory(Calls(st.conns[c].received), tx);
  }
}
