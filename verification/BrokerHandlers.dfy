/** What a connection does with each frame of its client: exactly when it goes on, and exactly what a frame that is accepted
    causes, entry by entry. */
module BrokerHandlers {
  import opened Text
  import opened Frames
  import opened Sequences
  import opened Broker
  import opened BrokerTokens
  import opened BrokerConservation
  import opened BrokerCleanup
  import opened BrokerRuns
  import opened BrokerAnswers
  import opened BrokerAcks
  import opened BrokerClients
  import opened BrokerTheorems

  // ---------------------------------------------------------------- when a frame is accepted

  /** The message id of an ACK or NACK is n: its ack entry, or else its message-id entry, read as a 64-bit number. */
  predicate Names(f: Frame, n: nat) {
    match Find(f.header, "ack")
    case Some(t) => ParseUint(t, 18446744073709551615) == Some(n)
    case None =>
      match Find(f.header, "message-id")
      case Some(t) => ParseUint(t, 18446744073709551615) == Some(n)
      case None => false
  }

  /** The transaction that the frame names, if any, is open. */
  predicate TxOpen(k: Conn, f: Frame) {
    match Find(f.header, "transaction")
    case Some(tx) => tx in k.txs
    case None => true
  }

  /** A connection that is up accepts f; io says whether a RECEIPT can be written. */
  ghost predicate Accepts(k: Conn, f: Frame, io: bool) {
    var id, tx := Find(f.header, "id"), Find(f.header, "transaction");
    var told := Find(f.header, "receipt").None? || io;
    || f.command == "DISCONNECT"
    || (f.command == "SUBSCRIBE" && id.Some? && Find(f.header, "destination").Some? && id.value !in k.subs)
    || (f.command == "UNSUBSCRIBE" && id.Some? && id.value in k.subs)
    || (f.command == "BEGIN" && told && tx.Some? && tx.value !in k.txs)
    || ((f.command == "COMMIT" || f.command == "ABORT") && told && tx.Some? && tx.value in k.txs)
    || (f.command == "SEND" && told && TxOpen(k, f))
    || ((f.command == "ACK" || f.command == "NACK") && told && TxOpen(k, f) && exists n :: Names(f, n))
  }

  // ---------------------------------------------------------------- what it causes

  /** Connection c has one subscription more, made from the entries of f, and asks the processor for its first message. */
  predicate Subscribed(st: System, st': System, c: ConnId, f: Frame, s: SubId) {
    && c in st.conns && c in st'.conns && s !in st.subs && s in st'.subs && st'.subs == st.subs[s := st'.subs[s]]
    && st'.subs[s].conn == c && st'.subs[s].frame.None? && !st'.subs[s].listed && st'.subs[s].msgId == 0
    && Find(f.header, "destination") == Some(st'.subs[s].dest) && Find(f.header, "id") == Some(st'.subs[s].id)
    && st'.subs[s].ack == (match Find(f.header, "ack") case Some(a) => a case None => "auto")
    && st'.conns[c].subs == st.conns[c].subs[st'.subs[s].id := s]
    && st'.conns[c].outbox == st.conns[c].outbox + [Subscribe(s)]
  }

  /** Its id is free again, and the processor is told. */
  predicate Unsubscribed(st: System, st': System, c: ConnId, f: Frame) {
    && c in st.conns && c in st'.conns && Find(f.header, "id").Some?
    && var id := Find(f.header, "id").value;
       id in st.conns[c].subs && st'.conns[c].subs == st.conns[c].subs - {id} && st'.subs == st.subs
       && st'.conns[c].outbox == st.conns[c].outbox + [Unsubscribe(st.conns[c].subs[id])]
  }

  /** The frame, as a MESSAGE without its receipt entry, goes to the processor. */
  predicate Submitted(st: System, st': System, c: ConnId, f: Frame) {
    && c in st.conns && c in st'.conns && st'.nextRef == st.nextRef + 1 && st'.subs == st.subs
    && st'.conns[c].outbox == st.conns[c].outbox + [Enqueue(Msg(st.nextRef, Frame("MESSAGE", Drop(f.header, "receipt"), f.body)))]
  }

  /** The pending subscriptions that n matches leave the list and go back to their queues, a NACK giving their frames back
      first. */
  predicate Settled(st: System, st': System, c: ConnId, nack: bool, n: nat)
    requires PendingOk(st, c)
  {
    && c in st'.conns
    && st'.conns[c].pending == Unmatched(st.subs, st.conns[c].pending, n, nack)
    && st'.conns[c].outbox == st.conns[c].outbox + SettleOps(st.subs, st.conns[c].pending, n, nack)
  }

  /** No request, no subscription, no pending entry: at most the transactions and what was written have changed. */
  predicate Still(st: System, st': System, c: ConnId) {
    && c in st.conns && c in st'.conns && st'.subs == st.subs && st'.nextRef == st.nextRef
    && st'.conns[c].subs == st.conns[c].subs && st'.conns[c].pending == st.conns[c].pending
    && st'.conns[c].channel == st.conns[c].channel && st'.conns[c].outbox == st.conns[c].outbox
  }

  /** What a frame that is accepted causes. COMMIT is the subject of CommitsAreAtomic. */
  ghost predicate Effect(st: System, st': System, c: ConnId, f: Frame)
    requires PendingOk(st, c)
  {
    var alone := Find(f.header, "transaction").None?;
    if f.command == "SUBSCRIBE" then exists s :: Subscribed(st, st', c, f, s)
    else if f.command == "UNSUBSCRIBE" then Unsubscribed(st, st', c, f)
    else if f.command == "SEND" && alone then Submitted(st, st', c, f)
    else if (f.command == "ACK" || f.command == "NACK") && alone then
      exists n :: Names(f, n) && Settled(st, st', c, f.command == "NACK", n)
    else if f.command == "COMMIT" then true
    else Still(st, st', c)
  }

  /** The connection is in the same phase, and what is on its way to it is as it was. */
  predicate Inbound(k: Conn, k': Conn) {
    k'.phase == k.phase && k'.channel == k.channel && k'.writes == k.writes
  }

  /** The handler went on exactly when f is accepted, and did what f asks for; otherwise it did nothing. */
  ghost predicate Right(st: System, h: Handled, c: ConnId, f: Frame, io: bool)
    requires PendingOk(st, c)
  {
    match h
    case Done(st') => Accepts(st.conns[c], f, io) && c in st'.conns && Inbound(st.conns[c], st'.conns[c]) && Effect(st, st', c, f)
    case Failed(st', _, _) => !Accepts(st.conns[c], f, io) && Still(st, st', c)
    case Crashed(_) => true
  }

  // ---------------------------------------------------------------- one command after the other

  lemma SubscribeDoes(st: System, c: ConnId, f: Frame, io: bool)
    requires c in st.conns && st.nextSub !in st.subs && f.command == "SUBSCRIBE"
    ensures match HandleSubscribe(st, c, f)
            case Done(st') => Accepts(st.conns[c], f, io) && Subscribed(st, st', c, f, st.nextSub) && Inbound(st.conns[c], st'.conns[c])
            case Failed(st', _, _) => !Accepts(st.conns[c], f, io) && Still(st, st', c)
            case Crashed(_) => false
  {
    hide Find;
  }

  lemma SubscribeRight(st: System, c: ConnId, f: Frame, io: bool)
    requires PendingOk(st, c) && st.nextSub !in st.subs && f.command == "SUBSCRIBE"
    ensures Right(st, HandleSubscribe(st, c, f), c, f, io)
  {
    SubscribeDoes(st, c, f, io);
    hide Find, PendingOk, HandleSubscribe, Subscribed, Still;
    assert c in st.conns by { PendingHasConn(st, c); }
  }

  lemma UnsubscribeRight(st: System, c: ConnId, f: Frame, io: bool)
    requires PendingOk(st, c) && f.command == "UNSUBSCRIBE"
    ensures Right(st, HandleUnsubscribe(st, c, f), c, f, io)
  {
    hide Find;
  }

  lemma ReceiptStill(st: System, c: ConnId, f: Frame)
    requires c in st.conns
    ensures Still(st, Receipt(st, c, f), c) && Inbound(st.conns[c], Receipt(st, c, f).conns[c])
    ensures Receipt(st, c, f).conns[c].txs == st.conns[c].txs && Receipt(st, c, f).conns.Keys == st.conns.Keys
  {
  }

  lemma StripKeeps(f: Frame)
    ensures Find(StripReceipt(f).header, "transaction") == Find(f.header, "transaction")
  {
    FindAfterDrop(f.header, "receipt", "transaction");
  }

  lemma TxRight(st: System, c: ConnId, f: Frame, io: bool)
    requires PendingOk(st, c) && (f.command == "BEGIN" || f.command == "ABORT")
    ensures Right(st, HandleTx(st, c, f, io), c, f, io)
  {
    hide Find, Receipt, StripReceipt;
    ReceiptStill(st, c, f);
  }

  lemma AddStill(st: System, c: ConnId, tx: string, f: Frame)
    requires c in st.conns
    ensures match AddToTx(st, c, tx, f)
            case Done(st') => tx in st.conns[c].txs && Still(st, st', c) && Inbound(st.conns[c], st'.conns[c])
            case Failed(st', _, _) => tx !in st.conns[c].txs && Still(st, st', c)
            case Crashed(_) => false
  {
    hide Drop;
  }

  lemma StillTrans(st: System, st': System, st'': System, c: ConnId)
    requires Still(st, st', c) && Still(st', st'', c)
    ensures Still(st, st'', c)
  {
  }

  lemma SendRight(st: System, c: ConnId, f: Frame, io: bool)
    requires PendingOk(st, c) && f.command == "SEND"
    ensures Right(st, Dispatch(st, c, f, io), c, f, io)
  {
    PendingHasConn(st, c);
    hide Find, Receipt, StripReceipt, AddToTx, Submit, Submitted, PendingOk, Still;
    ReceiptStill(st, c, f);
    StripKeeps(f);
    var st' := Receipt(st, c, f);
    SameTxs(st, st', c, f);
    match Find(f.header, "transaction")
    case Some(tx) =>
      AddStill(st', c, tx, StripReceipt(f));
      var h := AddToTx(st', c, tx, StripReceipt(f));
      if !h.Crashed? { StillTrans(st, st', h.st, c); }
    case None => SubmitDoes(st, st', c, f);
  }

  lemma SameTxs(st: System, st': System, c: ConnId, f: Frame)
    requires c in st.conns && c in st'.conns && st'.conns[c].txs == st.conns[c].txs
    ensures TxOpen(st'.conns[c], f) <==> TxOpen(st.conns[c], f)
  {
  }

  lemma SubmitDoes(st: System, st': System, c: ConnId, f: Frame)
    requires c in st.conns && Still(st, st', c)
    ensures c in st'.conns && c in Submit(st', c, StripReceipt(f)).conns && Submitted(st, Submit(st', c, StripReceipt(f)), c, f)
    ensures Inbound(st'.conns[c], Submit(st', c, StripReceipt(f)).conns[c])
  {
    hide Drop, IsQueueFrame;
  }

  lemma NamesIff(f: Frame)
    ensures (exists n :: Names(f, n)) <==> AckId(f).Some? && ParseUint(AckId(f).value, UINT64_LIMIT - 1).Some?
    ensures AckId(f).Some? && ParseUint(AckId(f).value, UINT64_LIMIT - 1).Some? ==> Names(f, ParseUint(AckId(f).value, UINT64_LIMIT - 1).value)
  {
    hide Find, ParseUint;
    if AckId(f).Some? && ParseUint(AckId(f).value, UINT64_LIMIT - 1).Some? {
      assert Names(f, ParseUint(AckId(f).value, UINT64_LIMIT - 1).value);
    }
  }

  lemma AckRight(st: System, c: ConnId, f: Frame, io: bool)
    requires PendingOk(st, c) && (f.command == "ACK" || f.command == "NACK")
    ensures Right(st, Dispatch(st, c, f, io), c, f, io)
  {
    PendingHasConn(st, c);
    NamesIff(f);
    StillRefl(st, c);
    ReceiptStill(st, c, f);
    hide Find, Receipt, StripReceipt, PendingOk, Still, AckId, ParseUint, Names, AfterReceipt, Right, ReceiptFails;
    if AckId(f).None? || ParseUint(AckId(f).value, UINT64_LIMIT - 1).None? || ReceiptFails(f, io) {
      AckRefused(st, c, f, io);
    } else {
      var n := ParseUint(AckId(f).value, UINT64_LIMIT - 1).value;
      AfterReceiptRight(st, c, f, io, n);
      assert Dispatch(st, c, f, io) == AfterReceipt(st, c, f, n) by { StripKeeps(f); AckDispatch(st, c, f, io); }
    }
  }

  /** handleAck and handleNack, after the receipt. */
  function AfterReceipt(st: System, c: ConnId, f: Frame, n: nat): Handled
    requires c in st.conns
  {
    ReceiptStill(st, c, f);
    match Find(f.header, "transaction")
    case Some(tx) => AddToTx(Receipt(st, c, f), c, tx, StripReceipt(f))
    case None => Settle(Receipt(st, c, f), c, n, 0, f.command == "NACK")
  }

  lemma AckDispatch(st: System, c: ConnId, f: Frame, io: bool)
    requires c in st.conns && (f.command == "ACK" || f.command == "NACK") && Find(StripReceipt(f).header, "transaction") == Find(f.header, "transaction")
    requires AckId(f).Some? && ParseUint(AckId(f).value, UINT64_LIMIT - 1).Some? && !ReceiptFails(f, io)
    ensures Dispatch(st, c, f, io) == AfterReceipt(st, c, f, ParseUint(AckId(f).value, UINT64_LIMIT - 1).value)
  {
    hide Find, Receipt, StripReceipt, AddToTx, Settle, AckId, ParseUint;
  }

  lemma AckRefused(st: System, c: ConnId, f: Frame, io: bool)
    requires PendingOk(st, c) && (f.command == "ACK" || f.command == "NACK")
    requires AckId(f).None? || ParseUint(AckId(f).value, UINT64_LIMIT - 1).None? || ReceiptFails(f, io)
    ensures Right(st, Dispatch(st, c, f, io), c, f, io)
  {
    PendingHasConn(st, c);
    NamesIff(f);
    StillRefl(st, c);
    ReceiptStill(st, c, f);
    hide Find, Receipt, StripReceipt, AddToTx, Settle, PendingOk, Still, AckId, ParseUint, Names, Effect;
  }

  lemma AfterReceiptRight(st: System, c: ConnId, f: Frame, io: bool, n: nat)
    requires PendingOk(st, c) && (f.command == "ACK" || f.command == "NACK") && Names(f, n) && !ReceiptFails(f, io)
    ensures c in st.conns && Right(st, AfterReceipt(st, c, f, n), c, f, io)
  {
    PendingHasConn(st, c);
    hide Find, Receipt, StripReceipt, AddToTx, Settle, Settled, PendingOk, Still, Names;
    ReceiptStill(st, c, f);
    var st' := Receipt(st, c, f);
    match Find(f.header, "transaction")
    case Some(tx) =>
      AddStill(st', c, tx, StripReceipt(f));
      var h := AddToTx(st', c, tx, StripReceipt(f));
      if !h.Crashed? { StillTrans(st, st', h.st, c); }
    case None => SettleDoes(st, st', c, n, f.command == "NACK");
  }

  lemma StillRefl(st: System, c: ConnId)
    requires c in st.conns
    ensures Still(st, st, c)
  {
  }

  predicate SettledBy(st: System, h: Handled, c: ConnId, n: nat, nack: bool, k: Conn)
    requires PendingOk(st, c)
  {
    (h.Done? ==> Settled(st, h.st, c, nack, n) && Inbound(k, h.st.conns[c])) && !h.Failed?
  }

  lemma SettleDoes(st: System, st': System, c: ConnId, n: nat, nack: bool)
    requires PendingOk(st, c) && Still(st, st', c) && st'.conns.Keys == st.conns.Keys
    ensures SettledBy(st, Settle(st', c, n, 0, nack), c, n, nack, st'.conns[c])
  {
    StillPending(st, st', c);
    hide PendingOk, Settle, Unmatched, SettleOps, SameAcks;
    SettleSilent(st', c, n, 0, nack);
    SettleSplits(st', c, n, 0, nack);
    var q := st'.conns[c].pending;
    assert q[0..] == q && q[..0] == [] && [] + Unmatched(st.subs, q, n, nack) == Unmatched(st.subs, q, n, nack);
  }

  lemma StillPending(st: System, st': System, c: ConnId)
    requires PendingOk(st, c) && Still(st, st', c) && st'.conns.Keys == st.conns.Keys
    ensures PendingOk(st', c)
  {
  }

  lemma OtherRight(st: System, c: ConnId, f: Frame, io: bool)
    requires PendingOk(st, c) && f.command !in {"SUBSCRIBE", "UNSUBSCRIBE", "SEND", "ACK", "NACK", "BEGIN", "ABORT", "COMMIT"}
    ensures Right(st, Dispatch(st, c, f, io), c, f, io)
  {
    PendingHasConn(st, c);
    hide Find, Receipt, PendingOk, Still, HandleTx, HandleAck, HandleSubscribe, HandleUnsubscribe, SendBody, ReceiptFails, Names, TxOpen;
    ReceiptStill(st, c, f);
    StillRefl(st, c);
  }

  lemma DispatchRight(st: System, c: ConnId, f: Frame, io: bool)
    requires PendingOk(st, c) && st.nextSub !in st.subs && f.command != "COMMIT"
    ensures c in st.conns && Right(st, Dispatch(st, c, f, io), c, f, io)
  {
    PendingHasConn(st, c);
    hide PendingOk, Right, HandleTx, HandleAck, HandleSubscribe, HandleUnsubscribe, SendBody, Receipt, ReceiptFails;
    if f.command == "SUBSCRIBE" {
      SubscribeRight(st, c, f, io);
    } else if f.command == "UNSUBSCRIBE" {
      UnsubscribeRight(st, c, f, io);
    } else if f.command == "SEND" {
      SendRight(st, c, f, io);
    } else if f.command == "ACK" || f.command == "NACK" {
      AckRight(st, c, f, io);
    } else if f.command == "BEGIN" || f.command == "ABORT" {
      TxRight(st, c, f, io);
    } else {
      OtherRight(st, c, f, io);
    }
  }

  lemma CommitRight(st: System, c: ConnId, f: Frame, io: bool)
    requires PendingOk(st, c) && f.command == "COMMIT" && TxOk(st.conns[c].txs)
    ensures c in st.conns && Right(st, HandleCommit(st, c, f, io), c, f, io)
  {
    PendingHasConn(st, c);
    hide Find, Replay, Receipt, StripReceipt, PendingOk, Still, TxOk, Enqueued, Sends;
    ReceiptStill(st, c, f);
    var tx := Find(f.header, "transaction");
    StillRefl(st, c);
    if tx.Some? && tx.value in st.conns[c].txs && !ReceiptFails(f, io) {
      hide HandleCommit;
      CommitAllOrNothing(st, c, f, io, tx.value);
      CommitInbound(st, c, f, io, tx.value);
    }
  }

  lemma CommitInbound(st: System, c: ConnId, f: Frame, io: bool, tx: string)
    requires c in st.conns && TxOk(st.conns[c].txs) && f.command == "COMMIT"
    requires Find(f.header, "transaction") == Some(tx) && tx in st.conns[c].txs && !ReceiptFails(f, io)
    ensures HandleCommit(st, c, f, io).Done? ==>
              c in HandleCommit(st, c, f, io).st.conns && Inbound(st.conns[c], HandleCommit(st, c, f, io).st.conns[c])
  {
    hide Find, Replay, StripReceipt, Enqueued, Sends, Replayable;
    ReceiptStill(st, c, f);
    hide Receipt;
    var st' := Receipt(st, c, f);
    ReplayAll(st', c, st.conns[c].txs[tx], io);
  }

  // ---------------------------------------------------------------- the whole event

  /** The connection is on its way down after f: an ERROR was the last frame written, and nothing is requested. */
  predicate Refused(st: System, st': System, c: ConnId) {
    && c in st'.conns && Still(st, st', c) && st'.conns[c].phase == Unsubscribing
    && st'.conns[c].txs == map[] && st'.conns[c].writes == []
    && st'.conns[c].sent != [] && st'.conns[c].sent[|st'.conns[c].sent| - 1].via.None?
    && st'.conns[c].sent[|st'.conns[c].sent| - 1].frame.command == "ERROR"
    && Find(st'.conns[c].sent[|st'.conns[c].sent| - 1].frame.header, "message").Some?
  }

  lemma ArrivedPending(st: System, c: ConnId, f: Frame)
    requires PendingOk(st, c)
    ensures PendingOk(Arrived(st, c, f), c)
  {
  }

  lemma ExitRefuses(st: System, st': System, c: ConnId, f: Frame, err: string)
    requires c in st.conns && Still(st, st', c)
    ensures c in st'.conns && Refused(st, Exit(Write(st', c, ErrorFrame(f, err)), c), c)
  {
    ErrorSaysWhy(f, err);
    hide Find, ErrorFrame;
  }

  lemma ErrorSaysWhy(f: Frame, err: string)
    ensures ErrorFrame(f, err).command == "ERROR" && Find(ErrorFrame(f, err).header, "message") == Some(err)
  {
  }

  lemma ArrivedEffect(st: System, st': System, c: ConnId, f: Frame)
    requires PendingOk(st, c) && PendingOk(Arrived(st, c, f), c) && Effect(Arrived(st, c, f), st', c, f)
    ensures Effect(st, st', c, f)
  {
    PendingHasConn(st, c);
    hide Find, PendingOk, Names, Unmatched, SettleOps;
    var st0 := Arrived(st, c, f);
    if f.command == "SUBSCRIBE" {
      var s :| Subscribed(st0, st', c, f, s);
      assert Subscribed(st, st', c, f, s);
    } else if (f.command == "ACK" || f.command == "NACK") && Find(f.header, "transaction").None? {
      var n :| Names(f, n) && Settled(st0, st', c, f.command == "NACK", n);
      assert Settled(st, st', c, f.command == "NACK", n);
    }
  }

  lemma ArrivedStill(st: System, st': System, c: ConnId, f: Frame)
    requires c in st.conns && Still(Arrived(st, c, f), st', c)
    ensures Still(st, st', c)
  {
  }

  lemma ArrivedAccepts(k: Conn, k': Conn, f: Frame, io: bool)
    requires k'.subs == k.subs && k'.txs == k.txs
    ensures Accepts(k', f, io) <==> Accepts(k, f, io)
  {
    hide Find, Names;
  }

  /** In every run, a connection that is up stays up after a frame exactly when it accepts it, and then does exactly what
      the frame asks for; any other frame is answered with an ERROR, and the connection goes down without a request. */
  lemma FramesHandled(st: System, c: ConnId, f: Frame, io: bool, admit: bool)
    requires Reachable(st) && InLoop(st, c) && st.conns[c].phase == Running && Receive(st, c, f, io, admit).Next?
    ensures PendingOk(st, c) && c in Receive(st, c, f, io, admit).st.conns
    ensures var st' := Receive(st, c, f, io, admit).st;
            if Accepts(st.conns[c], f, io) then Inbound(st.conns[c], st'.conns[c]) && Effect(st, st', c, f) else Refused(st, st', c)
  {
    hide Reachable, Inv, ClientsGood, Accepts, Effect, Handle, PendingOk, Still, ErrorFrame, TxOk, Refused;
    ReachableGood(st);
    GoodPending(st, c);
    GoodTx(st, c);
    NextSubIsNew(st);
    var st0 := Arrived(st, c, f);
    ArrivedPending(st, c, f);
    assert Right(st0, Handle(st0, c, f, io, admit), c, f, io) by { HandleRight(st0, c, f, io, admit); }
    ArrivedAccepts(st.conns[c], st0.conns[c], f, io);
    match Handle(st0, c, f, io, admit)
    case Done(st') => ArrivedEffect(st, st', c, f);
    case Failed(st', f', err) =>
      ArrivedStill(st, st', c, f);
      ExitRefuses(st, st', c, f', err);
    case Crashed(_) =>
  }

  lemma HandleRight(st: System, c: ConnId, f: Frame, io: bool, admit: bool)
    requires PendingOk(st, c) && st.nextSub !in st.subs && TxOk(st.conns[c].txs) && st.conns[c].phase == Running
    ensures Right(st, Handle(st, c, f, io, admit), c, f, io)
  {
    hide PendingOk, Right, Dispatch, HandleCommit, TxOk;
    PendingHasConn(st, c);
    if f.command == "COMMIT" { CommitRight(st, c, f, io); } else { DispatchRight(st, c, f, io); }
  }

  lemma GoodPending(st: System, c: ConnId)
    requires Good(st) && c in st.conns
    ensures PendingOk(st, c)
  {
    hide Tokens, Conserved, Ordered, ClientsGood, PendingOk;
    TokensPending(st, c);
  }

  /** In any state in which it is up, a connection makes of a SUBSCRIBE with a destination and a new id exactly one
      subscription: for that destination, under that id, and in the mode of the ack entry, or automatic if there is none. */
  lemma SubscribeMakes(st: System, c: ConnId, f: Frame, io: bool, admit: bool)
    requires InLoop(st, c) && st.conns[c].phase == Running && st.nextSub !in st.subs && f.command == "SUBSCRIBE"
    requires Find(f.header, "destination").Some? && Find(f.header, "id").Some? && Find(f.header, "id").value !in st.conns[c].subs
    ensures Receive(st, c, f, io, admit).Next? && Subscribed(st, Receive(st, c, f, io, admit).st, c, f, st.nextSub)
    ensures Receive(st, c, f, io, admit).st.conns[c].phase == Running
  {
    var st0 := Arrived(st, c, f);
    SubscribeDoes(st0, c, f, true);
    hide Find, HandleSubscribe;
  }

  // ---------------------------------------------------------------- what is written

  /** The RECEIPT that f asks for, if it asks for one. */
  predicate IsReceiptFor(out: seq<Sent>, f: Frame) {
    match Find(f.header, "receipt")
    case Some(r) => out == [Sent(Frame("RECEIPT", [Entry("receipt-id", r)], ""), None)]
    case None => out == []
  }

  /** One ERROR without a body; it names a receipt only if this is the one that f asks for and it has not been written. */
  predicate IsErrorFor(out: seq<Sent>, f: Frame, told: bool) {
    && |out| == 1 && out[0].via.None? && out[0].frame.command == "ERROR" && out[0].frame.body == ""
    && Find(out[0].frame.header, "message").Some?
    && Find(out[0].frame.header, "receipt-id") == (if told then None else Find(f.header, "receipt"))
  }

  predicate AnsweredBy(told: seq<Sent>, error: seq<Sent>, f: Frame, accepted: bool) {
    if accepted then
      error == [] && if f.command == "SUBSCRIBE" || f.command == "UNSUBSCRIBE" then told == [] else IsReceiptFor(told, f)
    else
      (told == [] && IsErrorFor(error, f, false)) || (IsReceiptFor(told, f) && IsErrorFor(error, f, true))
  }

  /** In every run, what a connection that is up writes for a frame: for one that it accepts the RECEIPT that was asked for, and
      nothing for a SUBSCRIBE or UNSUBSCRIBE; for any other an ERROR, after the RECEIPT or in place of it. */
  lemma FramesAnswered(st: System, c: ConnId, f: Frame, io: bool, admit: bool)
    requires Reachable(st) && InLoop(st, c) && st.conns[c].phase == Running && Receive(st, c, f, io, admit).Next?
    ensures c in Receive(st, c, f, io, admit).st.conns
    ensures exists told, error :: Receive(st, c, f, io, admit).st.conns[c].sent == st.conns[c].sent + told + error
                                  && AnsweredBy(told, error, f, Accepts(st.conns[c], f, io))
  {
    hide Reachable, Inv, ClientsGood, Accepts, Effect, Handle, PendingOk, Still, ErrorFrame, TxOk, Told, Replies, Receive;
    ReachableGood(st);
    GoodPending(st, c);
    GoodTx(st, c);
    NextSubIsNew(st);
    var st0 := Arrived(st, c, f);
    ArrivedPending(st, c, f);
    assert Right(st0, Handle(st0, c, f, io, admit), c, f, io) by { HandleRight(st0, c, f, io, admit); }
    ArrivedAccepts(st.conns[c], st0.conns[c], f, io);
    HandleTold(st0, c, f, io, admit);
    RepliesSent(st, c, f, io, admit);
    var told, error := RepliesAre(st0.conns[c], Handle(st0, c, f, io, admit), c, f);
    assert st.conns[c].sent + (told + error) == st.conns[c].sent + told + error;
    assert AnsweredBy(told, error, f, Accepts(st.conns[c], f, io));
  }

  lemma RepliesAre(k: Conn, h: Handled, c: ConnId, f: Frame) returns (told: seq<Sent>, error: seq<Sent>)
    requires Told(k, h, c, f) && !h.Crashed?
    ensures Replies(k, h, c, f) == told + error
    ensures AnsweredBy(told, error, f, h.Done?)
  {
    match h
    case Done(_) => told, error := Replies(k, h, c, f), [];
    case Failed(st', f', err) =>
      ErrorIs(f', err);
      hide ErrorFrame, Find, TxOk;
      error := [Sent(ErrorFrame(f', err), None)];
      told := if c in st'.conns && st'.conns[c].sent == k.sent then [] else ReceiptFor(f);
      ReceiptForIs(f);
  }

  lemma ReceiptForIs(f: Frame)
    ensures IsReceiptFor(ReceiptFor(f), f)
  {
  }

  lemma ErrorIs(f: Frame, err: string)
    ensures ErrorFrame(f, err).command == "ERROR" && ErrorFrame(f, err).body == "" && Find(ErrorFrame(f, err).header, "message").Some?
    ensures Find(ErrorFrame(f, err).header, "receipt-id") == Find(f.header, "receipt")
  {
  }

  // ---------------------------------------------------------------- the first frame

  /** A connection comes up with its first frame exactly when that is a CONNECT or STOMP without receipt that the server
      admits: CONNECTED is written, and the processor is told. Otherwise it is answered with an ERROR and goes down. */
  lemma ConnectHandled(st: System, c: ConnId, f: Frame, io: bool, admit: bool)
    requires InLoop(st, c) && st.conns[c].phase == Connecting
    ensures Receive(st, c, f, io, admit).Next? && c in Receive(st, c, f, io, admit).st.conns
    ensures var k, st' := st.conns[c], Receive(st, c, f, io, admit).st;
            if (f.command == "CONNECT" || f.command == "STOMP") && Find(f.header, "receipt").None? && admit then
              && st'.conns[c].phase == Running && st'.conns[c].outbox == [Connected] && st'.subs == st.subs
              && |st'.conns[c].sent| == |k.sent| + 1 && st'.conns[c].sent[|k.sent|].frame.command == "CONNECTED"
              && st'.conns[c].channel == k.channel && st'.conns[c].writes == k.writes && st'.conns[c].pending == k.pending
            else Refused(st, st', c)
  {
    hide Find, Refused;
    var st0 := Arrived(st, c, f);
    StillRefl(st0, c);
    ArrivedStill(st, st0, c, f);
    match HandleConnect(st0, c, f, admit)
    case Failed(st', f', err) => ExitRefuses(st, st0, c, f', err);
    case _ =>
  }
}
