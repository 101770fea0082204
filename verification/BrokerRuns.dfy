/** The theorems about every run of the broker. Handlers are followed once, with the invariant as a
    black box; the lemmas above it say that each elementary change keeps the invariant. */
module BrokerRuns {
  import opened Text
  import opened Frames
  import opened Broker
  import opened BrokerTokens
  import opened BrokerFrames
  import opened BrokerConservation
  import opened BrokerCleanup

  ghost predicate Conserved(st: System) {
    FramesOk(st) && forall r: Ref :: Places(st, r) == One(r in st.entered)
  }

  ghost predicate Inv(st: System) {
    Tokens(st) && Conserved(st) && Ordered(st)
  }

  // ---------------------------------------------------------------- elementary changes

  lemma ConservedByKept(st: System, st': System)
    requires Conserved(st) && forall r: Ref :: Kept(st, Next(st'), r)
    ensures Conserved(st')
  {
    hide FramesOk, Places;
    assert Kept(st, Next(st'), 0);
    forall r: Ref ensures Places(st', r) == One(r in st'.entered) {
      assert Kept(st, Next(st'), r);
    }
  }

  /** Changes to a connection that name no subscription and no queue frame. */
  lemma QuietInv(st: System, c: ConnId, k': Conn)
    requires Inv(st) && c in st.conns && SameTokens(st.conns[c], k') && k'.dropped == st.conns[c].dropped
    requires k'.sent == st.conns[c].sent || exists f :: k'.sent == st.conns[c].sent + [Sent(f, None)]
    requires (Early(k'.phase) ==> Early(st.conns[c].phase)) && (!Early(k'.phase) ==> k'.subs == map[])
    ensures Inv(WithConn(st, c, k'))
  {
    hide Tokens, Ordered, FramesOk, Kept, OpOk;
    QuietTokens(st, c, k');
    QuietOrdered(st, c, k');
    SentQuietly(st, c, k');
    forall r: Ref ensures Kept(st, Next(WithConn(st, c, k')), r) { QuietKeeps(st, c, k', r); }
    ConservedByKept(st, WithConn(st, c, k'));
  }

  lemma SentQuietly(st: System, c: ConnId, k': Conn)
    requires FramesOk(st) && c in st.conns && k'.outbox == st.conns[c].outbox
    requires k'.sent == st.conns[c].sent || exists f :: k'.sent == st.conns[c].sent + [Sent(f, None)]
    ensures ConnFrames(st.entered, k')
  {
    assert ConnFrames(st.entered, st.conns[c]);
    hide OpOk, FramesOk;
  }

  lemma EmitInv(st: System, c: ConnId, op: Op)
    requires Inv(st) && c in st.conns && (op == Connected || (op == Disconnected && !Early(st.conns[c].phase)))
    requires !Early(st.conns[c].phase) ==> st.conns[c].subs == map[]
    ensures Inv(Emit(st, c, op))
  {
    hide Tokens, Ordered, FramesOk, Places;
    EmitTokens(st, c, op);
    EmitOrdered(st, c, op);
    EmitKeeps(st, c, op, 0);
    forall r: Ref ensures Places(Emit(st, c, op), r) == Places(st, r) { EmitKeeps(st, c, op, r); }
  }

  lemma SubmitInv(st: System, c: ConnId, f: Frame)
    requires Inv(st) && c in st.conns && Early(st.conns[c].phase)
    ensures Inv(Submit(st, c, f))
  {
    hide Tokens, Ordered, FramesOk, Places, IsQueueFrame;
    SubmitTokens(st, c, f);
    SubmitOrdered(st, c, f);
    SubmitKeeps(st, c, f, 0);
    forall r: Ref ensures Places(Submit(st, c, f), r) == One(r in Submit(st, c, f).entered) { SubmitKeeps(st, c, f, r); }
  }

  lemma SubmitOrdered(st: System, c: ConnId, f: Frame)
    requires Ordered(st) && c in st.conns && Early(st.conns[c].phase)
    ensures Ordered(Submit(st, c, f))
  {
    hide Ordered, IsQueueFrame;
    ActedOrdered(st, Submit(st, c, f), c, [Enqueue(Msg(st.nextRef, f.(command := "MESSAGE")))]);
  }

  lemma NewSubInv(st: System, c: ConnId, id: string, dest: string, ack: string)
    requires Inv(st) && c in st.conns && id !in st.conns[c].subs && st.conns[c].phase == Running
    ensures Inv(NewSub(st, c, id, dest, ack))
  {
    hide Tokens, Ordered, FramesOk, Kept, NewSub;
    NewSubIsNew(st);
    NewSubTokens(st, c, id, dest, ack);
    NewSubOrdered(st, c, id, dest, ack);
    forall r: Ref ensures Kept(st, Next(NewSub(st, c, id, dest, ack)), r) { NewSubKeeps(st, c, id, dest, ack, r); }
    ConservedByKept(st, NewSub(st, c, id, dest, ack));
  }

  lemma NewSubIsNew(st: System)
    requires Tokens(st)
    ensures st.nextSub !in st.subs
  {
  }

  lemma EndSubInv(st: System, c: ConnId, id: string)
    requires Inv(st) && c in st.conns && id in st.conns[c].subs && Early(st.conns[c].phase)
    ensures Inv(EndSub(st, c, id))
  {
    hide Tokens, Ordered, FramesOk, Kept, EndSub;
    EndSubTokens(st, c, id);
    EndSubOrdered(st, c, id);
    forall r: Ref ensures Kept(st, Next(EndSub(st, c, id)), r) { EndSubKeeps(st, c, id, r); }
    ConservedByKept(st, EndSub(st, c, id));
  }

  lemma SettleAtInv(st: System, c: ConnId, i: nat, requeue: bool)
    requires Inv(st) && c in st.conns && i < |st.conns[c].pending| && st.conns[c].phase == Running
    ensures Known(st, st.conns[c].pending[i]) && st.subs[st.conns[c].pending[i]].frame.Some?
    ensures Inv(SettleAt(st, c, i, requeue))
  {
    hide Tokens, Ordered, FramesOk, Kept, SettleAt;
    PendingFacts(st, c, i);
    SettleAtTokens(st, c, i, requeue);
    SettleAtOrdered(st, c, i, requeue);
    forall r: Ref ensures Kept(st, Next(SettleAt(st, c, i, requeue)), r) { SettleAtKeeps(st, c, i, requeue, r); }
    ConservedByKept(st, SettleAt(st, c, i, requeue));
  }

  lemma DeliverInv(st: System, c: ConnId, io: bool)
    requires Inv(st) && c in st.conns && st.conns[c].channel != [] && Early(st.conns[c].phase)
    ensures match Deliver(st, c, io)
            case Next(st') => Inv(st')
            case Crash(why) => why.AlreadyListed? && why.s in st.matched
  {
    hide Tokens, Ordered, FramesOk, Kept, Deliver;
    DeliverTokens(st, c, io);
    match Deliver(st, c, io)
    case Crash(_) =>
    case Next(st') =>
      DeliverOrdered(st, c, io);
      forall r: Ref ensures Kept(st, Next(st'), r) { DeliverKeeps(st, c, io, r); }
      ConservedByKept(st, st');
  }

  lemma GiveBackInv(st: System, c: ConnId)
    requires Inv(st) && c in st.conns && st.conns[c].channel != [] && !Early(st.conns[c].phase)
    ensures Known(st, st.conns[c].channel[0]) && st.subs[st.conns[c].channel[0]].frame.Some?
    ensures Inv(GiveBack(st, c, true))
  {
    hide Tokens, Ordered, FramesOk, Kept;
    ChannelFacts(st, c);
    var s := st.conns[c].channel[0];
    var st' := GiveBack(st, c, true);
    GiveBackTokens(st, c, true);
    GivenBackOrdered(st, st', c, s, Requeue(st.subs[s].frame.value, true));
    forall r: Ref ensures Kept(st, Next(st'), r) { GiveBackKeeps(st, c, true, r); }
    ConservedByKept(st, st');
  }

  lemma GiveBackPendingInv(st: System, c: ConnId)
    requires Inv(st) && c in st.conns && st.conns[c].pending != [] && !Early(st.conns[c].phase)
    ensures Known(st, st.conns[c].pending[0]) && st.subs[st.conns[c].pending[0]].frame.Some?
    ensures Inv(GiveBackPending(st, c))
  {
    hide Tokens, Ordered, FramesOk, Kept;
    PendingFacts(st, c, 0);
    var s := st.conns[c].pending[0];
    var st' := GiveBackPending(st, c);
    GiveBackPendingTokens(st, c);
    GivenBackOrdered(st, st', c, s, Requeue(st.subs[s].frame.value, true));
    forall r: Ref ensures Kept(st, Next(st'), r) { GiveBackPendingKeeps(st, c, r); }
    ConservedByKept(st, st');
  }

  lemma FlushInv(st: System, c: ConnId)
    requires Inv(st) && c in st.conns && st.conns[c].outbox != []
    ensures Inv(Flush(st, c))
  {
    hide Tokens, Ordered, FramesOk, Kept, Flush;
    FlushTokens(st, c);
    FlushOrdered(st, c);
    forall r: Ref ensures Kept(st, Next(Flush(st, c)), r) { FlushKeeps(st, c, r); }
    ConservedByKept(st, Flush(st, c));
  }

  lemma ServeInv(st: System)
    requires Inv(st)
    ensures match Serve(st)
            case Next(st') => Inv(st')
            case Crash(why) => why == MissingDestination || (why.AlreadyListed? && why.s in st.matched)
  {
    hide Tokens, Ordered, FramesOk, Kept, Serve;
    ServedTokens(st);
    match Serve(st)
    case Crash(_) =>
    case Next(st') =>
      ServeOrdered(st);
      forall r: Ref ensures Kept(st, Next(st'), r) { ServedKeeps(st, r); }
      ConservedByKept(st, st');
  }

  lemma AcceptInv(st: System, c: ConnId)
    requires Inv(st) && c !in st.conns
    ensures Inv(WithConn(st, c, EMPTY_CONN))
  {
    hide Tokens, Ordered, FramesOk, ConnTotal, StoredTotal;
    AcceptTokens(st, c);
    SubsKnown(st);
    AcceptOrdered(st, c);
    AcceptFrames(st, c);
    forall r: Ref ensures Places(WithConn(st, c, EMPTY_CONN), r) == Places(st, r) {
      ConnUpdate(st.subs, st.subs, st.conns, c, EMPTY_CONN, r);
    }
  }

  lemma SubsKnown(st: System)
    requires Tokens(st)
    ensures forall s | s in st.subs :: st.subs[s].conn in st.conns
  {
  }

  lemma AcceptTokens(st: System, c: ConnId)
    requires Tokens(st) && c !in st.conns
    ensures Tokens(WithConn(st, c, EMPTY_CONN))
  {
    assert ConnTokens(st.subs, c, EMPTY_CONN);
    hide RequestTokens, QueueTokens, SubTokens, ConnTokens;
  }

  lemma AcceptFrames(st: System, c: ConnId)
    requires FramesOk(st)
    ensures FramesOk(WithConn(st, c, EMPTY_CONN))
  {
    assert ConnFrames(st.entered, EMPTY_CONN);
    hide RequestFrames, QueueFrames, SubFrame, ConnFrames;
  }

  lemma AcceptOrdered(st: System, c: ConnId)
    requires Ordered(st) && c !in st.conns && forall s | s in st.subs :: st.subs[s].conn in st.conns
    ensures Ordered(WithConn(st, c, EMPTY_CONN))
  {
    var st' := WithConn(st, c, EMPTY_CONN);
    MineOfStranger(st.requests, c);
    assert forall e | e in st.conns :: Stream(st', e) == Stream(st, e);
    forall s | s in st'.subs && Known(st', s) ensures OrderedSub(st', s) {
      assert OrderedSub(st, s);
    }
  }

  // ---------------------------------------------------------------- handlers

  /** What is fixed when a subscription is made. */
  predicate SameSub(sub: Sub, sub': Sub) {
    sub'.conn == sub.conn && sub'.dest == sub.dest && sub'.id == sub.id && sub'.ack == sub.ack
  }

  /** A frame that sub' holds was already held, and is addressed to the same subscription. */
  predicate SameAddress(sub: Sub, sub': Sub) {
    sub'.frame.Some? ==>
      sub.frame.Some? && Find(sub'.frame.value.frame.header, "subscription") == Find(sub.frame.value.frame.header, "subscription")
  }

  /** st' is st after work of connection c alone: requests, queues, the other connections and their
      subscriptions are as they were. */
  predicate Local(st: System, st': System, c: ConnId) {
    && st'.requests == st.requests && st'.queues == st.queues && st'.conns.Keys == st.conns.Keys
    && (forall e | e in st.conns && e != c :: st'.conns[e] == st.conns[e])
    && (forall s | s in st.subs :: s in st'.subs && SameSub(st.subs[s], st'.subs[s]))
    && (forall s | s in st'.subs && st'.subs[s].frame.Some? :: s in st.subs && SameAddress(st.subs[s], st'.subs[s]))
    && (forall s | s in st.subs && st.subs[s].conn != c :: st'.subs[s] == st.subs[s])
    && (forall s | s in st'.subs && s !in st.subs :: st'.subs[s].conn == c)
    && (forall s | s in st.subs && st.subs[s].conn != c :: s in st'.revived <==> s in st.revived)
  }

  /** A step of c that changes one of its own subscriptions is local. */
  lemma LocalSub(st: System, st': System, s: SubId, c: ConnId)
    requires c in st.conns && c in st'.conns && s in st'.subs && st'.subs[s].conn == c
    requires s in st.subs ==> SameSub(st.subs[s], st'.subs[s]) && SameAddress(st.subs[s], st'.subs[s])
    requires s !in st.subs ==> st'.subs[s].frame.None?
    requires st'.conns == st.conns[c := st'.conns[c]] && st'.subs == st.subs[s := st'.subs[s]]
    requires st'.requests == st.requests && st'.queues == st.queues
    requires st'.revived == st.revived || st'.revived == st.revived + {s}
    ensures Local(st, st', c)
  {
  }

  lemma PendingOwner(st: System, c: ConnId, i: nat)
    requires Inv(st) && c in st.conns && i < |st.conns[c].pending|
    ensures Known(st, st.conns[c].pending[i])
    ensures st.subs[st.conns[c].pending[i]].conn == c && st.subs[st.conns[c].pending[i]].frame.Some?
  {
    hide Tokens, Conserved, Ordered;
    PendingFacts(st, c, i);
  }

  lemma ChannelOwner(st: System, c: ConnId)
    requires Inv(st) && c in st.conns && st.conns[c].channel != []
    ensures Known(st, st.conns[c].channel[0])
    ensures st.subs[st.conns[c].channel[0]].conn == c && st.subs[st.conns[c].channel[0]].frame.Some?
  {
    hide Tokens, Conserved, Ordered;
    ChannelFacts(st, c);
  }

  lemma LateHasNoSubs(st: System, c: ConnId)
    requires Inv(st) && c in st.conns && !Early(st.conns[c].phase)
    ensures st.conns[c].subs == map[]
  {
    hide Tokens, Conserved;
    assert OrderedConn(st, c);
  }

  lemma NextSubIsNew(st: System)
    requires Inv(st)
    ensures st.nextSub !in st.subs
  {
    hide Conserved, Ordered, ConnsOk, QueuesOk, RequestTokens, SubTokens;
  }

  lemma LocalTrans(st: System, st1: System, st2: System, c: ConnId)
    requires Local(st, st1, c) && Local(st1, st2, c)
    ensures Local(st, st2, c)
  {
  }

  /** A handler of connection c that started in st0 is now in st. */
  ghost predicate Ready(st0: System, st: System, c: ConnId) {
    Inv(st) && Local(st0, st, c) && c in st.conns && st.conns[c].phase == Running
  }

  /** The state a handler ends in is good, and a crash has one of two reasons. */
  ghost predicate Fine(st0: System, h: Handled, c: ConnId) {
    match h
    case Done(st) => Ready(st0, st, c)
    case Failed(st, _, _) =>
      Inv(st) && Local(st0, st, c) && c in st.conns && (st.conns[c].phase == Running || st.conns[c].phase == Connecting)
    case Crashed(why) => why.InvalidAckMode? || why == StoredCommit
  }

  lemma QuietReady(st0: System, st: System, c: ConnId, k': Conn)
    requires Ready(st0, st, c) && SameTokens(st.conns[c], k') && k'.dropped == st.conns[c].dropped && k'.phase == Running
    requires k'.sent == st.conns[c].sent || exists f :: k'.sent == st.conns[c].sent + [Sent(f, None)]
    ensures Ready(st0, WithConn(st, c, k'), c)
  {
    hide Inv, Local;
    QuietInv(st, c, k');
    LocalConn(st, WithConn(st, c, k'), c);
    LocalTrans(st0, st, WithConn(st, c, k'), c);
  }

  lemma ReceiptReady(st0: System, st: System, c: ConnId, f: Frame)
    requires Ready(st0, st, c)
    ensures Ready(st0, Receipt(st, c, f), c)
  {
    hide Inv, Local;
    match Find(f.header, "receipt")
    case None =>
    case Some(r) => QuietReady(st0, st, c, Receipt(st, c, f).conns[c]);
  }

  lemma TxReady(st0: System, st: System, c: ConnId, txs: map<string, seq<Frame>>)
    requires Ready(st0, st, c)
    ensures Ready(st0, WithConn(st, c, st.conns[c].(txs := txs)), c)
  {
    hide Inv, Local;
    QuietReady(st0, st, c, st.conns[c].(txs := txs));
  }

  lemma SettleAtReady(st0: System, st: System, c: ConnId, i: nat, nack: bool)
    requires Ready(st0, st, c) && i < |st.conns[c].pending|
    ensures Known(st, st.conns[c].pending[i]) && st.subs[st.conns[c].pending[i]].frame.Some?
    ensures Ready(st0, SettleAt(st, c, i, nack), c) && |SettleAt(st, c, i, nack).conns[c].pending| == |st.conns[c].pending| - 1
  {
    hide Inv, Local;
    PendingOwner(st, c, i);
    SettleAtInv(st, c, i, nack);
    LocalSub(st, SettleAt(st, c, i, nack), st.conns[c].pending[i], c);
    LocalTrans(st0, st, SettleAt(st, c, i, nack), c);
  }

  lemma SettleFine(st0: System, st: System, c: ConnId, n: nat, i: nat, nack: bool)
    requires Ready(st0, st, c) && i <= |st.conns[c].pending|
    ensures Fine(st0, Settle(st, c, n, i, nack), c)
    decreases |st.conns[c].pending| - i
  {
    hide Inv, Local, IsAckedBy, ValidAck, SettleAt;
    if i < |st.conns[c].pending| {
      SettleAtReady(st0, st, c, i, nack);
      var s := st.conns[c].pending[i];
      if nack || ValidAck(st.subs[s].ack) {
        if if nack then n == st.subs[s].msgId else IsAckedBy(st.subs[s].ack, st.subs[s].msgId, n) {
          SettleFine(st0, SettleAt(st, c, i, nack), c, n, i, nack);
        } else {
          SettleFine(st0, st, c, n, i + 1, nack);
        }
      }
    }
  }

  lemma SubmitReady(st0: System, st: System, c: ConnId, f: Frame)
    requires Ready(st0, st, c)
    ensures Ready(st0, Submit(st, c, f), c)
  {
    hide Inv, IsQueueFrame;
    SubmitInv(st, c, f);
  }

  lemma AddToTxFine(st0: System, st: System, c: ConnId, tx: string, f: Frame)
    requires Ready(st0, st, c)
    ensures Fine(st0, AddToTx(st, c, tx, f), c)
  {
    hide Inv, Local, Drop;
    if tx in st.conns[c].txs { TxReady(st0, st, c, AddToTx(st, c, tx, f).st.conns[c].txs); }
  }

  lemma SendFine(st0: System, st: System, c: ConnId, f: Frame)
    requires Ready(st0, st, c)
    ensures Fine(st0, SendBody(st, c, f), c)
  {
    hide Inv, Local, Find, AddToTx, Submit;
    match Find(f.header, "transaction")
    case Some(tx) => AddToTxFine(st0, st, c, tx, f);
    case None => SubmitReady(st0, st, c, f);
  }

  lemma AckFine(st0: System, st: System, c: ConnId, f: Frame, io: bool, nack: bool)
    requires Ready(st0, st, c)
    ensures Fine(st0, HandleAck(st, c, f, io, nack), c)
  {
    hide Inv, Local, Find, Drop, Settle, Receipt, ParseUint, AckId, ReceiptFails, AddToTx;
    var st' := Receipt(st, c, f);
    ReceiptReady(st0, st, c, f);
    match Find(StripReceipt(f).header, "transaction")
    case Some(tx) => AddToTxFine(st0, st', c, tx, StripReceipt(f));
    case None =>
      if AckId(f).Some? && ParseUint(AckId(f).value, UINT64_LIMIT - 1).Some? {
        SettleFine(st0, st', c, ParseUint(AckId(f).value, UINT64_LIMIT - 1).value, 0, nack);
      }
  }

  lemma TxFine(st0: System, st: System, c: ConnId, f: Frame, io: bool)
    requires Ready(st0, st, c)
    ensures Fine(st0, HandleTx(st, c, f, io), c)
  {
    hide Inv, Local, Find, Drop, Receipt, ReceiptFails;
    ReceiptReady(st0, st, c, f);
    var st' := Receipt(st, c, f);
    match Find(f.header, "transaction")
    case None =>
    case Some(tx) =>
      TxReady(st0, st', c, st'.conns[c].txs[tx := []]);
      TxReady(st0, st', c, st'.conns[c].txs - {tx});
  }

  lemma NewSubReady(st0: System, st: System, c: ConnId, id: string, dest: string, ack: string)
    requires Ready(st0, st, c) && id !in st.conns[c].subs
    ensures Ready(st0, NewSub(st, c, id, dest, ack), c)
  {
    hide Inv, Local;
    NextSubIsNew(st);
    NewSubInv(st, c, id, dest, ack);
    LocalSub(st, NewSub(st, c, id, dest, ack), st.nextSub, c);
    LocalTrans(st0, st, NewSub(st, c, id, dest, ack), c);
  }

  lemma EndSubReady(st0: System, st: System, c: ConnId, id: string)
    requires Ready(st0, st, c) && id in st.conns[c].subs
    ensures Ready(st0, EndSub(st, c, id), c)
  {
    hide Inv, Local;
    EndSubInv(st, c, id);
    LocalConn(st, EndSub(st, c, id), c);
    LocalTrans(st0, st, EndSub(st, c, id), c);
  }

  lemma SubscribeFine(st0: System, st: System, c: ConnId, f: Frame)
    requires Ready(st0, st, c)
    ensures Fine(st0, HandleSubscribe(st, c, f), c) && Fine(st0, HandleUnsubscribe(st, c, f), c)
  {
    hide Inv, Local, Find, NewSub, EndSub;
    if Find(f.header, "id").Some? {
      var id := Find(f.header, "id").value;
      if id in st.conns[c].subs {
        EndSubReady(st0, st, c, id);
      } else if Destination(f).Some? {
        NewSubReady(st0, st, c, id, Destination(f).value, match Find(f.header, "ack") case Some(a) => a case None => "auto");
      }
    }
  }

  lemma DispatchFine(st0: System, st: System, c: ConnId, f: Frame, io: bool)
    requires Ready(st0, st, c)
    ensures Fine(st0, Dispatch(st, c, f, io), c)
  {
    hide Inv, Local, HandleAck, HandleTx, HandleSubscribe, HandleUnsubscribe, SendBody, Receipt, ReceiptFails, StripReceipt;
    ReceiptReady(st0, st, c, f);
    SubscribeFine(st0, st, c, f);
    TxFine(st0, st, c, f, io);
    AckFine(st0, st, c, f, io, false);
    AckFine(st0, st, c, f, io, true);
    SendFine(st0, Receipt(st, c, f), c, StripReceipt(f));
  }

  lemma {:induction false} ReplayFine(st0: System, st: System, c: ConnId, frames: seq<Frame>, io: bool)
    requires Ready(st0, st, c)
    ensures Fine(st0, Replay(st, c, frames, io), c)
    decreases |frames|
  {
    hide Inv, Local, Dispatch;
    if frames != [] && frames[0].command != "COMMIT" {
      DispatchFine(st0, st, c, frames[0], io);
      match Dispatch(st, c, frames[0], io)
      case Done(st') => ReplayFine(st0, st', c, frames[1..], io);
      case _ =>
    }
  }

  lemma CommitFine(st0: System, st: System, c: ConnId, f: Frame, io: bool)
    requires Ready(st0, st, c)
    ensures Fine(st0, HandleCommit(st, c, f, io), c)
  {
    hide Inv, Local, HandleTx, Replay, Find, StripReceipt;
    TxFine(st0, st, c, f, io);
    match HandleTx(st, c, f, io)
    case Done(st') =>
      var tx := Find(f.header, "transaction");
      if tx.Some? && tx.value in st'.conns[c].txs {
        ReplayFine(st0, st', c, st'.conns[c].txs[tx.value], io);
        match Replay(st', c, st'.conns[c].txs[tx.value], io)
        case Done(st'') => TxReady(st0, st'', c, st''.conns[c].txs - {tx.value});
        case _ =>
      }
    case _ =>
  }

  lemma ConnectFine(st: System, c: ConnId, f: Frame, admit: bool)
    requires Inv(st) && c in st.conns && st.conns[c].phase == Connecting
    ensures Fine(st, HandleConnect(st, c, f, admit), c)
  {
    hide Inv, Local, Find;
    LocalRefl(st, c);
    match HandleConnect(st, c, f, admit)
    case Crashed(_) =>
    case Failed(_, _, _) =>
    case Done(st') =>
      var k' := st'.conns[c].(outbox := st.conns[c].outbox);
      QuietInv(st, c, k');
      EmitInv(WithConn(st, c, k'), c, Connected);
      assert st' == Emit(WithConn(st, c, k'), c, Connected);
      LocalConn(st, st', c);
  }

  lemma HandleFine(st: System, c: ConnId, f: Frame, io: bool, admit: bool)
    requires Inv(st) && c in st.conns && (st.conns[c].phase == Running || st.conns[c].phase == Connecting)
    ensures Fine(st, Handle(st, c, f, io, admit), c)
  {
    hide Inv, Local, HandleCommit, HandleConnect, Dispatch;
    if st.conns[c].phase == Connecting {
      ConnectFine(st, c, f, admit);
    } else {
      LocalRefl(st, c);
      CommitFine(st, st, c, f, io);
      DispatchFine(st, st, c, f, io);
    }
  }

  // ---------------------------------------------------------------- events

  /** A crash in st has one of these reasons. */
  predicate Explained(st: System, why: Panic) {
    || why == MissingDestination
    || why.InvalidAckMode?
    || why == StoredCommit
    || (why.AlreadyListed? && why.s in st.matched)
  }

  /** What one event of connection c leaves behind. */
  ghost predicate GoodStep(st: System, o: Outcome, c: ConnId) {
    match o
    case Next(st') => Inv(st') && Local(st, st', c)
    case Crash(why) => Explained(st, why)
  }

  lemma QuietStep(st: System, c: ConnId, k': Conn)
    requires Inv(st) && c in st.conns && SameTokens(st.conns[c], k') && k'.dropped == st.conns[c].dropped
    requires k'.sent == st.conns[c].sent || exists f :: k'.sent == st.conns[c].sent + [Sent(f, None)]
    requires (Early(k'.phase) ==> Early(st.conns[c].phase)) && (!Early(k'.phase) ==> k'.subs == map[])
    ensures GoodStep(st, Next(WithConn(st, c, k')), c)
  {
    hide Inv;
    QuietInv(st, c, k');
  }

  lemma ReceiveGood(st: System, c: ConnId, f: Frame, io: bool, admit: bool)
    requires Inv(st) && InLoop(st, c)
    ensures GoodStep(st, Receive(st, c, f, io, admit), c)
  {
    hide Inv, Local, Handle, ErrorFrame;
    var k0 := st.conns[c].(received := st.conns[c].received + [f]);
    var st0 := WithConn(st, c, k0);
    QuietStep(st, c, k0);
    HandleFine(st0, c, f, io, admit);
    match Handle(st0, c, f, io, admit)
    case Crashed(_) =>
    case Done(st') => LocalTrans(st, st0, st', c);
    case Failed(st', f', err) =>
      LocalTrans(st, st0, st', c);
      var k' := Exit(Write(st', c, ErrorFrame(f', err)), c).conns[c];
      QuietStep(st', c, k');
      LocalTrans(st, st', WithConn(st', c, k'), c);
      assert Exit(Write(st', c, ErrorFrame(f', err)), c) == WithConn(st', c, k');
  }

  lemma CloseGood(st: System, c: ConnId, id: string)
    requires Inv(st) && c in st.conns
    ensures GoodStep(st, CloseStep(st, c, id), c)
  {
    hide Inv, Local;
    var k := st.conns[c];
    if !Early(k.phase) { LateHasNoSubs(st, c); }
    LocalRefl(st, c);
    match k.phase
    case Connecting =>
    case Running =>
    case Closed =>
    case Unsubscribing =>
      if id in k.subs {
        EndSubInv(st, c, id);
        LocalConn(st, EndSub(st, c, id), c);
      } else if k.subs == map[] {
        QuietStep(st, c, k.(phase := Requeuing));
      }
    case Requeuing =>
      if k.pending == [] {
        QuietStep(st, c, k.(phase := Draining, writes := []));
      } else {
        GiveBackPendingGood(st, c);
      }
    case Draining =>
      if k.channel != [] {
        GiveBackGood(st, c);
      } else {
        var st1 := WithConn(st, c, k.(phase := LastDrain));
        QuietStep(st, c, k.(phase := LastDrain));
        EmitInv(st1, c, Disconnected);
        LocalConn(st1, Emit(st1, c, Disconnected), c);
        LocalTrans(st, st1, Emit(st1, c, Disconnected), c);
      }
    case LastDrain =>
      if k.channel != [] {
        GiveBackGood(st, c);
      } else {
        QuietStep(st, c, k.(phase := Closed, writes := []));
      }
  }

  lemma LocalRefl(st: System, c: ConnId)
    ensures Local(st, st, c)
  {
  }

  lemma LocalConn(st: System, st': System, c: ConnId)
    requires c in st.conns && c in st'.conns && st' == WithConn(st, c, st'.conns[c])
    ensures Local(st, st', c)
  {
  }

  lemma GiveBackPendingGood(st: System, c: ConnId)
    requires Inv(st) && c in st.conns && st.conns[c].pending != [] && !Early(st.conns[c].phase)
    ensures Known(st, st.conns[c].pending[0]) && st.subs[st.conns[c].pending[0]].frame.Some?
    ensures GoodStep(st, Next(GiveBackPending(st, c)), c)
  {
    hide Inv, Local;
    PendingOwner(st, c, 0);
    GiveBackPendingInv(st, c);
    LocalSub(st, GiveBackPending(st, c), st.conns[c].pending[0], c);
  }

  lemma GiveBackGood(st: System, c: ConnId)
    requires Inv(st) && c in st.conns && st.conns[c].channel != [] && !Early(st.conns[c].phase)
    ensures DrainOne(st, c).Next? && GoodStep(st, DrainOne(st, c), c)
  {
    hide Inv, Local;
    ChannelOwner(st, c);
    GiveBackInv(st, c);
    LocalSub(st, GiveBack(st, c, true), st.conns[c].channel[0], c);
  }

  lemma DeliverGood(st: System, c: ConnId, io: bool)
    requires Inv(st) && InLoop(st, c) && st.conns[c].channel != []
    ensures GoodStep(st, Deliver(st, c, io), c)
  {
    hide Inv, Local, Stamp, NextMsgId, Find;
    ChannelOwner(st, c);
    DeliverInv(st, c, io);
    var sub := st.subs[st.conns[c].channel[0]];
    var f := sub.frame.value.frame;
    StampKeepsSubscription(f, NextMsgId(st.conns[c].lastMsgId, f), sub.ack == "auto");
    match Deliver(st, c, io)
    case Crash(_) =>
    case Next(st') => LocalSub(st, st', st.conns[c].channel[0], c);
  }

  lemma WriteTopicGood(st: System, c: ConnId, io: bool)
    requires Inv(st) && InLoop(st, c) && st.conns[c].writes != []
    ensures GoodStep(st, Next(WriteTopicFrame(st, c, io)), c)
  {
    hide Inv, Stamp, NextMsgId;
    var st' := WriteTopicFrame(st, c, io);
    QuietStep(st, c, st'.conns[c]);
    assert st' == WithConn(st, c, st'.conns[c]);
  }

  /** Every event keeps the invariant, or crashes for an explained reason. */
  lemma StepInv(st: System, e: Event)
    requires Inv(st)
    ensures match Step(st, e)
            case Next(st') => Inv(st')
            case Crash(why) => Explained(st, why)
  {
    hide Inv, Local, Serve, Flush, Receive, Deliver, WriteTopicFrame, CloseStep;
    match e
    case Accept(c) => if c !in st.conns { AcceptInv(st, c); }
    case ServeNext => ServeInv(st);
    case FlushNext(c) => if c in st.conns && st.conns[c].outbox != [] { FlushInv(st, c); }
    case ReceiveFrame(c, f, io, admit) => if InLoop(st, c) { ReceiveGood(st, c, f, io, admit); }
    case ReadClosed(c) => if InLoop(st, c) { QuietStep(st, c, Exit(st, c).conns[c]); }
    case DeliverNext(c, io) => if InLoop(st, c) && st.conns[c].channel != [] { DeliverGood(st, c, io); }
    case WriteNext(c, io) => if InLoop(st, c) && st.conns[c].writes != [] { WriteTopicGood(st, c, io); }
    case HeartBeat(c, io) => if InLoop(st, c) { QuietStep(st, c, Exit(st, c).conns[c]); }
    case TopicFrame(c, f) => if c in st.conns { TopicFrameInv(st, c, f); }
    case Close(c, id) => if c in st.conns { CloseGood(st, c, id); }
  }

  lemma TopicFrameInv(st: System, c: ConnId, f: Frame)
    requires Inv(st) && c in st.conns
    ensures GoodStep(st, Next(WithConn(st, c, st.conns[c].(writes := st.conns[c].writes + [f]))), c)
  {
    hide Inv, Local;
    if !Early(st.conns[c].phase) { LateHasNoSubs(st, c); }
    QuietStep(st, c, st.conns[c].(writes := st.conns[c].writes + [f]));
  }

  lemma StartInv()
    ensures Inv(START)
  {
    assert StoredMap(START.queues, 0) == map[];
    forall r: Ref ensures Places(START, r) == 0 {
      assert StoredMap(START.queues, r) == map[] && ConnMap(START.subs, START.conns, r) == map[];
    }
  }

  lemma {:induction false} PathInv(states: seq<System>, events: seq<Event>)
    requires Path(states, events) && Inv(states[0])
    ensures Inv(states[|events|])
    decreases |events|
  {
    hide Inv, Step;
    if events != [] {
      var n := |events| - 1;
      PathPrefix(states, events);
      PathInv(states[..n + 1], events[..n]);
      assert Step(states[n], events[n]) == Next(states[n + 1]);
      StepInv(states[n], events[n]);
    }
  }

  lemma PathPrefix(states: seq<System>, events: seq<Event>)
    requires Path(states, events) && events != []
    ensures Path(states[..|events|], events[..|events| - 1])
  {
    hide Step;
    var n := |events| - 1;
    forall i | 0 <= i < n ensures Step(states[..n + 1][i], events[..n][i]) == Next(states[..n + 1][i + 1]) {
      assert Step(states[i], events[i]) == Next(states[i + 1]);
    }
  }

  /** Whatever happens, the invariant stays. */
  lemma LeadsInv(st: System, st': System)
    requires Inv(st) && Leads(st, st')
    ensures Inv(st')
  {
    hide Inv, Step;
    var states, events :| Path(states, events) && states[0] == st && states[|events|] == st';
    PathInv(states, events);
  }

  lemma ReachableInv(st: System)
    requires Reachable(st)
    ensures Inv(st)
  {
    hide Inv, Leads;
    StartInv();
    LeadsInv(START, st);
  }
}
