/** No message enters a queue more often than it was sent: in every run, a message has entered at most as many times as
    clients have sent a SEND frame for it. */
module BrokerOnce {
  import opened Text
  import opened Frames
  import opened Sequences
  import opened Broker
  import opened BrokerTokens
  import opened BrokerConservation
  import opened BrokerCleanup
  import opened BrokerRuns
  import opened BrokerAnswers
  import opened BrokerClients
  import opened BrokerTheorems
  import opened BrokerHistory
  import opened Totals
  import TxStores
  import Queues

  // ---------------------------------------------------------------- counts

  /** The frames that entered and are f. */
  function EntriesOf(entered: map<Ref, Frame>, f: Frame): set<Ref> {
    set r | r in entered && entered[r] == f
  }

  /** How many of the received frames are a SEND for message f. */
  function SentFor(received: seq<Frame>, f: Frame): nat {
    if received == [] then 0
    else SentFor(received[..|received| - 1], f) + One(FromSend(f, received[|received| - 1]))
  }

  /** How many of the frames are a SEND that becomes message f. */
  function SendsOf(frames: seq<Frame>, f: Frame): nat {
    if frames == [] then 0 else One(frames[0].command == "SEND" && frames[0].(command := "MESSAGE") == f) + SendsOf(frames[1..], f)
  }

  function TxMap(txs: map<string, seq<Frame>>, f: Frame): map<string, nat> {
    map tx | tx in txs :: SendsOf(txs[tx], f)
  }

  ghost function StoredIn(txs: map<string, seq<Frame>>, f: Frame): nat {
    Total(TxMap(txs, f))
  }

  ghost function StoredMapOf(conns: map<ConnId, Conn>, f: Frame): map<ConnId, nat> {
    map c | c in conns :: StoredIn(conns[c].txs, f)
  }

  function SentMapOf(conns: map<ConnId, Conn>, f: Frame): map<ConnId, nat> {
    map c | c in conns :: SentFor(conns[c].received, f)
  }

  /** What entered, and what waits in a transaction to enter, was sent. */
  ghost predicate Covered(st: System, f: Frame) {
    |EntriesOf(st.entered, f)| + Total(StoredMapOf(st.conns, f)) <= Total(SentMapOf(st.conns, f))
  }

  // ---------------------------------------------------------------- sums

  lemma {:induction false} TotalAtMost<K>(m: map<K, nat>, m': map<K, nat>)
    requires m.Keys == m'.Keys && forall k | k in m :: m[k] <= m'[k]
    ensures Total(m) <= Total(m')
    decreases m
  {
    if m != map[] {
      var k :| k in m;
      TotalSplit(m, k);
      TotalSplit(m', k);
      TotalAtMost(m - {k}, m' - {k});
    }
  }

  lemma SentMore(received: seq<Frame>, g: Frame, f: Frame)
    ensures SentFor(received + [g], f) == SentFor(received, f) + One(FromSend(f, g))
  {
    assert (received + [g])[..|received|] == received;
  }

  lemma {:induction false} SendsMore(frames: seq<Frame>, g: Frame, f: Frame)
    ensures SendsOf(frames + [g], f) == SendsOf(frames, f) + One(g.command == "SEND" && g.(command := "MESSAGE") == f)
  {
    if frames == [] {
      assert (frames + [g])[1..] == [];
    } else {
      assert (frames + [g])[1..] == frames[1..] + [g];
      SendsMore(frames[1..], g, f);
    }
  }

  lemma StoredUpdate(txs: map<string, seq<Frame>>, tx: string, frames: seq<Frame>, f: Frame)
    ensures StoredIn(txs[tx := frames], f) + (if tx in txs then SendsOf(txs[tx], f) else 0) == StoredIn(txs, f) + SendsOf(frames, f)
  {
    TotalUpdate(TxMap(txs, f), tx, SendsOf(frames, f));
    assert TxMap(txs[tx := frames], f) == TxMap(txs, f)[tx := SendsOf(frames, f)];
  }

  lemma StoredRemove(txs: map<string, seq<Frame>>, tx: string, f: Frame)
    requires tx in txs
    ensures StoredIn(txs - {tx}, f) + SendsOf(txs[tx], f) == StoredIn(txs, f)
  {
    TotalSplit(TxMap(txs, f), tx);
    assert TxMap(txs - {tx}, f) == TxMap(txs, f) - {tx};
  }

  lemma NothingStoredIn(f: Frame)
    ensures StoredIn(map[], f) == 0
  {
    assert TxMap(map[], f) == map[];
  }

  // ---------------------------------------------------------------- what enters

  lemma EntryMore(entered: map<Ref, Frame>, r: Ref, g: Frame, f: Frame)
    ensures |EntriesOf(entered[r := g], f)| <= |EntriesOf(entered, f)| + One(g == f)
  {
    var a, b := EntriesOf(entered[r := g], f), EntriesOf(entered, f);
    if g == f {
      assert a <= b + {r};
      Smaller(a, b + {r});
    } else {
      assert a <= b;
      Smaller(a, b);
    }
  }

  lemma {:induction false} Smaller<T>(a: set<T>, b: set<T>)
    requires a <= b
    ensures |a| <= |b|
    decreases a
  {
    if a != {} {
      var x :| x in a;
      Smaller(a - {x}, b - {x});
    }
  }

  /** Handling a frame that is no COMMIT makes at most one message enter: the frame itself. */
  predicate EntersOne(st: System, st': System, f: Frame) {
    || st'.entered == st.entered
    || (Entering(f) == [StripReceipt(f)] && f.command == "SEND"
        && st'.entered == st.entered[st.nextRef := StripReceipt(f).(command := "MESSAGE")])
  }

  lemma SubmitOne(st: System, c: ConnId, f: Frame)
    requires c in st.conns && f.command == "SEND" && Find(f.header, "transaction").None?
    ensures c in Receipt(st, c, f).conns && EntersOne(st, Submit(Receipt(st, c, f), c, StripReceipt(f)), f)
  {
    hide Find, StripReceipt, IsQueueFrame;
    ReceiptEnters(st, c, f);
  }

  lemma SameIsOne(st: System, f: Frame)
    ensures forall st': System | st'.entered == st.entered :: EntersOne(st, st', f)
  {
  }

  lemma DispatchOne(st: System, c: ConnId, f: Frame, io: bool)
    requires c in st.conns
    ensures !Dispatch(st, c, f, io).Crashed? ==> EntersOne(st, match Dispatch(st, c, f, io) case Done(st') => st' case Failed(st', _, _) => st' case Crashed(_) => st, f)
  {
    hide Find, StripReceipt, Receipt, Settle, ParseUint, AckId, ReceiptFails, Submit, EntersOne, NewSub, EndSub;
    ReceiptEnters(st, c, f);
    SubsEnter(st, c);
    SameIsOne(st, f);
    if f.command == "SEND" {
      CallOfAdd(f);
      if Find(f.header, "transaction").None? { SubmitOne(st, c, f); }
    } else if (f.command == "ACK" || f.command == "NACK") && AckId(f).Some? && ParseUint(AckId(f).value, UINT64_LIMIT - 1).Some? {
      SettleEnters(Receipt(st, c, f), c, ParseUint(AckId(f).value, UINT64_LIMIT - 1).value, 0, f.command == "NACK");
      SettleSilent(Receipt(st, c, f), c, ParseUint(AckId(f).value, UINT64_LIMIT - 1).value, 0, f.command == "NACK");
    }
  }

  lemma OneCounts(st: System, st': System, g: Frame, f: Frame)
    requires EntersOne(st, st', g)
    ensures |EntriesOf(st'.entered, f)| <= |EntriesOf(st.entered, f)| + SendsOf(Entering(g), f)
  {
    hide StripReceipt, Find;
    if st'.entered != st.entered {
      EntryMore(st.entered, st.nextRef, StripReceipt(g).(command := "MESSAGE"), f);
      StripSend(g);
      assert Entering(g)[1..] == [];
    }
  }

  lemma StripSend(g: Frame)
    ensures StripReceipt(g).command == g.command
  {
  }

  lemma {:induction false} ReplayCounts(st: System, c: ConnId, frames: seq<Frame>, io: bool, f: Frame)
    requires c in st.conns && forall i | 0 <= i < |frames| :: Replayable(frames[i])
    ensures Replay(st, c, frames, io).Done? ==>
              |EntriesOf(Replay(st, c, frames, io).st.entered, f)| <= |EntriesOf(st.entered, f)| + SendsOf(frames, f)
    decreases |frames|
  {
    hide Dispatch, Replayable, EntersOne, EntriesOf, Entering;
    if frames != [] {
      assert Replayable(frames[0]);
      ReplayOne(st, c, frames[0], io);
      if Dispatch(st, c, frames[0], io).Done? && frames[0].command != "COMMIT" {
        var st' := Dispatch(st, c, frames[0], io).st;
        DispatchOne(st, c, frames[0], io);
        OneCounts(st, st', frames[0], f);
        EnteringCounts(frames[0], f);
        ReplayCounts(st', c, frames[1..], io, f);
      }
    }
  }

  lemma EnteringCounts(g: Frame, f: Frame)
    requires Replayable(g)
    ensures SendsOf(Entering(g), f) == One(g.command == "SEND" && g.(command := "MESSAGE") == f)
  {
    ReplayEntering(g);
    hide Replayable, Entering;
    assert [g][1..] == [];
  }

  /** The state a handler leaves. */
  function Left(st: System, h: Handled): System {
    match h
    case Done(st') => st'
    case Failed(st', _, _) => st'
    case Crashed(_) => st
  }

  lemma CommitCounts(st: System, c: ConnId, g: Frame, io: bool, f: Frame)
    requires c in st.conns && g.command == "COMMIT" && TxOk(st.conns[c].txs)
    ensures |EntriesOf(Left(st, HandleCommit(st, c, g, io)).entered, f)| <= |EntriesOf(st.entered, f)| + SendsOf(Sources(st.conns[c], g), f)
  {
    hide Find, Replay, Receipt, StripReceipt, HandleTx, Replayable, EntriesOf, SendsOf;
    HandleTxEnters(st, c, g, io);
    if HandleTx(st, c, g, io).Done? {
      var st' := Receipt(st, c, g);
      ReceiptEnters(st, c, g);
      var frames := st.conns[c].txs[Find(g.header, "transaction").value];
      ReplayAll(st', c, frames, io);
      ReplayCounts(st', c, frames, io, f);
    }
  }

  lemma HandleCounts(st: System, c: ConnId, g: Frame, io: bool, admit: bool, f: Frame)
    requires c in st.conns && TxOk(st.conns[c].txs) && (st.conns[c].phase == Running || st.conns[c].phase == Connecting)
    ensures |EntriesOf(Left(st, Handle(st, c, g, io, admit)).entered, f)|
            <= |EntriesOf(st.entered, f)| + (if st.conns[c].phase == Running then SendsOf(Sources(st.conns[c], g), f) else 0)
  {
    hide HandleCommit, HandleConnect, Dispatch, TxOk, EntriesOf, SendsOf, Sources, Entering, Find, EntersOne;
    if st.conns[c].phase == Connecting {
      ConnectEnters(st, c, g, admit);
    } else if g.command == "COMMIT" {
      CommitCounts(st, c, g, io, f);
    } else {
      DispatchOne(st, c, g, io);
      SourcesOther(st.conns[c], g);
      if !Dispatch(st, c, g, io).Crashed? { OneCounts(st, Left(st, Dispatch(st, c, g, io)), g, f); }
    }
  }

  // ---------------------------------------------------------------- what is stored

  /** What a frame adds to the transactions, and what it makes enter, is paid for by the frame itself or by what was
      stored. */
  lemma CallCovers(k: Conn, g: Frame, f: Frame)
    ensures StoredIn(AfterCall(k.txs, g), f) + SendsOf(Sources(k, g), f) <= StoredIn(k.txs, f) + One(FromSend(f, g))
  {
    hide StripReceipt, SendsOf, StoredIn;
    assert SendsOf([], f) == 0 by { NoSends(f); }
    match Find(g.header, "transaction")
    case None => if g.command == "SEND" { PlainSend(g, f); }
    case Some(tx) =>
      if g.command == "COMMIT" {
        if tx in k.txs { StoredRemove(k.txs, tx, f); }
      } else if g.command == "ABORT" {
        if tx in k.txs { StoredRemove(k.txs, tx, f); }
      } else if g.command == "BEGIN" {
        if tx !in k.txs { StoredUpdate(k.txs, tx, [], f); }
      } else if (g.command == "SEND" || g.command == "ACK" || g.command == "NACK") && tx in k.txs {
        AddCovers(k.txs, tx, g, f);
      }
  }

  lemma NoSends(f: Frame)
    ensures SendsOf([], f) == 0
  {
  }

  lemma PlainSend(g: Frame, f: Frame)
    requires g.command == "SEND" && Find(g.header, "transaction").None?
    ensures SendsOf([StripReceipt(g)], f) == One(FromSend(f, g))
  {
    hide Find, Drop;
    FindAfterDrop(g.header, "receipt", "transaction");
    DropAbsent(StripReceipt(g).header, "transaction");
    assert [StripReceipt(g)][1..] == [];
  }

  lemma AddCovers(txs: map<string, seq<Frame>>, tx: string, g: Frame, f: Frame)
    requires tx in txs
    ensures StoredIn(txs[tx := txs[tx] + [TxStores.Bare(StripReceipt(g))]], f) <= StoredIn(txs, f) + One(FromSend(f, g))
  {
    hide Drop;
    SendsMore(txs[tx], TxStores.Bare(StripReceipt(g)), f);
    StoredUpdate(txs, tx, txs[tx] + [TxStores.Bare(StripReceipt(g))], f);
  }

  // ---------------------------------------------------------------- events

  /** Connection c alone changed, and what entered or is stored is paid for. */
  lemma ConnCovered(st: System, st': System, c: ConnId, f: Frame)
    requires Covered(st, f) && Local(st, st', c) && c in st.conns && c in st'.conns
    requires |EntriesOf(st'.entered, f)| + StoredIn(st'.conns[c].txs, f) + SentFor(st.conns[c].received, f)
             <= |EntriesOf(st.entered, f)| + StoredIn(st.conns[c].txs, f) + SentFor(st'.conns[c].received, f)
    ensures Covered(st', f)
  {
    hide EntriesOf, StoredIn, SentFor, StoredMapOf, SentMapOf;
    OnlyConn(st, st', c);
    StoredOf(st.conns, c, st'.conns[c], f);
    SentOf(st.conns, c, st'.conns[c], f);
  }

  lemma OnlyConn(st: System, st': System, c: ConnId)
    requires Local(st, st', c) && c in st.conns && c in st'.conns
    ensures st'.conns == st.conns[c := st'.conns[c]]
  {
    hide SameSub, SameAddress;
  }

  lemma StoredOf(conns: map<ConnId, Conn>, c: ConnId, k: Conn, f: Frame)
    ensures Total(StoredMapOf(conns[c := k], f)) + (if c in conns then StoredIn(conns[c].txs, f) else 0)
            == Total(StoredMapOf(conns, f)) + StoredIn(k.txs, f)
  {
    hide StoredIn;
    TotalUpdate(StoredMapOf(conns, f), c, StoredIn(k.txs, f));
    assert StoredMapOf(conns[c := k], f) == StoredMapOf(conns, f)[c := StoredIn(k.txs, f)];
  }

  lemma SentOf(conns: map<ConnId, Conn>, c: ConnId, k: Conn, f: Frame)
    ensures Total(SentMapOf(conns[c := k], f)) + (if c in conns then SentFor(conns[c].received, f) else 0)
            == Total(SentMapOf(conns, f)) + SentFor(k.received, f)
  {
    hide SentFor;
    TotalUpdate(SentMapOf(conns, f), c, SentFor(k.received, f));
    assert SentMapOf(conns[c := k], f) == SentMapOf(conns, f)[c := SentFor(k.received, f)];
  }

  lemma ReceiveCovered(st: System, c: ConnId, g: Frame, io: bool, admit: bool, f: Frame)
    requires Inv(st) && Covered(st, f) && InLoop(st, c) && TxOk(st.conns[c].txs) && Receive(st, c, g, io, admit).Next?
    ensures Covered(Receive(st, c, g, io, admit).st, f)
  {
    hide Inv, TxOk, Handle, Receive, Covered, EntriesOf, StoredIn, SentFor, Local, Remembers, SendsOf, Sources, FromSend;
    ReceivedGrows(st, c, g, io, admit);
    ReceiveEntered(st, c, g, io, admit);
    var st0, st' := Arrived(st, c, g), Receive(st, c, g, io, admit).st;
    HandleCounts(st0, c, g, io, admit, f);
    SourcesSame(st0.conns[c], st.conns[c], g);
    CallCovers(st.conns[c], g, f);
    SentMore(st.conns[c].received, g, f);
    NothingStoredIn(f);
    TxsAfter(st, c, g, io, admit);
    ConnCovered(st, st', c, f);
  }

  /** The transactions after a frame are discarded, untouched while connecting, or those after its call. */
  lemma TxsAfter(st: System, c: ConnId, g: Frame, io: bool, admit: bool)
    requires InLoop(st, c) && TxOk(st.conns[c].txs) && Receive(st, c, g, io, admit).Next?
    requires c in Receive(st, c, g, io, admit).st.conns
    ensures var txs := Receive(st, c, g, io, admit).st.conns[c].txs;
            txs == map[] || (if st.conns[c].phase == Running then txs == AfterCall(st.conns[c].txs, g) else txs == st.conns[c].txs)
    ensures !Handle(Arrived(st, c, g), c, g, io, admit).Crashed?
    ensures Receive(st, c, g, io, admit).st.entered == Left(Arrived(st, c, g), Handle(Arrived(st, c, g), c, g, io, admit)).entered
  {
    hide TxOk, HandleConnect, HandleCommit, Dispatch, AfterCall, ErrorFrame;
    var st0 := Arrived(st, c, g);
    if st.conns[c].phase == Connecting { ConnectEnters(st0, c, g, admit); } else { HandleCalled(st0, c, g, io, admit); }
  }

  /** No frame is received, nothing enters, and transactions stay or are discarded. */
  lemma QuietCovered(st: System, st': System, c: ConnId, f: Frame)
    requires Covered(st, f) && Local(st, st', c) && c in st.conns && c in st'.conns
    requires st'.entered == st.entered && st'.conns[c].received == st.conns[c].received
    requires st'.conns[c].txs == st.conns[c].txs || st'.conns[c].txs == map[]
    ensures Covered(st', f)
  {
    hide Covered, EntriesOf, StoredIn, SentFor, Local;
    NothingStoredIn(f);
    ConnCovered(st, st', c, f);
  }

  lemma ServeCovered(st: System, f: Frame)
    requires Inv(st) && Covered(st, f) && Serve(st).Next?
    ensures Covered(Serve(st).st, f)
  {
    hide Tokens, Conserved, Ordered, Serve, WaitingShrinks, EntriesOf, StoredIn, SentFor;
    ServeShrinks(st);
    ServeEntered(st);
    var st' := Serve(st).st;
    if st' != st {
      assert StoredMapOf(st'.conns, f) == StoredMapOf(st.conns, f);
      assert SentMapOf(st'.conns, f) == SentMapOf(st.conns, f);
    }
  }

  lemma FlushCovered(st: System, c: ConnId, f: Frame)
    requires Covered(st, f) && c in st.conns && st.conns[c].outbox != []
    ensures Covered(Flush(st, c), f)
  {
    hide EntriesOf, StoredIn, SentFor;
    var st' := Flush(st, c);
    assert StoredMapOf(st'.conns, f) == StoredMapOf(st.conns, f);
    assert SentMapOf(st'.conns, f) == SentMapOf(st.conns, f);
  }

  lemma AcceptCovered(st: System, c: ConnId, f: Frame)
    requires Covered(st, f) && c !in st.conns
    ensures Covered(WithConn(st, c, EMPTY_CONN), f)
  {
    NothingStoredIn(f);
    assert SentFor(EMPTY_CONN.received, f) == 0;
    hide EntriesOf, StoredIn, SentFor, StoredMapOf, SentMapOf;
    StoredOf(st.conns, c, EMPTY_CONN, f);
    SentOf(st.conns, c, EMPTY_CONN, f);
  }

  lemma ConnOnlyCovered(st: System, c: ConnId, k': Conn, f: Frame)
    requires Covered(st, f) && c in st.conns && k'.received == st.conns[c].received && (k'.txs == st.conns[c].txs || k'.txs == map[])
    ensures Covered(WithConn(st, c, k'), f)
  {
    hide Covered, Local;
    LocalConn(st, WithConn(st, c, k'), c);
    QuietCovered(st, WithConn(st, c, k'), c, f);
  }

  lemma DeliverCovered(st: System, c: ConnId, io: bool, f: Frame)
    requires Inv(st) && Covered(st, f) && InLoop(st, c) && st.conns[c].channel != [] && Deliver(st, c, io).Next?
    ensures Covered(Deliver(st, c, io).st, f)
  {
    hide Inv, Covered, Local, Deliver;
    DeliverGood(st, c, io);
    DeliverStores(st, c, io);
    QuietCovered(st, Deliver(st, c, io).st, c, f);
  }

  lemma DeliverStores(st: System, c: ConnId, io: bool)
    requires c in st.conns && st.conns[c].channel != [] && Deliver(st, c, io).Next?
    ensures var st' := Deliver(st, c, io).st;
            && c in st'.conns && st'.entered == st.entered && st'.conns[c].received == st.conns[c].received
            && (st'.conns[c].txs == st.conns[c].txs || st'.conns[c].txs == map[])
  {
    hide Stamp, NextMsgId;
  }

  lemma CloseCovered(st: System, c: ConnId, id: string, f: Frame)
    requires Inv(st) && Covered(st, f) && c in st.conns && CloseStep(st, c, id).Next?
    ensures Covered(CloseStep(st, c, id).st, f)
  {
    hide Inv, Covered, Local, CloseStep;
    CloseGood(st, c, id);
    CloseEntered(st, c, id);
    AcksFromLocal(st, CloseStep(st, c, id).st, c);
    CloseQuietly(st, c, id);
    QuietCovered(st, CloseStep(st, c, id).st, c, f);
  }

  lemma WriteCovered(st: System, c: ConnId, io: bool, f: Frame)
    requires Covered(st, f) && InLoop(st, c) && st.conns[c].writes != []
    ensures Covered(WriteTopicFrame(st, c, io), f)
  {
    hide Covered, Stamp, NextMsgId;
    var st' := WriteTopicFrame(st, c, io);
    ConnOnlyCovered(st, c, st'.conns[c], f);
    assert st' == WithConn(st, c, st'.conns[c]);
  }

  lemma StepCovered(st: System, e: Event, f: Frame)
    requires Good(st) && Covered(st, f) && Step(st, e).Next?
    ensures Covered(Step(st, e).st, f)
  {
    hide Inv, ClientsGood, Covered, Serve, Flush, Receive, Deliver, WriteTopicFrame, CloseStep, Find;
    match e
    case Accept(c) => if c !in st.conns { AcceptCovered(st, c, f); }
    case ServeNext => ServeCovered(st, f);
    case FlushNext(c) => if c in st.conns && st.conns[c].outbox != [] { FlushCovered(st, c, f); }
    case ReceiveFrame(c, g, io, admit) => if InLoop(st, c) { GoodTx(st, c); ReceiveCovered(st, c, g, io, admit, f); }
    case ReadClosed(c) => if InLoop(st, c) { ConnOnlyCovered(st, c, Exit(st, c).conns[c], f); }
    case DeliverNext(c, io) => if InLoop(st, c) && st.conns[c].channel != [] { DeliverCovered(st, c, io, f); }
    case WriteNext(c, io) => if InLoop(st, c) && st.conns[c].writes != [] { WriteCovered(st, c, io, f); }
    case HeartBeat(c, io) => if InLoop(st, c) { ConnOnlyCovered(st, c, Exit(st, c).conns[c], f); }
    case TopicFrame(c, g) => if c in st.conns { ConnOnlyCovered(st, c, st.conns[c].(writes := st.conns[c].writes + [g]), f); }
    case Close(c, id) => if c in st.conns && st.conns[c].outbox == [] { CloseCovered(st, c, id, f); }
  }

  lemma {:induction false} PathCovered(states: seq<System>, events: seq<Event>, f: Frame)
    requires Path(states, events) && Good(states[0]) && Covered(states[0], f)
    ensures Good(states[|events|]) && Covered(states[|events|], f)
    decreases |events|
  {
    hide Good, Covered, Step;
    if events != [] {
      var n := |events| - 1;
      PathPrefix(states, events);
      PathCovered(states[..n + 1], events[..n], f);
      assert Step(states[n], events[n]) == Next(states[n + 1]);
      StepGood(states[n], events[n]);
      StepCovered(states[n], events[n], f);
    }
  }

  /** In every run, a message has entered queues at most as often as clients have sent a SEND for it: no frame enters twice,
      be it replayed or not. */
  lemma EntersAtMostOnce(st: System, f: Frame)
    requires Reachable(st)
    ensures |EntriesOf(st.entered, f)| <= Total(SentMapOf(st.conns, f))
  {
    hide Good, Step, EntriesOf, SentMapOf;
    StartGood();
    assert Covered(START, f) by { StartCovered(f); }
    var states, events :| Path(states, events) && states[0] == START && states[|events|] == st;
    PathCovered(states, events, f);
  }

  lemma StartCovered(f: Frame)
    ensures Covered(START, f)
  {
    assert EntriesOf(START.entered, f) == {} && StoredMapOf(START.conns, f) == map[];
  }
}
