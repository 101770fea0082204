/** What replaying a transaction does, request by request: each SEND becomes an EnqueueOp, and each ACK or NACK the requests
    of the pending subscriptions it takes, in the order of the frames; and the pending list is what the ACK and NACK
    frames, one after the other, leave of it. */
module BrokerCommits {
  import opened Text
  import opened Sequences
  import opened Frames
  import opened Broker
  import opened BrokerTokens
  import opened BrokerAnswers
  import opened BrokerAcks

  /** The entries of q are known and hold a frame. */
  predicate Holding(subs: map<SubId, Sub>, q: seq<SubId>) {
    forall s | s in q :: s in subs && subs[s].frame.Some?
  }

  /** What one frame of a transaction leaves of the pending list q. */
  function PendingAfter(subs: map<SubId, Sub>, q: seq<SubId>, f: Frame): (r: seq<SubId>)
    requires Holding(subs, q)
    ensures Holding(subs, r)
  {
    if f.command == "SEND" then q else Unmatched(subs, q, AckNumber(f), f.command == "NACK")
  }

  /** The requests that one frame of a transaction causes; ref is the identity of the next message. */
  function OpsOf(subs: map<SubId, Sub>, q: seq<SubId>, ref: Ref, f: Frame): seq<Op>
    requires Holding(subs, q)
  {
    if f.command == "SEND" then [Enqueue(Msg(ref, f.(command := "MESSAGE")))]
    else SettleOps(subs, q, AckNumber(f), f.command == "NACK")
  }

  function RefAfter(ref: Ref, f: Frame): Ref {
    if f.command == "SEND" then ref + 1 else ref
  }

  /** What the frames of a transaction leave of the pending list. */
  function TxPending(subs: map<SubId, Sub>, q: seq<SubId>, frames: seq<Frame>): seq<SubId>
    requires Holding(subs, q)
    decreases |frames|
  {
    if frames == [] then q else TxPending(subs, PendingAfter(subs, q, frames[0]), frames[1..])
  }

  /** The requests that the frames of a transaction cause, in order. */
  function TxOps(subs: map<SubId, Sub>, q: seq<SubId>, ref: Ref, frames: seq<Frame>): seq<Op>
    requires Holding(subs, q)
    decreases |frames|
  {
    if frames == [] then []
    else OpsOf(subs, q, ref, frames[0]) + TxOps(subs, PendingAfter(subs, q, frames[0]), RefAfter(ref, frames[0]), frames[1..])
  }

  // ---------------------------------------------------------------- they depend on the pending entries only

  predicate SameOn(subs: map<SubId, Sub>, subs': map<SubId, Sub>, q: seq<SubId>) {
    forall s | s in q :: s in subs && s in subs' && subs'[s] == subs[s]
  }

  lemma {:induction false} SplitSame(subs: map<SubId, Sub>, subs': map<SubId, Sub>, q: seq<SubId>, n: nat, nack: bool)
    requires Holding(subs, q) && SameOn(subs, subs', q)
    ensures Unmatched(subs', q, n, nack) == Unmatched(subs, q, n, nack)
    ensures SettleOps(subs', q, n, nack) == SettleOps(subs, q, n, nack)
  {
    hide Matches;
    if q != [] {
      assert q[0] in q && forall s | s in q[1..] :: s in q;
      SplitSame(subs, subs', q[1..], n, nack);
    }
  }

  lemma {:induction false} TxSame(subs: map<SubId, Sub>, subs': map<SubId, Sub>, q: seq<SubId>, ref: Ref, frames: seq<Frame>)
    requires Holding(subs, q) && SameOn(subs, subs', q)
    ensures TxPending(subs', q, frames) == TxPending(subs, q, frames)
    ensures TxOps(subs', q, ref, frames) == TxOps(subs, q, ref, frames)
    decreases |frames|
  {
    hide Unmatched, SettleOps, AckNumber;
    if frames != [] {
      var f := frames[0];
      SplitSame(subs, subs', q, AckNumber(f), f.command == "NACK");
      TxSame(subs, subs', PendingAfter(subs, q, f), RefAfter(ref, f), frames[1..]);
    }
  }

  // ---------------------------------------------------------------- one frame

  /** Settling leaves the entries that stay pending, and the numbering of messages, alone. */
  predicate Untouched(st: System, st': System, c: ConnId) {
    && c in st.conns && c in st'.conns && st'.nextRef == st.nextRef
    && (forall s | s in st'.conns[c].pending :: s in st.conns[c].pending)
    && SameOn(st.subs, st'.subs, st'.conns[c].pending)
  }

  lemma SettleAtUntouched(st: System, c: ConnId, i: nat, nack: bool)
    requires PendingOk(st, c) && i < |st.conns[c].pending|
    ensures Untouched(st, SettleAt(st, c, i, nack), c)
  {
    var q := st.conns[c].pending;
    RemovedAt(q, i);
    assert forall s | s in q[..i] + q[i + 1..] :: s in q;
  }

  lemma PendingUntouched(st: System, c: ConnId)
    requires PendingOk(st, c)
    ensures Untouched(st, st, c)
  {
  }

  lemma UntouchedTrans(st: System, st': System, st'': System, c: ConnId)
    requires Untouched(st, st', c) && Untouched(st', st'', c)
    ensures Untouched(st, st'', c)
  {
  }

  lemma {:induction false} SettleUntouched(st: System, c: ConnId, n: nat, i: nat, nack: bool)
    requires PendingOk(st, c) && i <= |st.conns[c].pending|
    ensures Settle(st, c, n, i, nack).Done? ==> Untouched(st, Settle(st, c, n, i, nack).st, c)
    decreases |st.conns[c].pending| - i
  {
    hide IsAckedBy, ValidAck, SettleAt, Untouched;
    PendingUntouched(st, c);
    if i < |st.conns[c].pending| {
      assert Known(st, st.conns[c].pending[i]) && st.subs[st.conns[c].pending[i]].frame.Some?;
      SettleAtPending(st, c, i, nack);
      hide PendingOk;
      var st1 := SettleAt(st, c, i, nack);
      if nack || ValidAck(st.subs[st.conns[c].pending[i]].ack) {
        if Matches(st.subs[st.conns[c].pending[i]], n, nack) {
          SettleAtUntouched(st, c, i, nack);
          SettleUntouched(st1, c, n, i, nack);
          if Settle(st1, c, n, i, nack).Done? { UntouchedTrans(st, st1, Settle(st1, c, n, i, nack).st, c); }
        } else {
          SettleUntouched(st, c, n, i + 1, nack);
        }
      }
    }
  }

  lemma PendingHolding(st: System, c: ConnId)
    requires PendingOk(st, c)
    ensures c in st.conns && Holding(st.subs, st.conns[c].pending)
  {
  }

  /** st' is st after connection c replayed f. */
  predicate Replayed(st: System, st': System, c: ConnId, f: Frame) {
    && c in st.conns && c in st'.conns && Holding(st.subs, st.conns[c].pending)
    && st'.conns[c].pending == PendingAfter(st.subs, st.conns[c].pending, f)
    && st'.conns[c].outbox == st.conns[c].outbox + OpsOf(st.subs, st.conns[c].pending, st.nextRef, f)
    && st'.nextRef == RefAfter(st.nextRef, f)
    && SameOn(st.subs, st'.subs, st'.conns[c].pending)
  }

  lemma OneReplayed(st: System, c: ConnId, f: Frame, io: bool)
    requires PendingOk(st, c) && Replayable(f)
    ensures Dispatch(st, c, f, io).Done? ==>
              PendingOk(Dispatch(st, c, f, io).st, c) && Replayed(st, Dispatch(st, c, f, io).st, c, f)
  {
    PendingHolding(st, c);
    ReplayDispatch(st, c, f, io);
    hide Dispatch, Settle, PendingOk, Unmatched, SettleOps, Replayable, AckNumber, Submit;
    if f.command == "SEND" {
      SubmitReplayed(st, c, f);
    } else {
      var n, nack, q := AckNumber(f), f.command == "NACK", st.conns[c].pending;
      SettleSplits(st, c, n, 0, nack);
      SettleUntouched(st, c, n, 0, nack);
      assert q[0..] == q && q[..0] == [];
      if Settle(st, c, n, 0, nack).Done? { SplitReplayed(st, Settle(st, c, n, 0, nack).st, c, f); }
    }
  }

  lemma SubmitReplayed(st: System, c: ConnId, f: Frame)
    requires PendingOk(st, c) && f.command == "SEND"
    ensures PendingOk(Submit(st, c, f), c) && Replayed(st, Submit(st, c, f), c, f)
  {
    hide IsQueueFrame;
  }

  lemma SplitReplayed(st: System, st': System, c: ConnId, f: Frame)
    requires PendingOk(st, c) && f.command != "SEND" && Untouched(st, st', c)
    requires BrokerAcks.Split(st, st', c, AckNumber(f), 0, f.command == "NACK")
    ensures PendingOk(st', c) && Replayed(st, st', c, f)
  {
    hide Unmatched, SettleOps, AckNumber;
    var q := st.conns[c].pending;
    assert q[0..] == q && q[..0] == [];
  }

  /** A stored frame has no receipt and no transaction entry, so its handler goes straight to the work. */
  lemma ReplayDispatch(st: System, c: ConnId, f: Frame, io: bool)
    requires c in st.conns && Replayable(f)
    ensures f.command == "SEND" || f.command == "ACK" || f.command == "NACK"
    ensures Dispatch(st, c, f, io) ==
            if f.command == "SEND" then Done(Submit(st, c, f)) else Settle(st, c, AckNumber(f), 0, f.command == "NACK")
  {
    hide Settle, ParseUint, IsQueueFrame, Submit;
    DropAbsent(f.header, "receipt");
    assert StripReceipt(f) == f;
  }

  // ---------------------------------------------------------------- the whole transaction

  /** st' is st after connection c replayed the frames. */
  predicate AllReplayed(st: System, st': System, c: ConnId, frames: seq<Frame>) {
    && c in st.conns && c in st'.conns && Holding(st.subs, st.conns[c].pending)
    && st'.conns[c].pending == TxPending(st.subs, st.conns[c].pending, frames)
    && st'.conns[c].outbox == st.conns[c].outbox + TxOps(st.subs, st.conns[c].pending, st.nextRef, frames)
  }

  lemma ReplayedThenAll(st: System, st': System, st'': System, c: ConnId, frames: seq<Frame>)
    requires frames != [] && Replayed(st, st', c, frames[0]) && AllReplayed(st', st'', c, frames[1..])
    ensures AllReplayed(st, st'', c, frames)
  {
    hide AckNumber, Unmatched, SettleOps, OpsOf;
    var q' := st'.conns[c].pending;
    TxSame(st.subs, st'.subs, q', st'.nextRef, frames[1..]);
    Regroup(st.conns[c].outbox, OpsOf(st.subs, st.conns[c].pending, st.nextRef, frames[0]),
            TxOps(st.subs, q', st'.nextRef, frames[1..]));
  }

  /** Replaying a transaction that is not brought down causes exactly the requests of its frames, in order, and leaves
      exactly the pending entries that none of them takes. */
  lemma {:induction false} ReplayDoesAll(st: System, c: ConnId, frames: seq<Frame>, io: bool)
    requires PendingOk(st, c) && forall i | 0 <= i < |frames| :: Replayable(frames[i])
    ensures Replay(st, c, frames, io).Done? ==>
              PendingOk(Replay(st, c, frames, io).st, c) && AllReplayed(st, Replay(st, c, frames, io).st, c, frames)
    decreases |frames|
  {
    hide Dispatch, PendingOk, Replayable, Replayed, AllReplayed;
    PendingHasConn(st, c);
    if frames == [] {
      assert AllReplayed(st, st, c, []) by { NothingReplayed(st, c); }
    } else {
      assert Replayable(frames[0]);
      OneReplayed(st, c, frames[0], io);
      if Dispatch(st, c, frames[0], io).Done? {
        var st' := Dispatch(st, c, frames[0], io).st;
        PendingHasConn(st', c);
        ReplayDoesAll(st', c, frames[1..], io);
        if Replay(st', c, frames[1..], io).Done? { ReplayedThenAll(st, st', Replay(st', c, frames[1..], io).st, c, frames); }
      }
    }
  }

  lemma NothingReplayed(st: System, c: ConnId)
    requires PendingOk(st, c)
    ensures AllReplayed(st, st, c, [])
  {
  }

  /** The same for HandleCommit, which writes the receipt first and deletes the transaction last. */
  lemma CommitDoesAll(st: System, c: ConnId, f: Frame, io: bool, tx: string)
    requires PendingOk(st, c) && TxOk(st.conns[c].txs) && f.command == "COMMIT"
    requires Find(f.header, "transaction") == Some(tx) && tx in st.conns[c].txs && !ReceiptFails(f, io)
    ensures HandleCommit(st, c, f, io).Done? ==> AllReplayed(st, HandleCommit(st, c, f, io).st, c, st.conns[c].txs[tx])
  {
    hide Find, Replay, Replayable, ReceiptFails, Receipt, PendingOk, AllReplayed;
    PendingHasConn(st, c);
    ReceiptWrote(st, c, f);
    var st', frames := Receipt(st, c, f), st.conns[c].txs[tx];
    ReceiptPending(st, c, f);
    ReplayDoesAll(st', c, frames, io);
    ReplayAll(st', c, frames, io);
    if Replay(st', c, frames, io).Done? {
      var st'' := Replay(st', c, frames, io).st;
      SamePlaces(st, st', st'', HandleCommit(st, c, f, io).st, c, frames);
    }
  }

  lemma ReceiptPending(st: System, c: ConnId, f: Frame)
    requires PendingOk(st, c)
    ensures var st' := Receipt(st, c, f);
            PendingOk(st', c) && st'.subs == st.subs && st'.nextRef == st.nextRef
            && st'.conns[c].pending == st.conns[c].pending && st'.conns[c].outbox == st.conns[c].outbox
  {
  }

  lemma SamePlaces(st: System, st': System, st'': System, st3: System, c: ConnId, frames: seq<Frame>)
    requires c in st.conns && c in st'.conns && c in st''.conns && c in st3.conns
    requires st'.subs == st.subs && st'.nextRef == st.nextRef
    requires st'.conns[c].pending == st.conns[c].pending && st'.conns[c].outbox == st.conns[c].outbox
    requires st3.conns[c].pending == st''.conns[c].pending && st3.conns[c].outbox == st''.conns[c].outbox
    requires AllReplayed(st', st'', c, frames)
    ensures AllReplayed(st, st3, c, frames)
  {
    hide TxOps, TxPending;
  }

  // ---------------------------------------------------------------- what that means

  /** The frame takes s off the pending list. */
  predicate TakenBy(sub: Sub, f: Frame) {
    f.command != "SEND" && Matches(sub, AckNumber(f), f.command == "NACK")
  }

  /** A subscription stays pending exactly when no ACK or NACK of the transaction takes it. */
  lemma {:induction false} StaysPendingIff(subs: map<SubId, Sub>, q: seq<SubId>, frames: seq<Frame>, s: SubId)
    requires Holding(subs, q)
    ensures s in TxPending(subs, q, frames) <==> s in q && forall i | 0 <= i < |frames| :: !TakenBy(subs[s], frames[i])
    decreases |frames|
  {
    hide Matches, AckNumber;
    if frames != [] {
      var f := frames[0];
      UnmatchedMember(subs, q, AckNumber(f), f.command == "NACK", s);
      StaysPendingIff(subs, PendingAfter(subs, q, f), frames[1..], s);
      assert frames == [f] + frames[1..];
    }
  }

  lemma {:induction false} SettleSubscribesIff(subs: map<SubId, Sub>, q: seq<SubId>, n: nat, nack: bool, s: SubId)
    requires Holding(subs, q)
    ensures Subscribe(s) in SettleOps(subs, q, n, nack) <==> s in q && Matches(subs[s], n, nack)
    ensures forall op | op in SettleOps(subs, q, n, nack) :: !op.Enqueue?
  {
    hide Matches;
    if q != [] {
      assert q[0] in q && forall x | x in q[1..] :: x in q;
      SettleSubscribesIff(subs, q[1..], n, nack, s);
      assert q == [q[0]] + q[1..];
    }
  }

  /** A pending subscription goes back to its queue exactly when some frame of the transaction takes it. */
  lemma {:induction false} SubscribesAgainIff(subs: map<SubId, Sub>, q: seq<SubId>, ref: Ref, frames: seq<Frame>, s: SubId)
    requires Holding(subs, q)
    ensures Subscribe(s) in TxOps(subs, q, ref, frames) <==> s in q && exists i :: 0 <= i < |frames| && TakenBy(subs[s], frames[i])
    decreases |frames|
  {
    hide Matches, AckNumber, SettleOps;
    if frames != [] {
      var f, rest := frames[0], frames[1..];
      UnmatchedMember(subs, q, AckNumber(f), f.command == "NACK", s);
      SettleSubscribesIff(subs, q, AckNumber(f), f.command == "NACK", s);
      SubscribesAgainIff(subs, PendingAfter(subs, q, f), RefAfter(ref, f), rest, s);
      assert forall i | 0 <= i < |rest| :: rest[i] == frames[i + 1];
      if i :| 0 <= i < |frames| && s in q && TakenBy(subs[s], frames[i]) {
        if i > 0 { assert TakenBy(subs[s], rest[i - 1]); }
      }
      if i :| 0 <= i < |rest| && s in q && TakenBy(subs[s], rest[i]) { assert TakenBy(subs[s], frames[i + 1]); }
    }
  }

  /** An EnqueueOp that the processor cannot serve. */
  predicate Lost(op: Op) {
    op.Enqueue? && Destination(op.m.frame).None?
  }

  /** A transaction causes such a request exactly when it has a SEND without a destination. */
  lemma {:induction false} LosesIff(subs: map<SubId, Sub>, q: seq<SubId>, ref: Ref, frames: seq<Frame>)
    requires Holding(subs, q)
    ensures (exists op :: op in TxOps(subs, q, ref, frames) && Lost(op))
            <==> exists i :: 0 <= i < |frames| && frames[i].command == "SEND" && Destination(frames[i]).None?
    decreases |frames|
  {
    hide Matches, AckNumber, SettleOps, Find;
    if frames != [] {
      var f, rest := frames[0], frames[1..];
      SettleSubscribesIff(subs, q, AckNumber(f), f.command == "NACK", 0);
      LosesIff(subs, PendingAfter(subs, q, f), RefAfter(ref, f), rest);
      LosesFirst(subs, q, ref, f);
      if op :| op in TxOps(subs, q, ref, frames) && Lost(op) {
        assert op in OpsOf(subs, q, ref, f) || op in TxOps(subs, PendingAfter(subs, q, f), RefAfter(ref, f), rest);
      }
      if i :| 0 <= i < |rest| && rest[i].command == "SEND" && Destination(rest[i]).None? {
        assert frames[i + 1].command == "SEND" && Destination(frames[i + 1]).None?;
      }
      if i :| 0 < i < |frames| && frames[i].command == "SEND" && Destination(frames[i]).None? {
        assert rest[i - 1].command == "SEND" && Destination(rest[i - 1]).None?;
      }
    }
  }

  lemma LosesFirst(subs: map<SubId, Sub>, q: seq<SubId>, ref: Ref, f: Frame)
    requires Holding(subs, q)
    ensures (exists op :: op in OpsOf(subs, q, ref, f) && Lost(op)) <==> f.command == "SEND" && Destination(f).None?
  {
    hide Matches, AckNumber, SettleOps, Find;
    SettleSubscribesIff(subs, q, AckNumber(f), f.command == "NACK", 0);
    var f' := f.(command := "MESSAGE");
    assert Destination(f') == Destination(f);
    if f.command == "SEND" { assert Enqueue(Msg(ref, f')) in OpsOf(subs, q, ref, f); }
  }
}
