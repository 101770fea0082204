/** Where subscriptions come from: each was asked for by a SUBSCRIBE frame. And who can be revived: when a client uses no id
    twice, only a subscription that an ACK or NACK matched after it was unsubscribed. */
module BrokerIds {
  import opened Text
  import opened Frames
  import opened Sequences
  import opened Broker
  import opened BrokerTokens
  import opened BrokerCleanup
  import opened BrokerRuns
  import opened BrokerAnswers
  import opened BrokerAcks
  import opened BrokerClients
  import opened BrokerTheorems
  import opened BrokerClosing
  import opened BrokerHistory
  import Queues

  // ---------------------------------------------------------------- ids that a client uses

  predicate IsSubscribe(f: Frame, id: string) {
    f.command == "SUBSCRIBE" && Find(f.header, "id") == Some(id)
  }

  /** The frame asks for this subscription: a SUBSCRIBE with its id and destination, and its ack mode, which is automatic when
      there is no ack entry. */
  predicate MadeFrom(f: Frame, sub: Sub) {
    && f.command == "SUBSCRIBE" && Find(f.header, "id") == Some(sub.id) && Find(f.header, "destination") == Some(sub.dest)
    && sub.ack == match Find(f.header, "ack") case Some(a) => a case None => "auto"
  }

  ghost predicate AskedFor(received: seq<Frame>, sub: Sub) {
    exists j :: 0 <= j < |received| && MadeFrom(received[j], sub)
  }

  /** No two SUBSCRIBE frames have the same id. */
  ghost predicate DistinctIds(received: seq<Frame>) {
    forall i, j, id | 0 <= i < j < |received| && IsSubscribe(received[i], id) :: !IsSubscribe(received[j], id)
  }

  /** The connection has received a SUBSCRIBE with this id. */
  ghost predicate Used(received: seq<Frame>, id: string) {
    exists j :: 0 <= j < |received| && IsSubscribe(received[j], id)
  }

  /** The subscriptions of c are those that its client asked for; when it used no id twice, their ids are distinct, and those
      that are revived were matched. */
  ghost predicate ConnIds(st: System, c: ConnId)
    requires c in st.conns
  {
    && (forall s | s in st.subs && st.subs[s].conn == c :: AskedFor(st.conns[c].received, st.subs[s]))
    && (DistinctIds(st.conns[c].received) ==> OwnIds(st, c) && forall s | s in st.subs && st.subs[s].conn == c && s in st.revived :: s in st.matched)
  }

  predicate OwnIds(st: System, c: ConnId) {
    forall s, s' | s in st.subs && s' in st.subs && st.subs[s].conn == c && st.subs[s'].conn == c && st.subs[s].id == st.subs[s'].id :: s == s'
  }

  ghost predicate Ids(st: System) {
    && (forall s | s in st.revived :: s in st.subs)
    && forall c | c in st.conns :: ConnIds(st, c)
  }

  lemma AskedMore(received: seq<Frame>, f: Frame, sub: Sub, sub': Sub)
    requires AskedFor(received, sub) && SameSub(sub, sub')
    ensures AskedFor(received + [f], sub') && AskedFor(received, sub')
  {
    hide Find;
    var j :| 0 <= j < |received| && MadeFrom(received[j], sub);
    assert (received + [f])[j] == received[j] && MadeFrom(received[j], sub');
  }

  /** Whoever asked for a subscription used its id. */
  lemma AskedIsUsed(received: seq<Frame>, sub: Sub)
    requires AskedFor(received, sub)
    ensures Used(received, sub.id)
  {
    hide Find;
    var j :| 0 <= j < |received| && MadeFrom(received[j], sub);
    assert IsSubscribe(received[j], sub.id);
  }

  lemma DistinctFewer(received: seq<Frame>, f: Frame)
    requires DistinctIds(received + [f])
    ensures DistinctIds(received) && forall id | IsSubscribe(f, id) :: !Used(received, id)
  {
    hide IsSubscribe;
    var more := received + [f];
    assert forall i | 0 <= i < |received| :: more[i] == received[i];
    forall id | IsSubscribe(f, id) ensures !Used(received, id) {
      assert more[|received|] == f;
    }
  }

  // ---------------------------------------------------------------- what an event does to the subscriptions

  /** Subscriptions keep their terms; at most one is new, it is one of connection c that this frame asks for; and who is
      revived now was revived before or is matched. */
  predicate Minds(st: System, st': System, c: ConnId, from: Option<Frame>) {
    && (forall s | s in st.subs :: s in st'.subs && SameSub(st.subs[s], st'.subs[s]))
    && (forall s | s in st'.subs && s !in st.subs :: s == st.nextSub && st'.subs[s].conn == c && from.Some? && MadeFrom(from.value, st'.subs[s]))
    && (forall s | s in st'.revived :: s in st.revived || s in st'.matched)
    && st.matched <= st'.matched
  }

  /** Nothing that matters here has changed. */
  predicate SameIds(st: System, st': System) {
    && st'.subs == st.subs && st'.revived == st.revived && st'.matched == st.matched && st'.nextSub == st.nextSub
  }

  lemma SameMinds(st: System, st': System, c: ConnId, from: Option<Frame>)
    requires SameIds(st, st')
    ensures Minds(st, st', c, from)
  {
  }

  lemma MindsTrans(st: System, st': System, st'': System, c: ConnId)
    requires Minds(st, st', c, None) && Minds(st', st'', c, None)
    ensures Minds(st, st'', c, None)
  {
  }

  lemma SettleAtMinds(st: System, c: ConnId, i: nat, nack: bool)
    requires c in st.conns && i < |st.conns[c].pending|
    requires Known(st, st.conns[c].pending[i]) && st.subs[st.conns[c].pending[i]].frame.Some?
    ensures Minds(st, SettleAt(st, c, i, nack), c, None)
  {
  }

  lemma {:induction false} SettleMinds(st: System, c: ConnId, n: nat, i: nat, nack: bool)
    requires c in st.conns && i <= |st.conns[c].pending|
    ensures Settle(st, c, n, i, nack).Done? ==> Minds(st, Settle(st, c, n, i, nack).st, c, None)
    decreases |st.conns[c].pending| - i
  {
    hide IsAckedBy, ValidAck, Minds;
    SameMinds(st, st, c, None);
    if i < |st.conns[c].pending| {
      var s := st.conns[c].pending[i];
      if Known(st, s) && st.subs[s].frame.Some? && (nack || ValidAck(st.subs[s].ack)) {
        if if nack then n == st.subs[s].msgId else IsAckedBy(st.subs[s].ack, st.subs[s].msgId, n) {
          var st1 := SettleAt(st, c, i, nack);
          SettleAtMinds(st, c, i, nack);
          SettleMinds(st1, c, n, i, nack);
          if Settle(st1, c, n, i, nack).Done? { MindsTrans(st, st1, Settle(st1, c, n, i, nack).st, c); }
        } else {
          SettleMinds(st, c, n, i + 1, nack);
        }
      }
    }
  }

  /** The frame, if it may make a subscription. */
  function Source(f: Frame): Option<Frame> {
    if f.command == "SUBSCRIBE" then Some(f) else None
  }

  predicate HandledMinds(st: System, h: Handled, c: ConnId, from: Option<Frame>) {
    !h.Crashed? ==> Minds(st, h.st, c, from)
  }

  lemma ReceiptSame(st: System, c: ConnId, f: Frame)
    requires c in st.conns
    ensures SameIds(st, Receipt(st, c, f)) && c in Receipt(st, c, f).conns
  {
  }

  lemma NewSubMinds(st: System, c: ConnId, id: string, dest: string, ack: string, f: Frame)
    requires c in st.conns && st.nextSub !in st.subs && MadeFrom(f, Sub(c, dest, id, ack, 0, false, None, Outbox))
    ensures Minds(st, NewSub(st, c, id, dest, ack), c, Some(f))
  {
    hide Find;
  }

  lemma SubscribeMinds(st: System, c: ConnId, f: Frame)
    requires c in st.conns && st.nextSub !in st.subs && f.command == "SUBSCRIBE"
    ensures HandledMinds(st, HandleSubscribe(st, c, f), c, Source(f))
  {
    hide Find, NewSub, Minds;
    SameMinds(st, st, c, Source(f));
    if Find(f.header, "id").Some? && Destination(f).Some? {
      NewSubMinds(st, c, Find(f.header, "id").value, Destination(f).value, match Find(f.header, "ack") case Some(a) => a case None => "auto", f);
    }
  }

  lemma AckMinds(st: System, c: ConnId, f: Frame, io: bool, nack: bool)
    requires c in st.conns
    ensures HandledMinds(st, HandleAck(st, c, f, io, nack), c, None)
  {
    hide Find, StripReceipt, Receipt, Settle, ParseUint, AckId, ReceiptFails, Minds;
    ReceiptSame(st, c, f);
    SameMinds(st, st, c, None);
    SameMinds(st, Receipt(st, c, f), c, None);
    if AckId(f).Some? && ParseUint(AckId(f).value, UINT64_LIMIT - 1).Some? {
      var n := ParseUint(AckId(f).value, UINT64_LIMIT - 1).value;
      match Find(StripReceipt(f).header, "transaction")
      case Some(tx) =>
        AddSame(Receipt(st, c, f), c, tx, StripReceipt(f));
        SameMinds(st, AddToTx(Receipt(st, c, f), c, tx, StripReceipt(f)).st, c, None);
      case None =>
        SettleMinds(Receipt(st, c, f), c, n, 0, nack);
        SettleSilent(Receipt(st, c, f), c, n, 0, nack);
        if Settle(Receipt(st, c, f), c, n, 0, nack).Done? {
          MindsTrans(st, Receipt(st, c, f), Settle(Receipt(st, c, f), c, n, 0, nack).st, c);
        }
    }
  }

  lemma AddSame(st: System, c: ConnId, tx: string, f: Frame)
    requires c in st.conns
    ensures !AddToTx(st, c, tx, f).Crashed? && SameIds(st, AddToTx(st, c, tx, f).st)
  {
    hide Drop;
  }

  lemma SendSame(st: System, c: ConnId, f: Frame)
    requires c in st.conns
    ensures !SendBody(st, c, f).Crashed? && SameIds(st, SendBody(st, c, f).st)
  {
    hide Find, AddToTx, IsQueueFrame;
    match Find(f.header, "transaction")
    case Some(tx) => AddSame(st, c, tx, f);
    case None =>
  }

  lemma UnsubscribeSame(st: System, c: ConnId, f: Frame)
    requires c in st.conns
    ensures !HandleUnsubscribe(st, c, f).Crashed? && SameIds(st, HandleUnsubscribe(st, c, f).st)
  {
    hide Find;
  }

  lemma OtherMinds(st: System, c: ConnId, f: Frame, io: bool)
    requires c in st.conns && f.command !in {"SUBSCRIBE", "ACK", "NACK"}
    ensures !Dispatch(st, c, f, io).Crashed? ==> SameIds(st, Dispatch(st, c, f, io).st)
  {
    hide Find, StripReceipt, HandleAck, HandleSubscribe, HandleTx, HandleUnsubscribe, SendBody, Receipt, ReceiptFails;
    ReceiptSame(st, c, f);
    SendSame(Receipt(st, c, f), c, StripReceipt(f));
    HandleTxSame(st, c, f, io);
    UnsubscribeSame(st, c, f);
  }

  lemma DispatchMinds(st: System, c: ConnId, f: Frame, io: bool)
    requires c in st.conns && st.nextSub !in st.subs
    ensures HandledMinds(st, Dispatch(st, c, f, io), c, Source(f))
  {
    hide HandleAck, HandleTx, SendBody, HandleSubscribe, HandleUnsubscribe, Minds, Find, Receipt, ReceiptFails, StripReceipt;
    if f.command == "SUBSCRIBE" {
      SubscribeMinds(st, c, f);
    } else if f.command == "ACK" || f.command == "NACK" {
      AckMinds(st, c, f, io, f.command == "NACK");
    } else {
      OtherMinds(st, c, f, io);
      if !Dispatch(st, c, f, io).Crashed? { SameMinds(st, Dispatch(st, c, f, io).st, c, Source(f)); }
    }
  }

  lemma {:induction false} ReplayMinds(st: System, c: ConnId, frames: seq<Frame>, io: bool)
    requires c in st.conns && st.nextSub !in st.subs && forall i | 0 <= i < |frames| :: Replayable(frames[i])
    ensures Replay(st, c, frames, io).Done? ==> Minds(st, Replay(st, c, frames, io).st, c, None)
    decreases |frames|
  {
    hide Dispatch, Replayable, Minds;
    SameMinds(st, st, c, None);
    if frames != [] {
      assert Replayable(frames[0]);
      ReplayableCommand(frames[0]);
      DispatchMinds(st, c, frames[0], io);
      ReplayOne(st, c, frames[0], io);
      if Dispatch(st, c, frames[0], io).Done? {
        var st' := Dispatch(st, c, frames[0], io).st;
        ReplayKeepsNext(st, c, frames[0], io);
        ReplayMinds(st', c, frames[1..], io);
        if Replay(st', c, frames[1..], io).Done? { MindsTrans(st, st', Replay(st', c, frames[1..], io).st, c); }
      }
    }
  }

  lemma {:induction false} SettleKeepsNext(st: System, c: ConnId, n: nat, i: nat, nack: bool)
    requires c in st.conns && i <= |st.conns[c].pending|
    ensures Settle(st, c, n, i, nack).Done? ==>
              Settle(st, c, n, i, nack).st.nextSub == st.nextSub && Settle(st, c, n, i, nack).st.subs.Keys == st.subs.Keys
    decreases |st.conns[c].pending| - i
  {
    hide IsAckedBy, ValidAck;
    if i < |st.conns[c].pending| {
      var s := st.conns[c].pending[i];
      if Known(st, s) && st.subs[s].frame.Some? && (nack || ValidAck(st.subs[s].ack)) {
        if if nack then n == st.subs[s].msgId else IsAckedBy(st.subs[s].ack, st.subs[s].msgId, n) {
          SettleKeepsNext(SettleAt(st, c, i, nack), c, n, i, nack);
        } else {
          SettleKeepsNext(st, c, n, i + 1, nack);
        }
      }
    }
  }

  lemma ReplayKeepsNext(st: System, c: ConnId, f: Frame, io: bool)
    requires c in st.conns && Replayable(f)
    ensures Dispatch(st, c, f, io).Done? ==> Dispatch(st, c, f, io).st.nextSub == st.nextSub && Dispatch(st, c, f, io).st.subs.Keys == st.subs.Keys
  {
    hide Settle, ParseUint, IsQueueFrame;
    DropAbsent(f.header, "receipt");
    assert StripReceipt(f) == f;
    if f.command != "SEND" {
      SettleKeepsNext(st, c, ParseUint(AckId(f).value, UINT64_LIMIT - 1).value, 0, f.command == "NACK");
    }
  }

  lemma HandleTxSame(st: System, c: ConnId, f: Frame, io: bool)
    requires c in st.conns
    ensures !HandleTx(st, c, f, io).Crashed? ==> SameIds(st, HandleTx(st, c, f, io).st)
  {
    hide Find, StripReceipt, Receipt, ReceiptFails;
    ReceiptSame(st, c, f);
  }

  lemma CommitMinds(st: System, c: ConnId, f: Frame, io: bool)
    requires c in st.conns && st.nextSub !in st.subs && f.command == "COMMIT" && TxOk(st.conns[c].txs)
    ensures HandledMinds(st, HandleCommit(st, c, f, io), c, None)
  {
    hide Find, Replay, Receipt, StripReceipt, HandleTx, Replayable, Minds;
    HandleTxEnters(st, c, f, io);
    HandleTxSame(st, c, f, io);
    SameMinds(st, HandleTx(st, c, f, io).st, c, None);
    if HandleTx(st, c, f, io).Done? {
      var st' := Receipt(st, c, f);
      var frames := st.conns[c].txs[Find(f.header, "transaction").value];
      ReplayAll(st', c, frames, io);
      ReplayMinds(st', c, frames, io);
      if Replay(st', c, frames, io).Done? {
        var st'' := Replay(st', c, frames, io).st;
        MindsTrans(st, st', st'', c);
        SameMinds(st'', HandleCommit(st, c, f, io).st, c, None);
        MindsTrans(st, st'', HandleCommit(st, c, f, io).st, c);
      }
    }
  }

  lemma HandleMinds(st: System, c: ConnId, f: Frame, io: bool, admit: bool)
    requires c in st.conns && st.nextSub !in st.subs && TxOk(st.conns[c].txs)
    ensures HandledMinds(st, Handle(st, c, f, io, admit), c, Source(f))
  {
    hide HandleCommit, Dispatch, TxOk, Minds, Find;
    if st.conns[c].phase == Connecting {
      if !HandleConnect(st, c, f, admit).Crashed? { SameMinds(st, HandleConnect(st, c, f, admit).st, c, Source(f)); }
    } else if f.command == "COMMIT" {
      CommitMinds(st, c, f, io);
    } else {
      DispatchMinds(st, c, f, io);
    }
  }

  // ---------------------------------------------------------------- events

  lemma ReceiveMinds(st: System, c: ConnId, f: Frame, io: bool, admit: bool)
    requires Inv(st) && InLoop(st, c) && TxOk(st.conns[c].txs) && Receive(st, c, f, io, admit).Next?
    ensures Minds(st, Receive(st, c, f, io, admit).st, c, Source(f))
  {
    hide Inv, TxOk, Handle, Minds, Find, ErrorFrame;
    NextSubIsNew(st);
    var st0 := Arrived(st, c, f);
    HandleMinds(st0, c, f, io, admit);
    var h := Handle(st0, c, f, io, admit);
    if !h.Crashed? { SameEnds(st, st0, h.st, Receive(st, c, f, io, admit).st, c, Source(f)); }
  }

  lemma SameEnds(st: System, st0: System, st1: System, st': System, c: ConnId, from: Option<Frame>)
    requires SameIds(st, st0) && Minds(st0, st1, c, from) && SameIds(st1, st')
    ensures Minds(st, st', c, from)
  {
  }

  /** Connection c has received f, and its handler minds the ids. */
  lemma ReceivedIds(st: System, st': System, c: ConnId, f: Frame)
    requires c in st.conns && ConnIds(st, c) && c in st'.conns && st'.conns[c].received == st.conns[c].received + [f]
    requires Minds(st, st', c, Source(f)) && forall s | s in st.revived :: s in st.subs
    ensures ConnIds(st', c)
  {
    var before, now := st.conns[c].received, st'.conns[c].received;
    hide DistinctIds, AskedFor, Used, MadeFrom, IsSubscribe, Find;
    forall s | s in st'.subs && st'.subs[s].conn == c ensures AskedFor(now, st'.subs[s]) {
      if s in st.subs { AskedMore(before, f, st.subs[s], st'.subs[s]); } else { AskedLast(before, f, st'.subs[s]); }
    }
    if DistinctIds(now) {
      DistinctFewer(before, f);
      forall s, s' | s in st'.subs && s' in st'.subs && st'.subs[s].conn == c && st'.subs[s'].conn == c && st'.subs[s].id == st'.subs[s'].id
        ensures s == s'
      {
        if s in st.subs { AskedIsUsed(before, st.subs[s]); }
        if s' in st.subs { AskedIsUsed(before, st.subs[s']); }
        if s !in st.subs { NewIsUnused(before, f, st'.subs[s]); }
        if s' !in st.subs { NewIsUnused(before, f, st'.subs[s']); }
      }
    }
  }

  lemma NewIsUnused(received: seq<Frame>, f: Frame, sub: Sub)
    requires DistinctIds(received + [f]) && MadeFrom(f, sub)
    ensures !Used(received, sub.id)
  {
    hide Find;
    DistinctFewer(received, f);
    assert IsSubscribe(f, sub.id);
  }

  lemma AskedLast(received: seq<Frame>, f: Frame, sub: Sub)
    requires MadeFrom(f, sub)
    ensures AskedFor(received + [f], sub)
  {
    hide MadeFrom;
    assert (received + [f])[|received|] == f;
  }

  /** An event that neither makes nor revives a subscription of c, and in which c receives nothing. */
  lemma QuietIds(st: System, st': System, c: ConnId)
    requires c in st.conns && ConnIds(st, c) && c in st'.conns && st'.conns[c].received == st.conns[c].received
    requires forall s | s in st'.subs && st'.subs[s].conn == c :: s in st.subs && SameSub(st.subs[s], st'.subs[s])
    requires DistinctIds(st.conns[c].received) ==>
               forall s | s in st'.subs && st'.subs[s].conn == c && s in st'.revived :: s in st.revived || s in st'.matched
    requires st.matched <= st'.matched
    ensures ConnIds(st', c)
  {
    hide DistinctIds, AskedFor, Find;
    forall s | s in st'.subs && st'.subs[s].conn == c ensures AskedFor(st'.conns[c].received, st'.subs[s]) {
      AskedMore(st.conns[c].received, Frame("", [], ""), st.subs[s], st'.subs[s]);
    }
  }

  lemma LocalIds(st: System, st': System, d: ConnId, c: ConnId)
    requires Ids(st) && Local(st, st', d) && c in st.conns && d != c && st.matched <= st'.matched
    ensures c in st'.conns && ConnIds(st', c)
  {
    hide ConnIds;
    QuietIds(st, st', c);
  }

  lemma ReceiveIds(st: System, c: ConnId, f: Frame, io: bool, admit: bool)
    requires Inv(st) && Ids(st) && InLoop(st, c) && TxOk(st.conns[c].txs) && Receive(st, c, f, io, admit).Next?
    ensures Ids(Receive(st, c, f, io, admit).st)
  {
    hide Inv, TxOk, ConnIds, Receive, Local, Remembers, Minds, Find;
    ReceivedGrows(st, c, f, io, admit);
    ReceiveGood(st, c, f, io, admit);
    ReceiveMinds(st, c, f, io, admit);
    var st' := Receive(st, c, f, io, admit).st;
    ReceivedIds(st, st', c, f);
    MatchedGrows(st, st', c, Source(f));
    RevivedKnown(st, st', c, Source(f));
    LocalKeys(st, st', c);
    forall e | e in st'.conns && e != c ensures ConnIds(st', e) { LocalIds(st, st', c, e); }
  }

  lemma RevivedKnown(st: System, st': System, c: ConnId, from: Option<Frame>)
    requires Inv(st') && Minds(st, st', c, from) && forall s | s in st.revived :: s in st.subs
    ensures forall s | s in st'.revived :: s in st'.subs
  {
    hide Conserved, Ordered, ConnsOk, QueuesOk, RequestTokens;
  }

  lemma MatchedGrows(st: System, st': System, c: ConnId, from: Option<Frame>)
    requires Minds(st, st', c, from)
    ensures st.matched <= st'.matched
  {
  }

  lemma LocalKeys(st: System, st': System, c: ConnId)
    requires Local(st, st', c)
    ensures st'.conns.Keys == st.conns.Keys
  {
  }

  /** A delivery revives a subscription only when another one has its id. */
  lemma DeliverRevives(st: System, c: ConnId, io: bool)
    requires Inv(st) && c in st.conns && OwnIds(st, c) && st.conns[c].channel != [] && Deliver(st, c, io).Next?
    ensures Deliver(st, c, io).st.revived == st.revived
  {
    hide Conserved, Ordered, Stamp, NextMsgId, Tokens;
    IdOwner(st, c);
  }

  lemma IdOwner(st: System, c: ConnId)
    requires Inv(st) && c in st.conns && OwnIds(st, c) && st.conns[c].channel != []
    ensures var s := st.conns[c].channel[0];
            Known(st, s) && st.subs[s].frame.Some? && (st.subs[s].id in st.conns[c].subs ==> st.conns[c].subs[st.subs[s].id] == s)
  {
    hide Conserved, Ordered;
    assert ConnTokens(st.subs, c, st.conns[c]);
    hide Tokens;
    ChannelFacts(st, c);
  }

  lemma DeliverSame(st: System, c: ConnId, io: bool)
    requires c in st.conns && st.conns[c].channel != [] && Deliver(st, c, io).Next?
    ensures var st' := Deliver(st, c, io).st;
            && st'.matched == st.matched && st'.subs.Keys == st.subs.Keys && st'.conns.Keys == st.conns.Keys
            && st'.conns[c].received == st.conns[c].received
            && forall s | s in st'.revived :: s in st.revived || s in st.subs
  {
    hide Stamp, NextMsgId;
  }

  lemma DeliverIds(st: System, c: ConnId, io: bool)
    requires Inv(st) && Ids(st) && InLoop(st, c) && st.conns[c].channel != [] && Deliver(st, c, io).Next?
    ensures Ids(Deliver(st, c, io).st)
  {
    hide Inv, ConnIds, Deliver, OwnIds, DistinctIds;
    DeliverGood(st, c, io);
    DeliverSame(st, c, io);
    var st' := Deliver(st, c, io).st;
    if DistinctIds(st.conns[c].received) {
      ConnOwnIds(st, c);
      DeliverRevives(st, c, io);
    }
    QuietIds(st, st', c);
    forall e | e in st'.conns && e != c ensures ConnIds(st', e) { LocalIds(st, st', c, e); }
  }

  lemma ConnOwnIds(st: System, c: ConnId)
    requires c in st.conns && ConnIds(st, c) && DistinctIds(st.conns[c].received)
    ensures OwnIds(st, c)
  {
    hide OwnIds;
  }

  lemma ServeIds(st: System)
    requires Inv(st) && Ids(st) && Serve(st).Next?
    ensures Ids(Serve(st).st)
  {
    hide Tokens, Conserved, Ordered, Serve, WaitingShrinks, ConnIds;
    ServeShrinks(st);
    ServeMatched(st);
    var st' := Serve(st).st;
    if st' != st {
      forall c | c in st'.conns ensures ConnIds(st', c) { QuietIds(st, st', c); }
    }
  }

  lemma ServeMatched(st: System)
    requires Serve(st).Next?
    ensures Serve(st).st.matched == st.matched
  {
    hide IsQueue, Destination, ForSubscription, Known;
  }

  lemma FlushIds(st: System, c: ConnId)
    requires Ids(st) && c in st.conns && st.conns[c].outbox != []
    ensures Ids(Flush(st, c))
  {
    hide ConnIds;
    forall e | e in st.conns ensures ConnIds(Flush(st, c), e) { QuietIds(st, Flush(st, c), e); }
  }

  lemma AcceptIds(st: System, c: ConnId)
    requires Inv(st) && Ids(st) && c !in st.conns
    ensures Ids(WithConn(st, c, EMPTY_CONN))
  {
    hide Tokens, Conserved, Ordered;
    SubsKnown(st);
    var st' := WithConn(st, c, EMPTY_CONN);
    assert ConnIds(st', c);
    hide ConnIds;
    forall e | e in st.conns ensures ConnIds(st', e) { QuietIds(st, st', e); }
  }

  /** Connection c acts without receiving a frame, and no subscription is made, revived or matched. */
  lemma ConnActIds(st: System, st': System, c: ConnId)
    requires Ids(st) && Local(st, st', c) && st'.revived == st.revived && st'.matched == st.matched && st'.subs.Keys == st.subs.Keys
    requires c in st.conns && c in st'.conns && st'.conns[c].received == st.conns[c].received
    ensures Ids(st')
  {
    hide ConnIds;
    QuietIds(st, st', c);
    forall e | e in st'.conns && e != c ensures ConnIds(st', e) { LocalIds(st, st', c, e); }
  }

  lemma CloseKeeps(st: System, c: ConnId, id: string)
    requires c in st.conns && CloseStep(st, c, id).Next?
    ensures SameKeys(st, CloseStep(st, c, id).st)
  {
    DrainKeeps(st, c);
    PendingKeeps(st, c);
    hide Known, DrainOne, GiveBackPending;
  }

  predicate SameKeys(st: System, st': System) {
    st'.revived == st.revived && st'.matched == st.matched && st'.subs.Keys == st.subs.Keys
  }

  lemma DrainKeeps(st: System, c: ConnId)
    requires c in st.conns
    ensures st.conns[c].channel != [] && DrainOne(st, c).Next? ==> SameKeys(st, DrainOne(st, c).st)
  {
  }

  lemma PendingKeeps(st: System, c: ConnId)
    requires c in st.conns
    ensures st.conns[c].pending != [] && Known(st, st.conns[c].pending[0]) && st.subs[st.conns[c].pending[0]].frame.Some? ==>
              SameKeys(st, GiveBackPending(st, c))
  {
  }

  lemma CloseIds(st: System, c: ConnId, id: string)
    requires Inv(st) && Ids(st) && c in st.conns && CloseStep(st, c, id).Next?
    ensures Ids(CloseStep(st, c, id).st)
  {
    hide Inv, Ids, Local, CloseStep;
    CloseGood(st, c, id);
    CloseKeeps(st, c, id);
    LocalKeys(st, CloseStep(st, c, id).st, c);
    CloseQuietly(st, c, id);
    ConnActIds(st, CloseStep(st, c, id).st, c);
  }

  lemma WithConnIds(st: System, c: ConnId, k': Conn)
    requires Ids(st) && c in st.conns && k'.received == st.conns[c].received
    ensures Ids(WithConn(st, c, k'))
  {
    hide Ids, Local;
    LocalConn(st, WithConn(st, c, k'), c);
    ConnActIds(st, WithConn(st, c, k'), c);
  }

  lemma WriteIds(st: System, c: ConnId, io: bool)
    requires Ids(st) && InLoop(st, c) && st.conns[c].writes != []
    ensures Ids(WriteTopicFrame(st, c, io))
  {
    hide Ids, Stamp, NextMsgId;
    var st' := WriteTopicFrame(st, c, io);
    WithConnIds(st, c, st'.conns[c]);
    assert st' == WithConn(st, c, st'.conns[c]);
  }

  lemma StepIds(st: System, e: Event)
    requires Good(st) && Ids(st) && Step(st, e).Next?
    ensures Ids(Step(st, e).st)
  {
    hide Inv, ClientsGood, Ids, Serve, Flush, Receive, Deliver, WriteTopicFrame, CloseStep, Find;
    match e
    case Accept(c) => if c !in st.conns { AcceptIds(st, c); }
    case ServeNext => ServeIds(st);
    case FlushNext(c) => if c in st.conns && st.conns[c].outbox != [] { FlushIds(st, c); }
    case ReceiveFrame(c, f, io, admit) => if InLoop(st, c) { GoodTx(st, c); ReceiveIds(st, c, f, io, admit); }
    case ReadClosed(c) => if InLoop(st, c) { WithConnIds(st, c, Exit(st, c).conns[c]); }
    case DeliverNext(c, io) => if InLoop(st, c) && st.conns[c].channel != [] { DeliverIds(st, c, io); }
    case WriteNext(c, io) => if InLoop(st, c) && st.conns[c].writes != [] { WriteIds(st, c, io); }
    case HeartBeat(c, io) => if InLoop(st, c) { WithConnIds(st, c, Exit(st, c).conns[c]); }
    case TopicFrame(c, f) => if c in st.conns { WithConnIds(st, c, st.conns[c].(writes := st.conns[c].writes + [f])); }
    case Close(c, id) => if c in st.conns && st.conns[c].outbox == [] { CloseIds(st, c, id); }
  }

  // ---------------------------------------------------------------- every run

  lemma {:induction false} PathIds(states: seq<System>, events: seq<Event>)
    requires Path(states, events) && Good(states[0]) && Ids(states[0])
    ensures Good(states[|events|]) && Ids(states[|events|])
    decreases |events|
  {
    hide Good, Ids, Step;
    if events != [] {
      var n := |events| - 1;
      PathPrefix(states, events);
      PathIds(states[..n + 1], events[..n]);
      assert Step(states[n], events[n]) == Next(states[n + 1]);
      StepGood(states[n], events[n]);
      StepIds(states[n], events[n]);
    }
  }

  lemma ReachableIds(st: System)
    requires Reachable(st)
    ensures Ids(st)
  {
    hide Good, Ids, Step;
    StartGood();
    assert Ids(START) by { StartIds(); }
    var states, events :| Path(states, events) && states[0] == START && states[|events|] == st;
    PathIds(states, events);
  }

  lemma StartIds()
    ensures Ids(START)
  {
  }

  /** In every run, every subscription was made by a SUBSCRIBE that its client sent: it has the id and the destination of that
      frame, and the mode of its ack entry, or is automatic when there is none. */
  lemma SubscriptionsAreAskedFor(st: System, s: SubId)
    requires Reachable(st) && s in st.subs
    ensures st.subs[s].conn in st.conns
    ensures exists j :: 0 <= j < |st.conns[st.subs[s].conn].received| && MadeFrom(st.conns[st.subs[s].conn].received[j], st.subs[s])
  {
    hide Reachable, DistinctIds, MadeFrom, OwnIds, Tokens, Conserved, Ordered;
    ReachableIds(st);
    ReachableInv(st);
    SubsKnown(st);
    assert ConnIds(st, st.subs[s].conn);
  }

  /** In every run, when a client has used no id in two SUBSCRIBE frames, each of its subscriptions that is revived was
      matched by one of its ACK or NACK frames. */
  lemma RevivedWasAcknowledged(st: System, c: ConnId, s: SubId)
    requires Reachable(st) && c in st.conns && DistinctIds(st.conns[c].received)
    requires s in st.subs && st.subs[s].conn == c && s in st.revived
    ensures s in st.matched
  {
    hide Reachable, DistinctIds, Used, OwnIds;
    ReachableIds(st);
    assert ConnIds(st, c);
  }

  /** An ACK or NACK revives exactly the subscriptions it matches that were unsubscribed by then. */
  lemma {:induction false} AckRevivesIff(st: System, c: ConnId, n: nat, i: nat, nack: bool, s: SubId)
    requires PendingOk(st, c) && i <= |st.conns[c].pending| && Settle(st, c, n, i, nack).Done? && s in st.subs && Known(st, s)
    ensures var st' := Settle(st, c, n, i, nack).st;
            s in st'.revived <==> s in st.revived || (s in st.conns[c].pending[i..] && Matches(st.subs[s], n, nack) && !Live(st, s))
    decreases |st.conns[c].pending| - i
  {
    hide IsAckedBy, ValidAck, SettleAt, Live;
    var q := st.conns[c].pending;
    if i < |q| {
      assert Known(st, q[i]) && st.subs[q[i]].frame.Some?;
      assert q[i..] == [q[i]] + q[i + 1..];
      if Matches(st.subs[q[i]], n, nack) {
        SettleAtPending(st, c, i, nack);
        SettleAtLive(st, c, i, nack, s);
        AckRevivesIff(SettleAt(st, c, i, nack), c, n, i, nack, s);
      } else {
        AckRevivesIff(st, c, n, i + 1, nack, s);
      }
    }
  }

  lemma SettleAtLive(st: System, c: ConnId, i: nat, nack: bool, s: SubId)
    requires PendingOk(st, c) && i < |st.conns[c].pending| && s in st.subs && Known(st, s)
    ensures var st1 := SettleAt(st, c, i, nack);
            && Known(st1, s) && (Live(st1, s) <==> Live(st, s)) && (Matches(st1.subs[s], 0, true) <==> Matches(st.subs[s], 0, true))
            && st1.subs[s].ack == st.subs[s].ack && st1.subs[s].msgId == st.subs[s].msgId
            && (s in st1.revived <==> s in st.revived || (s == st.conns[c].pending[i] && !Live(st, s)))
  {
  }

  // ---------------------------------------------------------------- cleanup, for a client that can see the condition

  lemma {:induction false} PathsJoin(a: seq<System>, es: seq<Event>, b: seq<System>, fs: seq<Event>)
    requires Path(a, es) && Path(b, fs) && a[|es|] == b[0]
    ensures Path(a + b[1..], es + fs) && (a + b[1..])[0] == a[0] && (a + b[1..])[|es + fs|] == b[|fs|]
  {
    hide Step;
    var states, events := a + b[1..], es + fs;
    forall i | 0 <= i < |events| ensures Step(states[i], events[i]) == Next(states[i + 1]) {
      if i < |es| {
        assert Step(a[i], es[i]) == Next(a[i + 1]);
      } else {
        assert Step(b[i - |es|], fs[i - |es|]) == Next(b[i - |es| + 1]);
        assert i > |es| ==> states[i] == b[i - |es|];
      }
    }
  }

  lemma ReachableLeads(st: System, st': System)
    requires Reachable(st) && Leads(st, st')
    ensures Reachable(st')
  {
    hide Step;
    var a, es :| Path(a, es) && a[0] == START && a[|es|] == st;
    var b, fs :| Path(b, fs) && b[0] == st && b[|fs|] == st';
    PathsJoin(a, es, b, fs);
  }

  /** Let a run reach a state whose next request is a frame given back by the cleanup of c, or its DisconnectedOp. When the
      client of c used no id twice, in every continuation a subscription of c that it did not acknowledge waits in no
      queue, is not on its way to one, and is given nothing by the processor. */
  lemma ClosedConnectionGetsNothing(st: System, st': System, c: ConnId, s: SubId)
    requires Reachable(st) && st.requests != [] && st.requests[0].from == c && IsClosing(st.requests[0].op)
    requires Leads(st, st') && c in st'.conns && DistinctIds(st'.conns[c].received)
    requires s in st'.subs && st'.subs[s].conn == c && s !in st'.matched
    ensures Known(st', s) && !Exposed(st', s) && (Serve(st').Next? ==> NotServed(st', Serve(st').st, s))
  {
    hide Reachable, Leads, DistinctIds, Exposed, Serve, NotServed;
    ReachableLeads(st, st');
    if s in st'.revived { RevivedWasAcknowledged(st', c, s); }
    CleanupLeavesNobodyWaiting(st, st', c, s);
    CleanupNeverGetsItsMessagesBack(st, st', c, s);
  }
}
