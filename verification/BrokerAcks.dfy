/** Acknowledgements at the connection: ACK and NACK split the list of pending subscriptions, and the
    exact condition under which a COMMIT is brought down by an invalid ack mode. */
module BrokerAcks {
  import opened Text
  import opened Sequences
  import opened Frames
  import opened Broker
  import opened BrokerTokens
  import opened BrokerAnswers

  /** The subscription is acknowledged (or not acknowledged) by message id n. */
  predicate Matches(sub: Sub, n: nat, nack: bool) {
    if nack then n == sub.msgId else IsAckedBy(sub.ack, sub.msgId, n)
  }

  /** The entries of q that stay in the list, in order. */
  function Unmatched(subs: map<SubId, Sub>, q: seq<SubId>, n: nat, nack: bool): (r: seq<SubId>)
    requires forall i | 0 <= i < |q| :: q[i] in subs
    ensures forall s | s in r :: s in q
  {
    if q == [] then []
    else (if Matches(subs[q[0]], n, nack) then [] else [q[0]]) + Unmatched(subs, q[1..], n, nack)
  }

  /** The requests sent for the entries of q that leave the list, in order. */
  function SettleOps(subs: map<SubId, Sub>, q: seq<SubId>, n: nat, nack: bool): seq<Op>
    requires forall i | 0 <= i < |q| :: q[i] in subs && subs[q[i]].frame.Some?
  {
    if q == [] then []
    else (if Matches(subs[q[0]], n, nack)
          then (if nack then [Requeue(subs[q[0]].frame.value, false)] else []) + [Subscribe(q[0])] else [])
         + SettleOps(subs, q[1..], n, nack)
  }

  /** The pending list of c is what every run makes it. */
  predicate PendingOk(st: System, c: ConnId) {
    && c in st.conns && Distinct(st.conns[c].pending)
    && forall i | 0 <= i < |st.conns[c].pending| :: Known(st, st.conns[c].pending[i]) && st.subs[st.conns[c].pending[i]].frame.Some?
  }

  lemma {:induction false} SplitElsewhere(subs: map<SubId, Sub>, s: SubId, sub': Sub, q: seq<SubId>, n: nat, nack: bool)
    requires s !in q && forall i | 0 <= i < |q| :: q[i] in subs && subs[q[i]].frame.Some?
    ensures Unmatched(subs[s := sub'], q, n, nack) == Unmatched(subs, q, n, nack)
    ensures SettleOps(subs[s := sub'], q, n, nack) == SettleOps(subs, q, n, nack)
  {
    hide Matches;
    if q != [] {
      assert q[0] in q && forall x | x in q[1..] :: x in q;
      SplitElsewhere(subs, s, sub', q[1..], n, nack);
    }
  }

  /** Settling entry i leaves a good pending list whose tail is the old tail. */
  lemma SettleAtPending(st: System, c: ConnId, i: nat, nack: bool)
    requires PendingOk(st, c) && i < |st.conns[c].pending|
    ensures var st' := SettleAt(st, c, i, nack);
            && PendingOk(st', c) && |st'.conns[c].pending| == |st.conns[c].pending| - 1
            && st'.conns[c].pending[..i] == st.conns[c].pending[..i]
            && st'.conns[c].pending[i..] == st.conns[c].pending[i + 1..]
            && st.conns[c].pending[i] !in st.conns[c].pending[i + 1..]
  {
    var k := st.conns[c];
    var q' := k.pending[..i] + k.pending[i + 1..];
    RemovedAt(k.pending, i);
    assert q'[..i] == k.pending[..i] && q'[i..] == k.pending[i + 1..];
  }

  /** st' is st after the entries from position i on were split. */
  predicate Split(st: System, st': System, c: ConnId, n: nat, i: nat, nack: bool)
    requires PendingOk(st, c) && i <= |st.conns[c].pending|
  {
    && PendingOk(st', c) && SameAcks(st, st')
    && st'.conns[c].pending == st.conns[c].pending[..i] + Unmatched(st.subs, st.conns[c].pending[i..], n, nack)
    && st'.conns[c].outbox == st.conns[c].outbox + SettleOps(st.subs, st.conns[c].pending[i..], n, nack)
  }

  lemma SplitMatched(st: System, st': System, c: ConnId, n: nat, i: nat, nack: bool)
    requires PendingOk(st, c) && i < |st.conns[c].pending| && Matches(st.subs[st.conns[c].pending[i]], n, nack)
    requires var st1 := SettleAt(st, c, i, nack); PendingOk(st1, c) && i <= |st1.conns[c].pending| && Split(st1, st', c, n, i, nack)
    ensures Split(st, st', c, n, i, nack)
  {
    hide Matches, SettleAt;
    SettleAtPending(st, c, i, nack);
    var st1 := SettleAt(st, c, i, nack);
    var k := st.conns[c];
    var s := k.pending[i];
    SettleAtFacts(st, c, i, nack);
    TailOk(st, c, i);
    SplitElsewhere(st.subs, s, st1.subs[s], k.pending[i + 1..], n, nack);
    assert k.pending[i..][0] == s && k.pending[i..][1..] == k.pending[i + 1..];
  }

  lemma TailOk(st: System, c: ConnId, i: nat)
    requires PendingOk(st, c) && i < |st.conns[c].pending|
    ensures var q := st.conns[c].pending[i + 1..];
            forall j | 0 <= j < |q| :: q[j] in st.subs && st.subs[q[j]].frame.Some?
  {
  }

  lemma SettleAtFacts(st: System, c: ConnId, i: nat, nack: bool)
    requires PendingOk(st, c) && i < |st.conns[c].pending|
    ensures var s := st.conns[c].pending[i]; var st1 := SettleAt(st, c, i, nack);
            && st1.subs == st.subs[s := st1.subs[s]] && SameAcks(st, st1)
            && st1.conns[c].outbox == st.conns[c].outbox + ((if nack then [Requeue(st.subs[s].frame.value, false)] else []) + [Subscribe(s)])
  {
  }

  lemma SplitUnmatched(st: System, st': System, c: ConnId, n: nat, i: nat, nack: bool)
    requires PendingOk(st, c) && i < |st.conns[c].pending| && !Matches(st.subs[st.conns[c].pending[i]], n, nack)
    requires Split(st, st', c, n, i + 1, nack)
    ensures Split(st, st', c, n, i, nack)
  {
    hide Matches;
    var q := st.conns[c].pending;
    assert q[i..][0] == q[i] && q[i..][1..] == q[i + 1..] && q[..i] + [q[i]] == q[..i + 1];
  }

  /** ACK and NACK leave exactly the unmatched entries, in their order, and send the requests for exactly the
      matched ones, in their order, although entries are removed while the list is walked. An entry with an
      invalid ack mode makes ACK panic; nothing else does. */
  lemma {:induction false} SettleSplits(st: System, c: ConnId, n: nat, i: nat, nack: bool)
    requires PendingOk(st, c) && i <= |st.conns[c].pending|
    ensures match Settle(st, c, n, i, nack)
            case Done(st') => Split(st, st', c, n, i, nack)
            case Failed(_, _, _) => false
            case Crashed(why) => !nack && why.InvalidAckMode?
    decreases |st.conns[c].pending| - i
  {
    hide IsAckedBy, ValidAck, Split, SettleAt;
    if i == |st.conns[c].pending| {
      SplitNothing(st, c, n, i, nack);
    } else {
      assert Known(st, st.conns[c].pending[i]) && st.subs[st.conns[c].pending[i]].frame.Some?;
      SettleAtPending(st, c, i, nack);
      hide PendingOk;
      var st1 := SettleAt(st, c, i, nack);
      if nack || ValidAck(st.subs[st.conns[c].pending[i]].ack) {
        if Matches(st.subs[st.conns[c].pending[i]], n, nack) {
          SettleSplits(st1, c, n, i, nack);
          if Settle(st1, c, n, i, nack).Done? { SplitMatched(st, Settle(st1, c, n, i, nack).st, c, n, i, nack); }
        } else {
          SettleSplits(st, c, n, i + 1, nack);
          if Settle(st, c, n, i + 1, nack).Done? { SplitUnmatched(st, Settle(st, c, n, i + 1, nack).st, c, n, i, nack); }
        }
      }
    }
  }

  lemma SplitNothing(st: System, c: ConnId, n: nat, i: nat, nack: bool)
    requires PendingOk(st, c) && i == |st.conns[c].pending|
    ensures Split(st, st, c, n, i, nack)
  {
  }

  /** The ack mode and message id of a subscription never change. */
  predicate SameAcks(st: System, st': System) {
    forall s | s in st.subs :: s in st'.subs && st'.subs[s].ack == st.subs[s].ack && st'.subs[s].msgId == st.subs[s].msgId
  }

  // ---------------------------------------------------------------- the panic of an invalid ack mode

  ghost predicate InvalidFrom(st: System, c: ConnId, i: nat)
    requires PendingOk(st, c)
  {
    exists j :: i <= j < |st.conns[c].pending| && !ValidAck(st.subs[st.conns[c].pending[j]].ack)
  }

  lemma InvalidAfterSettle(st: System, c: ConnId, i: nat)
    requires PendingOk(st, c) && i < |st.conns[c].pending| && ValidAck(st.subs[st.conns[c].pending[i]].ack)
    ensures PendingOk(SettleAt(st, c, i, false), c)
    ensures InvalidFrom(SettleAt(st, c, i, false), c, i) <==> InvalidFrom(st, c, i)
  {
    hide ValidAck, SettleAt;
    SettleAtPending(st, c, i, false);
    SettleAtFacts(st, c, i, false);
    var q := st.conns[c].pending;
    var st1 := SettleAt(st, c, i, false);
    var q' := st1.conns[c].pending;
    if InvalidFrom(st, c, i) {
      var j :| i <= j < |q| && !ValidAck(st.subs[q[j]].ack);
      assert q'[j - 1] == q'[i..][j - 1 - i] == q[i + 1..][j - 1 - i] == q[j];
    }
    if InvalidFrom(st1, c, i) {
      var j :| i <= j < |q'| && !ValidAck(st1.subs[q'[j]].ack);
      assert q'[j] == q'[i..][j - i] == q[i + 1..][j - i] == q[j + 1];
    }
  }

  /** ACK panics exactly when some pending subscription was made with an invalid ack mode. */
  lemma {:induction false} AckPanicsIff(st: System, c: ConnId, n: nat, i: nat)
    requires PendingOk(st, c) && i <= |st.conns[c].pending|
    ensures Settle(st, c, n, i, false).Crashed? <==> InvalidFrom(st, c, i)
    decreases |st.conns[c].pending| - i
  {
    hide ValidAck, IsAckedBy, SettleAt;
    if i < |st.conns[c].pending| {
      var s := st.conns[c].pending[i];
      if ValidAck(st.subs[s].ack) {
        if Matches(st.subs[s], n, false) {
          SettleAtPending(st, c, i, false);
          InvalidAfterSettle(st, c, i);
          AckPanicsIff(SettleAt(st, c, i, false), c, n, i);
        } else {
          AckPanicsIff(st, c, n, i + 1);
        }
      }
    }
  }

  lemma {:induction false} UnmatchedMember(subs: map<SubId, Sub>, q: seq<SubId>, n: nat, nack: bool, s: SubId)
    requires forall i | 0 <= i < |q| :: q[i] in subs
    ensures s in Unmatched(subs, q, n, nack) <==> s in q && !Matches(subs[s], n, nack)
  {
    hide Matches;
    if q != [] {
      UnmatchedMember(subs, q[1..], n, nack, s);
      assert q == [q[0]] + q[1..];
    }
  }

  function AckNumber(f: Frame): nat {
    match AckId(f)
    case Some(t) => (match ParseUint(t, UINT64_LIMIT - 1) case Some(n) => n case None => 0)
    case None => 0
  }

  /** The i-th frame is an ACK, s is pending with an invalid ack mode, and no earlier NACK takes s away. */
  predicate Bad(st: System, c: ConnId, frames: seq<Frame>, i: nat, s: SubId)
    requires PendingOk(st, c)
  {
    && i < |frames| && frames[i].command == "ACK"
    && s in st.conns[c].pending && s in st.subs && !ValidAck(st.subs[s].ack)
    && forall j | 0 <= j < i && frames[j].command == "NACK" :: AckNumber(frames[j]) != st.subs[s].msgId
  }

  /** What one replayed frame does to the pending list. */
  lemma ReplayOnePending(st: System, c: ConnId, f: Frame, io: bool)
    requires PendingOk(st, c) && Replayable(f)
    ensures match Dispatch(st, c, f, io)
            case Done(st') =>
              && PendingOk(st', c) && SameAcks(st, st')
              && (f.command == "ACK" ==> !InvalidFrom(st, c, 0))
              && (forall s :: s in st'.conns[c].pending <==>
                    (s in st.conns[c].pending && (f.command == "SEND" || !Matches(st.subs[s], AckNumber(f), f.command == "NACK"))))
            case Failed(_, _, _) => false
            case Crashed(_) => f.command == "ACK" && InvalidFrom(st, c, 0)
  {
    hide Settle, ParseUint, IsQueueFrame, Matches, ValidAck, Drop, Find;
    DropAbsent(f.header, "receipt");
    assert StripReceipt(f) == f;
    if f.command != "SEND" {
      var n, nack, q := AckNumber(f), f.command == "NACK", st.conns[c].pending;
      assert Dispatch(st, c, f, io) == Settle(st, c, n, 0, nack);
      SettleSplits(st, c, n, 0, nack);
      AckPanicsIff(st, c, n, 0);
      assert q[0..] == q;
      forall s { UnmatchedMember(st.subs, q, n, nack, s); }
    }
  }

  /** A stored transaction brings the server down exactly when it contains an ACK, and some pending
      subscription with an invalid ack mode is not taken away by a NACK before that ACK. */
  lemma {:induction false} ReplayPanicsIff(st: System, c: ConnId, frames: seq<Frame>, io: bool)
    requires PendingOk(st, c) && forall i | 0 <= i < |frames| :: Replayable(frames[i])
    ensures Replay(st, c, frames, io).Crashed? <==> exists i: nat, s :: Bad(st, c, frames, i, s)
    decreases |frames|
  {
    hide Dispatch, PendingOk, Replayable, ValidAck, Matches, AckNumber;
    if frames != [] {
      assert Replayable(frames[0]);
      PendingHasConn(st, c);
      ReplayableCommand(frames[0]);
      ReplayOnePending(st, c, frames[0], io);
      match Dispatch(st, c, frames[0], io)
      case Failed(_, _, _) =>
      case Crashed(_) => InvalidIsBad(st, c, frames);
      case Done(st') =>
        PendingHasConn(st', c);
        ReplayPanicsIff(st', c, frames[1..], io);
        BadShifts(st, st', c, frames);
    }
  }

  lemma ReplayableCommand(f: Frame)
    requires Replayable(f)
    ensures f.command == "SEND" || f.command == "ACK" || f.command == "NACK"
  {
  }

  lemma PendingHasConn(st: System, c: ConnId)
    requires PendingOk(st, c)
    ensures c in st.conns
  {
  }

  lemma InvalidIsBad(st: System, c: ConnId, frames: seq<Frame>)
    requires PendingOk(st, c) && frames != [] && frames[0].command == "ACK" && InvalidFrom(st, c, 0)
    ensures exists i: nat, s :: Bad(st, c, frames, i, s)
  {
    var j :| 0 <= j < |st.conns[c].pending| && !ValidAck(st.subs[st.conns[c].pending[j]].ack);
    assert Bad(st, c, frames, 0, st.conns[c].pending[j]);
  }

  lemma BadShifts(st: System, st': System, c: ConnId, frames: seq<Frame>)
    requires PendingOk(st, c) && PendingOk(st', c) && SameAcks(st, st') && frames != []
    requires frames[0].command == "SEND" || frames[0].command == "ACK" || frames[0].command == "NACK"
    requires frames[0].command == "ACK" ==> !InvalidFrom(st, c, 0)
    requires forall s :: s in st'.conns[c].pending <==>
               (s in st.conns[c].pending && (frames[0].command == "SEND" || !Matches(st.subs[s], AckNumber(frames[0]), frames[0].command == "NACK")))
    ensures (exists i: nat, s :: Bad(st, c, frames, i, s)) <==> (exists i: nat, s :: Bad(st', c, frames[1..], i, s))
  {
    hide ValidAck, AckNumber, IsAckedBy;
    if i: nat, s :| Bad(st, c, frames, i, s) {
      var j :| 0 <= j < |st.conns[c].pending| && st.conns[c].pending[j] == s;
      assert frames[0].command != "ACK";
      assert i > 0;
      assert frames[1..][i - 1] == frames[i];
      assert s in st'.conns[c].pending;
      assert Bad(st', c, frames[1..], i - 1, s);
    }
    if i: nat, s :| Bad(st', c, frames[1..], i, s) {
      assert s in st.conns[c].pending;
      assert forall j | 0 < j < i + 1 :: frames[j] == frames[1..][j - 1];
      assert Bad(st, c, frames, i + 1, s);
    }
  }
}
