/** The transaction store of a connection (server/client/tx_store.go), as an object and as a history: what a
    COMMIT hands over is decided by the calls since the transaction began. */
module TxStores {
  import opened Text
  import opened Frames

  // ---------------------------------------------------------------- the store as a value

  datatype Call = Begin(tx: string) | Add(tx: string, f: Frame) | Commit(tx: string) | Abort(tx: string)

  datatype TxError = AlreadyInProgress | UnknownTransaction

  /** What a call gives back: the frames it hands to the commit function, or an error. */
  datatype Reply = Committed(frames: seq<Frame>) | Failed(error: TxError)

  datatype Replied = Replied(txs: map<string, seq<Frame>>, reply: Reply)

  function Bare(f: Frame): Frame {
    f.(header := Drop(f.header, "transaction"))
  }

  /** One call, when the commit function never fails. */
  function Do(txs: map<string, seq<Frame>>, call: Call): Replied {
    match call
    case Begin(tx) =>
      if tx in txs then Replied(txs, Failed(AlreadyInProgress)) else Replied(txs[tx := []], Committed([]))
    case Add(tx, f) =>
      if tx in txs then Replied(txs[tx := txs[tx] + [Bare(f)]], Committed([])) else Replied(txs, Failed(UnknownTransaction))
    case Commit(tx) =>
      if tx in txs then Replied(txs - {tx}, Committed(txs[tx])) else Replied(txs, Failed(UnknownTransaction))
    case Abort(tx) =>
      if tx in txs then Replied(txs - {tx}, Committed([])) else Replied(txs, Failed(UnknownTransaction))
  }

  function After(calls: seq<Call>): map<string, seq<Frame>> {
    if calls == [] then map[] else Do(After(calls[..|calls| - 1]), calls[|calls| - 1]).txs
  }

  // ---------------------------------------------------------------- the history

  predicate Ends(call: Call, tx: string) {
    call == Commit(tx) || call == Abort(tx)
  }

  /** Call i begins tx, and no later call ends it. */
  predicate BeginsAt(calls: seq<Call>, tx: string, i: nat) {
    i < |calls| && calls[i] == Begin(tx) && forall j | i < j < |calls| :: !Ends(calls[j], tx)
  }

  /** tx is open since call i, the first such call: a BEGIN of an open transaction is refused. */
  predicate OpenSince(calls: seq<Call>, tx: string, i: nat) {
    BeginsAt(calls, tx, i) && forall j: nat | j < i :: !BeginsAt(calls, tx, j)
  }

  /** The frames that these calls add to tx, in order and without their transaction entry. */
  function AddedTo(calls: seq<Call>, tx: string): seq<Frame> {
    if calls == [] then []
    else
      var last := calls[|calls| - 1];
      AddedTo(calls[..|calls| - 1], tx) + (if last.Add? && last.tx == tx then [Bare(last.f)] else [])
  }

  lemma BeginsStay(calls: seq<Call>, call: Call, tx: string)
    ensures forall i: nat | i < |calls| :: BeginsAt(calls + [call], tx, i) <==> BeginsAt(calls, tx, i) && !Ends(call, tx)
    ensures BeginsAt(calls + [call], tx, |calls|) <==> call == Begin(tx)
  {
    var more := calls + [call];
    forall i: nat | i < |calls| ensures BeginsAt(more, tx, i) <==> BeginsAt(calls, tx, i) && !Ends(call, tx) {
      if BeginsAt(more, tx, i) {
        assert more[i] == calls[i] && !Ends(more[|calls|], tx);
        assert forall j | i < j < |calls| :: more[j] == calls[j];
      }
    }
  }

  lemma {:induction false} AddedMore(calls: seq<Call>, call: Call, tx: string, i: nat)
    requires i <= |calls|
    ensures AddedTo((calls + [call])[i..], tx) == AddedTo(calls[i..], tx) + if call.Add? && call.tx == tx then [Bare(call.f)] else []
  {
    var later := (calls + [call])[i..];
    assert later[..|later| - 1] == calls[i..];
  }

  lemma AddedSingle(call: Call, tx: string)
    requires !call.Add?
    ensures AddedTo([call], tx) == []
  {
    assert [call][..0] == [];
  }

  /** The store txs holds tx exactly when it is open, and for it the frames added since it was begun. */
  ghost predicate Follows(txs: map<string, seq<Frame>>, calls: seq<Call>, tx: string) {
    && (tx in txs <==> exists i: nat :: BeginsAt(calls, tx, i))
    && forall i: nat | OpenSince(calls, tx, i) :: tx in txs && txs[tx] == AddedTo(calls[i..], tx)
  }

  ghost predicate Agrees(calls: seq<Call>, tx: string) {
    Follows(After(calls), calls, tx)
  }

  lemma OneMore(calls: seq<Call>, call: Call, tx: string)
    requires Agrees(calls, tx)
    ensures Agrees(calls + [call], tx)
  {
    hide Bare, Ends, BeginsAt;
    var more := calls + [call];
    assert more[..|calls|] == calls;
    assert After(more) == Do(After(calls), call).txs;
    BeginsStay(calls, call, tx);
    EndsOnly(call, tx);
    BeginsInside(more, tx);
    BeginsInside(calls, tx);
    forall i: nat | OpenSince(more, tx, i) ensures tx in After(more) && After(more)[tx] == AddedTo(more[i..], tx) {
      if i < |calls| {
        assert OpenSince(calls, tx, i);
        AddedMore(calls, call, tx, i);
      } else {
        assert more[i..] == [call];
        AddedSingle(call, tx);
        assert call == Begin(tx) && tx !in After(calls);
      }
    }
  }

  lemma EndsOnly(call: Call, tx: string)
    ensures Ends(call, tx) <==> call == Commit(tx) || call == Abort(tx)
  {
  }

  lemma BeginsInside(calls: seq<Call>, tx: string)
    ensures forall i: nat :: BeginsAt(calls, tx, i) ==> i < |calls|
  {
  }

  lemma {:induction false} StoreIsHistory(calls: seq<Call>, tx: string)
    ensures Agrees(calls, tx)
    decreases |calls|
  {
    hide Agrees;
    if calls == [] {
      assert Agrees([], tx) by { NothingOpen(tx); }
    } else {
      StoreIsHistory(calls[..|calls| - 1], tx);
      OneMore(calls[..|calls| - 1], calls[|calls| - 1], tx);
      assert calls[..|calls| - 1] + [calls[|calls| - 1]] == calls;
    }
  }

  lemma NothingOpen(tx: string)
    ensures Agrees([], tx)
  {
  }

  /** COMMIT hands over exactly the frames added since the transaction was begun, in order and without their
      transaction entry, when the transaction is open, and fails when it is not; whatever was done with other
      transactions, or with this one before it was begun, has no part in it. */
  lemma CommitHandsOver(calls: seq<Call>, tx: string)
    ensures match Do(After(calls), Commit(tx)).reply
            case Committed(frames) => exists i: nat :: OpenSince(calls, tx, i) && frames == AddedTo(calls[i..], tx)
            case Failed(e) => e == UnknownTransaction && forall i: nat :: !BeginsAt(calls, tx, i)
  {
    hide BeginsAt;
    StoreIsHistory(calls, tx);
    if tx in After(calls) {
      var i: nat :| BeginsAt(calls, tx, i);
      var first := FirstBegin(calls, tx, i);
    }
  }

  lemma {:induction false} FirstBegin(calls: seq<Call>, tx: string, i: nat) returns (first: nat)
    requires BeginsAt(calls, tx, i)
    ensures OpenSince(calls, tx, first)
  {
    hide BeginsAt;
    first := i;
    if j: nat :| j < i && BeginsAt(calls, tx, j) {
      first := FirstBegin(calls, tx, j);
    }
  }

  // ---------------------------------------------------------------- the store as an object

  class TxStore {
    var transactions: map<string, seq<Frame>>  // a nil map is an empty one

    constructor ()
      ensures transactions == map[]
    {
      transactions := map[];
    }

    method Init()
      modifies this
      ensures transactions == map[]
    {
      transactions := map[];
    }

    /** The call changed the store as Do says, and the error, if any, is the one Do says. */
    twostate predicate Did(call: Call, new err: Option<TxError>)
      reads this
    {
      var r := Do(old(transactions), call);
      transactions == r.txs && err == match r.reply case Committed(_) => None case Failed(e) => Some(e)
    }

    method Begin(tx: string) returns (err: Option<TxError>)
      modifies this
      ensures Did(Call.Begin(tx), err)
    {
      if tx in transactions {
        return Some(AlreadyInProgress);
      }
      transactions := transactions[tx := []];
      return None;
    }

    method Abort(tx: string) returns (err: Option<TxError>)
      modifies this
      ensures Did(Call.Abort(tx), err)
    {
      if tx in transactions {
        transactions := transactions - {tx};
        return None;
      }
      return Some(UnknownTransaction);
    }

    method Add(tx: string, f: Frame) returns (err: Option<TxError>)
      modifies this
      ensures Did(Call.Add(tx, f), err)
    {
      if tx in transactions {
        transactions := transactions[tx := transactions[tx] + [f.(header := Drop(f.header, "transaction"))]];
        return None;
      }
      return Some(UnknownTransaction);
    }

    /** Commit takes the frames out one at a time and calls the commit function with each; fails says which calls
        fail. Without a failure it is the Commit of Do. A failure at a frame stops it: the frames before were
        committed, that frame is lost, and the transaction stays open with the frames after it. */
    method Commit(tx: string, fails: Frame -> bool) returns (called: seq<Frame>, err: Option<TxError>, failed: bool)
      modifies this
      ensures tx !in old(transactions) ==> Did(Call.Commit(tx), err) && called == [] && !failed
      ensures tx in old(transactions) ==> err == None
      ensures tx in old(transactions) && !failed ==>
                Did(Call.Commit(tx), err) && called == old(transactions)[tx] && forall i | 0 <= i < |called| :: !fails(called[i])
      ensures tx in old(transactions) && failed ==>
                && called != [] && fails(called[|called| - 1]) && (forall i | 0 <= i < |called| - 1 :: !fails(called[i]))
                && tx in transactions && called + transactions[tx] == old(transactions)[tx]
                && transactions - {tx} == old(transactions) - {tx}
    {
      called, failed, err := [], false, None;
      if tx !in transactions {
        return called, Some(UnknownTransaction), false;
      }
      while transactions[tx] != []
        invariant tx in transactions && transactions - {tx} == old(transactions) - {tx}
        invariant called + transactions[tx] == old(transactions)[tx]
        invariant forall i | 0 <= i < |called| :: !fails(called[i])
        decreases if tx in transactions then |transactions[tx]| else 0
      {
        var f := transactions[tx][0];
        transactions := transactions[tx := transactions[tx][1..]];
        called := called + [f];
        if fails(f) {
          failed := true;
          return;
        }
      }
      transactions := transactions - {tx};
    }
  }
}
