/** The broker's ACK and NACK on values are those of the list object: when a table says which object stands for which
    subscription, both leave and take the same entries. */
module BrokerObjects {
  import opened Text
  import opened Frames
  import opened Broker
  import opened BrokerTokens
  import opened BrokerAcks
  import opened Subscriptions

  /** The objects have the ack mode and message id of the subscriptions they stand for. */
  predicate StandsFor(objects: map<SubId, Subscription>, subs: map<SubId, Sub>, q: seq<SubId>) {
    forall s | s in q :: s in subs && s in objects && objects[s].ack == subs[s].ack && objects[s].msgId == subs[s].msgId
  }

  function Objects(objects: map<SubId, Subscription>, q: seq<SubId>): seq<Subscription>
    requires forall s | s in q :: s in objects
  {
    if q == [] then [] else [objects[q[0]]] + Objects(objects, q[1..])
  }

  lemma {:induction false} SameSplit(objects: map<SubId, Subscription>, subs: map<SubId, Sub>, q: seq<SubId>, n: nat, nack: bool)
    requires StandsFor(objects, subs, q)
    ensures Objects(objects, Unmatched(subs, q, n, nack)) == Left(Objects(objects, q), n, nack)
  {
    if q != [] {
      SameSplit(objects, subs, q[1..], n, nack);
      SameMatch(objects, subs, q, n, nack);
      hide Matches, Acks;
      var o := Objects(objects, q);
      assert o[0] == objects[q[0]] && o[1..] == Objects(objects, q[1..]);
      if !Matches(subs[q[0]], n, nack) {
        var rest := Unmatched(subs, q[1..], n, nack);
        assert ([q[0]] + rest)[1..] == rest;
      } else {
        assert [] + Unmatched(subs, q[1..], n, nack) == Unmatched(subs, q[1..], n, nack);
      }
    }
  }

  lemma SameMatch(objects: map<SubId, Subscription>, subs: map<SubId, Sub>, q: seq<SubId>, n: nat, nack: bool)
    requires StandsFor(objects, subs, q) && q != []
    ensures Matches(subs[q[0]], n, nack) <==> Acks(objects[q[0]], n, nack)
  {
    assert q[0] in q;
  }

  lemma {:induction false} ObjectsAt(objects: map<SubId, Subscription>, q: seq<SubId>)
    requires forall s | s in q :: s in objects
    ensures |Objects(objects, q)| == |q| && forall i | 0 <= i < |q| :: Objects(objects, q)[i] == objects[q[i]]
  {
    if q != [] {
      ObjectsAt(objects, q[1..]);
    }
  }

  /** The condition under which Take panics for an ACK. */
  ghost predicate SomeInvalid(q: seq<Subscription>) {
    exists i :: 0 <= i < |q| && !ValidAck(q[i].ack)
  }

  /** What h leaves of the pending list of c is what Take leaves of the objects. */
  predicate LeftAlike(st: System, h: Handled, c: ConnId, n: nat, nack: bool, objects: map<SubId, Subscription>)
    requires c in st.conns && forall s | s in st.conns[c].pending :: s in objects
  {
    && h.Done? && c in h.st.conns
    && (forall s | s in h.st.conns[c].pending :: s in objects)
    && Objects(objects, h.st.conns[c].pending) == Left(Objects(objects, st.conns[c].pending), n, nack)
  }

  /** Settle does with the pending list what Take does with the list of the objects: the same entries stay, in the same
      order, and ACK panics for both or for neither. */
  lemma SettleIsTake(st: System, c: ConnId, n: nat, nack: bool, objects: map<SubId, Subscription>)
    requires PendingOk(st, c) && StandsFor(objects, st.subs, st.conns[c].pending)
    ensures LeftAlike(st, Settle(st, c, n, 0, nack), c, n, nack, objects) || (!nack && Settle(st, c, n, 0, nack).Crashed?)
    ensures !nack ==> (Settle(st, c, n, 0, nack).Crashed? <==> SomeInvalid(Objects(objects, st.conns[c].pending)))
  {
    hide SettleAt, ValidAck, IsAckedBy, SomeInvalid, InvalidFrom, Matches, Acks;
    var q := st.conns[c].pending;
    SettleSplits(st, c, n, 0, nack);
    assert q[0..] == q && q[..0] == [];
    SameSplit(objects, st.subs, q, n, nack);
    assert [] + Unmatched(st.subs, q, n, nack) == Unmatched(st.subs, q, n, nack);
    if Settle(st, c, n, 0, nack).Done? {
      assert Settle(st, c, n, 0, nack).st.conns[c].pending == Unmatched(st.subs, q, n, nack);
    }
    if !nack {
      AckPanicsIff(st, c, n, 0);
      SameInvalid(st, c, objects);
    }
  }

  lemma SameInvalid(st: System, c: ConnId, objects: map<SubId, Subscription>)
    requires PendingOk(st, c) && StandsFor(objects, st.subs, st.conns[c].pending)
    ensures SomeInvalid(Objects(objects, st.conns[c].pending)) <==> InvalidFrom(st, c, 0)
  {
    hide ValidAck;
    var q := st.conns[c].pending;
    var o := Objects(objects, q);
    ObjectsAt(objects, q);
    forall i | 0 <= i < |q| ensures ValidAck(o[i].ack) <==> ValidAck(st.subs[q[i]].ack) { assert q[i] in q; }
    if i :| 0 <= i < |o| && !ValidAck(o[i].ack) { assert !ValidAck(st.subs[q[i]].ack); }
    if i :| 0 <= i < |q| && !ValidAck(st.subs[q[i]].ack) { assert !ValidAck(o[i].ack); }
  }
}
