/** Subscription objects and lists of them (server/client/subscription.go,
    server/client/subscription_list.go). A callback of Ack or Nack is a connection's; it does not touch the
    list, so the methods return the subscriptions they call it for, in order. */
module Subscriptions {
  import opened Text
  import opened Sequences
  import opened Frames
  import opened Headers
  import Broker
  import Queues

  /** The two channels of a connection that subscriptions write to. */
  class Connection {
    var subChannel: seq<Subscription>
    var writeChannel: seq<FrameObject>

    constructor ()
      ensures subChannel == [] && writeChannel == []
    {
      subChannel, writeChannel := [], [];
    }
  }

  class Subscription {
    const conn: Connection
    const dest: string
    const id: string
    const ack: string
    const msgId: nat  // no code assigns it after construction
    var subList: SubscriptionList?
    var frame: FrameObject?

    constructor (conn: Connection, dest: string, id: string, ack: string, msgId: nat)
      ensures this.conn == conn && this.dest == dest && this.id == id && this.ack == ack && this.msgId == msgId
      ensures subList == null && frame == null
    {
      this.conn, this.dest, this.id, this.ack, this.msgId := conn, dest, id, ack, msgId;
      subList, frame := null, null;
    }

    method IsAckedBy(n: nat) returns (acked: bool, panicked: bool)
      ensures panicked <==> !Broker.ValidAck(ack)
      ensures !panicked ==> acked == Acks(this, n, false)
    {
      panicked := false;
      if ack == "auto" {
        acked := true;
      } else if ack == "client" {
        acked := n >= msgId;
      } else if ack == "client-individual" {
        acked := n == msgId;
      } else {
        acked, panicked := false, true;
      }
    }

    method SetSubscriptionHeader(f: FrameObject) returns (panicked: bool)
      requires f.Valid() && f.header != null
      modifies f.header
      ensures f.Valid() && (panicked <==> frame != null)
      ensures f.header.Contents() == if panicked then old(f.header.Contents()) else Put(old(f.header.Contents()), "subscription", id)
    {
      if frame != null {
        return true;
      }
      f.header.Set("subscription", id);
      return false;
    }

    /** SendQueueFrame: the subscription, holding f, goes to the connection. */
    method SendQueueFrame(f: FrameObject) returns (panicked: bool)
      requires f.Valid() && f.header != null
      modifies this`frame, conn`subChannel, f.header
      ensures f.Valid() && (panicked <==> old(frame) != null)
      ensures if panicked then frame == old(frame) && conn.subChannel == old(conn.subChannel) && f.header.Contents() == old(f.header.Contents())
              else frame == f && conn.subChannel == old(conn.subChannel) + [this]
                   && f.header.Contents() == Put(old(f.header.Contents()), "subscription", id)
    {
      panicked := SetSubscriptionHeader(f);
      if !panicked {
        frame := f;
        conn.subChannel := conn.subChannel + [this];
      }
    }

    /** SendTopicFrame: f goes straight to the connection. */
    method SendTopicFrame(f: FrameObject) returns (panicked: bool)
      requires f.Valid() && f.header != null
      modifies conn`writeChannel, f.header
      ensures f.Valid() && (panicked <==> frame != null)
      ensures if panicked then conn.writeChannel == old(conn.writeChannel) && f.header.Contents() == old(f.header.Contents())
              else conn.writeChannel == old(conn.writeChannel) + [f]
                   && f.header.Contents() == Put(old(f.header.Contents()), "subscription", id)
    {
      panicked := SetSubscriptionHeader(f);
      if !panicked {
        conn.writeChannel := conn.writeChannel + [f];
      }
    }
  }

  // ---------------------------------------------------------------- what Ack and Nack take

  /** ACK (or NACK) of message id n covers s. */
  predicate Acks(s: Subscription, n: nat, nack: bool) {
    if nack then n == s.msgId else Broker.IsAckedBy(s.ack, s.msgId, n)
  }

  function Taken(q: seq<Subscription>, n: nat, nack: bool): seq<Subscription> {
    if q == [] then []
    else if Acks(q[0], n, nack) then [q[0]] + Taken(q[1..], n, nack)
    else Taken(q[1..], n, nack)
  }

  function Left(q: seq<Subscription>, n: nat, nack: bool): seq<Subscription> {
    if q == [] then []
    else if Acks(q[0], n, nack) then Left(q[1..], n, nack)
    else [q[0]] + Left(q[1..], n, nack)
  }

  lemma {:induction false} LeftAppend(a: seq<Subscription>, s: Subscription, n: nat, nack: bool)
    ensures Left(a + [s], n, nack) == if Acks(s, n, nack) then Left(a, n, nack) else Left(a, n, nack) + [s]
  {
    hide Acks;
    if a == [] {
      assert (a + [s])[1..] == [];
    } else {
      assert (a + [s])[1..] == a[1..] + [s];
      LeftAppend(a[1..], s, n, nack);
    }
  }

  lemma {:induction false} TakenAppend(a: seq<Subscription>, s: Subscription, n: nat, nack: bool)
    ensures Taken(a + [s], n, nack) == if Acks(s, n, nack) then Taken(a, n, nack) + [s] else Taken(a, n, nack)
  {
    hide Acks;
    if a == [] {
      assert (a + [s])[1..] == [];
    } else {
      assert (a + [s])[1..] == a[1..] + [s];
      TakenAppend(a[1..], s, n, nack);
    }
  }

  /** Every entry is either left or taken, as often as it was there, according to whether it is acknowledged. */
  lemma {:induction false} LeftOrTaken(q: seq<Subscription>, n: nat, nack: bool, s: Subscription)
    ensures Queues.Occurs(Left(q, n, nack), s) == if Acks(s, n, nack) then 0 else Queues.Occurs(q, s)
    ensures Queues.Occurs(Taken(q, n, nack), s) == if Acks(s, n, nack) then Queues.Occurs(q, s) else 0
  {
    hide Acks;
    if q != [] {
      LeftOrTaken(q[1..], n, nack, s);
    }
  }

  /** On subscriptions in client mode, acknowledging an earlier message and then a later one leaves what the
      later one alone leaves, and takes the same subscriptions in all. */
  lemma {:induction false} AckIsCumulative(q: seq<Subscription>, m: nat, n: nat)
    requires m <= n && forall i | 0 <= i < |q| :: q[i].ack == "client"
    ensures Left(Left(q, m, false), n, false) == Left(q, n, false)
    ensures forall s :: Queues.Occurs(Taken(q, n, false), s)
                        == Queues.Occurs(Taken(q, m, false), s) + Queues.Occurs(Taken(Left(q, m, false), n, false), s)
  {
    AckTwice(q, m, n);
    forall s
      ensures Queues.Occurs(Taken(q, n, false), s)
              == Queues.Occurs(Taken(q, m, false), s) + Queues.Occurs(Taken(Left(q, m, false), n, false), s)
    {
      LeftOrTaken(q, n, false, s);
      LeftOrTaken(q, m, false, s);
      LeftOrTaken(Left(q, m, false), n, false, s);
      if Queues.Occurs(q, s) > 0 { OccursIn(q, s); }
    }
  }

  lemma {:induction false} OccursIn(q: seq<Subscription>, s: Subscription)
    requires Queues.Occurs(q, s) > 0
    ensures exists i :: 0 <= i < |q| && q[i] == s
  {
    if q[0] != s {
      OccursIn(q[1..], s);
      var i :| 0 <= i < |q[1..]| && q[1..][i] == s;
      assert q[i + 1] == s;
    }
  }

  lemma {:induction false} AckTwice(q: seq<Subscription>, m: nat, n: nat)
    requires m <= n && forall i | 0 <= i < |q| :: q[i].ack == "client"
    ensures Left(Left(q, m, false), n, false) == Left(q, n, false)
  {
    if q != [] {
      AckTwice(q[1..], m, n);
    }
  }

  // ---------------------------------------------------------------- the list

  class SubscriptionList {
    var subs: seq<Subscription>

    /** The entries are distinct and point back to this list. */
    ghost predicate Valid()
      reads this, subs
    {
      Distinct(subs) && forall i | 0 <= i < |subs| :: subs[i].subList == this
    }

    constructor ()
      ensures Valid() && subs == []
    {
      subs := [];
    }

    /** Add panics exactly when the subscription still points to a list. */
    method Add(sub: Subscription) returns (panicked: bool)
      requires Valid()
      modifies this, sub`subList
      ensures Valid() && (panicked <==> old(sub.subList) != null)
      ensures if panicked then subs == old(subs) && sub.subList == old(sub.subList)
              else subs == old(subs) + [sub] && sub.subList == this
    {
      if sub.subList != null {
        return true;
      }
      subs := subs + [sub];
      sub.subList := this;
      return false;
    }

    ghost function Front(): set<Subscription>
      reads this
    {
      if subs == [] then {} else {subs[0]}
    }

    method Get() returns (sub: Subscription?)
      requires Valid()
      modifies this, Front()`subList
      ensures Valid()
      ensures if old(subs) == [] then sub == null && subs == []
              else sub == old(subs)[0] && subs == old(subs)[1..] && sub.subList == null
    {
      if |subs| == 0 {
        return null;
      }
      sub := subs[0];
      subs := subs[1..];
      sub.subList := null;
    }

    method Remove(s: Subscription)
      requires Valid()
      modifies this, s`subList
      ensures Valid() && subs == Queues.RemoveFirst(old(subs), s)
      ensures s.subList == if s in old(subs) then null else old(s.subList)
    {
      var i := 0;
      while i < |subs|
        invariant i <= |subs| && subs == old(subs) && s.subList == old(s.subList)
        invariant forall j | 0 <= j < i :: subs[j] != s
      {
        if subs[i] == s {
          RemoveAt(subs, s, i);
          subs := subs[..i] + subs[i + 1..];
          s.subList := null;
          return;
        }
        i := i + 1;
      }
      RemoveAbsent(subs, s);
    }

    /** FindByIdAndRemove: the subscription leaves the list, but still points to it. */
    method FindByIdAndRemove(id: string) returns (sub: Subscription?)
      requires Valid()
      modifies this
      ensures Valid()
      ensures sub == null ==> subs == old(subs) && forall j | 0 <= j < |subs| :: subs[j].id != id
      ensures sub != null ==>
                && sub.id == id && sub.subList == this && sub !in subs
                && subs == Queues.RemoveFirst<Subscription>(old(subs), sub)
                && exists i :: 0 <= i < |old(subs)| && old(subs)[i] == sub && forall j | 0 <= j < i :: old(subs)[j].id != id
    {
      var i := 0;
      while i < |subs|
        invariant i <= |subs| && subs == old(subs)
        invariant forall j | 0 <= j < i :: subs[j].id != id
      {
        sub := subs[i];
        if sub.id == id {
          RemoveAt(subs, sub, i);
          Removed(subs, i);
          subs := subs[..i] + subs[i + 1..];
          return;
        }
        i := i + 1;
      }
      return null;
    }

    /** Ack and Nack, without the panic of IsAckedBy: one walk along the list, removing while walking. */
    method Take(n: nat, nack: bool) returns (called: seq<Subscription>, panicked: bool)
      requires Valid()
      modifies this
      ensures Valid()
      ensures panicked <==> !nack && exists i :: 0 <= i < |old(subs)| && !Broker.ValidAck(old(subs)[i].ack)
      ensures !panicked ==> subs == Left(old(subs), n, nack) && called == Taken(old(subs), n, nack)
      ensures forall i | 0 <= i < |called| :: called[i].subList == this && called[i] !in subs
    {
      hide Walk, Left, Taken, Acks;
      ghost var q := subs;
      ghost var seen := 0;
      called := [];
      var e := 0;
      WalkStart(q, n, nack);
      while e < |subs|
        invariant Walk(q, seen, subs, e, called, n, nack)
        invariant 0 <= e <= |subs| && 0 <= seen <= |q|
        invariant nack || forall i | 0 <= i < seen :: Broker.ValidAck(q[i].ack)
        decreases |q| - seen
      {
        WalkOn(q, seen, subs, e, called, n, nack);
        var sub := subs[e];
        var acked, bad := Acks(sub, n, true), false;
        if !nack {
          acked, bad := sub.IsAckedBy(n);
        }
        if bad {
          WalkEnd(q, seen, subs, e, called, n, nack);
          return called, true;
        }
        if acked {
          called := called + [sub];
          subs := subs[..e] + subs[e + 1..];
        } else {
          e := e + 1;
        }
        seen := seen + 1;
      }
      WalkEnd(q, seen, subs, e, called, n, nack);
      panicked := false;
    }
  }

  /** Take has looked at seen entries of q, is at position e of what is left, and has called back for these. */
  predicate Walk(q: seq<Subscription>, seen: nat, subs: seq<Subscription>, e: nat, called: seq<Subscription>, n: nat, nack: bool) {
    && seen <= |q| && e <= |subs| && subs[e..] == q[seen..]
    && subs[..e] == Left(q[..seen], n, nack) && called == Taken(q[..seen], n, nack)
    && Distinct(subs) && (forall s | s in subs :: s in q) && forall s | s in called :: s in q && s !in subs
  }

  lemma WalkStart(q: seq<Subscription>, n: nat, nack: bool)
    requires Distinct(q)
    ensures Walk(q, 0, q, 0, [], n, nack)
  {
  }

  lemma WalkEnd(q: seq<Subscription>, seen: nat, subs: seq<Subscription>, e: nat, called: seq<Subscription>, n: nat, nack: bool)
    requires Walk(q, seen, subs, e, called, n, nack)
    ensures Distinct(subs) && (forall i | 0 <= i < |subs| :: subs[i] in q) && forall i | 0 <= i < |called| :: called[i] in q && called[i] !in subs
    ensures e == |subs| ==> subs == Left(q, n, nack) && called == Taken(q, n, nack) && seen == |q|
  {
    assert |subs[e..]| == |q[seen..]|;
    assert seen == |q| ==> q[..seen] == q;
    assert e == |subs| ==> subs[..e] == subs;
  }

  /** One step of the walk, whether the entry at position e stays or leaves. */
  lemma WalkOn(q: seq<Subscription>, seen: nat, subs: seq<Subscription>, e: nat, called: seq<Subscription>, n: nat, nack: bool)
    requires Walk(q, seen, subs, e, called, n, nack) && e < |subs|
    ensures seen < |q| && subs[e] == q[seen]
    ensures if Acks(subs[e], n, nack) then Walk(q, seen + 1, subs[..e] + subs[e + 1..], e, called + [subs[e]], n, nack)
            else Walk(q, seen + 1, subs, e + 1, called, n, nack)
  {
    hide Acks, Left, Taken;
    WalkTail(subs, e, q, seen);
    LeftAppend(q[..seen], subs[e], n, nack);
    TakenAppend(q[..seen], subs[e], n, nack);
    Removed(subs, e);
    assert subs[e] in subs;
  }

  lemma {:induction false} RemoveAbsent(q: seq<Subscription>, s: Subscription)
    requires forall j | 0 <= j < |q| :: q[j] != s
    ensures Queues.RemoveFirst(q, s) == q
  {
    if q != [] {
      RemoveAbsent(q[1..], s);
    }
  }

  lemma {:induction false} RemoveAt(q: seq<Subscription>, s: Subscription, i: nat)
    requires i < |q| && q[i] == s && forall j | 0 <= j < i :: q[j] != s
    ensures Queues.RemoveFirst(q, s) == q[..i] + q[i + 1..]
  {
    if i > 0 {
      var t := q[1..];
      RemoveAt(t, s, i - 1);
      assert q[..i] == [q[0]] + t[..i - 1];
    }
  }

  lemma WalkTail(subs: seq<Subscription>, e: nat, q: seq<Subscription>, seen: nat)
    requires e < |subs| && seen <= |q| && subs[e..] == q[seen..]
    ensures seen < |q| && subs[e] == q[seen] && subs[e + 1..] == q[seen + 1..] && q[..seen] + [q[seen]] == q[..seen + 1]
    ensures subs[..e + 1] == subs[..e] + [subs[e]]
    ensures var r := subs[..e] + subs[e + 1..]; r[..e] == subs[..e] && r[e..] == q[seen + 1..]
  {
    assert |subs[e..]| == |q[seen..]|;
    assert subs[e] == subs[e..][0] && subs[e + 1..] == subs[e..][1..] && q[seen + 1..] == q[seen..][1..];
  }

  /** Entry i leaves a good list. */
  lemma Removed(q: seq<Subscription>, i: nat)
    requires i < |q| && Distinct(q)
    ensures var r := q[..i] + q[i + 1..];
            Distinct(r) && q[i] !in r && forall s | s in r :: s in q
  {
    RemovedAt(q, i);
  }
}
