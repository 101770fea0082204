/** Topics (server/topic/topic.go): every subscriber gets its own copy of a message. */
module Topics {
  import opened Text
  import opened Frames
  import opened Headers
  import opened Subscriptions
  import Queues

  /** The frames of sent, whose i-th element goes to the i-th subscription, that connection c gets. */
  function For(c: Connection, subs: seq<Subscription>, sent: seq<FrameObject>): seq<FrameObject>
    requires |sent| <= |subs|
  {
    if sent == [] then []
    else
      var i := |sent| - 1;
      For(c, subs, sent[..i]) + (if subs[i].conn == c then [sent[i]] else [])
  }

  /** The frame that a subscription gets when value is sent to the topic. */
  function CopyFor(value: Frame, s: Subscription): Frame {
    value.(header := Put(value.header, "subscription", s.id))
  }

  ghost predicate IsCopy(g: FrameObject, value: Frame, s: Subscription)
    reads g, g.header, g.body
  {
    g.Valid() && g.Value() == CopyFor(value, s)
  }

  /** The objects a frame is made of. */
  ghost function Parts(g: FrameObject): set<object>
  {
    {g} + (if g.header == null then {} else {g.header}) + (if g.body == null then {} else {g.body})
  }

  /** No two frames share an object, so a change to the header or body of one cannot be seen through another. */
  ghost predicate Separate(parts: seq<set<object>>) {
    forall i, j | 0 <= i < j < |parts| :: parts[i] !! parts[j]
  }

  lemma SeparateMore(parts: seq<set<object>>, p: set<object>)
    requires Separate(parts) && forall i | 0 <= i < |parts| :: parts[i] !! p
    ensures Separate(parts + [p])
  {
  }

  class Topic {
    var subs: seq<Subscription>

    constructor ()
      ensures subs == []
    {
      subs := [];
    }

    method Subscribe(sub: Subscription)
      modifies this
      ensures subs == old(subs) + [sub]
    {
      subs := subs + [sub];
    }

    method Unsubscribe(sub: Subscription)
      modifies this
      ensures subs == Queues.RemoveFirst(old(subs), sub)
    {
      var i := 0;
      while i < |subs|
        invariant i <= |subs| && subs == old(subs)
        invariant forall j | 0 <= j < i :: subs[j] != sub
      {
        if subs[i] == sub {
          RemoveAt(subs, sub, i);
          subs := subs[..i] + subs[i + 1..];
          return;
        }
        i := i + 1;
      }
      RemoveAbsent(subs, sub);
    }

    /** The connections of the subscribers. */
    ghost function Conns(): set<Connection>
      reads this
    {
      set s | s in subs :: s.conn
    }

    /** Enqueue. The out-parameters hold the frames sent, one for each subscriber in turn, and the objects they are
        made of; they are history. Each frame is what was sent with the subscriber's own id, no two share an object,
        and each connection gets those of its subscribers in order. The last subscriber, who may be the only one,
        gets the frame itself, after the loop has given a clone to each of the others. A subscription that holds a
        frame would panic; a topic never gives one to keep. */
    method Enqueue(f: FrameObject) returns (ghost sent: seq<FrameObject>, ghost parts: seq<set<object>>)
      requires f.Valid() && f.header != null
      requires forall s | s in subs :: s.frame == null
      modifies Conns(), f.header
      ensures |sent| == |subs|
      ensures forall i | 0 <= i < |sent| :: IsCopy(sent[i], old(f.Value()), subs[i])
      ensures Separate(parts) && |parts| == |sent| && forall i | 0 <= i < |sent| :: parts[i] == Parts(sent[i])
      ensures subs != [] ==> sent[|subs| - 1] == f
      ensures forall c | c in Conns() :: c.writeChannel == old(c.writeChannel) + For(c, subs, sent)
    {
      hide For, CopyFor, IsCopy, Parts, Separate, FrameObject.Valid, FrameObject.Value, Header.Contents, Entries;
      sent, parts := [], [];
      NoneSeparate();
      ForNobody(subs);
      if |subs| > 0 {
        sent, parts := EnqueueClones(f);
        var last := Give(f, subs[|subs| - 1], true);
        ForOneMore(subs, sent, last);
        SeparateMore(parts, Parts(f));
        sent, parts := sent + [f], parts + [Parts(f)];
      }
    }

    /** All subscribers but the last get a clone. */
    method EnqueueClones(f: FrameObject) returns (ghost sent: seq<FrameObject>, ghost parts: seq<set<object>>)
      requires f.Valid() && f.header != null && |subs| > 0
      requires forall s | s in subs :: s.frame == null
      modifies Conns()
      ensures |sent| == |parts| == |subs| - 1
      ensures forall i | 0 <= i < |sent| :: IsCopy(sent[i], f.Value(), subs[i]) && sent[i].header != f.header
      ensures Separate(parts) && forall i | 0 <= i < |sent| :: parts[i] == Parts(sent[i]) && parts[i] !! Parts(f)
      ensures forall c | c in Conns() :: c.writeChannel == old(c.writeChannel) + For(c, subs, sent)
    {
      hide For, CopyFor, IsCopy, Parts, Separate, FrameObject.Valid, FrameObject.Value, Header.Contents, Entries;
      sent, parts := [], [];
      NoneSeparate();
      ForNobody(subs);
      var e := 0;
      while e < |subs| - 1
        invariant 0 <= e < |subs| && |sent| == |parts| == e
        invariant forall s | s in subs :: s.frame == null
        invariant forall i | 0 <= i < e :: parts[i] == Parts(sent[i]) && parts[i] !! Parts(f) && sent[i].header != f.header
        invariant forall i | 0 <= i < e :: IsCopy(sent[i], f.Value(), subs[i])
        invariant Separate(parts)
        invariant forall c | c in Conns() :: c.writeChannel == old(c.writeChannel) + For(c, subs, sent)
      {
        var g := Give(f, subs[e], false);
        ForOneMore(subs, sent, g);
        SeparateMore(parts, Parts(g));
        sent, parts := sent + [g], parts + [Parts(g)];
        e := e + 1;
      }
    }

    /** The last subscriber gets f itself, the others get a clone. */
    method Give(f: FrameObject, sub: Subscription, last: bool) returns (g: FrameObject)
      requires f.Valid() && f.header != null && sub.frame == null
      modifies sub.conn`writeChannel, if last then {f.header} else {}
      ensures f.Valid()
      ensures !last ==> fresh(Parts(g)) && Parts(g) !! Parts(f) && g.header != f.header && f.Value() == old(f.Value())
      ensures last ==> g == f
      ensures g.Valid() && g.header != null
      ensures IsCopy(g, old(f.Value()), sub) && sub.conn.writeChannel == old(sub.conn.writeChannel) + [g]
    {
      hide Put, Entries;
      g := f;
      if !last {
        g := f.Clone();
      }
      var panicked := sub.SendTopicFrame(g);
      assert !panicked;
    }
  }

  lemma NoneSeparate()
    ensures Separate([])
  {
  }

  lemma ForNobody(subs: seq<Subscription>)
    ensures forall c :: For(c, subs, []) == []
  {
  }

  lemma ForOneMore(subs: seq<Subscription>, sent: seq<FrameObject>, g: FrameObject)
    requires |sent| < |subs|
    ensures forall c :: For(c, subs, sent + [g]) == For(c, subs, sent) + if subs[|sent|].conn == c then [g] else []
  {
    assert (sent + [g])[..|sent|] == sent;
  }
}
