/** Queue and MemoryQueueStorage objects (server/queue/queue.go, server/queue/memory_queue.go), proved
    against the functions of module Queues. One storage holds the messages of all destinations. */
module QueueObjects {
  import opened Text
  import opened Frames
  import opened Headers
  import opened Subscriptions
  import Queues

  class MemoryQueueStorage {
    var lists: map<string, seq<FrameObject>>

    ghost function Stored(d: string): seq<FrameObject>
      reads this
    {
      if d in lists then lists[d] else []
    }

    constructor ()
      ensures forall d :: Stored(d) == []
    {
      lists := map[];
    }

    method Enqueue(queue: string, f: FrameObject)
      modifies this
      ensures Stored(queue) == old(Stored(queue)) + [f]
      ensures forall d | d != queue :: Stored(d) == old(Stored(d))
    {
      if queue !in lists {
        lists := lists[queue := []];
      }
      lists := lists[queue := lists[queue] + [f]];
    }

    method Requeue(queue: string, f: FrameObject)
      modifies this
      ensures Stored(queue) == [f] + old(Stored(queue))
      ensures forall d | d != queue :: Stored(d) == old(Stored(d))
    {
      if queue !in lists {
        lists := lists[queue := []];
      }
      lists := lists[queue := [f] + lists[queue]];
    }

    method Dequeue(queue: string) returns (f: FrameObject?)
      modifies this
      ensures if old(Stored(queue)) == [] then f == null && Stored(queue) == []
              else f == old(Stored(queue))[0] && Stored(queue) == old(Stored(queue))[1..]
      ensures forall d | d != queue :: Stored(d) == old(Stored(d))
    {
      if queue !in lists {
        return null;
      }
      var l := lists[queue];
      if l == [] {
        return null;
      }
      f := l[0];
      lists := lists[queue := l[1..]];
    }
  }

  /** Every frame that a queue handles has a header. */
  ghost predicate Deliverable(f: FrameObject)
    reads f, f.header
  {
    f.Valid() && f.header != null
  }

  class Queue {
    const destination: string
    const qstore: MemoryQueueStorage
    const subs: SubscriptionList

    constructor (destination: string, qstore: MemoryQueueStorage)
      ensures this.destination == destination && this.qstore == qstore
      ensures fresh(subs) && subs.Valid() && subs.subs == []
    {
      this.destination, this.qstore := destination, qstore;
      subs := new SubscriptionList();
    }

    /** The queue as a value. */
    ghost function State(): Queues.Queue<Subscription, FrameObject>
      reads subs, qstore
    {
      Queues.Queue(subs.subs, qstore.Stored(destination))
    }

    /** Subscribe: with a stored message, sub gets the first one; without, it waits. It panics when a message is there
        and sub already holds a frame, or when none is there and sub points to a list. */
    method Subscribe(sub: Subscription) returns (panicked: bool)
      requires subs.Valid() && sub.dest == destination
      requires qstore.Stored(destination) != [] ==> Deliverable(qstore.Stored(destination)[0])
      modifies subs, qstore, sub`subList, sub`frame, sub.conn`subChannel
      modifies if qstore.Stored(destination) == [] then {} else {qstore.Stored(destination)[0].header}
      ensures subs.Valid()
      ensures panicked <==> if old(qstore.Stored(destination)) != [] then old(sub.frame) != null else old(sub.subList) != null
      ensures !panicked ==>
                var e := Queues.Subscribe(old(State()), sub);
                && State() == e.queue
                && (e.handed.Some? ==>
                      && sub.frame == e.handed.value.msg && sub.conn.subChannel == old(sub.conn.subChannel) + [sub]
                      && Deliverable(e.handed.value.msg)
                      && e.handed.value.msg.header.Contents()
                         == Frames.Put(old(qstore.Stored(destination)[0].header.Contents()), "subscription", sub.id))
                && (e.handed.None? ==> sub.frame == old(sub.frame) && sub.conn.subChannel == old(sub.conn.subChannel) && sub.subList == subs)
      ensures forall d | d != destination :: qstore.Stored(d) == old(qstore.Stored(d))
    {
      var f := qstore.Dequeue(sub.dest);
      if f == null {
        panicked := subs.Add(sub);
      } else {
        panicked := sub.SendQueueFrame(f);
      }
    }

    method Unsubscribe(sub: Subscription)
      requires subs.Valid()
      modifies subs, sub`subList
      ensures subs.Valid() && State() == Queues.Unsubscribe(old(State()), sub).queue
      ensures sub.subList == if sub in old(subs.subs) then null else old(sub.subList)
    {
      subs.Remove(sub);
    }

    /** What a message given to a waiting subscription, or to the storage, leaves behind. */
    twostate predicate Passed(e: Queues.Effect<Subscription, FrameObject>, f: FrameObject)
      requires old(Deliverable(f))
      reads *
    {
      && Deliverable(f)
      && State() == e.queue
      && match e.handed
         case None => f.header.Contents() == old(f.header.Contents())
         case Some(h) =>
           && h.msg == f && h.sub in old(subs.subs) && h.sub.frame == f && h.sub.subList == null
           && h.sub.conn.subChannel == old(h.sub.conn.subChannel) + [h.sub]
           && f.header.Contents() == Frames.Put(old(f.header.Contents()), "subscription", h.sub.id)
    }

    /** Enqueue panics exactly when the subscription that waited longest already holds a frame. */
    method Enqueue(f: FrameObject) returns (panicked: bool)
      requires subs.Valid() && Deliverable(f)
      modifies subs, qstore, subs.Front(), set s | s in subs.Front() :: s.conn, f.header
      ensures subs.Valid()
      ensures panicked <==> old(subs.subs) != [] && old(subs.subs[0].frame) != null
      ensures !panicked ==> Passed(Queues.Enqueue(old(State()), f), f)
      ensures forall d | d != destination :: qstore.Stored(d) == old(qstore.Stored(d))
    {
      panicked := false;
      var sub := subs.Get();
      if sub == null {
        qstore.Enqueue(destination, f);
      } else {
        panicked := sub.SendQueueFrame(f);
      }
    }

    /** Requeue: the same, but a message that is stored goes to the front. */
    method Requeue(f: FrameObject) returns (panicked: bool)
      requires subs.Valid() && Deliverable(f)
      modifies subs, qstore, subs.Front(), set s | s in subs.Front() :: s.conn, f.header
      ensures subs.Valid()
      ensures panicked <==> old(subs.subs) != [] && old(subs.subs[0].frame) != null
      ensures !panicked ==> Passed(Queues.Requeue(old(State()), f), f)
      ensures forall d | d != destination :: qstore.Stored(d) == old(qstore.Stored(d))
    {
      panicked := false;
      var sub := subs.Get();
      if sub == null {
        qstore.Requeue(destination, f);
      } else {
        panicked := sub.SendQueueFrame(f);
      }
    }
  }
}
