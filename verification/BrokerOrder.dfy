/** In every run of the broker, the queue of a destination does what module Queues says of one queue: so what is proved
    there of every sequence of operations holds of every run. */
module BrokerOrder {
  import opened Text
  import opened Frames
  import opened Broker
  import opened BrokerTokens
  import opened BrokerCleanup
  import opened BrokerRuns
  import opened BrokerConservation
  import Queues

  /** The queue operation on destination d that serving the next request is. */
  function NextOp(st: System, d: string): Option<Queues.Op<SubId, Msg>> {
    if st.requests == [] || !IsQueue(d) then None
    else
      match st.requests[0].op
      case Subscribe(s) => if Known(st, s) && st.subs[s].dest == d then Some(Queues.Subscribing(s)) else None
      case Unsubscribe(s) => if Known(st, s) && st.subs[s].dest == d then Some(Queues.Unsubscribing(s)) else None
      case Enqueue(m) => if Destination(m.frame) == Some(d) then Some(Queues.Enqueuing(m)) else None
      case Requeue(m, _) => if Destination(m.frame) == Some(d) then Some(Queues.Requeuing(m)) else None
      case _ => None
  }

  /** What the operation leaves of the queue, and whom it hands a message. */
  function After(st: System, d: string): Queues.Effect<SubId, Msg> {
    match NextOp(st, d)
    case Some(op) => Queues.Apply(QueueOf(st, d), op)
    case None => Queues.Effect(QueueOf(st, d), None)
  }

  lemma {:induction false} RemoveAbsent(q: seq<SubId>, s: SubId)
    requires s !in q
    ensures Queues.RemoveFirst(q, s) == q
  {
    if q != [] {
      assert q == [q[0]] + q[1..];
      RemoveAbsent(q[1..], s);
    }
  }

  lemma SubscribeApplies(st: System, s: SubId, d: string)
    requires Tokens(st) && st.requests != [] && st.requests[0].op == Subscribe(s) && Known(st, s)
    requires ServeSubscribe(st, s).Next? && ServeSubscribe(st, s).st != st
    ensures QueueOf(ServeSubscribe(st, s).st, d) == After(st, d).queue
  {
    hide Tokens, IsQueue, ForSubscription;
    NoTopicQueue(st, d);
  }

  lemma NoTopicQueue(st: System, d: string)
    requires Tokens(st)
    ensures d in st.queues ==> IsQueue(d)
  {
    if d in st.queues { assert QueueTokens(st.subs, d, st.queues[d]); }
  }

  lemma UnsubscribeApplies(st: System, s: SubId, d: string)
    requires Tokens(st) && st.requests != [] && st.requests[0].op == Unsubscribe(s) && Known(st, s)
    ensures ServeUnsubscribe(st, s).Next? && QueueOf(ServeUnsubscribe(st, s).st, d) == After(st, d).queue
  {
    hide Tokens, IsQueue;
    NoTopicQueue(st, d);
    if s !in QueueOf(st, st.subs[s].dest).waiting { RemoveAbsent(QueueOf(st, st.subs[s].dest).waiting, s); }
  }

  lemma MessageApplies(st: System, m: Msg, front: bool, d: string)
    requires st.requests != [] && IsQueueFrame(m.frame)
    requires if front then st.requests[0].op.Requeue? && st.requests[0].op.m == m else st.requests[0].op == Enqueue(m)
    requires ServeMessage(st, Destination(m.frame).value, m, front).Next? && ServeMessage(st, Destination(m.frame).value, m, front).st != st
    ensures QueueOf(ServeMessage(st, Destination(m.frame).value, m, front).st, d) == After(st, d).queue
  {
    hide IsQueue, Destination, ForSubscription;
  }

  /** Serving a request changes every queue as its operation says. */
  lemma ServeApplies(st: System, d: string)
    requires Tokens(st) && Serve(st).Next? && Serve(st).st != st
    ensures QueueOf(Serve(st).st, d) == After(st, d).queue
  {
    hide Tokens, IsQueue, Destination, ServeSubscribe, ServeUnsubscribe, ServeMessage;
    NoTopicQueue(st, d);
    match st.requests[0].op {
      case Subscribe(s) => if Known(st, s) { SubscribeApplies(st, s, d); }
      case Unsubscribe(s) => if Known(st, s) { UnsubscribeApplies(st, s, d); }
      case Enqueue(m) => if IsQueueFrame(m.frame) { MessageApplies(st, m, false, d); }
      case Requeue(m, _) => if IsQueueFrame(m.frame) { MessageApplies(st, m, true, d); }
      case Connected =>
      case Disconnected =>
    }
  }

  /** The subscription that the operation hands a message now holds it, and is on the channel of its connection. */
  predicate Given(st: System, d: string)
    requires Serve(st).Next? && After(st, d).handed.Some?
  {
    var h := After(st, d).handed.value;
    var st' := Serve(st).st;
    && h.sub in st'.subs && st'.subs[h.sub].dest == d && st'.subs[h.sub].at == Channel
    && st'.subs[h.sub].frame.Some? && st'.subs[h.sub].frame.value.ref == h.msg.ref
  }

  lemma HandedOver(st: System, st1: System, s: SubId, m: Msg, listed: bool)
    requires Known(st, s) && st1.subs == st.subs && st1.conns == st.conns && HandOver(st, st1, s, m, listed).Next?
    requires HandOver(st, st1, s, m, listed).st != st
    ensures var st' := HandOver(st, st1, s, m, listed).st;
            && s in st'.subs && st'.subs[s].dest == st.subs[s].dest && st'.subs[s].at == Channel
            && st'.subs[s].frame.Some? && st'.subs[s].frame.value.ref == m.ref
  {
    hide ForSubscription;
    RefStays(m);
  }

  /** Whom the operation hands a message, the step gives it to. */
  lemma HandedIsGiven(st: System, d: string)
    requires Tokens(st) && Serve(st).Next? && Serve(st).st != st && After(st, d).handed.Some?
    ensures Given(st, d)
  {
    WaitersKnown(st, d);
    hide Tokens, IsQueue, Destination, HandOver;
    var h := After(st, d).handed.value;
    var op := NextOp(st, d).value;
    var q := QueueOf(st, d);
    if op.Subscribing? {
      HandedOver(st, WithQueue(PopRequest(st), d, Queues.Subscribe(q, h.sub).queue), h.sub, h.msg, st.subs[h.sub].listed);
    } else {
      var e := if op.Requeuing? then Queues.Requeue(q, h.msg) else Queues.Enqueue(q, h.msg);
      HandedOver(st, WithQueue(PopRequest(st), d, e.queue), h.sub, h.msg, false);
    }
  }

  lemma RefStays(m: Msg)
    ensures forall id :: ForSubscription(m, id).ref == m.ref
  {
  }

  lemma WaitersKnown(st: System, d: string)
    requires Tokens(st)
    ensures d in st.queues ==> forall s | s in st.queues[d].waiting :: s in st.subs && st.subs[s].dest == d
  {
    if d in st.queues { assert QueueTokens(st.subs, d, st.queues[d]); }
  }

  // ---------------------------------------------------------------- along a run

  /** The operations on d that were served. */
  function Ops(states: seq<System>, events: seq<Event>, d: string): seq<Queues.Op<SubId, Msg>>
    requires |states| == |events| + 1
    decreases |events|
  {
    if events == [] then []
    else
      var n := |events| - 1;
      Ops(states[..n + 1], events[..n], d)
      + if events[n] == ServeNext && states[n + 1] != states[n] && NextOp(states[n], d).Some? then [NextOp(states[n], d).value] else []
  }

  /** Only the processor changes a queue. */
  lemma OthersKeepQueues(st: System, e: Event)
    requires Inv(st) && Step(st, e).Next? && e != ServeNext
    ensures Step(st, e).st.queues == st.queues
  {
    hide Inv, Flush, Receive, Deliver, WriteTopicFrame, CloseStep, Find, Local, Exit;
    match e
    case Accept(_) =>
    case FlushNext(d) => if d in st.conns && st.conns[d].outbox != [] { FlushKeepsQueues(st, d); }
    case ReceiveFrame(d, f, io, admit) => if InLoop(st, d) { ReceiveGood(st, d, f, io, admit); LocalQueues(st, Step(st, e).st, d); }
    case ReadClosed(d) => if InLoop(st, d) { ExitKeepsQueues(st, d); }
    case DeliverNext(d, io) => if InLoop(st, d) && st.conns[d].channel != [] { DeliverGood(st, d, io); LocalQueues(st, Step(st, e).st, d); }
    case WriteNext(d, io) => if InLoop(st, d) && st.conns[d].writes != [] { WriteTopicGood(st, d, io); LocalQueues(st, Step(st, e).st, d); }
    case HeartBeat(d, io) => if InLoop(st, d) { ExitKeepsQueues(st, d); }
    case TopicFrame(_, _) =>
    case Close(d, id) => if d in st.conns && st.conns[d].outbox == [] { CloseGood(st, d, id); LocalQueues(st, Step(st, e).st, d); }
  }

  lemma LocalQueues(st: System, st': System, d: ConnId)
    requires Local(st, st', d)
    ensures st'.queues == st.queues
  {
  }

  lemma FlushKeepsQueues(st: System, d: ConnId)
    requires d in st.conns && st.conns[d].outbox != []
    ensures Flush(st, d).queues == st.queues
  {
  }

  lemma ExitKeepsQueues(st: System, d: ConnId)
    requires d in st.conns
    ensures Exit(st, d).queues == st.queues
  {
  }

  lemma RunOne(ops: seq<Queues.Op<SubId, Msg>>, op: Queues.Op<SubId, Msg>)
    ensures Queues.Run(ops + [op]).queue == Queues.Apply(Queues.Run(ops).queue, op).queue
  {
    hide Queues.Apply;
    assert (ops + [op])[..|ops|] == ops;
  }

  /** In every run, the queue of a destination is that of a run of module Queues over the operations served for it. So it is
      a plain deque (QueueRefinesDeque), and it loses and copies no message (MessagesConserved). */
  lemma {:induction false} QueueIsRun(states: seq<System>, events: seq<Event>, d: string)
    requires Path(states, events) && states[0] == START
    ensures Inv(states[|events|]) && QueueOf(states[|events|], d) == Queues.Run(Ops(states, events, d)).queue
    decreases |events|
  {
    hide Inv, Step, Queues.Run, Serve, After, NextOp;
    if events == [] {
      StartInv();
      EmptyOps(states, events, d);
    } else {
      var n := |events| - 1;
      PathPrefix(states, events);
      QueueIsRun(states[..n + 1], events[..n], d);
      assert Step(states[n], events[n]) == Next(states[n + 1]);
      StepInv(states[n], events[n]);
      StepApplies(states[n], events[n], d);
      var ops := Ops(states[..n + 1], events[..n], d);
      if events[n] == ServeNext && states[n + 1] != states[n] {
        AfterOp(states[n], d);
        if NextOp(states[n], d).Some? { RunOne(ops, NextOp(states[n], d).value); } else { assert ops + [] == ops; }
      } else {
        assert ops + [] == ops;
      }
    }
  }

  lemma EmptyOps(states: seq<System>, events: seq<Event>, d: string)
    requires events == [] && |states| == 1 && states[0] == START
    ensures QueueOf(states[0], d) == Queues.Run(Ops(states, events, d)).queue
  {
  }

  lemma AfterOp(st: System, d: string)
    ensures After(st, d).queue
            == match NextOp(st, d) case Some(op) => Queues.Apply(QueueOf(st, d), op).queue case None => QueueOf(st, d)
  {
  }

  lemma StepApplies(st: System, e: Event, d: string)
    requires Inv(st) && Step(st, e).Next?
    ensures QueueOf(Step(st, e).st, d) == if e == ServeNext && Step(st, e).st != st then After(st, d).queue else QueueOf(st, d)
  {
    hide Tokens, Conserved, Ordered, Serve, Step, After;
    if e == ServeNext {
      assert Step(st, e) == Serve(st) by { ServesStep(st); }
      if Serve(st).st != st { ServeApplies(st, d); }
    } else {
      OthersKeepQueues(st, e);
    }
  }

  lemma ServesStep(st: System)
    ensures Step(st, ServeNext) == Serve(st)
  {
  }

  /** In every run in which no RequeueOp was served for destination d, the messages handed over from its queue, followed by
      those stored in it, are the messages of the EnqueueOps served for it, in that order. */
  lemma FirstInFirstOutInRuns(states: seq<System>, events: seq<Event>, d: string)
    requires Path(states, events) && states[0] == START
    requires forall i | 0 <= i < |Ops(states, events, d)| :: !Ops(states, events, d)[i].Requeuing?
    ensures Queues.Messages(Queues.Run(Ops(states, events, d)).log) + QueueOf(states[|events|], d).stored
            == Queues.Given(Ops(states, events, d))
  {
    hide Step, Inv, Queues.Run, Ops, Queues.Given;
    QueueIsRun(states, events, d);
    Queues.FirstInFirstOut(Ops(states, events, d));
  }
}
