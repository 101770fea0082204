/** Which requests go to a queue: those whose destination starts with the literal prefix, and what serving a message does
    to the queue of its destination. */
module BrokerRouting {
  import opened Text
  import opened Frames
  import opened Broker
  import opened BrokerTokens
  import opened BrokerRuns
  import opened BrokerCleanup
  import opened BrokerConservation
  import opened BrokerClients
  import opened BrokerTheorems
  import Queues

  /** The first six bytes of d are these. */
  predicate Prefixed(d: string) {
    |d| >= 6 && d[..6] == "/queue"
  }

  /** The destinations of queues are exactly the texts with this prefix; what follows it is of no importance. */
  lemma QueuePrefixIff(d: string)
    ensures IsQueue(d) <==> Prefixed(d)
  {
    assert |"/queue"| == 6;
  }

  /** In every run, every queue has such a destination. */
  lemma QueuesArePrefixed(st: System, d: string)
    requires Reachable(st) && d in st.queues
    ensures Prefixed(d)
  {
    hide Conserved, Ordered, ClientsGood, Reachable, IsQueue;
    ReachableGood(st);
    QueuePrefixIff(d);
    assert QueueTokens(st.subs, d, st.queues[d]);
  }

  /** No queue, channel or subscription has changed. */
  predicate NoQueueTouched(st: System, st': System) {
    st'.queues == st.queues && st'.conns == st.conns && st'.subs == st.subs
  }

  /** Message m is stored in queue d, in front of the stored messages or behind them, and nothing else has changed. */
  predicate Joins(st: System, st': System, d: string, m: Msg, front: bool) {
    var before := if d in st.queues then st.queues[d].stored else [];
    && d in st'.queues && st'.queues[d].waiting == [] && st'.queues[d].stored == (if front then [m] + before else before + [m])
    && st'.queues == st.queues[d := st'.queues[d]]
    && st'.conns == st.conns && st'.subs == st.subs
  }

  /** Message m passes queue d: the subscription s that waits first leaves it, and holds m, under its own id, on the channel
      of its connection. */
  predicate Passes(st: System, st': System, d: string, m: Msg, s: SubId) {
    && d in st.queues && st.queues[d].waiting != [] && st.queues[d].waiting[0] == s
    && st'.queues == st.queues[d := st.queues[d].(waiting := st.queues[d].waiting[1..])]
    && s in st.subs && st.subs[s].conn in st.conns
    && st'.conns == st.conns[st.subs[s].conn := st.conns[st.subs[s].conn].(channel := st.conns[st.subs[s].conn].channel + [s])]
    && s in st'.subs && st'.subs == st.subs[s := st'.subs[s]]
    && st'.subs[s].frame == Some(Msg(m.ref, m.frame.(header := Put(m.frame.header, "subscription", st.subs[s].id))))
  }

  /** The channel of s, which waits first in queue d, is full. */
  predicate Blocked(st: System, d: string) {
    && d in st.queues && st.queues[d].waiting != []
    && var s := st.queues[d].waiting[0];
       s in st.subs && st.subs[s].conn in st.conns && |st.conns[st.subs[s].conn].channel| >= 16
  }

  /** The destination of the message that the next request brings, and whether it is given back. */
  predicate Brings(st: System, d: string, m: Msg, back: bool) {
    && st.requests != [] && Find(m.frame.header, "destination") == Some(d)
    && (if back then st.requests[0].op.Requeue? && st.requests[0].op.m == m else st.requests[0].op == Enqueue(m))
  }

  /** In every run, a message whose destination has no queue prefix leaves every queue, channel and subscription alone; with
      it, the message waits while the channel of the first waiter is full, passes the queue if somebody waits, and is stored
      otherwise, behind the others when it was sent and before them when it was given back. */
  lemma MessagesAreRouted(st: System, d: string, m: Msg, back: bool)
    requires Reachable(st) && Brings(st, d, m, back)
    ensures Serve(st).Next?
    ensures var st' := Serve(st).st;
            if !Prefixed(d) then st'.requests == st.requests[1..] && NoQueueTouched(st, st')
            else if Blocked(st, d) then st' == st
            else st'.requests == st.requests[1..]
                 && if d in st.queues && st.queues[d].waiting != [] then Passes(st, st', d, m, st.queues[d].waiting[0])
                    else Joins(st, st', d, m, back)
  {
    hide Conserved, Ordered, ClientsGood, Reachable, IsQueue;
    ReachableGood(st);
    QueuePrefixIff(d);
    NextIsMessage(st, d, m, back);
    if Prefixed(d) {
      hide Serve, Prefixed;
      if d in st.queues && st.queues[d].waiting != [] { FirstWaiter(st, d); }
      hide Tokens;
      MessageServed(st, d, m, back);
    }
  }

  lemma NextIsMessage(st: System, d: string, m: Msg, back: bool)
    requires Brings(st, d, m, back)
    ensures Serve(st) == if IsQueue(d) then ServeMessage(st, d, m, back) else Next(st.(requests := st.requests[1..]))
  {
    hide IsQueue, Find;
  }

  lemma FirstWaiter(st: System, d: string)
    requires Tokens(st) && d in st.queues && st.queues[d].waiting != []
    ensures var s := st.queues[d].waiting[0]; Known(st, s) && st.subs[s].frame.None?
  {
    assert QueueTokens(st.subs, d, st.queues[d]);
    assert SubTokens(st.queues[d].waiting[0], st.subs[st.queues[d].waiting[0]], st.matched);
  }

  lemma MessageServed(st: System, d: string, m: Msg, back: bool)
    requires st.requests != []
    requires d in st.queues && st.queues[d].waiting != [] ==>
               var s := st.queues[d].waiting[0]; Known(st, s) && st.subs[s].frame.None?
    ensures ServeMessage(st, d, m, back).Next?
    ensures var st' := ServeMessage(st, d, m, back).st;
            if Blocked(st, d) then st' == st
            else st'.requests == st.requests[1..]
                 && if d in st.queues && st.queues[d].waiting != [] then Passes(st, st', d, m, st.queues[d].waiting[0])
                    else Joins(st, st', d, m, back)
  {
  }

  /** In every run, a subscription whose destination has no queue prefix is in no queue and holds no frame, before and after
      its requests are served, which touch no queue and no channel. */
  lemma TopicsTouchNoQueue(st: System, s: SubId)
    requires Reachable(st) && s in st.subs && !Prefixed(st.subs[s].dest)
    ensures forall d | d in st.queues :: s !in st.queues[d].waiting
    ensures forall c | c in st.conns :: s !in st.conns[c].channel && s !in st.conns[c].pending
    ensures st.requests != [] && (st.requests[0].op == Subscribe(s) || st.requests[0].op == Unsubscribe(s)) ==>
              && Serve(st).Next? && Serve(st).st.requests == st.requests[1..]
              && Serve(st).st.queues == st.queues && Serve(st).st.conns == st.conns
  {
    hide Conserved, Ordered, ClientsGood, Reachable, IsQueue;
    ReachableGood(st);
    QueuePrefixIff(st.subs[s].dest);
    assert SubTokens(s, st.subs[s], st.matched);
    forall d | d in st.queues ensures s !in st.queues[d].waiting { assert QueueTokens(st.subs, d, st.queues[d]); }
    forall c | c in st.conns ensures s !in st.conns[c].channel && s !in st.conns[c].pending { assert ConnTokens(st.subs, c, st.conns[c]); }
    hide Tokens, ConnTokens, QueueTokens;
  }
}
