/** No frame is handled before the connection was established: the first frame of a connection that is up is a CONNECT. */
module BrokerConnects {
  import opened Text
  import opened Frames
  import opened Broker
  import opened BrokerTokens
  import opened BrokerConservation
  import opened BrokerCleanup
  import opened BrokerRuns
  import opened BrokerAnswers
  import opened BrokerClients
  import opened BrokerTheorems
  import opened BrokerHistory
  import opened BrokerHandlers
  import opened BrokerLoop
  import opened BrokerIds
  import opened BrokerBounds

  /** Nothing was received while the connection waits for its first frame, and once it is up, this was a CONNECT or STOMP that
      asks for no receipt. */
  predicate Started(k: Conn) {
    && (k.phase == Connecting ==> k.received == [])
    && (k.phase == Running ==>
          k.received != [] && (k.received[0].command == "CONNECT" || k.received[0].command == "STOMP") && Find(k.received[0].header, "receipt").None?)
  }

  predicate AllStarted(st: System) {
    forall c | c in st.conns :: Started(st.conns[c])
  }

  /** The connection has received nothing, and is where it was or further. */
  predicate Later(k: Conn, k': Conn) {
    k'.received == k.received && (k'.phase == k.phase || !Up(k'))
  }

  lemma LaterStarted(k: Conn, k': Conn)
    requires Started(k) && Later(k, k')
    ensures Started(k')
  {
    hide Find;
  }

  lemma ActStarted(st: System, st': System, c: ConnId)
    requires AllStarted(st) && Local(st, st', c) && c in st.conns && c in st'.conns && Started(st'.conns[c])
    ensures AllStarted(st')
  {
    hide Started;
  }

  lemma LaterAll(st: System, st': System, c: ConnId)
    requires AllStarted(st) && Local(st, st', c) && c in st.conns && c in st'.conns && Later(st.conns[c], st'.conns[c])
    ensures AllStarted(st')
  {
    LaterStarted(st.conns[c], st'.conns[c]);
    hide Started, Local, Later;
    ActStarted(st, st', c);
  }

  lemma ConnLater(st: System, c: ConnId, k': Conn)
    requires AllStarted(st) && c in st.conns && Later(st.conns[c], k')
    ensures AllStarted(WithConn(st, c, k'))
  {
    LaterStarted(st.conns[c], k');
    hide Started;
  }

  lemma ServeStarted(st: System)
    requires Inv(st) && AllStarted(st) && Serve(st).Next?
    ensures AllStarted(Serve(st).st)
  {
    hide Tokens, Conserved, Ordered, Serve, WaitingShrinks;
    ServeShrinks(st);
    var st' := Serve(st).st;
    if st' != st {
      forall c | c in st'.conns ensures Started(st'.conns[c]) { LaterStarted(st.conns[c], st'.conns[c]); }
    }
  }

  lemma FlushStarted(st: System, d: ConnId)
    requires AllStarted(st) && d in st.conns && st.conns[d].outbox != []
    ensures AllStarted(Flush(st, d))
  {
    forall c | c in st.conns ensures Started(Flush(st, d).conns[c]) {
      FlushKeepsConn(st, d, c);
      LaterStarted(st.conns[c], Flush(st, d).conns[c]);
    }
  }

  lemma ReceiveStarted(st: System, c: ConnId, f: Frame, io: bool, admit: bool)
    requires Reachable(st) && Good(st) && AllStarted(st) && InLoop(st, c) && Receive(st, c, f, io, admit).Next?
    ensures AllStarted(Receive(st, c, f, io, admit).st)
  {
    hide Reachable, Inv, ClientsGood, Receive, Accepts, Effect, Still, Local, Find, Remembers, TxOk;
    GoodTx(st, c);
    ReceivedGrows(st, c, f, io, admit);
    if st.conns[c].phase == Running {
      FramesHandled(st, c, f, io, admit);
    } else {
      ConnectHandled(st, c, f, io, admit);
    }
    assert Started(st.conns[c]);
    ActStarted(st, Receive(st, c, f, io, admit).st, c);
  }

  lemma DeliverStarted(st: System, c: ConnId, io: bool)
    requires Inv(st) && AllStarted(st) && InLoop(st, c) && st.conns[c].channel != [] && Deliver(st, c, io).Next?
    ensures AllStarted(Deliver(st, c, io).st)
  {
    hide Inv, Local;
    DeliverGood(st, c, io);
    DeliverLater(st, c, io);
    hide Deliver, Later, Started;
    LaterAll(st, Deliver(st, c, io).st, c);
  }

  lemma DeliverLater(st: System, c: ConnId, io: bool)
    requires c in st.conns && st.conns[c].channel != [] && Deliver(st, c, io).Next?
    ensures c in Deliver(st, c, io).st.conns && Later(st.conns[c], Deliver(st, c, io).st.conns[c])
  {
    hide Stamp, NextMsgId;
  }

  lemma CloseStarted(st: System, c: ConnId, id: string)
    requires Inv(st) && AllStarted(st) && c in st.conns && CloseStep(st, c, id).Next?
    ensures AllStarted(CloseStep(st, c, id).st)
  {
    hide Inv, Local, CloseStep, Started;
    if Up(st.conns[c]) {
      UpDoesNotClose(st, c, id);
    } else {
      CloseGood(st, c, id);
      LocalKeys(st, CloseStep(st, c, id).st, c);
      CloseQuietly(st, c, id);
      LaterAll(st, CloseStep(st, c, id).st, c);
    }
  }

  lemma WriteStarted(st: System, c: ConnId, io: bool)
    requires AllStarted(st) && InLoop(st, c) && st.conns[c].writes != []
    ensures AllStarted(WriteTopicFrame(st, c, io))
  {
    hide Stamp, NextMsgId, AllStarted;
    var st' := WriteTopicFrame(st, c, io);
    ConnLater(st, c, st'.conns[c]);
    assert st' == WithConn(st, c, st'.conns[c]);
  }

  lemma StepStarted(st: System, e: Event)
    requires Reachable(st) && Good(st) && AllStarted(st) && Step(st, e).Next?
    ensures AllStarted(Step(st, e).st)
  {
    hide Reachable, Inv, ClientsGood, AllStarted, Serve, Flush, Receive, Deliver, WriteTopicFrame, CloseStep, Find;
    match e
    case Accept(c) => if c !in st.conns { AcceptStarted(st, c); }
    case ServeNext => ServeStarted(st);
    case FlushNext(c) => if c in st.conns && st.conns[c].outbox != [] { FlushStarted(st, c); }
    case ReceiveFrame(c, f, io, admit) => if InLoop(st, c) { ReceiveStarted(st, c, f, io, admit); }
    case ReadClosed(c) => if InLoop(st, c) { ConnLater(st, c, Exit(st, c).conns[c]); }
    case DeliverNext(c, io) => if InLoop(st, c) && st.conns[c].channel != [] { DeliverStarted(st, c, io); }
    case WriteNext(c, io) => if InLoop(st, c) && st.conns[c].writes != [] { WriteStarted(st, c, io); }
    case HeartBeat(c, io) => if InLoop(st, c) { ConnLater(st, c, Exit(st, c).conns[c]); }
    case TopicFrame(c, f) => if c in st.conns { ConnLater(st, c, st.conns[c].(writes := st.conns[c].writes + [f])); }
    case Close(c, id) => if c in st.conns && st.conns[c].outbox == [] { CloseStarted(st, c, id); }
  }

  lemma AcceptStarted(st: System, c: ConnId)
    requires AllStarted(st) && c !in st.conns
    ensures AllStarted(WithConn(st, c, EMPTY_CONN))
  {
    assert Started(EMPTY_CONN);
    hide Started;
  }

  lemma {:induction false} PathStarted(states: seq<System>, events: seq<Event>)
    requires Path(states, events) && states[0] == START
    ensures Reachable(states[|events|]) && AllStarted(states[|events|])
    decreases |events|
  {
    hide AllStarted, Step, Good, Leads;
    LeadsByPath(states, events);
    if events == [] {
      assert AllStarted(START) by { StartStarted(); }
    } else {
      var n := |events| - 1;
      PathPrefix(states, events);
      PathStarted(states[..n + 1], events[..n]);
      assert Step(states[n], events[n]) == Next(states[n + 1]);
      ReachableGood(states[n]);
      StepStarted(states[n], events[n]);
    }
  }

  lemma StartStarted()
    ensures AllStarted(START)
  {
  }

  /** In every run, a connection that is up began with a CONNECT or STOMP frame without a receipt, and one that is not yet up
      has handled nothing. */
  lemma ConnectComesFirst(st: System, c: ConnId)
    requires Reachable(st) && c in st.conns
    ensures st.conns[c].phase == Connecting ==> st.conns[c].received == []
    ensures st.conns[c].phase == Running ==>
              && st.conns[c].received != []
              && (st.conns[c].received[0].command == "CONNECT" || st.conns[c].received[0].command == "STOMP")
              && Find(st.conns[c].received[0].header, "receipt").None?
  {
    hide Step;
    var states, events :| Path(states, events) && states[0] == START && states[|events|] == st;
    PathStarted(states, events);
  }
}
