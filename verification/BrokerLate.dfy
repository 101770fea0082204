/** A run that strands a frame: a SubscribeOp is still in the request channel when the connection of its subscription has
    closed, and the processor hands it a stored message. */
module BrokerLate {
  import opened Text
  import opened Frames
  import opened Broker
  import opened BrokerExamples
  import opened BrokerRevival
  import opened BrokerStranded
  import Queues

  // ---------------------------------------------------------------- steps of any such state

  lemma StopsReading(st: System, k: Conn)
    requires st.conns == Only(k) && k.phase == Running && k.outbox == [] && k.txs == map[] && k.writes == []
    ensures Step(st, ReadClosed(0)) == Next(st.(conns := Only(k.(phase := Unsubscribing))))
  {
    OnlyUpdate(k, k.(phase := Unsubscribing));
  }

  lemma EndsDraining(st: System, k: Conn)
    requires st.conns == Only(k) && k.phase == Draining && k.outbox == [] && k.channel == []
    ensures Step(st, Close(0, "a")) == Next(st.(conns := Only(k.(phase := LastDrain, outbox := [Disconnected]))))
  {
    OnlyUpdate(k, k.(phase := LastDrain));
    OnlyUpdate(k.(phase := LastDrain), k.(phase := LastDrain, outbox := [Disconnected]));
    assert k.outbox + [Disconnected] == [Disconnected];
  }

  lemma EndsLastDrain(st: System, k: Conn)
    requires st.conns == Only(k) && k.phase == LastDrain && k.outbox == [] && k.channel == [] && k.writes == []
    ensures Step(st, Close(0, "a")) == Next(st.(conns := Only(k.(phase := Closed))))
  {
    OnlyUpdate(k, k.(phase := Closed));
  }

  // ---------------------------------------------------------------- the run

  const KS := Hears(KA, SUBSCRIBE_AUTO).(subs := map["a" := 0])
  const S1 := A3.(conns := Only(KS.(outbox := [Subscribe(0)])), subs := map[0 := SUB], nextSub := 1)
  const S2 := A3.(conns := Only(KS), subs := map[0 := SUB.(at := Requested)], nextSub := 1, requests := [Request(0, Subscribe(0))])
  const KT := KS.(phase := Unsubscribing)
  const S3 := S2.(conns := Only(KT))
  const KU := KT.(subs := map[])
  const S4 := S2.(conns := Only(KU.(outbox := [Unsubscribe(0)])))
  const S5 := S2.(conns := Only(KU), requests := [Request(0, Subscribe(0)), Request(0, Unsubscribe(0))])

  lemma SubscribeStillQueued()
    ensures Reachable(S5)
  {
    hide Reachable, Step;
    OneMessageStored();
    SubscribesAgain(A3, KA);
    assert map[][0 := SUB] == S1.subs;
    ReachMore(A3, ReceiveFrame(0, SUBSCRIBE_AUTO, true, true), S1);
    Flushes(S1, KS, Subscribe(0));
    assert S1.subs[0 := SUB.(at := Requested)] == S2.subs;
    ReachMore(S1, FlushNext(0), S2);
    StopsReading(S2, KS);
    ReachMore(S2, ReadClosed(0), S3);
    EndsOne(S3, KT, 0);
    ReachMore(S3, Close(0, "a"), S4);
    FlushesMore(S4, KU, Unsubscribe(0));
    assert S4.requests + [Request(0, Unsubscribe(0))] == S5.requests;
    ReachMore(S4, FlushNext(0), S5);
  }

  const S6 := S5.(conns := Only(KU.(phase := Requeuing)))
  const S7 := S5.(conns := Only(KU.(phase := Draining)))
  const KV := KU.(phase := LastDrain)
  const S8 := S5.(conns := Only(KV.(outbox := [Disconnected])))
  const REST := [Request(0, Unsubscribe(0)), Request(0, Disconnected)]
  const S9 := S5.(conns := Only(KV), requests := [Request(0, Subscribe(0))] + REST)
  const KW := KV.(phase := Closed)
  const S10 := S9.(conns := Only(KW))

  lemma ClosesWithoutFrames()
    ensures Reachable(S10)
  {
    hide Reachable, Step;
    SubscribeStillQueued();
    EndsUnsubscribing(S5, KU);
    ReachMore(S5, Close(0, "a"), S6);
    EndsRequeuing(S6, KU.(phase := Requeuing));
    ReachMore(S6, Close(0, "a"), S7);
    EndsDraining(S7, KU.(phase := Draining));
    ReachMore(S7, Close(0, "a"), S8);
    FlushesMore(S8, KV, Disconnected);
    assert S8.requests + [Request(0, Disconnected)] == S9.requests;
    ReachMore(S8, FlushNext(0), S9);
    EndsLastDrain(S9, KV);
    ReachMore(S9, Close(0, "a"), S10);
  }

  const S11 := S10.(conns := Only(KW.(channel := [0])), requests := REST, queues := OnlyQueue([], []),
                    subs := map[0 := SUB.(frame := Some(HELD_0), at := Channel)])

  /** The frame that subscription s holds is in the channel of c, which is closed. */
  predicate Stranded(st: System, c: ConnId, s: SubId) {
    c in st.conns && st.conns[c].phase == Closed && s in st.conns[c].channel && s in st.subs && st.subs[s].frame.Some?
  }

  /** In some run, a frame that entered a queue is stranded, although no id was used twice and nothing was acknowledged. */
  lemma FrameIsStranded()
    ensures exists st, c, s :: Reachable(st) && Stranded(st, c, s) && st.revived == {} && st.matched == {}
  {
    hide Reachable, Step;
    ClosesWithoutFrames();
    assert [M0] + [] == [M0] && [] + [0] == [0];
    ServesSubscribe(S10, KW, 0, M0, [], REST);
    assert S10.subs[0 := SUB.(frame := Some(HELD_0), at := Channel)] == S11.subs;
    ReachMore(S10, ServeNext, S11);
    assert Stranded(S11, 0, 0);
  }
}
