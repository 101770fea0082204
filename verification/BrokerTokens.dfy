/** Every subscription is in at most one place, in every run of the broker. */
module BrokerTokens {
  import opened Text
  import opened Sequences
  import opened Frames
  import opened Broker
  import Queues

  /** The subscriptions of q are distinct, known, and recorded to be at this place. */
  predicate Claims(subs: map<SubId, Sub>, q: seq<SubId>, at: Place) {
    && Distinct(q)
    && forall i | 0 <= i < |q| :: q[i] in subs && subs[q[i]].at == at
  }

  predicate OpsClaim(subs: map<SubId, Sub>, c: ConnId, ops: seq<Op>) {
    && (forall i | 0 <= i < |ops| && ops[i].Subscribe? ::
          ops[i].s in subs && subs[ops[i].s].at == Outbox && subs[ops[i].s].conn == c)
    && (forall i | 0 <= i < |ops| && ops[i].Unsubscribe? :: ops[i].s in subs && subs[ops[i].s].conn == c)
    && forall i, j | 0 <= i < j < |ops| && ops[i].Subscribe? && ops[j].Subscribe? :: ops[i].s != ops[j].s
  }

  predicate RequestTokens(subs: map<SubId, Sub>, rs: seq<Request>) {
    && (forall i | 0 <= i < |rs| && rs[i].op.Subscribe? ::
          rs[i].op.s in subs && subs[rs[i].op.s].at == Requested && subs[rs[i].op.s].conn == rs[i].from)
    && (forall i | 0 <= i < |rs| && rs[i].op.Unsubscribe? ::
          rs[i].op.s in subs && subs[rs[i].op.s].conn == rs[i].from)
    && forall i, j | 0 <= i < j < |rs| && rs[i].op.Subscribe? && rs[j].op.Subscribe? :: rs[i].op.s != rs[j].op.s
  }

  predicate ConnTokens(subs: map<SubId, Sub>, c: ConnId, k: Conn) {
    && Claims(subs, k.channel, Channel)
    && (forall i | 0 <= i < |k.channel| :: subs[k.channel[i]].conn == c)
    && Claims(subs, k.pending, Pending)
    && (forall i | 0 <= i < |k.pending| :: subs[k.pending[i]].conn == c)
    && OpsClaim(subs, c, k.outbox)
    && forall id | id in k.subs :: k.subs[id] in subs && subs[k.subs[id]].conn == c && subs[k.subs[id]].id == id
  }

  predicate QueueTokens(subs: map<SubId, Sub>, d: string, q: Queues.Queue<SubId, Msg>) {
    && IsQueue(d)
    && Claims(subs, q.waiting, Waiting)
    && (forall i | 0 <= i < |q.waiting| :: subs[q.waiting[i]].dest == d)
    && (q.waiting == [] || q.stored == [])
  }

  /** What holds of one subscription: its frame and its subList pointer agree with where it is. */
  predicate SubTokens(s: SubId, sub: Sub, matched: set<SubId>) {
    && (sub.at == Channel || sub.at == Pending ==> sub.frame.Some? && IsQueue(sub.dest))
    && (sub.at == Outbox || sub.at == Requested || sub.at == Waiting || sub.at == Topic ==> sub.frame.None?)
    && (sub.at == Waiting || sub.at == Pending ==> s !in matched)
    && (sub.listed <==> sub.at == Waiting || sub.at == Pending || s in matched)
    && (sub.at == Pending ==> sub.ack != "auto")
    && sub.msgId == 0
  }

  predicate ConnsOk(subs: map<SubId, Sub>, conns: map<ConnId, Conn>) {
    forall c | c in conns :: ConnTokens(subs, c, conns[c])
  }

  predicate QueuesOk(subs: map<SubId, Sub>, queues: map<string, Queues.Queue<SubId, Msg>>) {
    forall d | d in queues :: QueueTokens(subs, d, queues[d])
  }

  predicate SubsOk(subs: map<SubId, Sub>, conns: map<ConnId, Conn>, nextSub: SubId, matched: set<SubId>) {
    && (forall s | s in subs :: s < nextSub && subs[s].conn in conns && SubTokens(s, subs[s], matched))
    && forall s | s in matched :: s in subs
  }

  predicate Tokens(st: System) {
    && ConnsOk(st.subs, st.conns)
    && QueuesOk(st.subs, st.queues)
    && RequestTokens(st.subs, st.requests)
    && SubsOk(st.subs, st.conns, st.nextSub, st.matched)
  }

  // ---------------------------------------------------------------- a change to one subscription

  lemma OtherConn(subs: map<SubId, Sub>, s: SubId, sub': Sub, c: ConnId, k: Conn)
    requires ConnTokens(subs, c, k)
    requires s in subs ==> subs[s].conn != c
    ensures ConnTokens(subs[s := sub'], c, k)
  {
  }

  lemma ConnsMoved(subs: map<SubId, Sub>, conns: map<ConnId, Conn>, s: SubId, sub': Sub, k': Conn)
    requires ConnsOk(subs, conns)
    requires s in subs ==> subs[s].conn == sub'.conn
    requires ConnTokens(subs[s := sub'], sub'.conn, k')
    ensures ConnsOk(subs[s := sub'], conns[sub'.conn := k'])
  {
    forall c | c in conns && c != sub'.conn ensures ConnTokens(subs[s := sub'], c, conns[c]) {
      OtherConn(subs, s, sub', c, conns[c]);
    }
  }

  lemma QueuesMoved(subs: map<SubId, Sub>, queues: map<string, Queues.Queue<SubId, Msg>>, s: SubId, sub': Sub)
    requires QueuesOk(subs, queues)
    requires s in subs ==> subs[s].at != Waiting
    ensures QueuesOk(subs[s := sub'], queues)
  {
  }

  lemma SubsMoved(subs: map<SubId, Sub>, conns: map<ConnId, Conn>, nextSub: SubId, matched: set<SubId>, s: SubId, sub': Sub, k': Conn)
    requires SubsOk(subs, conns, nextSub, matched)
    requires s in subs && subs[s].conn == sub'.conn && SubTokens(s, sub', matched)
    ensures SubsOk(subs[s := sub'], conns[sub'.conn := k'], nextSub, matched)
  {
  }

  // ---------------------------------------------------------------- the processor

  lemma PopKeepsRequests(subs: map<SubId, Sub>, s: SubId, sub': Sub, rs: seq<Request>)
    requires RequestTokens(subs, rs) && rs != [] && s in subs && sub'.conn == subs[s].conn
    requires rs[0].op == Subscribe(s) || subs[s].at != Requested
    ensures RequestTokens(subs[s := sub'], rs[1..])
  {
  }

  lemma PushedConn(subs: map<SubId, Sub>, s: SubId, sub': Sub, c: ConnId, k: Conn)
    requires ConnTokens(subs, c, k) && s in subs && subs[s].conn == c == sub'.conn && subs[s].id == sub'.id
    requires (subs[s].at == Requested || subs[s].at == Waiting) && sub'.at == Channel
    ensures ConnTokens(subs[s := sub'], c, k.(channel := k.channel + [s]))
  {
  }

  /** The new state after the head request put s, with message m, on its channel. */
  lemma PushTokens(st: System, st': System, s: SubId, m: Msg, listed: bool)
    requires ConnsOk(st.subs, st.conns) && Known(st, s) && IsQueue(st.subs[s].dest)
    requires SubsOk(st.subs, st.conns, st.nextSub, st.matched)
    requires (st.subs[s].at == Requested && listed == st.subs[s].listed) || (st.subs[s].at == Waiting && !listed)
    requires st' == PushToChannel(st, s, m, listed)
    ensures ConnsOk(st'.subs, st'.conns) && SubsOk(st'.subs, st'.conns, st'.nextSub, st'.matched)
  {
    var sub := st.subs[s];
    PushedConn(st.subs, s, st'.subs[s], sub.conn, st.conns[sub.conn]);
    ConnsMoved(st.subs, st.conns, s, st'.subs[s], st'.conns[sub.conn]);
    SubsMoved(st.subs, st.conns, st.nextSub, st.matched, s, st'.subs[s], st'.conns[sub.conn]);
  }

  lemma SameConn(subs: map<SubId, Sub>, s: SubId, sub': Sub, c: ConnId, k: Conn)
    requires ConnTokens(subs, c, k) && s in subs && subs[s].conn == c == sub'.conn && subs[s].id == sub'.id
    requires subs[s].at == Requested || subs[s].at == Waiting || subs[s].at == Topic
    ensures ConnTokens(subs[s := sub'], c, k)
  {
  }

  /** The head request moves s to another place outside its connection. */
  lemma ServedMove(st: System, s: SubId, sub': Sub)
    requires Tokens(st) && st.requests != [] && Known(st, s)
    requires st.requests[0].op == Subscribe(s) || st.subs[s].at == Waiting || st.subs[s].at == Topic
    requires st.subs[s].at == Requested || st.subs[s].at == Waiting || st.subs[s].at == Topic
    requires sub'.conn == st.subs[s].conn && sub'.id == st.subs[s].id && SubTokens(s, sub', st.matched)
    ensures ConnsOk(st.subs[s := sub'], st.conns)
    ensures RequestTokens(st.subs[s := sub'], st.requests[1..])
    ensures SubsOk(st.subs[s := sub'], st.conns, st.nextSub, st.matched)
  {
    hide RequestTokens, ConnTokens;
    var c := sub'.conn;
    PopKeepsRequests(st.subs, s, sub', st.requests);
    SameConn(st.subs, s, sub', c, st.conns[c]);
    ConnsMoved(st.subs, st.conns, s, sub', st.conns[c]);
    SubsMoved(st.subs, st.conns, st.nextSub, st.matched, s, sub', st.conns[c]);
    assert st.conns[c := st.conns[c]] == st.conns;
  }

  lemma Waits(subs: map<SubId, Sub>, queues: map<string, Queues.Queue<SubId, Msg>>, s: SubId, sub': Sub, q: Queues.Queue<SubId, Msg>)
    requires QueuesOk(subs, queues) && s in subs && subs[s].at != Waiting
    requires sub'.at == Waiting && IsQueue(sub'.dest) && q.stored == []
    requires q == if sub'.dest in queues then queues[sub'.dest] else EMPTY_QUEUE
    ensures QueuesOk(subs[s := sub'], queues[sub'.dest := q.(waiting := q.waiting + [s])])
  {
    QueuesMoved(subs, queues, s, sub');
    assert Claims(subs[s := sub'], q.waiting, Waiting) by {
      assert sub'.dest in queues ==> QueueTokens(subs, sub'.dest, queues[sub'.dest]);
    }
  }

  lemma TakesStored(subs: map<SubId, Sub>, queues: map<string, Queues.Queue<SubId, Msg>>, d: string, q: Queues.Queue<SubId, Msg>)
    requires QueuesOk(subs, queues) && d in queues && q.waiting == queues[d].waiting
    requires q.waiting == [] || q.stored == []
    ensures QueuesOk(subs, queues[d := q])
  {
  }

  /** The head request handed a stored message to s. */
  lemma ServedStored(st: System, s: SubId)
    requires Tokens(st) && st.requests != [] && st.requests[0].op == Subscribe(s)
    requires IsQueue(st.subs[s].dest) && QueueOf(st, st.subs[s].dest).stored != []
    ensures ServeSubscribe(st, s).Next? && Tokens(ServeSubscribe(st, s).st)
  {
    hide ConnTokens, Claims, ForSubscription;
    var sub := st.subs[s];
    assert SubTokens(s, sub, st.matched);
    var q := QueueOf(st, sub.dest);
    var q' := q.(stored := q.stored[1..]);
    if |st.conns[sub.conn].channel| < MAX_PENDING_WRITES {
      var st1 := WithQueue(PopRequest(st), sub.dest, q');
      var st' := PushToChannel(st1, s, q.stored[0], sub.listed);
      assert RequestTokens(st'.subs, st'.requests) by { PopKeepsRequests(st.subs, s, st'.subs[s], st.requests); }
      assert QueuesOk(st'.subs, st'.queues) by {
        TakesStored(st.subs, st.queues, sub.dest, q');
        QueuesMoved(st.subs, st1.queues, s, st'.subs[s]);
      }
      PushTokens(st1, st', s, q.stored[0], sub.listed);
    }
  }

  lemma ServedSubscribe(st: System, s: SubId)
    requires Tokens(st) && st.requests != [] && st.requests[0].op == Subscribe(s)
    ensures Known(st, s)
    ensures match ServeSubscribe(st, s)
            case Next(st') => Tokens(st')
            case Crash(why) => why == AlreadyListed(s) && s in st.matched
  {
    hide ConnTokens, Claims;
    var sub := st.subs[s];
    assert SubTokens(s, sub, st.matched);
    var q := QueueOf(st, sub.dest);
    if !IsQueue(sub.dest) {
      ServedMove(st, s, sub.(at := Topic));
      QueuesMoved(st.subs, st.queues, s, sub.(at := Topic));
    } else if q.stored == [] {
      if !sub.listed {
        ServedMove(st, s, sub.(listed := true, at := Waiting));
        Waits(st.subs, st.queues, s, sub.(listed := true, at := Waiting), q);
      }
    } else {
      ServedStored(st, s);
    }
  }

  lemma DistinctRemoveFirst(q: seq<SubId>, s: SubId)
    requires Distinct(q)
    ensures Distinct(Queues.RemoveFirst(q, s)) && s !in Queues.RemoveFirst(q, s)
    ensures forall x | x in Queues.RemoveFirst(q, s) :: x in q
  {
    if q != [] && q[0] != s {
      DistinctRemoveFirst(q[1..], s);
      assert forall x | x in q[1..] :: x in q;
      assert q[0] !in q[1..];
    } else if q != [] {
      assert q[0] !in q[1..];
    }
  }

  /** s leaves the waiting list of queue d, which becomes w. */
  lemma LeavesQueue(subs: map<SubId, Sub>, queues: map<string, Queues.Queue<SubId, Msg>>, s: SubId, sub': Sub, w: seq<SubId>)
    requires QueuesOk(subs, queues) && s in subs && subs[s].dest in queues
    requires Distinct(w) && s !in w && forall i | 0 <= i < |w| :: w[i] in queues[subs[s].dest].waiting
    requires s in queues[subs[s].dest].waiting
    ensures QueuesOk(subs[s := sub'], queues[subs[s].dest := queues[subs[s].dest].(waiting := w)])
  {
    var d := subs[s].dest;
    assert QueueTokens(subs, d, queues[d]);
    assert queues[d].stored == [];
    forall e | e in queues && e != d ensures QueueTokens(subs[s := sub'], e, queues[e]) {
      assert QueueTokens(subs, e, queues[e]);
      assert s !in queues[e].waiting;
    }
  }

  lemma PopTokens(st: System)
    requires Tokens(st) && st.requests != [] && !st.requests[0].op.Subscribe?
    ensures Tokens(PopRequest(st))
  {
  }

  lemma ServedUnsubscribe(st: System, s: SubId)
    requires Tokens(st) && st.requests != [] && st.requests[0].op == Unsubscribe(s)
    ensures Known(st, s)
    ensures ServeUnsubscribe(st, s).Next? && Tokens(ServeUnsubscribe(st, s).st)
  {
    hide ConnTokens, IsQueue;
    PopTokens(st);
    var sub := st.subs[s];
    assert SubTokens(s, sub, st.matched);
    var q := QueueOf(st, sub.dest);
    if !IsQueue(sub.dest) {
      if sub.at == Topic {
        ServedMove(st, s, sub.(at := Gone));
        QueuesMoved(st.subs, st.queues, s, sub.(at := Gone));
      } else {
        assert st.subs[s := sub] == st.subs;
      }
    } else if s in q.waiting {
      assert QueueTokens(st.subs, sub.dest, q);
      ServedMove(st, s, sub.(listed := false, at := Gone));
      DistinctRemoveFirst(q.waiting, s);
      LeavesQueue(st.subs, st.queues, s, sub.(listed := false, at := Gone), Queues.RemoveFirst(q.waiting, s));
    }
  }

  /** The head request handed its message to the first waiting subscription. */
  lemma ServedWaiting(st: System, d: string, m: Msg, front: bool)
    requires Tokens(st) && st.requests != [] && !st.requests[0].op.Subscribe?
    requires d in st.queues && st.queues[d].waiting != []
    ensures ServeMessage(st, d, m, front).Next? && Tokens(ServeMessage(st, d, m, front).st)
  {
    hide ConnTokens, ForSubscription, IsQueue;
    var q := st.queues[d];
    assert QueueTokens(st.subs, d, q);
    var s := q.waiting[0];
    var sub := st.subs[s];
    assert SubTokens(s, sub, st.matched);
    if |st.conns[sub.conn].channel| < MAX_PENDING_WRITES {
      var st1 := WithQueue(PopRequest(st), d, q.(waiting := q.waiting[1..]));
      var st' := PushToChannel(st1, s, m, false);
      assert RequestTokens(st'.subs, st'.requests) by { PopKeepsRequests(st.subs, s, st'.subs[s], st.requests); }
      assert QueuesOk(st'.subs, st'.queues) by { LeavesQueue(st.subs, st.queues, s, st'.subs[s], q.waiting[1..]); }
      PushTokens(st1, st', s, m, false);
    }
  }

  lemma ServedMessage(st: System, d: string, m: Msg, front: bool)
    requires Tokens(st) && st.requests != [] && !st.requests[0].op.Subscribe? && IsQueue(d)
    ensures ServeMessage(st, d, m, front).Next? && Tokens(ServeMessage(st, d, m, front).st)
  {
    hide ConnTokens, RequestTokens, SubTokens;
    PopTokens(st);
    var q := QueueOf(st, d);
    if q.waiting == [] {
      var q' := q.(stored := if front then [m] + q.stored else q.stored + [m]);
      assert QueueTokens(st.subs, d, q');
    } else {
      ServedWaiting(st, d, m, front);
    }
  }

  lemma ServedTokens(st: System)
    requires Tokens(st)
    ensures match Serve(st)
            case Next(st') => Tokens(st')
            case Crash(why) => why == MissingDestination || (why.AlreadyListed? && why.s in st.matched)
  {
    hide Tokens, ServeSubscribe, ServeUnsubscribe, ServeMessage, IsQueue;
    if st.requests != [] {
      match st.requests[0].op
      case Subscribe(s) => ServedSubscribe(st, s);
      case Unsubscribe(s) => ServedUnsubscribe(st, s);
      case Enqueue(m) => PopTokens(st); if IsQueueFrame(m.frame) { ServedMessage(st, Destination(m.frame).value, m, false); }
      case Requeue(m, _) => PopTokens(st); if IsQueueFrame(m.frame) { ServedMessage(st, Destination(m.frame).value, m, true); }
      case Connected => PopTokens(st);
      case Disconnected => PopTokens(st);
    }
  }

  // ---------------------------------------------------------------- one connection

  /** k' differs from k only in parts that name no subscription. */
  predicate SameTokens(k: Conn, k': Conn) {
    k'.channel == k.channel && k'.pending == k.pending && k'.outbox == k.outbox && k'.subs == k.subs
  }

  lemma ConnReplaced(st: System, c: ConnId, k': Conn)
    requires Tokens(st) && c in st.conns && ConnTokens(st.subs, c, k')
    ensures Tokens(WithConn(st, c, k'))
  {
    hide ConnTokens, RequestTokens, QueueTokens, SubTokens;
  }

  lemma QuietTokens(st: System, c: ConnId, k': Conn)
    requires Tokens(st) && c in st.conns && SameTokens(st.conns[c], k')
    ensures Tokens(WithConn(st, c, k'))
  {
    hide RequestTokens, QueueTokens, SubTokens;
    ConnReplaced(st, c, k');
  }

  lemma EmitConn(subs: map<SubId, Sub>, c: ConnId, k: Conn, op: Op)
    requires ConnTokens(subs, c, k) && !op.Subscribe?
    requires op.Unsubscribe? ==> op.s in subs && subs[op.s].conn == c
    ensures ConnTokens(subs, c, k.(outbox := k.outbox + [op]))
  {
  }

  /** One more request that is not a SubscribeOp. */
  lemma EmitTokens(st: System, c: ConnId, op: Op)
    requires Tokens(st) && c in st.conns && !op.Subscribe?
    requires op.Unsubscribe? ==> op.s in st.subs && st.subs[op.s].conn == c
    ensures Tokens(Emit(st, c, op))
  {
    hide ConnTokens, RequestTokens, QueueTokens, SubTokens;
    EmitConn(st.subs, c, st.conns[c], op);
    ConnReplaced(st, c, Emit(st, c, op).conns[c]);
  }

  lemma SubmitTokens(st: System, c: ConnId, f: Frame)
    requires Tokens(st) && c in st.conns
    ensures Tokens(Submit(st, c, f))
  {
    EmitTokens(st, c, Enqueue(Msg(st.nextRef, f.(command := "MESSAGE"))));
  }

  lemma RequestsMoved(subs: map<SubId, Sub>, rs: seq<Request>, s: SubId, sub': Sub)
    requires RequestTokens(subs, rs)
    requires s in subs ==> subs[s].at != Requested && subs[s].conn == sub'.conn
    ensures RequestTokens(subs[s := sub'], rs)
  {
  }

  /** s moved inside its connection, which became k'. */
  lemma ConnMoved(st: System, st': System, s: SubId, c: ConnId)
    requires Tokens(st) && s in st.subs && s in st'.subs && c in st'.conns
    requires st.subs[s].conn == c && st'.subs[s].conn == c
    requires st'.subs == st.subs[s := st'.subs[s]] && st'.conns == st.conns[c := st'.conns[c]]
    requires st'.queues == st.queues && st'.requests == st.requests && st'.nextSub == st.nextSub && st'.matched == st.matched
    requires st.subs[s].at == Channel || st.subs[s].at == Pending
    requires ConnTokens(st'.subs, c, st'.conns[c]) && SubTokens(s, st'.subs[s], st'.matched)
    ensures Tokens(st')
  {
    hide ConnTokens, RequestTokens, SubTokens, QueueTokens;
    ConnsMoved(st.subs, st.conns, s, st'.subs[s], st'.conns[c]);
    QueuesMoved(st.subs, st.queues, s, st'.subs[s]);
    RequestsMoved(st.subs, st.requests, s, st'.subs[s]);
    SubsMoved(st.subs, st.conns, st.nextSub, st.matched, s, st'.subs[s], st'.conns[c]);
  }

  lemma PendingFacts(st: System, c: ConnId, i: nat)
    requires Tokens(st) && c in st.conns && i < |st.conns[c].pending|
    ensures Known(st, st.conns[c].pending[i])
    ensures var s := st.conns[c].pending[i];
            && st.subs[s].conn == c && st.subs[s].at == Pending && st.subs[s].frame.Some?
            && SubTokens(s, st.subs[s], st.matched)
  {
    assert ConnTokens(st.subs, c, st.conns[c]);
  }

  lemma ChannelFacts(st: System, c: ConnId)
    requires Tokens(st) && c in st.conns && st.conns[c].channel != []
    ensures Known(st, st.conns[c].channel[0])
    ensures var s := st.conns[c].channel[0];
            && st.subs[s].conn == c && st.subs[s].at == Channel && st.subs[s].frame.Some?
            && SubTokens(s, st.subs[s], st.matched)
  {
    assert ConnTokens(st.subs, c, st.conns[c]);
  }

  lemma SubById(st: System, c: ConnId, id: string)
    requires Tokens(st) && c in st.conns && id in st.conns[c].subs
    ensures Known(st, st.conns[c].subs[id])
    ensures st.subs[st.conns[c].subs[id]].conn == c && st.subs[st.conns[c].subs[id]].id == id
  {
    assert ConnTokens(st.subs, c, st.conns[c]);
  }

  lemma NewSubConn(subs: map<SubId, Sub>, c: ConnId, k: Conn, s: SubId, sub': Sub)
    requires ConnTokens(subs, c, k) && s !in subs && sub'.conn == c && sub'.at == Outbox
    ensures ConnTokens(subs[s := sub'], c, k.(subs := k.subs[sub'.id := s], outbox := k.outbox + [Subscribe(s)]))
  {
  }

  lemma NewSubTokens(st: System, c: ConnId, id: string, dest: string, ack: string)
    requires Tokens(st) && c in st.conns && id !in st.conns[c].subs
    ensures Tokens(NewSub(st, c, id, dest, ack))
  {
    hide ConnTokens, RequestTokens, QueueTokens;
    var st' := NewSub(st, c, id, dest, ack);
    var s := st.nextSub;
    NewSubConn(st.subs, c, st.conns[c], s, st'.subs[s]);
    ConnsMoved(st.subs, st.conns, s, st'.subs[s], st'.conns[c]);
    QueuesMoved(st.subs, st.queues, s, st'.subs[s]);
    RequestsMoved(st.subs, st.requests, s, st'.subs[s]);
  }

  lemma EndSubTokens(st: System, c: ConnId, id: string)
    requires Tokens(st) && c in st.conns && id in st.conns[c].subs
    ensures Tokens(EndSub(st, c, id))
  {
    hide RequestTokens, QueueTokens, SubTokens;
    assert ConnTokens(st.subs, c, st.conns[c]);
    ConnReplaced(st, c, EndSub(st, c, id).conns[c]);
  }

  /** The i-th entry leaves q; it is distinct from the others. */
  lemma SettledConn(subs: map<SubId, Sub>, c: ConnId, k: Conn, i: nat, sub': Sub, ops: seq<Op>)
    requires ConnTokens(subs, c, k) && i < |k.pending|
    requires sub'.conn == c && sub'.id == subs[k.pending[i]].id && sub'.at == Outbox
    requires forall j | 0 <= j < |ops| :: ops[j].Requeue?
    ensures ConnTokens(subs[k.pending[i] := sub'], c,
                       k.(pending := k.pending[..i] + k.pending[i + 1..], outbox := k.outbox + ops + [Subscribe(k.pending[i])]))
  {
    RemovedAt(k.pending, i);
  }

  lemma SettleAtTokens(st: System, c: ConnId, i: nat, requeue: bool)
    requires Tokens(st) && c in st.conns && i < |st.conns[c].pending|
    ensures Known(st, st.conns[c].pending[i]) && st.subs[st.conns[c].pending[i]].frame.Some?
    ensures Tokens(SettleAt(st, c, i, requeue))
  {
    hide ConnTokens, RequestTokens, QueueTokens;
    PendingFacts(st, c, i);
    var k := st.conns[c];
    var s := k.pending[i];
    var st' := SettleAt(st, c, i, requeue);
    SettledConn(st.subs, c, k, i, st'.subs[s], if requeue then [Requeue(st.subs[s].frame.value, false)] else []);
    ConnsMoved(st.subs, st.conns, s, st'.subs[s], st'.conns[c]);
    QueuesMoved(st.subs, st.queues, s, st'.subs[s]);
    RequestsMoved(st.subs, st.requests, s, st'.subs[s]);
  }

  /** The head of the channel leaves it; its frame is given back or was lost. */
  lemma TakenConn(subs: map<SubId, Sub>, c: ConnId, k: Conn, k': Conn, sub': Sub)
    requires ConnTokens(subs, c, k) && k.channel != []
    requires sub'.conn == c && sub'.id == subs[k.channel[0]].id
    requires k'.channel == k.channel[1..] && k'.subs == k.subs
    requires match sub'.at
             case Gone => k'.pending == k.pending && (k'.outbox == k.outbox || exists m, b :: k'.outbox == k.outbox + [Requeue(m, b)])
             case Outbox => k'.pending == k.pending && k'.outbox == k.outbox + [Subscribe(k.channel[0])]
             case Pending => k'.pending == k.pending + [k.channel[0]] && k'.outbox == k.outbox
             case _ => false
    ensures ConnTokens(subs[k.channel[0] := sub'], c, k')
  {
    assert k.channel[0] !in k.channel[1..];
  }

  lemma GiveBackTokens(st: System, c: ConnId, closing: bool)
    requires Tokens(st) && c in st.conns && st.conns[c].channel != []
    ensures Known(st, st.conns[c].channel[0]) && st.subs[st.conns[c].channel[0]].frame.Some?
    ensures Tokens(GiveBack(st, c, closing))
  {
    hide ConnTokens, RequestTokens, QueueTokens;
    ChannelFacts(st, c);
    var k := st.conns[c];
    var s := k.channel[0];
    var st' := GiveBack(st, c, closing);
    TakenConn(st.subs, c, k, st'.conns[c], st'.subs[s]);
    ConnMoved(st, st', s, c);
  }

  lemma DeliverTokens(st: System, c: ConnId, io: bool)
    requires Tokens(st) && c in st.conns && st.conns[c].channel != []
    ensures match Deliver(st, c, io)
            case Next(st') => Tokens(st')
            case Crash(why) => why.AlreadyListed? && why.s in st.matched
  {
    hide ConnTokens, RequestTokens, QueueTokens, Stamp, NextMsgId;
    ChannelFacts(st, c);
    var k := st.conns[c];
    var s := k.channel[0];
    GiveBackTokens(st, c, false);
    match Deliver(st, c, io)
    case Crash(_) =>
    case Next(st') =>
      if st.subs[s].id in k.subs {
        TakenConn(st.subs, c, k, st'.conns[c], st'.subs[s]);
        ConnMoved(st, st', s, c);
      }
  }

  lemma GivenBackConn(subs: map<SubId, Sub>, c: ConnId, k: Conn, sub': Sub, op: Op)
    requires ConnTokens(subs, c, k) && k.pending != [] && op.Requeue?
    requires sub'.conn == c && sub'.id == subs[k.pending[0]].id
    ensures ConnTokens(subs[k.pending[0] := sub'], c, k.(pending := k.pending[1..], outbox := k.outbox + [op]))
  {
    assert k.pending[0] !in k.pending[1..];
  }

  lemma GiveBackPendingTokens(st: System, c: ConnId)
    requires Tokens(st) && c in st.conns && st.conns[c].pending != []
    ensures Known(st, st.conns[c].pending[0]) && st.subs[st.conns[c].pending[0]].frame.Some?
    ensures Tokens(GiveBackPending(st, c))
  {
    hide ConnTokens, RequestTokens, QueueTokens;
    PendingFacts(st, c, 0);
    var k := st.conns[c];
    var s := k.pending[0];
    var st' := GiveBackPending(st, c);
    GivenBackConn(st.subs, c, k, st'.subs[s], Requeue(st.subs[s].frame.value, true));
    ConnMoved(st, st', s, c);
  }

  lemma FlushConn(subs: map<SubId, Sub>, c: ConnId, k: Conn, sub': Sub)
    requires ConnTokens(subs, c, k) && k.outbox != [] && k.outbox[0].Subscribe?
    requires sub'.conn == c && sub'.id == subs[k.outbox[0].s].id
    ensures ConnTokens(subs[k.outbox[0].s := sub'], c, k.(outbox := k.outbox[1..]))
  {
  }

  lemma FlushRequests(subs: map<SubId, Sub>, rs: seq<Request>, c: ConnId, s: SubId, sub': Sub)
    requires RequestTokens(subs, rs) && s in subs && subs[s].at != Requested && subs[s].conn == c
    requires sub'.conn == c && sub'.at == Requested
    ensures RequestTokens(subs[s := sub'], rs + [Request(c, Subscribe(s))])
  {
  }

  lemma FlushSubscribe(st: System, c: ConnId)
    requires Tokens(st) && c in st.conns && st.conns[c].outbox != [] && st.conns[c].outbox[0].Subscribe?
    ensures Tokens(Flush(st, c))
  {
    var k := st.conns[c];
    var s := k.outbox[0].s;
    assert s in st.subs && st.subs[s].conn == c && st.subs[s].at == Outbox by { assert ConnTokens(st.subs, c, k); }
    hide ConnTokens, RequestTokens, QueueTokens;
    var st' := Flush(st, c);
    assert SubTokens(s, st.subs[s], st.matched);
    FlushConn(st.subs, c, k, st'.subs[s]);
    FlushRequests(st.subs, st.requests, c, s, st'.subs[s]);
    ConnsMoved(st.subs, st.conns, s, st'.subs[s], st'.conns[c]);
    QueuesMoved(st.subs, st.queues, s, st'.subs[s]);
    SubsMoved(st.subs, st.conns, st.nextSub, st.matched, s, st'.subs[s], st'.conns[c]);
  }

  lemma FirstSent(subs: map<SubId, Sub>, rs: seq<Request>, c: ConnId, k: Conn)
    requires ConnTokens(subs, c, k) && RequestTokens(subs, rs) && k.outbox != [] && !k.outbox[0].Subscribe?
    ensures ConnTokens(subs, c, k.(outbox := k.outbox[1..]))
    ensures RequestTokens(subs, rs + [Request(c, k.outbox[0])])
  {
  }

  lemma FlushOther(st: System, c: ConnId)
    requires Tokens(st) && c in st.conns && st.conns[c].outbox != [] && !st.conns[c].outbox[0].Subscribe?
    ensures Tokens(Flush(st, c))
  {
    hide ConnTokens, RequestTokens, QueueTokens, SubTokens;
    var k := st.conns[c];
    FirstSent(st.subs, st.requests, c, k);
    ConnReplaced(st, c, k.(outbox := k.outbox[1..]));
  }

  lemma FlushTokens(st: System, c: ConnId)
    requires Tokens(st) && c in st.conns && st.conns[c].outbox != []
    ensures Tokens(Flush(st, c))
  {
    hide Tokens, Flush;
    if st.conns[c].outbox[0].Subscribe? { FlushSubscribe(st, c); } else { FlushOther(st, c); }
  }
}
