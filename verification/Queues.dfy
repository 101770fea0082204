/** The four operations of one queue (server/queue/queue.go) over memory storage
    (server/queue/memory_queue.go), as functions on the waiting subscriptions and the stored messages. */
module Queues {
  import opened Text

  datatype Queue<S, M> = Queue(waiting: seq<S>, stored: seq<M>)

  /** A message given to a subscription. */
  datatype Handed<S, M> = Handed(sub: S, msg: M)

  datatype Effect<S, M> = Effect(queue: Queue<S, M>, handed: Option<Handed<S, M>>)

  /** list.Remove of the first element equal to s, if any. */
  function RemoveFirst<S(==)>(xs: seq<S>, s: S): seq<S> {
    if xs == [] then [] else if xs[0] == s then xs[1..] else [xs[0]] + RemoveFirst(xs[1..], s)
  }

  function Subscribe<S, M>(q: Queue<S, M>, s: S): Effect<S, M> {
    if q.stored == [] then Effect(q.(waiting := q.waiting + [s]), None)
    else Effect(q.(stored := q.stored[1..]), Some(Handed(s, q.stored[0])))
  }

  function Unsubscribe<S(==), M>(q: Queue<S, M>, s: S): Effect<S, M> {
    Effect(q.(waiting := RemoveFirst(q.waiting, s)), None)
  }

  function Enqueue<S, M>(q: Queue<S, M>, m: M): Effect<S, M> {
    if q.waiting == [] then Effect(q.(stored := q.stored + [m]), None)
    else Effect(q.(waiting := q.waiting[1..]), Some(Handed(q.waiting[0], m)))
  }

  function Requeue<S, M>(q: Queue<S, M>, m: M): Effect<S, M> {
    if q.waiting == [] then Effect(q.(stored := [m] + q.stored), None)
    else Effect(q.(waiting := q.waiting[1..]), Some(Handed(q.waiting[0], m)))
  }

  // ---------------------------------------------------------------- a plain deque

  datatype Op<S, M> = Subscribing(s: S) | Unsubscribing(s: S) | Enqueuing(m: M) | Requeuing(m: M)

  /** The code: each operation goes straight to a waiting subscription or a stored message when there is one. */
  function Apply<S(==), M>(q: Queue<S, M>, op: Op<S, M>): Effect<S, M> {
    match op
    case Subscribing(s) => Subscribe(q, s)
    case Unsubscribing(s) => Unsubscribe(q, s)
    case Enqueuing(m) => Enqueue(q, m)
    case Requeuing(m) => Requeue(q, m)
  }

  /** The plain form, first half: the subscription or message always joins its list. */
  function Join<S(==), M>(q: Queue<S, M>, op: Op<S, M>): Queue<S, M> {
    match op
    case Subscribing(s) => q.(waiting := q.waiting + [s])
    case Unsubscribing(s) => q.(waiting := RemoveFirst(q.waiting, s))
    case Enqueuing(m) => q.(stored := q.stored + [m])
    case Requeuing(m) => q.(stored := [m] + q.stored)
  }

  datatype Matched<S, M> = Matched(queue: Queue<S, M>, log: seq<Handed<S, M>>)

  /** The plain form, second half: the front message goes to the front subscription as long as there are both. */
  function Pair<S, M>(q: Queue<S, M>): Matched<S, M>
    decreases |q.waiting|
  {
    if q.waiting == [] || q.stored == [] then Matched(q, [])
    else
      var more := Pair(Queue(q.waiting[1..], q.stored[1..]));
      Matched(more.queue, [Handed(q.waiting[0], q.stored[0])] + more.log)
  }

  /** A run of the code from an empty queue, and everything it handed over, in order. */
  function Run<S(==), M>(ops: seq<Op<S, M>>): Matched<S, M> {
    if ops == [] then Matched(Queue([], []), [])
    else
      var before := Run(ops[..|ops| - 1]);
      var e := Apply(before.queue, ops[|ops| - 1]);
      Matched(e.queue, before.log + match e.handed case Some(h) => [h] case None => [])
  }

  /** A run of the plain form. */
  function PlainRun<S(==), M>(ops: seq<Op<S, M>>): Matched<S, M> {
    if ops == [] then Matched(Queue([], []), [])
    else
      var before := PlainRun(ops[..|ops| - 1]);
      var after := Pair(Join(before.queue, ops[|ops| - 1]));
      Matched(after.queue, before.log + after.log)
  }

  predicate Exclusive<S, M>(q: Queue<S, M>) {
    q.waiting == [] || q.stored == []
  }

  lemma ApplyRefines<S, M>(q: Queue<S, M>, op: Op<S, M>)
    requires Exclusive(q)
    ensures Exclusive(Apply(q, op).queue)
    ensures Pair(Join(q, op)) == Matched(Apply(q, op).queue, match Apply(q, op).handed case Some(h) => [h] case None => [])
  {
    var joined := Join(q, op);
    if joined.waiting != [] && joined.stored != [] {
      var rest := Queue(joined.waiting[1..], joined.stored[1..]);
      assert Pair(rest) == Matched(rest, []);
    }
  }

  /** The code is a plain deque: after every sequence of operations, its state and everything it has handed over are
      those of the plain form, and it never has both a waiting subscription and a stored message. */
  lemma {:induction false} QueueRefinesDeque<S, M>(ops: seq<Op<S, M>>)
    ensures Run(ops) == PlainRun(ops) && Exclusive(Run(ops).queue)
    decreases |ops|
  {
    hide Apply, Join, Pair;
    if ops != [] {
      QueueRefinesDeque(ops[..|ops| - 1]);
      ApplyRefines(Run(ops[..|ops| - 1]).queue, ops[|ops| - 1]);
    }
  }

  // ---------------------------------------------------------------- order and conservation

  function Messages<S, M>(log: seq<Handed<S, M>>): (ms: seq<M>)
    ensures |ms| == |log|
  {
    seq(|log|, i requires 0 <= i < |log| => log[i].msg)
  }

  /** Every message given to the queue, in order. */
  function Given<S, M>(ops: seq<Op<S, M>>): seq<M> {
    if ops == [] then []
    else Given(ops[..|ops| - 1]) + Added(ops[|ops| - 1])
  }

  lemma MessagesAppend<S, M>(log: seq<Handed<S, M>>, h: Handed<S, M>)
    ensures Messages(log + [h]) == Messages(log) + [h.msg]
  {
  }

  function Added<S, M>(op: Op<S, M>): seq<M> {
    if op.Enqueuing? || op.Requeuing? then [op.m] else []
  }

  function HandedMessages<S, M>(e: Effect<S, M>): seq<M> {
    match e.handed
    case Some(h) => [h.msg]
    case None => []
  }

  function Occurs<T(==)>(s: seq<T>, x: T): nat {
    if s == [] then 0 else (if s[0] == x then 1 else 0) + Occurs(s[1..], x)
  }

  lemma {:induction false} OccursAppend<T>(a: seq<T>, b: seq<T>, x: T)
    ensures Occurs(a + b, x) == Occurs(a, x) + Occurs(b, x)
  {
    if a == [] {
      assert a + b == b;
    } else {
      OccursAppend(a[1..], b, x);
      assert (a + b)[1..] == a[1..] + b;
    }
  }

  lemma ApplyConserves<S, M>(q: Queue<S, M>, op: Op<S, M>, m: M)
    ensures Occurs(HandedMessages(Apply(q, op)), m) + Occurs(Apply(q, op).queue.stored, m) == Occurs(q.stored, m) + Occurs(Added(op), m)
  {
    hide RemoveFirst;
    match op
    case Subscribing(_) => if q.stored != [] { assert [q.stored[0]][1..] == []; }
    case Unsubscribing(_) =>
    case Enqueuing(x) =>
      assert [x][1..] == [];
      OccursAppend(q.stored, [x], m);
    case Requeuing(x) =>
      assert [x][1..] == [];
      OccursAppend([x], q.stored, m);
  }

  lemma RunMore<S, M>(ops: seq<Op<S, M>>)
    requires ops != []
    ensures var before := Run(ops[..|ops| - 1]); var e := Apply(before.queue, ops[|ops| - 1]);
            Run(ops).queue == e.queue && Messages(Run(ops).log) == Messages(before.log) + HandedMessages(e)
  {
    hide Apply;
  }

  /** No message is lost or duplicated: each is among those handed over or stored as often as it was given. */
  lemma {:induction false} MessagesConserved<S, M>(ops: seq<Op<S, M>>, m: M)
    ensures Occurs(Messages(Run(ops).log), m) + Occurs(Run(ops).queue.stored, m) == Occurs(Given(ops), m)
    decreases |ops|
  {
    hide Apply, Run;
    if ops == [] {
      assert Run(ops) == Matched(Queue([], []), []) by { EmptyRun<S, M>(); }
    } else {
      var before := Run(ops[..|ops| - 1]);
      var e := Apply(before.queue, ops[|ops| - 1]);
      MessagesConserved(ops[..|ops| - 1], m);
      RunMore(ops);
      ApplyConserves(before.queue, ops[|ops| - 1], m);
      OccursAppend(Messages(before.log), HandedMessages(e), m);
      OccursAppend(Given(ops[..|ops| - 1]), Added(ops[|ops| - 1]), m);
    }
  }

  lemma EmptyRun<S, M>()
    ensures Run<S, M>([]) == Matched(Queue([], []), [])
  {
  }

  /** First in, first out: without a Requeue, messages are handed over in the order they came, and those still
      stored come after them. */
  lemma {:induction false} FirstInFirstOut<S, M>(ops: seq<Op<S, M>>)
    requires forall i | 0 <= i < |ops| :: !ops[i].Requeuing?
    ensures Messages(Run(ops).log) + Run(ops).queue.stored == Given(ops)
    decreases |ops|
  {
    hide Run, Apply;
    if ops == [] {
      assert Run(ops) == Matched(Queue([], []), []) by { EmptyRun<S, M>(); }
    } else {
      var before := Run(ops[..|ops| - 1]);
      var op := ops[|ops| - 1];
      FirstInFirstOut(ops[..|ops| - 1]);
      QueueRefinesDeque(ops[..|ops| - 1]);
      RunMore(ops);
      ApplyInOrder(before.queue, op);
      var a, b, c := Messages(before.log), HandedMessages(Apply(before.queue, op)), Apply(before.queue, op).queue.stored;
      assert (a + b) + c == a + (b + c);
      assert (a + before.queue.stored) + Added(op) == a + (before.queue.stored + Added(op));
    }
  }

  lemma ApplyInOrder<S, M>(q: Queue<S, M>, op: Op<S, M>)
    requires Exclusive(q) && !op.Requeuing?
    ensures HandedMessages(Apply(q, op)) + Apply(q, op).queue.stored == q.stored + Added(op)
  {
    hide RemoveFirst;
  }

  // ---------------------------------------------------------------- giving back

  /** Messages given back one after the other. */
  function RequeueAll<S, M>(q: Queue<S, M>, ms: seq<M>): Queue<S, M> {
    if ms == [] then q else Requeue(RequeueAll(q, ms[..|ms| - 1]), ms[|ms| - 1]).queue
  }

  function Reversed<M>(ms: seq<M>): (r: seq<M>)
    ensures |r| == |ms|
    ensures forall i | 0 <= i < |ms| :: r[i] == ms[|ms| - 1 - i]
  {
    seq(|ms|, i requires 0 <= i < |ms| => ms[|ms| - 1 - i])
  }

  /** When nobody waits, messages given back in one order are stored in the reverse order, ahead of the others. */
  lemma {:induction false} GivenBackInReverse<S, M>(q: Queue<S, M>, ms: seq<M>)
    requires q.waiting == []
    ensures RequeueAll(q, ms) == q.(stored := Reversed(ms) + q.stored)
    decreases |ms|
  {
    if ms == [] {
      assert Reversed(ms) + q.stored == q.stored;
    } else {
      var before := ms[..|ms| - 1];
      GivenBackInReverse(q, before);
      assert Reversed(ms) == [ms[|ms| - 1]] + Reversed(before);
    }
  }
}
