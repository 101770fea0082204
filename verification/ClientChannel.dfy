/** The client's write channel (conn.go): any number of goroutines call Send, sendFrame, Subscribe, Disconnect
    and MustDisconnect while processLoop reads the channel and finally leaves. One event is one step of one
    goroutine between two points where another can run; a step that has to wait changes nothing. */
module ClientChannel {
  import opened Text

  type Thread = nat

  /** The goroutine of processLoop. */
  const LOOP: Thread := 0

  datatype Call =
    | Send(receipt: bool)
    | SendFrame(receipt: bool)
    | Subscribe
    | Disconnect
    | MustDisconnect
    | ServerError          // what processLoop does with an ERROR frame

  datatype Point =
    | Outside
    | Locking(call: Call)      // at closeMutex.Lock()
    | Checking(call: Call)     // about to read closed; from here to Unlocking the goroutine holds closeMutex
    | Writing(call: Call)      // at writeCh <- request
    | Answering(call: Call)    // waits for its answer, still holding closeMutex
    | Closing                  // at close(writeCh), in MustDisconnect
    | Marking                  // about to set closed
    | Unlocking(next: Point)   // at closeMutex.Unlock(), and where it goes on
    | AnsweringFree            // sendFrame waits for its answer without closeMutex

  datatype LoopPhase = Looping | Leaving | Left

  datatype State = State(
    points: map<Thread, Point>,
    owner: Option<Thread>,   // who holds closeMutex
    closed: bool,
    open: bool,              // writeCh is open
    queued: nat,             // requests in writeCh
    accepted: nat,           // history: requests ever put on writeCh
    closes: nat,             // history: how often writeCh was closed
    loop: LoopPhase)

  datatype Fault = SendOnClosed | CloseOfClosed | UnlockOfUnlocked

  datatype Outcome = Next(st: State) | Crash(why: Fault)

  const START := State(map[], None, false, true, 0, 0, 0, Looping)

  datatype Event =
    | Enter(t: Thread, call: Call)        // a goroutine calls one of the methods
    | Go(t: Thread, ok: bool)             // it makes its next step; ok decides what the model leaves open
    | TakeRequest                         // processLoop reads writeCh
    | LoopFails                           // processLoop meets an error and returns
    | LoopError                           // processLoop reads an ERROR frame
    | LoopExits                           // the deferred MustDisconnect of processLoop

  function At(st: State, t: Thread): Point {
    if t in st.points then st.points[t] else Outside
  }

  function Move(st: State, t: Thread, p: Point): State {
    st.(points := st.points[t := p])
  }

  /** What a goroutine does after its request is in the channel. */
  function AfterWrite(call: Call): Point {
    match call
    case Send(receipt) => if receipt then Answering(call) else Unlocking(Outside)
    case SendFrame(receipt) => Unlocking(if receipt then AnsweringFree else Outside)
    case Disconnect => Answering(call)
    case _ => Unlocking(Outside)
  }

  /** What it does once it has read closed. ok is false when an option of Send or Subscribe fails. */
  function AfterCheck(st: State, call: Call, ok: bool): Point {
    match call
    case ServerError => Marking
    case MustDisconnect => if st.closed then Unlocking(Outside) else Closing
    case Send(_) => if st.closed || !ok then Unlocking(Outside) else Writing(call)
    case Subscribe => if st.closed || !ok then Unlocking(Outside) else Writing(call)
    case _ => if st.closed then Unlocking(Outside) else Writing(call)
  }

  function Advance(st: State, t: Thread, ok: bool, capacity: nat): Outcome {
    match At(st, t)
    case Outside => Next(st)
    case Locking(call) => if st.owner.None? then Next(Move(st, t, Checking(call)).(owner := Some(t))) else Next(st)
    case Checking(call) => Next(Move(st, t, AfterCheck(st, call, ok)))
    case Writing(call) =>
      if !st.open then Crash(SendOnClosed)
      else if !ok && call.Send? then Next(Move(st, t, Unlocking(Outside)))  // msgSendTimeout
      else if st.queued < capacity then
        Next(Move(st, t, AfterWrite(call)).(queued := st.queued + 1, accepted := st.accepted + 1))
      else Next(st)
    case Answering(call) => Next(Move(st, t, if call.Disconnect? && ok then Marking else Unlocking(Outside)))
    case Closing => if st.open then Next(Move(st, t, Marking).(open := false, closes := st.closes + 1)) else Crash(CloseOfClosed)
    case Marking => Next(Move(st, t, Unlocking(Outside)).(closed := true))
    case Unlocking(p) => if st.owner.None? then Crash(UnlockOfUnlocked) else Next(Move(st, t, p).(owner := None))
    case AnsweringFree => Next(Move(st, t, Outside))
  }

  function Step(st: State, e: Event, capacity: nat): Outcome {
    match e
    case Enter(t, call) =>
      if At(st, t) == Outside && t != LOOP && !call.ServerError? then Next(Move(st, t, Locking(call))) else Next(st)
    case Go(t, ok) => Advance(st, t, ok, capacity)
    case TakeRequest =>
      if st.loop != Looping then Next(st)
      else if st.queued > 0 then Next(st.(queued := st.queued - 1))
      else if !st.open then Next(st.(loop := Leaving))
      else Next(st)
    case LoopFails => if st.loop == Looping then Next(st.(loop := Leaving)) else Next(st)
    case LoopError => if st.loop == Looping then Next(Move(st, LOOP, Locking(ServerError)).(loop := Leaving)) else Next(st)
    case LoopExits =>
      if st.loop == Leaving && At(st, LOOP) == Outside then Next(Move(st, LOOP, Locking(MustDisconnect)).(loop := Left)) else Next(st)
  }

  function Run(events: seq<Event>, capacity: nat): Outcome
    decreases |events|
  {
    if events == [] then Next(START)
    else
      match Run(events[..|events| - 1], capacity)
      case Next(st) => Step(st, events[|events| - 1], capacity)
      case Crash(why) => Crash(why)
  }

  // ---------------------------------------------------------------- the invariant

  /** The goroutine is between Lock and Unlock. */
  predicate Holds(p: Point) {
    p.Checking? || p.Writing? || p.Answering? || p.Closing? || p.Marking? || p.Unlocking?
  }

  /** What a goroutine inside the mutex may rely on. */
  predicate PointOk(st: State, p: Point) {
    && (Holds(p) && !p.Marking? && !p.Unlocking? ==> st.open || st.closed)
    && (p.Writing? || p.Closing? ==> !st.closed && st.open)
    && (p.Unlocking? ==> !Holds(p.next) && (!st.open ==> st.closed))
  }

  predicate Safe(st: State) {
    && (st.owner.Some? ==> Holds(At(st, st.owner.value)))
    && (forall t | t in st.points && Holds(st.points[t]) :: st.owner == Some(t))
    && (forall t | t in st.points :: PointOk(st, st.points[t]))
    && (st.owner.None? && !st.open ==> st.closed)
    && st.closes == (if st.open then 0 else 1)
    && (st.loop == Looping ==> At(st, LOOP) == Outside)
    && (st.loop == Left && At(st, LOOP) == Outside ==> st.closed)
    && LoopPoint(st)
  }

  /** processLoop calls nothing but its own error handling and its deferred MustDisconnect. */
  predicate LoopPoint(st: State) {
    var p := At(st, LOOP);
    && !p.Writing? && !p.Answering? && !p.AnsweringFree?
    && (p.Locking? || p.Checking? ==> p.call == ServerError || p.call == MustDisconnect)
    && (p.Unlocking? ==> p.next == Outside)
    && (p.Unlocking? && st.loop == Left ==> st.closed)
  }

  /** One goroutine moves, and takes, keeps or gives up the mutex as its point says; only a goroutine that holds the
      mutex changes what others rely on. */
  lemma MoveSafe(st: State, st': State, t: Thread)
    requires Safe(st) && t in st.points && t in st'.points && st'.points == st.points[t := st'.points[t]]
    requires Holds(st'.points[t]) ==> st'.owner == Some(t) && (Holds(st.points[t]) || st.owner.None?)
    requires !Holds(st'.points[t]) ==> st'.owner == (if Holds(st.points[t]) then None else st.owner)
    requires !Holds(st.points[t]) ==> st'.open == st.open && st'.closed == st.closed
    requires PointOk(st', st'.points[t]) && st'.closes == (if st'.open then 0 else 1) && (st'.owner.None? && !st'.open ==> st'.closed)
    requires st'.loop == st.loop && (st.closed ==> st'.closed)
    requires t == LOOP ==> LoopPoint(st') && st.loop != Looping && (st'.loop == Left && st'.points[t] == Outside ==> st'.closed)
    ensures Safe(st')
  {
    hide LoopPoint;
    if t != LOOP { LoopPointStays(st, st', t); }
  }

  lemma LoopPointStays(st: State, st': State, t: Thread)
    requires Safe(st) && t != LOOP && st'.points == st.points[t := At(st', t)] && st'.loop == st.loop && (st.closed ==> st'.closed)
    ensures LoopPoint(st')
  {
  }

  lemma LoopAdvances(st: State, ok: bool, capacity: nat)
    requires Safe(st) && LOOP in st.points && st.points[LOOP] != Outside && Advance(st, LOOP, ok, capacity).Next?
    ensures var st' := Advance(st, LOOP, ok, capacity).st;
            st.loop != Looping && (st' != st ==> LoopPoint(st') && (st'.loop == Left && At(st', LOOP) == Outside ==> st'.closed))
  {
  }

  /** What a goroutine inside the loop of its call may rely on, and what its step does. */
  lemma AdvanceMoves(st: State, t: Thread, ok: bool, capacity: nat)
    requires t in st.points && PointOk(st, st.points[t]) && (Holds(st.points[t]) ==> st.owner == Some(t))
    requires st.closes == (if st.open then 0 else 1) && (st.owner.None? && !st.open ==> st.closed)
    ensures Advance(st, t, ok, capacity).Next?
    ensures var st' := Advance(st, t, ok, capacity).st;
            st' != st ==>
              && t in st'.points && st'.points == st.points[t := st'.points[t]]
              && (Holds(st'.points[t]) ==> st'.owner == Some(t) && (Holds(st.points[t]) || st.owner.None?))
              && (!Holds(st'.points[t]) ==> st'.owner == (if Holds(st.points[t]) then None else st.owner))
              && (!Holds(st.points[t]) ==> st'.open == st.open && st'.closed == st.closed)
              && PointOk(st', st'.points[t]) && st'.closes == (if st'.open then 0 else 1) && (st'.owner.None? && !st'.open ==> st'.closed)
              && st'.loop == st.loop && (st.closed ==> st'.closed && st'.accepted == st.accepted)
  {
  }

  lemma AdvanceSafe(st: State, t: Thread, ok: bool, capacity: nat)
    requires Safe(st)
    ensures Advance(st, t, ok, capacity).Next? && Safe(Advance(st, t, ok, capacity).st)
    ensures st.closed ==> Advance(st, t, ok, capacity).st.closed && Advance(st, t, ok, capacity).st.accepted == st.accepted
  {
    if t in st.points && st.points[t] != Outside {
      InsideOk(st, t);
      hide Safe, LoopPoint, Advance, PointOk, Holds;
      AdvanceMoves(st, t, ok, capacity);
      var st' := Advance(st, t, ok, capacity).st;
      if t == LOOP { LoopAdvances(st, ok, capacity); }
      if st' != st { MoveSafe(st, st', t); }
    }
  }

  lemma InsideOk(st: State, t: Thread)
    requires Safe(st) && t in st.points
    ensures PointOk(st, st.points[t]) && (Holds(st.points[t]) ==> st.owner == Some(t))
    ensures st.closes == (if st.open then 0 else 1) && (st.owner.None? && !st.open ==> st.closed)
  {
  }

  lemma EnterSafe(st: State, t: Thread, call: Call)
    requires Safe(st) && At(st, t) == Outside && t != LOOP
    ensures Safe(Move(st, t, Locking(call)))
  {
    hide PointOk;
    var st' := Move(st, t, Locking(call));
    forall u | u in st'.points ensures PointOk(st', st'.points[u]) { PointStays(st, st', u); }
  }

  lemma PointStays(st: State, st': State, u: Thread)
    requires Safe(st) && u in st'.points && (st'.points[u].Locking? || (u in st.points && st'.points[u] == st.points[u]))
    requires st'.open == st.open && st'.closed == st.closed
    ensures PointOk(st', st'.points[u])
  {
  }

  lemma LoopSafe(st: State, e: Event, capacity: nat)
    requires Safe(st) && !e.Go? && !e.Enter?
    ensures Step(st, e, capacity).Next? && Safe(Step(st, e, capacity).st)
    ensures Step(st, e, capacity).st.closed == st.closed && Step(st, e, capacity).st.accepted == st.accepted
  {
    hide PointOk;
    var st' := Step(st, e, capacity).st;
    forall u | u in st'.points ensures PointOk(st', st'.points[u]) { PointStays(st, st', u); }
  }

  lemma StepSafe(st: State, e: Event, capacity: nat)
    requires Safe(st)
    ensures Step(st, e, capacity).Next? && Safe(Step(st, e, capacity).st)
    ensures st.closed ==> Step(st, e, capacity).st.closed && Step(st, e, capacity).st.accepted == st.accepted
  {
    hide Advance, Safe;
    match e
    case Go(t, ok) => AdvanceSafe(st, t, ok, capacity);
    case Enter(t, call) => if At(st, t) == Outside && t != LOOP { EnterSafe(st, t, call); }
    case _ => LoopSafe(st, e, capacity);
  }

  lemma {:induction false} RunSafe(events: seq<Event>, capacity: nat)
    ensures Run(events, capacity).Next? && Safe(Run(events, capacity).st)
    decreases |events|
  {
    hide Step, Safe;
    if events == [] {
      assert Safe(START) by { StartSafe(); }
    } else {
      RunSafe(events[..|events| - 1], capacity);
      StepSafe(Run(events[..|events| - 1], capacity).st, events[|events| - 1], capacity);
    }
  }

  lemma StartSafe()
    ensures Safe(START)
  {
  }

  // ---------------------------------------------------------------- main results

  /** In every interleaving nobody sends on the write channel after it is closed, it is closed at most once, no mutex
      is unlocked twice, and no two goroutines hold it together; and once processLoop has gone, the connection is
      closed. */
  lemma WriteChannelIsSafe(events: seq<Event>, capacity: nat, t: Thread, t': Thread)
    ensures Run(events, capacity).Next?
    ensures var st := Run(events, capacity).st;
            && st.closes <= 1
            && (Holds(At(st, t)) && Holds(At(st, t')) ==> t == t')
            && (At(st, t).Writing? ==> st.open && !st.closed)
            && (st.loop == Left && At(st, LOOP) == Outside ==> st.closed)
  {
    hide Run;
    RunSafe(events, capacity);
  }

  /** After the connection is closed it stays closed, and no further request is ever put on the write channel. */
  lemma {:induction false} ClosedAcceptsNothing(events: seq<Event>, more: seq<Event>, capacity: nat)
    requires Run(events, capacity).Next? && Run(events, capacity).st.closed
    ensures Run(events + more, capacity).Next?
    ensures Run(events + more, capacity).st.closed && Run(events + more, capacity).st.accepted == Run(events, capacity).st.accepted
    decreases |more|
  {
    hide Step, Safe;
    if more == [] {
      assert events + more == events;
    } else {
      var all, before := events + more, events + more[..|more| - 1];
      assert all[..|all| - 1] == before;
      ClosedAcceptsNothing(events, more[..|more| - 1], capacity);
      RunSafe(before, capacity);
      StepSafe(Run(before, capacity).st, all[|all| - 1], capacity);
    }
  }
}
