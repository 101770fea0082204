/** What a call on the client's connection does, from the moment it has the mutex until it gives it up, whatever the other
    goroutines do in between. */
module ClientCalls {
  import opened Text
  import opened ClientChannel

  // ---------------------------------------------------------------- the holder of the mutex is alone

  /** Nothing that a holder of the mutex relies on is different. */
  predicate Alike(st: State, st': State, t: Thread) {
    && At(st', t) == At(st, t) && st'.owner == st.owner && st'.closed == st.closed && st'.open == st.open
    && st'.accepted == st.accepted
  }

  /** While t holds the mutex, no event but its own steps changes its point, the connection, or what was accepted. */
  lemma OnlyTheHolderActs(st: State, e: Event, capacity: nat, t: Thread)
    requires Safe(st) && st.owner == Some(t) && !(e.Go? && e.t == t)
    ensures Step(st, e, capacity).Next? && Alike(st, Step(st, e, capacity).st, t)
  {
    StepSafe(st, e, capacity);
    HolderIsInside(st, t);
    hide PointOk, LoopPoint, Advance;
    match e
    case Go(u, ok) =>
      OthersWait(st, u, t);
      OutsiderSteps(st, u, ok, capacity, t);
    case _ =>
  }

  lemma HolderIsInside(st: State, t: Thread)
    requires Safe(st) && st.owner == Some(t)
    ensures Holds(At(st, t)) && (t == LOOP ==> st.loop != Looping)
  {
  }

  lemma OthersWait(st: State, u: Thread, t: Thread)
    requires Safe(st) && st.owner == Some(t) && u != t
    ensures !Holds(At(st, u))
  {
  }

  lemma OutsiderSteps(st: State, u: Thread, ok: bool, capacity: nat, t: Thread)
    requires st.owner == Some(t) && u != t && !Holds(At(st, u))
    ensures Advance(st, u, ok, capacity).Next? && Alike(st, Advance(st, u, ok, capacity).st, t)
  {
  }

  // ---------------------------------------------------------------- the result of a call

  /** The call puts a request on the write channel, when it finds the connection open; ok is false when an option fails, the
      channel stays full for too long, or the answer is not the one wanted. */
  predicate Sends(call: Call, ok: bool) {
    match call
    case Send(_) => ok
    case Subscribe => ok
    case SendFrame(_) => true
    case Disconnect => true
    case MustDisconnect => false
    case ServerError => false
  }

  /** The call leaves the connection closed. */
  predicate Closes(call: Call, ok: bool) {
    call == MustDisconnect || call == ServerError || (call == Disconnect && ok)
  }

  /** From st0, where the call got the mutex, to st, where it gives it up: one request more exactly when the connection was
      open and the call sends; closed exactly when it was or the call closes it; and the write channel is closed exactly by
      a MustDisconnect that found the connection open. */
  predicate Result(st0: State, st: State, call: Call, ok: bool) {
    && st.accepted == st0.accepted + (if !st0.closed && Sends(call, ok) then 1 else 0)
    && st.closed == (st0.closed || Closes(call, ok))
    && st.open == (st0.open && (st0.closed || call != MustDisconnect))
  }

  /** Only SendFrame waits for its answer without the mutex. */
  function NextPoint(st0: State, call: Call): Point {
    if call == SendFrame(true) && !st0.closed then AnsweringFree else Outside
  }

  /** How far the call of t has come since st0. */
  predicate Underway(st0: State, st: State, t: Thread, call: Call, ok: bool) {
    && st.owner == Some(t)
    && match At(st, t)
       case Checking(c) => c == call && Untouched(st0, st)
       case Writing(c) => c == call && !st0.closed && Sends(call, ok) && Untouched(st0, st)
       case Answering(c) =>
         c == call && !st0.closed && !st.closed && st.open == st0.open && st.accepted == st0.accepted + 1
         && Sends(call, ok) && (call == Send(true) || call == Disconnect)
       case Closing => call == MustDisconnect && !st0.closed && Untouched(st0, st)
       case Marking => Closes(call, ok) && Result(st0, st.(closed := true), call, ok)
       case Unlocking(p) => Result(st0, st, call, ok) && p == NextPoint(st0, call)
       case _ => false
  }

  predicate Untouched(st0: State, st: State) {
    st.accepted == st0.accepted && st.closed == st0.closed && st.open == st0.open
  }

  /** After a step of its own, t got on, or gave up the mutex with the result. */
  predicate GotOn(st0: State, st': State, t: Thread, call: Call, ok: bool) {
    if st'.owner == Some(t) then Underway(st0, st', t, call, ok)
    else Result(st0, st', call, ok) && At(st', t) == NextPoint(st0, call)
  }

  lemma OwnStep(st0: State, st: State, t: Thread, call: Call, ok: bool, capacity: nat)
    requires Safe(st) && Underway(st0, st, t, call, ok)
    ensures Advance(st, t, ok, capacity).Next? && GotOn(st0, Advance(st, t, ok, capacity).st, t, call, ok)
  {
    AdvanceSafe(st, t, ok, capacity);
    InsideOk(st, t);
    hide Safe, GotOn, Advance, Underway;
    match At(st, t)
    case Checking(_) => CheckingStep(st0, st, t, call, ok, capacity);
    case Writing(_) => WritingStep(st0, st, t, call, ok, capacity);
    case _ => LateStep(st0, st, t, call, ok, capacity);
  }

  lemma CheckingStep(st0: State, st: State, t: Thread, call: Call, ok: bool, capacity: nat)
    requires At(st, t).Checking? && Underway(st0, st, t, call, ok)
    ensures GotOn(st0, Advance(st, t, ok, capacity).st, t, call, ok)
  {
  }

  lemma WritingStep(st0: State, st: State, t: Thread, call: Call, ok: bool, capacity: nat)
    requires At(st, t).Writing? && Underway(st0, st, t, call, ok) && Advance(st, t, ok, capacity).Next?
    ensures GotOn(st0, Advance(st, t, ok, capacity).st, t, call, ok)
  {
  }

  lemma LateStep(st0: State, st: State, t: Thread, call: Call, ok: bool, capacity: nat)
    requires !At(st, t).Checking? && !At(st, t).Writing? && Underway(st0, st, t, call, ok) && Advance(st, t, ok, capacity).Next?
    requires t in st.points ==> PointOk(st, At(st, t))
    ensures GotOn(st0, Advance(st, t, ok, capacity).st, t, call, ok)
  {
  }

  lemma OtherStep(st0: State, st: State, st': State, t: Thread, call: Call, ok: bool)
    requires Underway(st0, st, t, call, ok) && Alike(st, st', t)
    ensures Underway(st0, st', t, call, ok)
  {
  }

  // ---------------------------------------------------------------- in every interleaving

  /** From the state after events on, t keeps the mutex until the last event of more. */
  ghost predicate HoldsOn(events: seq<Event>, more: seq<Event>, capacity: nat, t: Thread) {
    forall i | 0 <= i < |more| :: Run(events + more[..i], capacity).Next? && Run(events + more[..i], capacity).st.owner == Some(t)
  }

  /** t's own steps all have this outcome. */
  predicate AllOk(more: seq<Event>, t: Thread, ok: bool) {
    forall i | 0 <= i < |more| && more[i].Go? && more[i].t == t :: more[i].ok == ok
  }

  lemma RunMore(events: seq<Event>, more: seq<Event>, capacity: nat)
    requires more != [] && Run(events + more[..|more| - 1], capacity).Next?
    ensures Run(events + more, capacity) == Step(Run(events + more[..|more| - 1], capacity).st, more[|more| - 1], capacity)
  {
    var all := events + more;
    assert all[..|all| - 1] == events + more[..|more| - 1] && all[|all| - 1] == more[|more| - 1];
  }

  lemma HoldsBefore(events: seq<Event>, more: seq<Event>, capacity: nat, t: Thread)
    requires more != [] && HoldsOn(events, more, capacity, t)
    ensures HoldsOn(events, more[..|more| - 1], capacity, t)
    ensures Run(events + more[..|more| - 1], capacity).Next? && Run(events + more[..|more| - 1], capacity).st.owner == Some(t)
  {
    hide Run;
    var before := more[..|more| - 1];
    assert forall i | 0 <= i <= |before| :: before[..i] == more[..i];
  }

  lemma {:induction false} StillUnderway(events: seq<Event>, more: seq<Event>, capacity: nat, t: Thread, call: Call, ok: bool)
    requires Run(events, capacity).Next? && At(Run(events, capacity).st, t) == Checking(call)
    requires HoldsOn(events, more, capacity, t) && AllOk(more, t, ok)
    ensures Run(events + more, capacity).Next?
    ensures var st0, st := Run(events, capacity).st, Run(events + more, capacity).st;
            GotOn(st0, st, t, call, ok)
    decreases |more|
  {
    hide Step, Safe, Run, HoldsOn, Underway, Result, Alike;
    RunSafe(events, capacity);
    var st0 := Run(events, capacity).st;
    if more == [] {
      assert events + more == events;
      BeginsUnderway(st0, t, call, ok);
    } else {
      var before, e := more[..|more| - 1], more[|more| - 1];
      HoldsBefore(events, more, capacity, t);
      StillUnderway(events, before, capacity, t, call, ok);
      RunSafe(events + before, capacity);
      RunMore(events, more, capacity);
      var st := Run(events + before, capacity).st;
      if e.Go? && e.t == t {
        OwnStep(st0, st, t, call, ok, capacity);
        assert Step(st, e, capacity) == Advance(st, t, ok, capacity) by { GoIsAdvance(st, t, ok, capacity); }
      } else {
        OnlyTheHolderActs(st, e, capacity, t);
        OtherStep(st0, st, Step(st, e, capacity).st, t, call, ok);
        AlikeOwner(st, Step(st, e, capacity).st, t);
      }
    }
  }

  lemma GoIsAdvance(st: State, t: Thread, ok: bool, capacity: nat)
    ensures Step(st, Go(t, ok), capacity) == Advance(st, t, ok, capacity)
  {
  }

  lemma AlikeOwner(st: State, st': State, t: Thread)
    requires Alike(st, st', t)
    ensures st'.owner == st.owner
  {
  }

  lemma BeginsUnderway(st: State, t: Thread, call: Call, ok: bool)
    requires Safe(st) && At(st, t) == Checking(call)
    ensures st.owner == Some(t) && Underway(st, st, t, call, ok)
  {
  }

  /** In every interleaving, let a call have got the mutex after events, and give it up with the last event of more. What
      happened in between is the work of this call, all of it, and nothing else. */
  lemma CallDoesItsWork(events: seq<Event>, more: seq<Event>, capacity: nat, t: Thread, call: Call, ok: bool)
    requires Run(events, capacity).Next? && At(Run(events, capacity).st, t) == Checking(call)
    requires HoldsOn(events, more, capacity, t) && AllOk(more, t, ok)
    requires Run(events + more, capacity).Next? ==> Run(events + more, capacity).st.owner != Some(t)
    ensures Run(events + more, capacity).Next?
    ensures Result(Run(events, capacity).st, Run(events + more, capacity).st, call, ok)
    ensures At(Run(events + more, capacity).st, t) == NextPoint(Run(events, capacity).st, call)
  {
    hide Run, HoldsOn, Result;
    StillUnderway(events, more, capacity, t, call, ok);
  }

  /** The holder of the mutex is never stuck but where it wants to write and the channel is full. */
  lemma StuckIff(st: State, t: Thread, ok: bool, capacity: nat)
    requires Safe(st) && st.owner == Some(t)
    ensures Advance(st, t, ok, capacity) == Next(st)
            <==> At(st, t).Writing? && st.queued >= capacity && (ok || !At(st, t).call.Send?)
  {
    HolderIsInside(st, t);
    InsideOk(st, t);
    hide Safe;
  }

  // ---------------------------------------------------------------- closing

  /** t holds the mutex and will not give it up before the connection is closed. */
  predicate WillClose(st: State, t: Thread) {
    || st.closed
    || (st.owner == Some(t) && (At(st, t) == Checking(MustDisconnect) || At(st, t) == Checking(ServerError) || At(st, t).Closing? || At(st, t).Marking?))
  }

  lemma StepWillClose(st: State, e: Event, capacity: nat, t: Thread)
    requires Safe(st) && WillClose(st, t)
    ensures Step(st, e, capacity).Next? && WillClose(Step(st, e, capacity).st, t)
  {
    StepSafe(st, e, capacity);
    hide Safe, Step;
    if !st.closed {
      if e.Go? && e.t == t {
        GoIsAdvance(st, t, e.ok, capacity);
        OwnClose(st, t, e.ok, capacity);
      } else {
        OnlyTheHolderActs(st, e, capacity, t);
      }
    }
  }

  lemma OwnClose(st: State, t: Thread, ok: bool, capacity: nat)
    requires Safe(st) && WillClose(st, t) && !st.closed
    ensures Advance(st, t, ok, capacity).Next? && WillClose(Advance(st, t, ok, capacity).st, t)
  {
    InsideOk(st, t);
    hide Safe;
  }

  lemma {:induction false} RunWillClose(events: seq<Event>, more: seq<Event>, capacity: nat, t: Thread)
    requires Run(events, capacity).Next? && WillClose(Run(events, capacity).st, t)
    ensures Run(events + more, capacity).Next? && WillClose(Run(events + more, capacity).st, t)
    decreases |more|
  {
    hide Step, Safe, Run, WillClose;
    if more == [] {
      assert events + more == events;
    } else {
      var before := more[..|more| - 1];
      RunWillClose(events, before, capacity, t);
      RunSafe(events + before, capacity);
      RunMore(events, more, capacity);
      StepWillClose(Run(events + before, capacity).st, more[|more| - 1], capacity, t);
    }
  }

  /** In every interleaving, once a Disconnect has got its answer, the connection is closed by the time its mutex is free
      again or in other hands, and from then on it accepts nothing. */
  lemma DisconnectCloses(events: seq<Event>, more: seq<Event>, yet: seq<Event>, capacity: nat, t: Thread)
    requires Run(events, capacity).Next? && At(Run(events, capacity).st, t) == Answering(Disconnect)
    ensures Run(events + [Go(t, true)] + more, capacity).Next?
    ensures Run(events + [Go(t, true)] + more, capacity).st.owner != Some(t) ==>
              && Run(events + [Go(t, true)] + more, capacity).st.closed
              && Run(events + [Go(t, true)] + more + yet, capacity).Next?
              && Run(events + [Go(t, true)] + more + yet, capacity).st.closed
              && Run(events + [Go(t, true)] + more + yet, capacity).st.accepted == Run(events + [Go(t, true)] + more, capacity).st.accepted
  {
    hide Step, Safe, Run;
    RunSafe(events, capacity);
    RunSafe(events + [Go(t, true)], capacity);
    var st := Run(events, capacity).st;
    assert events + [Go(t, true)][..0] == events;
    RunMore(events, [Go(t, true)], capacity);
    GoIsAdvance(st, t, true, capacity);
    AnswerMarks(st, t, capacity);
    RunWillClose(events + [Go(t, true)], more, capacity, t);
    if Run(events + [Go(t, true)] + more, capacity).st.closed {
      ClosedAcceptsNothing(events + [Go(t, true)] + more, yet, capacity);
    }
  }

  lemma AnswerMarks(st: State, t: Thread, capacity: nat)
    requires Safe(st) && At(st, t) == Answering(Disconnect)
    ensures Advance(st, t, true, capacity).Next? && WillClose(Advance(st, t, true, capacity).st, t)
  {
  }

  /** The same for a MustDisconnect, and for the loop that has read an ERROR, from the moment it has got the mutex. */
  lemma MustDisconnectCloses(events: seq<Event>, more: seq<Event>, capacity: nat, t: Thread)
    requires Run(events, capacity).Next?
    requires At(Run(events, capacity).st, t) == Checking(MustDisconnect) || At(Run(events, capacity).st, t) == Checking(ServerError)
    ensures Run(events + more, capacity).Next?
    ensures Run(events + more, capacity).st.owner != Some(t) ==> Run(events + more, capacity).st.closed
  {
    hide Step, Run;
    RunSafe(events, capacity);
    RunWillClose(events, more, capacity, t);
  }

  // ---------------------------------------------------------------- the channel

  /** In every interleaving, the write channel never holds more requests than it has room for. */
  lemma {:induction false} ChannelBounded(events: seq<Event>, capacity: nat)
    ensures Run(events, capacity).Next? && Run(events, capacity).st.queued <= capacity
    decreases |events|
  {
    hide Safe;
    if events != [] {
      ChannelBounded(events[..|events| - 1], capacity);
      RunSafe(events, capacity);
    }
  }

  function Takes(n: nat): seq<Event> {
    seq(n, _ => TakeRequest)
  }

  /** While nobody else moves, processLoop takes the queued requests one by one; and when the channel was closed, it leaves after
      the last one. */
  lemma {:induction false} LoopDrains(events: seq<Event>, capacity: nat, n: nat)
    requires Run(events, capacity).Next? && Run(events, capacity).st.loop == Looping && n <= Run(events, capacity).st.queued
    ensures Run(events + Takes(n), capacity) == Next(Run(events, capacity).st.(queued := Run(events, capacity).st.queued - n))
    ensures n == Run(events, capacity).st.queued && !Run(events, capacity).st.open ==>
              Run(events + Takes(n + 1), capacity) == Next(Run(events, capacity).st.(queued := 0, loop := Leaving))
    decreases n
  {
    hide Run, Safe;
    if n == 0 {
      assert events + Takes(0) == events;
    } else {
      LoopDrains(events, capacity, n - 1);
      assert Takes(n)[..n - 1] == Takes(n - 1);
      RunMore(events, Takes(n), capacity);
    }
    assert Takes(n + 1)[..n] == Takes(n);
    RunMore(events, Takes(n + 1), capacity);
  }
}
