/** What single events do to the client's I/O loop: which end it, and which keys they register and remove. */
module ClientEvents {
  import opened Text
  import opened Frames
  import opened ClientRouting

  /** The loop returns on a lost connection or a read timeout, an ERROR, a RECEIPT that names no receipt, and a request
      whose frame is written and cannot be; a SUBSCRIBE or UNSUBSCRIBE with a reply-to entry is not written. */
  predicate EndsLoop(e: Event) {
    match e
    case Broken => true
    case Arrived(f) => f.command == "ERROR" || (f.command == "RECEIPT" && Find(f.header, "receipt-id").None?)
    case Requested(f, _, io) =>
      !io && ((f.command != "SUBSCRIBE" && f.command != "UNSUBSCRIBE") || Find(f.header, "reply-to").None?)
  }

  /** In a sound state, the loop returns after an event exactly when it is one of these. */
  lemma LoopEndsIff(st: Client, e: Event)
    requires Sound(st) && !st.done && Allowed(st, e)
    ensures Step(st, e).Next? && (Step(st, e).st.done <==> EndsLoop(e))
  {
    StepSound(st, e);
    hide Find, Broadcast, AllOpen, Injective, Sound;
  }

  /** So a run has returned exactly when one of its events was such a one. */
  lemma {:induction false} RunEndsIff(events: seq<Event>)
    requires AllowedRun(events)
    ensures Run(events).Next? && (Run(events).st.done <==> exists i :: 0 <= i < |events| && EndsLoop(events[i]))
    decreases |events|
  {
    hide Step, EndsLoop, Sound, Allowed;
    RunSound(events);
    if events != [] {
      var n := |events| - 1;
      var before := events[..n];
      assert forall i | 0 <= i <= n :: before[..i] == events[..i];
      RunEndsIff(before);
      assert forall i | 0 <= i < n :: before[i] == events[i];
      RunSound(before);
      var st := Run(before).st;
      if !st.done {
        assert Allowed(st, events[n]);
        LoopEndsIff(st, events[n]);
      }
    }
  }

  // ---------------------------------------------------------------- the table

  /** The event is a request with channel c that is to be known under k: a SUBSCRIBE under its reply-to entry or else its
      id, and any request under the receipt it asks for. */
  predicate Registers(e: Event, k: string, c: Chan) {
    && e.Requested? && e.c == Some(c)
    && (|| Find(e.f.header, "receipt") == Some(k)
        || (e.f.command == "SUBSCRIBE"
            && match Find(e.f.header, "reply-to")
               case Some(r) => k == r
               case None => k == match Find(e.f.header, "id") case Some(id) => id case None => ""))
  }

  /** The event takes k out of the table: its RECEIPT, or an UNSUBSCRIBE of a reply-to destination. */
  predicate Removes(e: Event, k: string) {
    match e
    case Broken => false
    case Arrived(f) => f.command == "RECEIPT" && Find(f.header, "receipt-id") == Some(k)
    case Requested(f, _, _) => f.command == "UNSUBSCRIBE" && Find(f.header, "reply-to") == Some(k)
  }

  /** After an event, channel c is known under k exactly when it is registered by the event or was known and not replaced,
      and the event does not remove k. */
  lemma TableAfter(st: Client, e: Event, k: string, c: Chan)
    requires Sound(st) && !st.done && Allowed(st, e) && Step(st, e).Next?
    ensures k in Step(st, e).st.table && Step(st, e).st.table[k] == c
            <==> !Removes(e, k) && (Registers(e, k, c) || (k in st.table && st.table[k] == c && forall c' :: !Registers(e, k, c')))
  {
    hide Sound, Registers, Removes;
    match e
    case Requested(f, ch, io) => RequestTable(st, f, ch, io, k, c);
    case _ => OtherTable(st, e, k, c);
  }

  lemma OtherTable(st: Client, e: Event, k: string, c: Chan)
    requires !e.Requested? && Step(st, e).Next?
    ensures k in Step(st, e).st.table && Step(st, e).st.table[k] == c <==> !Removes(e, k) && k in st.table && st.table[k] == c
    ensures forall c' :: !Registers(e, k, c')
  {
    hide Find, Broadcast, AllOpen, Injective;
  }

  lemma RequestTable(st: Client, f: Frame, ch: Option<Chan>, io: bool, k: string, c: Chan)
    requires Step(st, Requested(f, ch, io)).Next? && Careful(f, ch)
    ensures var e := Requested(f, ch, io);
            k in Step(st, e).st.table && Step(st, e).st.table[k] == c
            <==> !Removes(e, k) && (Registers(e, k, c) || (k in st.table && st.table[k] == c && forall c' :: !Registers(e, k, c')))
  {
    hide Find, Broadcast, AllOpen, Injective;
    var e := Requested(f, ch, io);
    assert Step(st, e).st.table == Record(st, f, ch).st.table;
    assert (exists c' :: Registers(e, k, c')) <==> ch.Some? && Registers(e, k, ch.value);
  }

  /** Channel c is known under k while the event is handled, before k is removed. */
  ghost predicate KnownAs(st: Client, e: Event, k: string, c: Chan) {
    Registers(e, k, c) || (k in st.table && st.table[k] == c && forall c' :: !Registers(e, k, c'))
  }

  predicate IsError(e: Event) {
    e.Arrived? && e.f.command == "ERROR"
  }

  /** An event closes exactly the channels whose keys it removes, and an ERROR all channels of the table. */
  lemma ShutAfter(st: Client, e: Event, c: Chan)
    requires Sound(st) && !st.done && Allowed(st, e) && Step(st, e).Next?
    ensures c in Step(st, e).st.shut
            <==> c in st.shut || (exists k :: Removes(e, k) && KnownAs(st, e, k, c)) || (IsError(e) && c in st.table.Values)
  {
    hide Sound, Registers, Removes, IsError;
    match e
    case Requested(f, ch, io) => RequestShuts(st, f, ch, io, c);
    case Broken => NothingShut(st, c);
    case Arrived(f) => FrameShuts(st, f, c);
  }

  lemma NothingShut(st: Client, c: Chan)
    requires Step(st, Broken).Next?
    ensures Step(st, Broken).st.shut == st.shut && !IsError(Broken) && forall k :: !Removes(Broken, k)
  {
    hide Broadcast, AllOpen;
  }

  lemma FrameShuts(st: Client, f: Frame, c: Chan)
    requires Step(st, Arrived(f)).Next?
    ensures c in Step(st, Arrived(f)).st.shut
            <==> c in st.shut || (exists k :: Removes(Arrived(f), k) && KnownAs(st, Arrived(f), k, c)) || (IsError(Arrived(f)) && c in st.table.Values)
  {
    hide Find, Broadcast, AllOpen, Injective, KnownAs;
    var e := Arrived(f);
    forall k ensures KnownAs(st, e, k, c) <==> k in st.table && st.table[k] == c { FrameKnows(st, f, k, c); }
    if f.command == "RECEIPT" && Find(f.header, "receipt-id").Some? {
      var k := Find(f.header, "receipt-id").value;
      assert Removes(e, k);
      assert forall k' | Removes(e, k') :: k' == k;
    }
  }

  lemma FrameKnows(st: Client, f: Frame, k: string, c: Chan)
    ensures KnownAs(st, Arrived(f), k, c) <==> k in st.table && st.table[k] == c
  {
    hide Find;
  }

  lemma RequestShuts(st: Client, f: Frame, ch: Option<Chan>, io: bool, c: Chan)
    requires Step(st, Requested(f, ch, io)).Next? && Careful(f, ch)
    ensures var e := Requested(f, ch, io);
            !IsError(e) && (c in Step(st, e).st.shut <==> c in st.shut || exists k :: Removes(e, k) && KnownAs(st, e, k, c))
  {
    hide Find, Broadcast, AllOpen, Injective;
    var e := Requested(f, ch, io);
    assert Step(st, e).st.shut == Record(st, f, ch).st.shut;
    if f.command == "UNSUBSCRIBE" && Find(f.header, "reply-to").Some? {
      var k := Find(f.header, "reply-to").value;
      assert Removes(e, k);
      assert (exists c' :: Registers(e, k, c')) <==> ch.Some? && Registers(e, k, ch.value);
      assert KnownAs(st, e, k, c) || !KnownAs(st, e, k, c);
    }
  }
}
