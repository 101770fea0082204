/** The client's I/O loop (processLoop in conn.go): how it routes frames from the server to the channels of
    requests and subscriptions. One event is one iteration of the loop. A timer that only causes a heart-beat
    changes nothing here. */
module ClientRouting {
  import opened Text
  import opened Frames

  const REPLY_TO := "reply-to"

  type Chan = nat

  datatype Event =
    | Arrived(f: Frame)                               // a frame from the server
    | Requested(f: Frame, c: Option<Chan>, io: bool)  // a write request; io: the write, if there is one, succeeds
    | Broken                                          // a read timeout, a failed heart-beat, or a closed channel

  datatype Client = Client(
    table: map<string, Chan>,    // channels
    shut: set<Chan>,             // closed channels
    log: map<Chan, seq<Frame>>,  // what was sent on each channel so far
    done: bool)                  // the loop has returned

  datatype Fault = SendOnClosed | CloseOfClosed | NilChannel

  datatype Outcome = Next(st: Client) | Crash(why: Fault)

  const START := Client(map[], {}, map[], false)
  const OWN_ERROR := Frame("ERROR", [Entry("message", "")], "")  // the text of the message is left out

  // ---------------------------------------------------------------- the loop

  predicate AllOpen(st: Client) {
    forall k | k in st.table :: st.table[k] !in st.shut
  }

  predicate Injective(table: map<string, Chan>) {
    forall k, k' | k in table && k' in table && table[k] == table[k'] :: k == k'
  }

  function LogOf(st: Client, c: Chan): seq<Frame> {
    if c in st.log then st.log[c] else []
  }

  function Send(st: Client, c: Chan, f: Frame): Outcome {
    if c in st.shut then Crash(SendOnClosed) else Next(st.(log := st.log[c := LogOf(st, c) + [f]]))
  }

  function KeysOf(table: map<string, Chan>, c: Chan): set<string> {
    set k | k in table && table[k] == c
  }

  /** The logs after f was sent once for every key of the table. */
  function Broadcast(st: Client, f: Frame): map<Chan, seq<Frame>> {
    map c | c in st.log.Keys + st.table.Values :: LogOf(st, c) + seq(|KeysOf(st.table, c)|, _ => f)
  }

  /** sendError, and the return after it. */
  function Fail(st: Client): Outcome {
    if AllOpen(st) then Next(st.(log := Broadcast(st, OWN_ERROR), done := true)) else Crash(SendOnClosed)
  }

  /** A RECEIPT frame: the channel is taken out of the table, gets the frame and is closed. */
  function Complete(st: Client, k: string, f: Frame): Outcome {
    if k in st.table then
      match Send(st, st.table[k], f)
      case Next(st') => Next(st'.(table := st.table - {k}, shut := st.shut + {st.table[k]}))
      case Crash(why) => Crash(why)
    else Next(st)
  }

  /** An ERROR frame: every channel gets it and is closed, one after the other, and the loop returns. */
  function Abort(st: Client, f: Frame): Outcome {
    if AllOpen(st) && Injective(st.table) then
      Next(st.(log := Broadcast(st, f), shut := st.shut + st.table.Values, done := true))
    else Crash(SendOnClosed)
  }

  function OnFrame(st: Client, f: Frame): Outcome {
    match f.command
    case "RECEIPT" =>
      (match Find(f.header, "receipt-id")
       case Some(k) => Complete(st, k, f)
       case None => Fail(st))
    case "ERROR" => Abort(st, f)
    case "MESSAGE" =>
      (match Find(f.header, "subscription")
       case Some(k) => if k in st.table then Send(st, st.table[k], f) else Next(st)
       case None => Next(st))
    case _ => Next(st)
  }

  /** The key a SUBSCRIBE frame registers: its reply-to entry, or its id. */
  function SubscriptionKey(f: Frame): string {
    match Find(f.header, REPLY_TO)
    case Some(k) => k
    case None => (match Find(f.header, "id") case Some(id) => id case None => "")
  }

  /** Neither a SUBSCRIBE nor an UNSUBSCRIBE of a reply-to destination goes to the server. */
  predicate IsWritten(f: Frame) {
    !((f.command == "SUBSCRIBE" || f.command == "UNSUBSCRIBE") && Find(f.header, REPLY_TO).Some?)
  }

  function Register(st: Client, k: string, c: Chan): Client {
    st.(table := st.table[k := c], log := st.log[c := LogOf(st, c)])
  }

  /** The table after a request, before its frame is written. */
  function Record(st: Client, f: Frame, c: Option<Chan>): Outcome {
    var receipt := Find(f.header, "receipt");
    var st' := if c.Some? && receipt.Some? then Register(st, receipt.value, c.value) else st;
    if f.command == "SUBSCRIBE" then
      if c.Some? then Next(Register(st', SubscriptionKey(f), c.value)) else Crash(NilChannel)
    else if f.command == "UNSUBSCRIBE" && Find(f.header, REPLY_TO).Some? then
      var k := Find(f.header, REPLY_TO).value;
      if k !in st'.table then Next(st')
      else if st'.table[k] in st'.shut then Crash(CloseOfClosed)
      else Next(st'.(table := st'.table - {k}, shut := st'.shut + {st'.table[k]}))
    else Next(st')
  }

  function OnRequest(st: Client, f: Frame, c: Option<Chan>, io: bool): Outcome {
    match Record(st, f, c)
    case Crash(why) => Crash(why)
    case Next(st') => if IsWritten(f) && !io then Fail(st') else Next(st')
  }

  function Step(st: Client, e: Event): Outcome {
    match e
    case Arrived(f) => OnFrame(st, f)
    case Requested(f, c, io) => OnRequest(st, f, c, io)
    case Broken => Fail(st)
  }

  /** The loop handles the events in order, and none after it has returned. */
  function Run(events: seq<Event>): Outcome {
    if events == [] then Next(START)
    else
      match Run(events[..|events| - 1])
      case Crash(why) => Crash(why)
      case Next(st) => if st.done then Next(st) else Step(st, events[|events| - 1])
  }

  // ---------------------------------------------------------------- what the callers must see to

  /** The key that the request registers, if it registers one. */
  function NewKey(f: Frame, c: Option<Chan>): Option<string> {
    if c.None? then None
    else if f.command == "SUBSCRIBE" then Some(SubscriptionKey(f))
    else Find(f.header, "receipt")
  }

  /** A SUBSCRIBE brings a channel, and if it asks for a receipt, it does so under its own key. */
  predicate Careful(f: Frame, c: Option<Chan>) {
    f.command == "SUBSCRIBE" ==>
      c.Some? && (Find(f.header, "receipt").None? || Find(f.header, "receipt") == Some(SubscriptionKey(f)))
  }

  /** A careful request with a new channel. Its key may be in use. */
  predicate Allowed(st: Client, e: Event) {
    e.Requested? ==> (e.c.Some? ==> e.c.value !in st.log) && Careful(e.f, e.c)
  }

  /** An allowed request whose key is not in use. */
  predicate Proper(st: Client, e: Event) {
    Allowed(st, e) && (e.Requested? && NewKey(e.f, e.c).Some? ==> NewKey(e.f, e.c).value !in st.table)
  }

  ghost predicate AllowedRun(events: seq<Event>) {
    forall i | 0 <= i < |events| && Run(events[..i]).Next? && !Run(events[..i]).st.done :: Allowed(Run(events[..i]).st, events[i])
  }

  ghost predicate ProperRun(events: seq<Event>) {
    forall i | 0 <= i < |events| && Run(events[..i]).Next? && !Run(events[..i]).st.done :: Proper(Run(events[..i]).st, events[i])
  }

  // ---------------------------------------------------------------- no channel is used after it is closed

  predicate Sound(st: Client) {
    && Injective(st.table)
    && (forall k | k in st.table :: st.table[k] in st.log)
    && (forall c | c in st.shut :: c in st.log)
    && (!st.done ==> AllOpen(st))
  }

  lemma OneKey(table: map<string, Chan>, k: string)
    requires Injective(table) && k in table
    ensures |KeysOf(table, table[k])| == 1
  {
    assert KeysOf(table, table[k]) == {k};
  }

  lemma NoKey(table: map<string, Chan>, c: Chan)
    requires c !in table.Values
    ensures |KeysOf(table, c)| == 0
  {
    assert KeysOf(table, c) == {};
  }

  // ---------------------------------------------------------------- the part of one key

  /** The frames that an event sends to the channel registered under k. */
  function FramesFor(e: Event, k: string): seq<Frame> {
    match e
    case Broken => [OWN_ERROR]
    case Requested(f, _, io) => if IsWritten(f) && !io then [OWN_ERROR] else []
    case Arrived(f) =>
      if f.command == "RECEIPT" then
        (match Find(f.header, "receipt-id") case Some(r) => if r == k then [f] else [] case None => [OWN_ERROR])
      else if f.command == "ERROR" then [f]
      else if f.command == "MESSAGE" && Find(f.header, "subscription") == Some(k) then [f]
      else []
  }

  /** The event ends the registration of k. */
  predicate Ends(e: Event, k: string) {
    match e
    case Broken => false
    case Requested(f, _, _) => f.command == "UNSUBSCRIBE" && Find(f.header, REPLY_TO) == Some(k)
    case Arrived(f) => f.command == "RECEIPT" && Find(f.header, "receipt-id") == Some(k)
  }

  /** How one event treats a key that was registered before it, or is registered by it. */
  predicate Routes(st: Client, st': Client, e: Event, k: string, c: Chan) {
    && c in st'.log && st'.log[c] == LogOf(st, c) + FramesFor(e, k)
    && (if Ends(e, k) then k !in st'.table else k in st'.table && st'.table[k] == c)
  }

  /** Every key of the table has its own part in the event, and channels outside the table have none. */
  ghost predicate Routed(st: Client, st': Client, e: Event) {
    && Sound(st')
    && (forall k | k in st.table :: Routes(st, st', e, k, st.table[k]))
    && (forall c | c in st.log && c !in st.table.Values :: c in st'.log && st'.log[c] == st.log[c])
    && (e.Requested? && NewKey(e.f, e.c).Some? ==> Routes(st, st', e, NewKey(e.f, e.c).value, e.c.value))
    && (forall k | k in st'.table && k !in st.table :: e.Requested? && NewKey(e.f, e.c) == Some(k))
    && (forall c | c in st'.log && c !in st.log :: e.Requested? && e.c == Some(c) && NewKey(e.f, e.c).Some?)
  }

  lemma BroadcastOnce(st: Client, f: Frame)
    requires Injective(st.table)
    ensures forall k | k in st.table :: st.table[k] in Broadcast(st, f) && Broadcast(st, f)[st.table[k]] == LogOf(st, st.table[k]) + [f]
    ensures forall c | c in st.log && c !in st.table.Values :: c in Broadcast(st, f) && Broadcast(st, f)[c] == st.log[c]
    ensures Broadcast(st, f).Keys == st.log.Keys + st.table.Values
  {
    forall k | k in st.table ensures st.table[k] in Broadcast(st, f) && Broadcast(st, f)[st.table[k]] == LogOf(st, st.table[k]) + [f] {
      OneKey(st.table, k);
      assert seq(1, _ => f) == [f];
    }
    forall c | c in st.log && c !in st.table.Values ensures Broadcast(st, f)[c] == st.log[c] {
      NoKey(st.table, c);
      assert st.log[c] + seq(0, _ => f) == st.log[c];
    }
  }

  lemma AbortRoutes(st: Client, f: Frame)
    requires Sound(st) && !st.done && f.command == "ERROR"
    ensures Abort(st, f).Next? && Routed(st, Abort(st, f).st, Arrived(f))
  {
    hide Broadcast;
    BroadcastOnce(st, f);
  }

  lemma FailRoutes(st: Client, e: Event)
    requires Sound(st) && !st.done && (e == Broken || (e.Arrived? && e.f.command == "RECEIPT" && Find(e.f.header, "receipt-id").None?))
    ensures Fail(st).Next? && Routed(st, Fail(st).st, e)
  {
    hide Broadcast, Find;
    BroadcastOnce(st, OWN_ERROR);
  }

  lemma FrameRoutes(st: Client, f: Frame)
    requires Sound(st) && !st.done
    ensures OnFrame(st, f).Next? && Routed(st, OnFrame(st, f).st, Arrived(f))
  {
    hide Abort, Fail, Find, Broadcast;
    if f.command == "ERROR" {
      AbortRoutes(st, f);
    } else if f.command == "RECEIPT" && Find(f.header, "receipt-id").None? {
      FailRoutes(st, Arrived(f));
    } else {
      assert forall c | c in st.log :: LogOf(st, c) + [] == st.log[c];
    }
  }

  /** A new channel under a new key. */
  lemma RegisterRoutes(st: Client, k: string, c: Chan, f: Frame)
    requires Sound(st) && !st.done && k !in st.table && c !in st.log && NewKey(f, Some(c)) == Some(k)
    requires f.command == "UNSUBSCRIBE" ==> Find(f.header, REPLY_TO).None?
    ensures Routed(st, Register(st, k, c), Requested(f, Some(c), true))
  {
    hide Find, NewKey;
    assert forall c' :: LogOf(st, c') + [] == LogOf(st, c');
  }

  /** An UNSUBSCRIBE of a reply-to destination takes its channel out of the table and closes it. */
  function Forget(st: Client, k: string): Client {
    if k in st.table then st.(table := st.table - {k}, shut := st.shut + {st.table[k]}) else st
  }

  /** The state in which the key of a request is registered, if it has one. */
  function Registered(st: Client, f: Frame, c: Option<Chan>): Client {
    if NewKey(f, c).Some? && c.Some? then Register(st, NewKey(f, c).value, c.value) else st
  }

  /** A new channel under any key, even one in use, leaves a sound state. */
  lemma RegisteredSound(st: Client, f: Frame, c: Option<Chan>)
    requires Sound(st) && !st.done && (c.Some? ==> c.value !in st.log)
    ensures Sound(Registered(st, f, c)) && AllOpen(Registered(st, f, c)) && !Registered(st, f, c).done
  {
    hide NewKey;
  }

  lemma ForgetSound(st: Client, k: string)
    requires Sound(st) && !st.done
    ensures Sound(Forget(st, k)) && !Forget(st, k).done
  {
  }

  lemma ForgetRoutes(st: Client, f: Frame, c: Option<Chan>)
    requires Sound(st) && !st.done && f.command == "UNSUBSCRIBE" && Find(f.header, REPLY_TO).Some?
    requires Proper(st, Requested(f, c, true))
    ensures Routed(st, Forget(Registered(st, f, c), Find(f.header, REPLY_TO).value), Requested(f, c, true))
  {
    hide Find, NewKey, Sound, Careful, AllOpen;
    KeyNeedsChannel(f, c);
    RegisteredSound(st, f, c);
    ForgetSound(Registered(st, f, c), Find(f.header, REPLY_TO).value);
    SoundFacts(st);
    assert forall c' :: LogOf(st, c') + [] == LogOf(st, c');
  }

  lemma SoundFacts(st: Client)
    requires Sound(st)
    ensures Injective(st.table) && forall k | k in st.table :: st.table[k] in st.log
  {
  }

  lemma NothingRoutes(st: Client, f: Frame, c: Option<Chan>)
    requires Sound(st) && !st.done && NewKey(f, c).None? && (f.command == "UNSUBSCRIBE" ==> Find(f.header, REPLY_TO).None?)
    ensures Routed(st, st, Requested(f, c, true))
  {
    hide Find, NewKey;
    assert forall c' :: LogOf(st, c') + [] == LogOf(st, c');
  }

  lemma RegisterAgain(st: Client, k: string, c: Chan)
    ensures Register(Register(st, k, c), k, c) == Register(st, k, c)
  {
    var st' := Register(st, k, c);
    assert st'.table[k := c] == st'.table && st'.log[c := LogOf(st', c)] == st'.log;
  }

  /** What a careful request does before its frame is written. */
  lemma RecordIs(st: Client, f: Frame, c: Option<Chan>)
    requires Careful(f, c) && AllOpen(Registered(st, f, c))
    ensures Record(st, f, c) ==
            Next(if f.command == "UNSUBSCRIBE" && Find(f.header, REPLY_TO).Some?
                 then Forget(Registered(st, f, c), Find(f.header, REPLY_TO).value) else Registered(st, f, c))
  {
    hide Find, Register, SubscriptionKey;
    if f.command == "SUBSCRIBE" { RegisterAgain(st, SubscriptionKey(f), c.value); }
  }

  /** The part of a request before its frame is written. */
  lemma RecordRoutes(st: Client, f: Frame, c: Option<Chan>)
    requires Sound(st) && !st.done && Proper(st, Requested(f, c, true))
    ensures Record(st, f, c).Next? && Routed(st, Record(st, f, c).st, Requested(f, c, true)) && !Record(st, f, c).st.done
  {
    hide Find, Routed, SubscriptionKey, Record, NewKey, Careful, Forget;
    KeyNeedsChannel(f, c);
    RegisteredSound(st, f, c);
    RecordIs(st, f, c);
    if f.command == "UNSUBSCRIBE" && Find(f.header, REPLY_TO).Some? {
      ForgetSound(Registered(st, f, c), Find(f.header, REPLY_TO).value);
      ForgetRoutes(st, f, c);
    } else if NewKey(f, c).Some? {
      RegisterRoutes(st, NewKey(f, c).value, c.value, f);
    } else {
      NothingRoutes(st, f, c);
    }
  }

  lemma RequestRoutes(st: Client, f: Frame, c: Option<Chan>, io: bool)
    requires Sound(st) && !st.done && Proper(st, Requested(f, c, io))
    ensures OnRequest(st, f, c, io).Next? && Routed(st, OnRequest(st, f, c, io).st, Requested(f, c, io))
  {
    ProperWritten(st, f, c, io);
    hide Fail, Record, Find, Routed, Sound, Proper, IsWritten;
    RecordRoutes(st, f, c);
    if IsWritten(f) && !io {
      RequestFails(st, f, c);
    } else {
      NotWritten(st, Record(st, f, c).st, f, c, io);
    }
  }

  lemma ProperWritten(st: Client, f: Frame, c: Option<Chan>, io: bool)
    requires Proper(st, Requested(f, c, io))
    ensures Proper(st, Requested(f, c, true))
  {
  }

  /** Whether the write would fail does not matter when there is none. */
  lemma NotWritten(st: Client, st': Client, f: Frame, c: Option<Chan>, io: bool)
    requires Routed(st, st', Requested(f, c, true)) && (io || !IsWritten(f))
    ensures Routed(st, st', Requested(f, c, io))
  {
    hide Find, Sound, NewKey;
  }

  lemma RequestFails(st: Client, f: Frame, c: Option<Chan>)
    requires Sound(st) && !st.done && Proper(st, Requested(f, c, true)) && IsWritten(f)
    requires Record(st, f, c).Next? && Routed(st, Record(st, f, c).st, Requested(f, c, true)) && !Record(st, f, c).st.done
    ensures Fail(Record(st, f, c).st).Next? && Routed(st, Fail(Record(st, f, c).st).st, Requested(f, c, false))
  {
    SoundInjective(st);
    hide Fail, Record, Find, Routed, Sound, Proper, IsWritten;
    var st' := Record(st, f, c).st;
    RoutedSound(st, st', Requested(f, c, true));
    FailRoutes(st', Broken);
    RecordThenFail(st, st', Fail(st').st, f, c);
  }

  lemma SoundInjective(st: Client)
    requires Sound(st)
    ensures Injective(st.table)
  {
  }

  lemma KeyNeedsChannel(f: Frame, c: Option<Chan>)
    ensures NewKey(f, c).Some? ==> c.Some?
  {
  }

  /** The request only registered its key. */
  predicate Grew(st: Client, st': Client, k: Option<string>, c: Option<Chan>) {
    && (forall x | x in st.table :: x in st'.table && st'.table[x] == st.table[x])
    && (forall x | x in st'.table && x !in st.table :: k == Some(x))
    && (forall x | x in st.log :: x in st'.log && st'.log[x] == st.log[x])
    && (forall x | x in st'.log && x !in st.log :: k.Some? && c == Some(x))
    && (k.Some? ==> c.Some? && k.value in st'.table && st'.table[k.value] == c.value && c.value in st'.log && st'.log[c.value] == LogOf(st, c.value))
    && (forall x | x in st.table :: st.table[x] in st'.log && st'.log[st.table[x]] == LogOf(st, st.table[x]))
  }

  lemma RoutedGrew(st: Client, st': Client, f: Frame, c: Option<Chan>)
    requires Proper(st, Requested(f, c, true)) && IsWritten(f) && Routed(st, st', Requested(f, c, true)) && Injective(st.table)
    ensures Grew(st, st', NewKey(f, c), c)
  {
    hide Find, Sound, NewKey;
    assert NewKey(f, c).Some? ==> c.Some? by { KeyNeedsChannel(f, c); }
    assert forall x :: LogOf(st, x) + [] == LogOf(st, x);
  }

  lemma RecordThenFail(st: Client, st': Client, st'': Client, f: Frame, c: Option<Chan>)
    requires Proper(st, Requested(f, c, true)) && IsWritten(f) && Injective(st.table)
    requires Routed(st, st', Requested(f, c, true)) && Routed(st', st'', Broken)
    ensures Routed(st, st'', Requested(f, c, false))
  {
    RoutedGrew(st, st', f, c);
    GrewThenFail(st, st', st'', f, c);
  }

  lemma GrewThenFail(st: Client, st': Client, st'': Client, f: Frame, c: Option<Chan>)
    requires Proper(st, Requested(f, c, true)) && IsWritten(f)
    requires Grew(st, st', NewKey(f, c), c) && Routed(st', st'', Broken)
    ensures Routed(st, st'', Requested(f, c, false))
  {
    hide Find, Sound, NewKey, FramesFor, Ends, Routes, IsWritten;
    assert NewKey(f, c).Some? ==> c.Some? by { KeyNeedsChannel(f, c); }
    forall k | k in st'.table ensures Routes(st, st'', Requested(f, c, false), k, st'.table[k]) { GrewRoutes(st, st', st'', f, c, k); }
  }

  lemma GrewRoutes(st: Client, st': Client, st'': Client, f: Frame, c: Option<Chan>, k: string)
    requires IsWritten(f) && Grew(st, st', NewKey(f, c), c) && Routed(st', st'', Broken) && k in st'.table
    ensures Routes(st, st'', Requested(f, c, false), k, st'.table[k])
  {
    FailsAlike(f, c);
    hide Find, Sound, NewKey, FramesFor, Ends, IsWritten;
    assert Routes(st', st'', Broken, k, st'.table[k]);
  }

  lemma FailsAlike(f: Frame, c: Option<Chan>)
    requires IsWritten(f)
    ensures forall k :: FramesFor(Requested(f, c, false), k) == FramesFor(Broken, k)
    ensures forall k :: !Ends(Requested(f, c, false), k) && !Ends(Broken, k)
  {
  }

  lemma StepRoutes(st: Client, e: Event)
    requires Sound(st) && !st.done && Proper(st, e)
    ensures Step(st, e).Next? && Routed(st, Step(st, e).st, e)
  {
    hide OnFrame, OnRequest, Fail, Routed, Sound, Proper;
    match e
    case Arrived(f) => FrameRoutes(st, f);
    case Requested(f, c, io) => RequestRoutes(st, f, c, io);
    case Broken => FailRoutes(st, e);
  }

  // ---------------------------------------------------------------- every run

  lemma RunPrefix(events: seq<Event>)
    requires events != [] && ProperRun(events)
    ensures ProperRun(events[..|events| - 1])
  {
    hide Run, Proper;
    var before := events[..|events| - 1];
    forall i | 0 <= i < |before| && Run(before[..i]).Next? && !Run(before[..i]).st.done ensures Proper(Run(before[..i]).st, before[i]) {
      assert before[..i] == events[..i];
    }
  }

  // ---------------------------------------------------------------- every allowed run

  lemma RecordSound(st: Client, f: Frame, c: Option<Chan>)
    requires Sound(st) && !st.done && Allowed(st, Requested(f, c, true))
    ensures Record(st, f, c).Next? && Sound(Record(st, f, c).st) && !Record(st, f, c).st.done
  {
    hide Find, Sound, Forget, Record, Registered, Careful, AllOpen;
    RegisteredSound(st, f, c);
    RecordIs(st, f, c);
    if f.command == "UNSUBSCRIBE" && Find(f.header, REPLY_TO).Some? {
      ForgetSound(Registered(st, f, c), Find(f.header, REPLY_TO).value);
    }
  }

  lemma FailSound(st: Client)
    requires Sound(st) && !st.done
    ensures Fail(st).Next? && Sound(Fail(st).st)
  {
    hide Sound, Fail, Routed;
    FailRoutes(st, Broken);
    RoutedSound(st, Fail(st).st, Broken);
  }

  lemma FrameSound(st: Client, f: Frame)
    requires Sound(st) && !st.done
    ensures OnFrame(st, f).Next? && Sound(OnFrame(st, f).st)
  {
    hide Sound, OnFrame, Routed;
    FrameRoutes(st, f);
    RoutedSound(st, OnFrame(st, f).st, Arrived(f));
  }

  /** An allowed event keeps the table injective and its channels open, and uses no closed channel. */
  lemma StepSound(st: Client, e: Event)
    requires Sound(st) && !st.done && Allowed(st, e)
    ensures Step(st, e).Next? && Sound(Step(st, e).st)
  {
    hide Sound, OnFrame, Record, Fail, Careful, IsWritten;
    match e
    case Arrived(f) => FrameSound(st, f);
    case Broken => FailSound(st);
    case Requested(f, c, io) =>
      RecordSound(st, f, c);
      if IsWritten(f) && !io { FailSound(Record(st, f, c).st); }
  }

  lemma AllowedPrefix(events: seq<Event>)
    requires events != [] && AllowedRun(events)
    ensures AllowedRun(events[..|events| - 1])
  {
    hide Run, Allowed;
    var before := events[..|events| - 1];
    forall i | 0 <= i < |before| && Run(before[..i]).Next? && !Run(before[..i]).st.done ensures Allowed(Run(before[..i]).st, before[i]) {
      assert before[..i] == events[..i];
    }
  }

  /** No send on a closed channel and no second close, in any run with careful requests and new channels; the table is
      injective, and as long as the loop runs it holds only open channels. Keys may be used again at any time. */
  lemma {:induction false} RunSound(events: seq<Event>)
    requires AllowedRun(events)
    ensures Run(events).Next? && Sound(Run(events).st)
    decreases |events|
  {
    hide Sound, Step, Allowed;
    if events == [] {
      assert Sound(START) by { StartSound(); }
    } else {
      var n := |events| - 1;
      AllowedPrefix(events);
      RunSound(events[..n]);
      var st := Run(events[..n]).st;
      assert events[..n] == events[..|events| - 1];
      if !st.done { StepSound(st, events[n]); }
    }
  }

  lemma ProperAllowed(events: seq<Event>)
    requires ProperRun(events)
    ensures AllowedRun(events)
  {
    hide Run, NewKey, Careful;
  }

  lemma StartSound()
    ensures Sound(START)
  {
  }

  lemma RoutedSound(st: Client, st': Client, e: Event)
    requires Routed(st, st', e)
    ensures Sound(st')
  {
  }

  // ---------------------------------------------------------------- what each channel gets

  /** The events up to and including the one that ends the registration of k. */
  function Upto(es: seq<Event>, k: string): seq<Event> {
    if es == [] then [] else if Ends(es[0], k) then [es[0]] else [es[0]] + Upto(es[1..], k)
  }

  predicate StillOpen(es: seq<Event>, k: string) {
    forall i | 0 <= i < |es| :: !Ends(es[i], k)
  }

  /** All frames of these events for k, in order. */
  function Received(es: seq<Event>, k: string): seq<Frame> {
    if es == [] then [] else Received(es[..|es| - 1], k) + FramesFor(es[|es| - 1], k)
  }

  predicate RegistersAt(events: seq<Event>, i: nat, k: string, c: Chan) {
    i < |events| && events[i].Requested? && events[i].c == Some(c) && NewKey(events[i].f, events[i].c) == Some(k)
  }

  /** The loop handled every one of these events. */
  ghost predicate AllHandled(events: seq<Event>) {
    forall i | 0 <= i < |events| :: Run(events[..i]).Next? && !Run(events[..i]).st.done
  }

  /** A registration got exactly the frames for its key, from its request to the event that ended it. */
  ghost predicate LoggedAt(events: seq<Event>, st: Client, i: nat, k: string, c: Chan)
    requires i <= |events|
  {
    && c in st.log && st.log[c] == Received(Upto(events[i..], k), k)
    && (if StillOpen(events[i..], k) then k in st.table && st.table[k] == c else c !in st.table.Values)
  }

  ghost predicate Logged(events: seq<Event>, st: Client) {
    forall i: nat, k, c | RegistersAt(events, i, k, c) :: LoggedAt(events, st, i, k, c)
  }

  lemma {:induction false} UptoAll(es: seq<Event>, k: string)
    ensures StillOpen(es, k) ==> Upto(es, k) == es
  {
    hide Ends;
    if es != [] && StillOpen(es, k) {
      UptoAll(es[1..], k);
      assert es == [es[0]] + es[1..];
    }
  }

  lemma {:induction false} UptoMore(es: seq<Event>, e: Event, k: string)
    ensures Upto(es + [e], k) == if StillOpen(es, k) then es + [e] else Upto(es, k)
  {
    hide Ends;
    if es == [] {
      assert es + [e] == [e] && [e][1..] == [];
    } else {
      UptoMore(es[1..], e, k);
      assert (es + [e])[1..] == es[1..] + [e];
      assert StillOpen(es, k) <==> !Ends(es[0], k) && StillOpen(es[1..], k);
    }
  }

  lemma OpenMore(es: seq<Event>, e: Event, k: string)
    ensures StillOpen(es + [e], k) <==> StillOpen(es, k) && !Ends(e, k)
  {
    hide Ends;
    if StillOpen(es + [e], k) {
      assert (es + [e])[|es|] == e && forall i | 0 <= i < |es| :: (es + [e])[i] == es[i];
    }
  }

  lemma ReceivedMore(es: seq<Event>, e: Event, k: string)
    ensures Received(es + [e], k) == Received(es, k) + FramesFor(e, k)
  {
    assert (es + [e])[..|es|] == es;
  }

  /** Channels that left the table do not come back. */
  lemma StaysOut(st: Client, st': Client, e: Event, c: Chan)
    requires Sound(st) && Proper(st, e) && Routed(st, st', e) && c in st.log
    requires forall k | k in st.table && st.table[k] == c :: Ends(e, k)
    ensures c !in st'.table.Values
  {
    hide Find, Ends, FramesFor, NewKey;
    if e.Requested? { KeyNeedsChannel(e.f, e.c); }
    forall k | k in st'.table ensures st'.table[k] != c {
      if k in st.table {
        assert Routes(st, st', e, k, st.table[k]);
      } else {
        assert Routes(st, st', e, k, e.c.value);
      }
    }
  }

  lemma OldRegistration(events: seq<Event>, st: Client, st': Client, e: Event, i: nat, k: string, c: Chan)
    requires Sound(st) && Proper(st, e) && Routed(st, st', e) && i < |events| && LoggedAt(events, st, i, k, c)
    ensures LoggedAt(events + [e], st', i, k, c)
  {
    hide Find, Ends, FramesFor, NewKey, Upto, StillOpen, Received, Proper;
    var es := events[i..];
    assert (events + [e])[i..] == es + [e];
    UptoMore(es, e, k);
    UptoAll(es, k);
    OpenMore(es, e, k);
    ReceivedMore(es, e, k);
    if StillOpen(es, k) {
      assert Routes(st, st', e, k, st.table[k]);
      if Ends(e, k) { StaysOut(st, st', e, c); }
    } else {
      StaysOut(st, st', e, c);
    }
  }

  lemma NewRegistration(events: seq<Event>, st: Client, st': Client, e: Event, k: string, c: Chan)
    requires Sound(st) && Proper(st, e) && Routed(st, st', e) && RegistersAt(events + [e], |events|, k, c)
    ensures LoggedAt(events + [e], st', |events|, k, c)
  {
    hide Find, FramesFor, NewKey, Ends;
    var es := (events + [e])[|events|..];
    assert es == [e] && [e][1..] == [] && [e][..0] == [];
    assert Received(es, k) == [] + FramesFor(e, k) == FramesFor(e, k);
    assert es[0] == e && [e] + [] == [e] && es[1..] == [];
    assert StillOpen(es, k) <==> !Ends(e, k);
    assert Upto(es, k) == es;
    assert LogOf(st, c) + FramesFor(e, k) == FramesFor(e, k);
    assert Routes(st, st', e, k, c);
    if Ends(e, k) { NewStaysOut(st, st', e, k, c); }
  }

  lemma NewStaysOut(st: Client, st': Client, e: Event, k: string, c: Chan)
    requires Sound(st) && Routed(st, st', e) && e.Requested? && e.c == Some(c) && NewKey(e.f, e.c) == Some(k) && Ends(e, k) && c !in st.log
    ensures c !in st'.table.Values
  {
    hide Find, Ends, FramesFor, NewKey;
    forall x | x in st'.table ensures st'.table[x] != c {
      if x in st.table { assert Routes(st, st', e, x, st.table[x]); }
    }
  }

  lemma LoggedMore(events: seq<Event>, st: Client, st': Client, e: Event)
    requires Sound(st) && Proper(st, e) && Routed(st, st', e) && Logged(events, st)
    ensures Logged(events + [e], st')
  {
    hide Sound, Proper, Routed, LoggedAt, NewKey;
    forall i: nat, k, c | RegistersAt(events + [e], i, k, c) ensures LoggedAt(events + [e], st', i, k, c) {
      if i < |events| {
        assert RegistersAt(events, i, k, c);
        OldRegistration(events, st, st', e, i, k, c);
      } else {
        NewRegistration(events, st, st', e, k, c);
      }
    }
  }

  /** In every proper run, the channel of each request or subscription gets exactly the frames of the events for its
      key, in order, from its registration to the event that ends it. */
  lemma {:induction false} ChannelsGetTheirFrames(events: seq<Event>)
    requires ProperRun(events) && AllHandled(events)
    ensures Run(events).Next? && Logged(events, Run(events).st)
    decreases |events|
  {
    hide Sound, Step, Proper, Routed, Logged;
    ProperAllowed(events);
    RunSound(events);
    if events == [] {
      assert Logged([], START) by { StartLogged(); }
    } else {
      var n := |events| - 1;
      var e := events[n];
      RunPrefix(events);
      HandledPrefix(events);
      ProperAllowed(events[..n]);
      RunSound(events[..n]);
      ChannelsGetTheirFrames(events[..n]);
      var st := Run(events[..n]).st;
      StepRoutes(st, e);
      LoggedMore(events[..n], st, Step(st, e).st, e);
      assert events[..n] + [e] == events;
    }
  }

  lemma StartLogged()
    ensures Logged([], START)
  {
  }

  lemma HandledPrefix(events: seq<Event>)
    requires events != [] && AllHandled(events)
    ensures AllHandled(events[..|events| - 1])
  {
    hide Run;
    var before := events[..|events| - 1];
    forall i | 0 <= i < |before| ensures Run(before[..i]).Next? && !Run(before[..i]).st.done {
      assert before[..i] == events[..i];
    }
  }

  // ---------------------------------------------------------------- what that means

  predicate IsReceipt(f: Frame) {
    f.command == "RECEIPT"
  }

  /** An event sends at most one frame to a key; a RECEIPT among them ends the registration. */
  lemma OneFrame(e: Event, k: string)
    ensures var fs := FramesFor(e, k);
            |fs| <= 1 && (|fs| == 1 && IsReceipt(fs[0]) ==> Ends(e, k) && Find(fs[0].header, "receipt-id") == Some(k))
  {
    hide Find;
  }

  /** A RECEIPT in fs can only be the last frame, and carries receipt-id k; so there is at most one. */
  predicate EndsWithReceipt(fs: seq<Frame>, k: string) {
    forall i | 0 <= i < |fs| && IsReceipt(fs[i]) :: Find(fs[i].header, "receipt-id") == Some(k) && i == |fs| - 1
  }

  lemma {:induction false} OneReceipt(es: seq<Event>, k: string)
    ensures EndsWithReceipt(Received(Upto(es, k), k), k)
    decreases |es|
  {
    hide Find, FramesFor, Ends, Upto, IsReceipt;
    if es == [] {
      assert Upto(es, k) == [] by { UptoNothing(k); }
    } else {
      var n := |es| - 1;
      OneReceipt(es[..n], k);
      assert es[..n] + [es[n]] == es;
      UptoMore(es[..n], es[n], k);
      ReceivedMore(es[..n], es[n], k);
      UptoAll(es[..n], k);
      OneFrame(es[n], k);
      if StillOpen(es[..n], k) { NoReceiptWhileOpen(es[..n], k); }
    }
  }

  lemma UptoNothing(k: string)
    ensures Upto([], k) == []
  {
  }

  lemma {:induction false} NoReceiptWhileOpen(es: seq<Event>, k: string)
    requires StillOpen(es, k)
    ensures forall i | 0 <= i < |Received(es, k)| :: !IsReceipt(Received(es, k)[i])
    decreases |es|
  {
    hide Find, FramesFor, Ends, IsReceipt;
    if es != [] {
      NoReceiptWhileOpen(es[..|es| - 1], k);
      OneFrame(es[|es| - 1], k);
    }
  }

  /** The event brings a MESSAGE that names k. */
  predicate Brings(e: Event, k: string) {
    e.Arrived? && e.f.command == "MESSAGE" && Find(e.f.header, "subscription") == Some(k)
  }

  /** The MESSAGE frames of these events that name k, in order. */
  function Messages(es: seq<Event>, k: string): seq<Frame> {
    if es == [] then []
    else if Brings(es[|es| - 1], k) then Messages(es[..|es| - 1], k) + [es[|es| - 1].f]
    else Messages(es[..|es| - 1], k)
  }

  function OnlyMessages(fs: seq<Frame>): seq<Frame> {
    if fs == [] then []
    else if fs[|fs| - 1].command == "MESSAGE" then OnlyMessages(fs[..|fs| - 1]) + [fs[|fs| - 1]]
    else OnlyMessages(fs[..|fs| - 1])
  }

  lemma OnlyOne(fs: seq<Frame>, f: Frame)
    ensures OnlyMessages(fs + [f]) == if f.command == "MESSAGE" then OnlyMessages(fs) + [f] else OnlyMessages(fs)
  {
    assert (fs + [f])[..|fs|] == fs;
  }

  lemma BringsOne(e: Event, k: string)
    ensures Brings(e, k) ==> FramesFor(e, k) == [e.f] && e.f.command == "MESSAGE"
    ensures !Brings(e, k) ==> FramesFor(e, k) == [] || (|FramesFor(e, k)| == 1 && FramesFor(e, k)[0].command != "MESSAGE")
  {
    hide Find;
  }

  /** Of the frames for k, the MESSAGE frames are exactly those that name it. */
  lemma {:induction false} MessagesInOrder(es: seq<Event>, k: string)
    ensures OnlyMessages(Received(es, k)) == Messages(es, k)
    decreases |es|
  {
    hide FramesFor, Brings, OnlyMessages;
    if es == [] {
      assert OnlyMessages([]) == [] by { NoMessages(); }
    } else {
      var e := es[|es| - 1];
      var fs := Received(es[..|es| - 1], k);
      MessagesInOrder(es[..|es| - 1], k);
      BringsOne(e, k);
      if FramesFor(e, k) == [] {
        assert fs + [] == fs;
      } else {
        OnlyOne(fs, FramesFor(e, k)[0]);
        assert FramesFor(e, k) == [FramesFor(e, k)[0]];
      }
    }
  }

  lemma NoMessages()
    ensures OnlyMessages([]) == []
  {
  }

  /** In every proper run, the channel of a request gets at most one RECEIPT, it carries the receipt-id of that request,
      and nothing comes after it. */
  lemma RequestsAreAnsweredOnce(events: seq<Event>, i: nat, k: string, c: Chan)
    requires ProperRun(events) && AllHandled(events) && RegistersAt(events, i, k, c)
    ensures Run(events).Next? && c in Run(events).st.log
    ensures EndsWithReceipt(Run(events).st.log[c], k)
  {
    hide Run, ProperRun, AllHandled, RegistersAt, EndsWithReceipt, StillOpen, FramesFor, Ends, Find;
    ChannelsGetTheirFrames(events);
    RegisteredInside(events, i, k, c);
    assert LoggedAt(events, Run(events).st, i, k, c);
    OneReceipt(events[i..], k);
  }

  /** In every proper run, the MESSAGE frames on the channel of a subscription are exactly those that named it while it
      was registered, in the order they arrived. */
  lemma SubscriptionsGetTheirMessages(events: seq<Event>, i: nat, k: string, c: Chan)
    requires ProperRun(events) && AllHandled(events) && RegistersAt(events, i, k, c)
    ensures Run(events).Next? && c in Run(events).st.log
    ensures OnlyMessages(Run(events).st.log[c]) == Messages(Upto(events[i..], k), k)
  {
    hide Run, ProperRun, AllHandled, RegistersAt, Find, Upto, Received, StillOpen, OnlyMessages, Messages;
    ChannelsGetTheirFrames(events);
    RegisteredInside(events, i, k, c);
    assert LoggedAt(events, Run(events).st, i, k, c);
    MessagesInOrder(Upto(events[i..], k), k);
  }

  lemma RegisteredInside(events: seq<Event>, i: nat, k: string, c: Chan)
    requires RegistersAt(events, i, k, c)
    ensures i < |events|
  {
  }

  // ---------------------------------------------------------------- the exact condition on SUBSCRIBE

  /** A SUBSCRIBE with a channel that is not careful puts its channel in the table twice, under two keys. */
  lemma CarelessTwice(st: Client, f: Frame, c: Chan)
    requires f.command == "SUBSCRIBE" && !Careful(f, Some(c))
    ensures Record(st, f, Some(c)).Next? && !Injective(Record(st, f, Some(c)).st.table)
  {
    hide Find;
    var st' := Record(st, f, Some(c)).st;
    var r, k := Find(f.header, "receipt").value, SubscriptionKey(f);
    assert r in st'.table && k in st'.table && st'.table[r] == st'.table[k] == c;
  }

  /** The loop crashes on an ERROR that arrives right after a SUBSCRIBE exactly when the SUBSCRIBE asks for a receipt
      under another key than its own. */
  lemma SubscribePanicsIff(st: Client, f: Frame, c: Chan, error: Frame)
    requires Sound(st) && !st.done && c !in st.log && f.command == "SUBSCRIBE" && error.command == "ERROR"
    ensures Step(st, Requested(f, Some(c), true)).Next?
    ensures Step(Step(st, Requested(f, Some(c), true)).st, Arrived(error)).Crash?
            <==> Find(f.header, "receipt").Some? && Find(f.header, "receipt").value != SubscriptionKey(f)
  {
    hide Sound, Record, Find, SubscriptionKey, Broadcast;
    if Careful(f, Some(c)) {
      RecordSound(st, f, Some(c));
      FrameSound(Record(st, f, Some(c)).st, error);
    } else {
      CarelessTwice(st, f, c);
    }
  }

  lemma WrittenIsRecorded(st: Client, f: Frame, c: Option<Chan>)
    ensures Step(st, Requested(f, c, true)) == Record(st, f, c)
  {
    hide Record;
  }

  predicate CrashesOn(st: Client, g: Frame) {
    Step(st, Arrived(g)).Crash?
  }

  /** This is the only SUBSCRIBE after which any frame at all can crash it. */
  lemma SubscribeCanPanicIff(st: Client, f: Frame, c: Chan)
    requires Sound(st) && !st.done && c !in st.log && f.command == "SUBSCRIBE"
    ensures Step(st, Requested(f, Some(c), true)).Next?
    ensures (exists g :: CrashesOn(Step(st, Requested(f, Some(c), true)).st, g)) <==> !Careful(f, Some(c))
  {
    hide Sound, Record, Find, SubscriptionKey, Step;
    SubscribePanicsIff(st, f, c, OWN_ERROR);
    WrittenIsRecorded(st, f, Some(c));
    var st' := Step(st, Requested(f, Some(c), true)).st;
    if Careful(f, Some(c)) {
      RecordSound(st, f, Some(c));
      forall g ensures !CrashesOn(st', g) { StepSound(st', Arrived(g)); }
    } else {
      assert CrashesOn(st', OWN_ERROR);
    }
  }

  const SUBSCRIBE_R := Frame("SUBSCRIBE", [Entry("id", "s"), Entry("receipt", "r")], "")
  const RECEIPT_R := Frame("RECEIPT", [Entry("receipt-id", "r")], "")
  const MESSAGE_S := Frame("MESSAGE", [Entry("subscription", "s")], "")
  const TWICE := Client(map["r" := 0, "s" := 0], {}, map[0 := []], false)
  const CLOSED := Client(map["s" := 0], {0}, map[0 := [RECEIPT_R]], false)

  lemma RegistersTwice()
    ensures Step(START, Requested(SUBSCRIBE_R, Some(0), true)) == Next(TWICE)
  {
    var h := SUBSCRIBE_R.header;
    assert h[1..] == [Entry("receipt", "r")] && h[1..][1..] == [];
    assert Find(h, "receipt") == Find(h[1..], "receipt") == Some("r");
    assert Find(h, REPLY_TO) == Find(h[1..], REPLY_TO) == Find([], REPLY_TO) == None;
    assert Find(h, "id") == Some("s");
    hide Find;
    var st := Register(START, "r", 0);
    assert Register(st, "s", 0).table == TWICE.table && Register(st, "s", 0).log == TWICE.log;
    assert Record(START, SUBSCRIBE_R, Some(0)) == Next(TWICE);
  }

  lemma ClosesOnce()
    ensures Step(TWICE, Arrived(RECEIPT_R)) == Next(CLOSED)
  {
    assert Find(RECEIPT_R.header, "receipt-id") == Some("r");
    hide Find;
    assert TWICE.table - {"r"} == CLOSED.table && TWICE.shut + {0} == CLOSED.shut;
    assert [] + [RECEIPT_R] == [RECEIPT_R];
    assert TWICE.log[0 := [RECEIPT_R]] == CLOSED.log;
  }

  lemma SendsAfterClose()
    ensures Step(CLOSED, Arrived(MESSAGE_S)) == Crash(SendOnClosed)
  {
    assert Find(MESSAGE_S.header, "subscription") == Some("s");
  }

  /** A run with such a SUBSCRIBE: the answer to it closes the channel that a later message goes to. */
  lemma SubscribeWithReceiptPanics()
    ensures exists events :: events != [] && Run(events[..|events| - 1]).Next? && Run(events) == Crash(SendOnClosed)
  {
    hide Run, Step;
    var e1, e2, e3 := Requested(SUBSCRIBE_R, Some(0), true), Arrived(RECEIPT_R), Arrived(MESSAGE_S);
    RegistersTwice();
    ClosesOnce();
    SendsAfterClose();
    assert Run([]) == Next(START) by { RunNothing(); }
    assert [] + [e1] == [e1] && [e1] + [e2] == [e1, e2];
    RunMore([], e1);
    RunMore([e1], e2);
    RunMore([e1, e2], e3);
    assert ([e1, e2] + [e3])[..2] == [e1, e2];
  }

  lemma RunNothing()
    ensures Run([]) == Next(START)
  {
  }

  lemma RunMore(events: seq<Event>, e: Event)
    requires Run(events).Next? && !Run(events).st.done
    ensures Run(events + [e]) == Step(Run(events).st, e)
  {
    hide Step;
    assert (events + [e])[..|events|] == events;
  }
}
