/** Heart-beat negotiation between this client and this server (conn.go, conn_options.go,
    server/client/conn.go, server/client/frame.go, server/client/util.go, frame/heartbeat.go). Durations are
    in nanoseconds, as time.Duration holds them; the grace period multiplier of the client is 1. */
module HeartBeats {
  import opened Text

  const MS := 1_000_000
  const MAX_INT64 := 0x7fff_ffff_ffff_ffff
  const MAX_HEART_BEAT := 999_999_999
  const MAX_MILLISECONDS := MAX_INT64 / MS
  const DEFAULT_HEART_BEAT := 60_000 * MS

  /** Go's integer division, which truncates towards zero, by a positive divisor. */
  function Quotient(a: int, b: int): int
    requires b > 0
  {
    if a >= 0 then a / b else -((-a) / b)
  }

  /** %d */
  function FormatInt(n: int): string {
    if n < 0 then "-" + FormatDecimal(-n) else FormatDecimal(n)
  }

  /** fmt.Sprintf("%d,%d", a, b) */
  function FormatPair(a: int, b: int): string {
    FormatInt(a) + "," + FormatInt(b)
  }

  datatype Pair = Pair(first: nat, second: nat)

  /** The regular expression of getHeartBeat on one side of the comma: one to nine digits. */
  predicate ShortNumber(t: string) {
    1 <= |t| <= 9 && AllDigits(t)
  }

  /** getHeartBeat, for a heart-beat entry with this text. */
  function GetHeartBeat(text: string): Option<Pair> {
    var parts := Split(text, ',');
    if |parts| == 2 && ShortNumber(parts[0]) && ShortNumber(parts[1]) then
      Some(Pair(DecimalValue(parts[0]), DecimalValue(parts[1])))
    else None
  }

  /** ParseHeartBeat: the durations, unless one is too long for a time.Duration. */
  function ParseHeartBeat(text: string): Option<Pair> {
    var parts := Split(text, ',');
    if |parts| == 2 && parts[0] != "" && AllDigits(parts[0]) && parts[1] != "" && AllDigits(parts[1]) then
      var a, b := DecimalValue(parts[0]), DecimalValue(parts[1]);
      if a <= MAX_INT64 && b <= MAX_INT64 && a <= MAX_MILLISECONDS && b <= MAX_MILLISECONDS then Some(Pair(a * MS, b * MS)) else None
    else None
  }

  /** asMilliseconds */
  function AsMilliseconds(d: int, max: int): int {
    var limit := if max < 0 then 0 else max;
    var msec := Quotient(d, MS);
    if msec > limit then limit else msec
  }

  /** config.HeartBeat, and the minimum taken from it. */
  function Minimum(setting: int): int {
    AsMilliseconds(if setting == 0 then DEFAULT_HEART_BEAT else setting, MAX_HEART_BEAT)
  }

  function AtLeast(c: nat, min: int): nat {
    if c > 0 && c < min then min else c
  }

  // ---------------------------------------------------------------- the two ends

  /** NewFrame: the heart-beat entry of the client. */
  function Offer(write: int, read: int): string {
    FormatPair(Quotient(write, MS), Quotient(read, MS))
  }

  /** The read timeout of readLoop; the deadline is twice that, and there is none for 0. */
  function ReadLoopTimeout(offer: string, setting: int): nat {
    match GetHeartBeat(offer)
    case Some(p) => AtLeast(p.first, Minimum(setting)) * MS
    case None => 0
  }

  datatype Server = Server(writeTimeout: nat, announced: string)

  /** handleConnect: None is a refused connection. */
  function HandleConnect(offer: string, setting: int): Option<Server> {
    match GetHeartBeat(offer)
    case None => None
    case Some(p) =>
      var cx, cy := AtLeast(p.first, Minimum(setting)), AtLeast(p.second, Minimum(setting));
      Some(Server(cy * MS, FormatPair(cy, cx)))
  }

  datatype Client = Client(readTimeout: int, writeTimeout: int)

  /** Connect, from the announced heart-beat on. */
  function Connect(announced: string, read: int, error: int): Option<Client> {
    match ParseHeartBeat(announced)
    case None => None
    case Some(p) =>
      var r := if p.first < read then read else p.first;
      Some(Client(if r > 0 then r + error else r, if p.second > error then p.second - error else p.second))
  }

  // ---------------------------------------------------------------- texts

  lemma DigitsHaveNoComma(t: string)
    requires AllDigits(t)
    ensures ',' !in t
  {
  }

  lemma {:induction false} LongerThan(n: nat, k: nat)
    requires n >= Power10(k)
    ensures |FormatDecimal(n)| > k
  {
    if k > 0 {
      LongerThan(n / 10, k - 1);
    }
  }

  lemma PairSplits(a: nat, b: nat)
    ensures Split(FormatPair(a, b), ',') == [FormatDecimal(a), FormatDecimal(b)]
  {
    FormatParses(a);
    FormatParses(b);
    DigitsHaveNoComma(FormatDecimal(a));
    DigitsHaveNoComma(FormatDecimal(b));
    var parts := [FormatDecimal(a), FormatDecimal(b)];
    SplitJoin(parts, ',');
    assert parts[1..] == [parts[1]];
    assert Join(parts, ',') == FormatPair(a, b);
  }

  lemma NinePlaces(n: nat)
    ensures |FormatDecimal(n)| <= 9 <==> n <= MAX_HEART_BEAT
  {
    assert Power10(9) == 1_000_000_000 by { assert Power10(3) == 1000; assert Power10(6) == 1_000_000; }
    if n <= MAX_HEART_BEAT {
      FormatLength(n, 9);
    } else {
      LongerThan(n, 9);
    }
  }

  /** The server reads back the numbers of a heart-beat entry exactly when neither is above its maximum. */
  lemma ServerReadsBack(a: nat, b: nat)
    ensures GetHeartBeat(FormatPair(a, b)) == if a <= 999_999_999 && b <= 999_999_999 then Some(Pair(a, b)) else None
  {
    PairSplits(a, b);
    FormatParses(a);
    FormatParses(b);
    NinePlaces(a);
    NinePlaces(b);
  }

  /** The client reads them back as durations exactly when both fit. */
  lemma ClientReadsBack(a: nat, b: nat)
    ensures ParseHeartBeat(FormatPair(a, b)) ==
            if a <= 9_223_372_036_854 && b <= 9_223_372_036_854 then Some(Pair(a * 1_000_000, b * 1_000_000)) else None
  {
    PairSplits(a, b);
    FormatParses(a);
    FormatParses(b);
  }

  /** A minus sign is refused. */
  lemma NegativeRefused(a: int, b: int)
    requires a < 0 || b < 0
    ensures GetHeartBeat(FormatPair(a, b)).None?
  {
    var fa, fb := FormatInt(a), FormatInt(b);
    IntHasNoComma(a);
    IntHasNoComma(b);
    var parts := [fa, fb];
    SplitJoin(parts, ',');
    assert parts[1..] == [fb] && Join(parts, ',') == FormatPair(a, b);
    assert !IsDigit('-');
    if a < 0 { assert fa[0] == '-'; }
    if b < 0 { assert fb[0] == '-'; }
  }

  lemma IntHasNoComma(n: int)
    ensures ',' !in FormatInt(n)
  {
    FormatParses(if n < 0 then -n else n);
    DigitsHaveNoComma(FormatDecimal(if n < 0 then -n else n));
  }

  // ---------------------------------------------------------------- agreement

  lemma MinimumBounded(setting: int)
    ensures Minimum(setting) <= MAX_HEART_BEAT
  {
  }

  /** The server accepts the client's setting exactly when both durations, in whole milliseconds, are between 0
      and 999999999. */
  lemma AcceptedIff(write: int, read: int, setting: int)
    ensures HandleConnect(Offer(write, read), setting).Some?
            <==> -1_000_000 < write < 1_000_000_000_000_000 && -1_000_000 < read < 1_000_000_000_000_000
  {
    var a, b := Quotient(write, MS), Quotient(read, MS);
    if a >= 0 && b >= 0 { ServerReadsBack(a, b); } else { NegativeRefused(a, b); }
  }

  /** A duration in whole milliseconds; a negative one is offered as 0 when it is accepted. */
  function Whole(d: int): nat {
    if d < 0 then 0 else d / 1_000_000
  }

  /** The shortest interval in milliseconds that a server with this setting takes; its default is a minute. */
  function Shortest(setting: int): int {
    if setting == 0 then 60_000 else if setting / 1_000_000 > 999_999_999 then 999_999_999 else setting / 1_000_000
  }

  /** The interval for an offered one: none for none, and otherwise the larger of the two. */
  predicate Negotiated(offered: nat, shortest: int, agreed: nat) {
    if offered == 0 then agreed == 0 else agreed >= offered && agreed >= shortest && (agreed == offered || agreed == shortest)
  }

  /** The numbers that go over the wire, and what both ends make of them: in each direction the larger of what the client
      offers and what the server insists on, or nothing if the client offers nothing. The client sends more often than
      agreed and waits for longer, by its allowance, and never reads with a shorter timeout than it was set to. */
  lemma NegotiatedNumbers(write: int, read: int, setting: int, error: int)
    requires HandleConnect(Offer(write, read), setting).Some?
    ensures Offer(write, read) == FormatDecimal(Whole(write)) + "," + FormatDecimal(Whole(read))
    ensures exists x: nat, y: nat ::
              Agreed(x, y, write, read, setting, error, HandleConnect(Offer(write, read), setting).value, ReadLoopTimeout(Offer(write, read), setting))
  {
    AcceptedIff(write, read, setting);
    var a, b := Quotient(write, MS), Quotient(read, MS);
    assert a == Whole(write) && b == Whole(read);
    ServerReadsBack(a, b);
    MinimumBounded(setting);
    var x, y := AtLeast(a, Minimum(setting)), AtLeast(b, Minimum(setting));
    MinimumIsShortest(a, setting);
    MinimumIsShortest(b, setting);
    hide FormatDecimal, GetHeartBeat, ParseHeartBeat, Quotient, Minimum, AtLeast, Negotiated, Shortest, Connect, ClientTimes;
    ClientKeepsTimes(x, y, read, error);
    assert HandleConnect(Offer(write, read), setting).value == Server(y * 1_000_000, FormatPair(y, x));
    assert Agreed(x, y, write, read, setting, error, HandleConnect(Offer(write, read), setting).value, ReadLoopTimeout(Offer(write, read), setting));
  }

  /** x milliseconds from client to server and y back are what both ends work with. */
  predicate Agreed(x: nat, y: nat, write: int, read: int, setting: int, error: int, s: Server, readLoop: nat) {
    && Negotiated(Whole(write), Shortest(setting), x) && Negotiated(Whole(read), Shortest(setting), y)
    && s.announced == FormatDecimal(y) + "," + FormatDecimal(x)
    && s.writeTimeout == y * 1_000_000 && readLoop == x * 1_000_000
    && ClientTimes(Connect(s.announced, read, error), x * 1_000_000, y * 1_000_000, read, error)
  }

  lemma ClientKeepsTimes(x: nat, y: nat, read: int, error: int)
    requires x <= MAX_HEART_BEAT && y <= MAX_HEART_BEAT
    ensures ClientTimes(Connect(FormatPair(y, x), read, error), x * 1_000_000, y * 1_000_000, read, error)
  {
    hide FormatPair, ParseHeartBeat;
    ClientReadsBack(y, x);
  }

  /** The client's timeouts for a sender interval of the client and one of the server. */
  predicate ClientTimes(c: Option<Client>, toServer: nat, fromServer: nat, read: int, error: int) {
    && c.Some?
    && c.value.writeTimeout == (if toServer > error then toServer - error else toServer)
    && (fromServer >= read ==> c.value.readTimeout == if fromServer > 0 then fromServer + error else 0)
    && (fromServer < read ==> c.value.readTimeout == read + error)
  }

  lemma MinimumIsShortest(offered: nat, setting: int)
    ensures Negotiated(offered, Shortest(setting), AtLeast(offered, Minimum(setting)))
  {
  }

  lemma MinuteAsText()
    ensures FormatPair(1, 1) == "1,1" && FormatPair(60_000, 60_000) == "60000,60000"
  {
    assert FormatDecimal(1) == "1" && FormatDecimal(6) == "6";
    assert FormatDecimal(60) == FormatDecimal(6) + "0" == "60";
    assert FormatDecimal(600) == FormatDecimal(60) + "0" == "600";
    assert FormatDecimal(6000) == FormatDecimal(600) + "0" == "6000";
    assert FormatDecimal(60_000) == FormatDecimal(6000) + "0" == "60000";
    hide FormatDecimal;
    assert "1" + "," + "1" == "1,1" && "60000" + "," + "60000" == "60000,60000";
  }

  /** A client that offers a millisecond each way is told a minute by a server with the default setting. */
  lemma DefaultIsAMinute()
    ensures HandleConnect("1,1", 0) == Some(Server(60_000_000_000, "60000,60000")) && ReadLoopTimeout("1,1", 0) == 60_000_000_000
  {
    ServerReadsBack(1, 1);
    MinuteAsText();
    assert Minimum(0) == 60_000;
    hide FormatDecimal, GetHeartBeat, Minimum;
  }

  /** The client understands every accepted answer, and its numbers are those the server works with: readLoop's timeout
      is the second number, and the first one is the server's own write interval. */
  lemma AnnouncedIsUsed(write: int, read: int, setting: int)
    requires HandleConnect(Offer(write, read), setting).Some?
    ensures var s := HandleConnect(Offer(write, read), setting).value;
            ParseHeartBeat(s.announced) == Some(Pair(s.writeTimeout, ReadLoopTimeout(Offer(write, read), setting)))
  {
    AcceptedIff(write, read, setting);
    var a, b := Quotient(write, MS), Quotient(read, MS);
    ServerReadsBack(a, b);
    MinimumBounded(setting);
    ClientReadsBack(AtLeast(b, Minimum(setting)), AtLeast(a, Minimum(setting)));
  }

  /** Both ends agree on one direction: it is off at both, or the sender's interval is strictly below the limit of its
      peer. */
  predicate Agree(interval: int, limit: int) {
    (interval <= 0 && limit <= 0) || 0 < interval < limit
  }

  /** From client to server, the two ends always agree. */
  lemma ClientToServer(write: int, read: int, setting: int, error: int)
    requires error > 0 && HandleConnect(Offer(write, read), setting).Some?
    ensures var s := HandleConnect(Offer(write, read), setting).value;
            var limit := 2 * ReadLoopTimeout(Offer(write, read), setting);
            Connect(s.announced, read, error).Some? && Agree(Connect(s.announced, read, error).value.writeTimeout, limit)
  {
    AnnouncedIsUsed(write, read, setting);
  }

  /** From server to client they agree exactly when the client's read timeout is not positive or at least a
      millisecond. A shorter one is announced as 0, which the server takes as off and the client does not. */
  lemma ServerToClient(write: int, read: int, setting: int, error: int)
    requires error > 0 && HandleConnect(Offer(write, read), setting).Some?
    ensures var s := HandleConnect(Offer(write, read), setting).value;
            && Connect(s.announced, read, error).Some?
            && (Agree(s.writeTimeout, Connect(s.announced, read, error).value.readTimeout) <==> read <= 0 || read >= MS)
  {
    AnnouncedIsUsed(write, read, setting);
    AcceptedIff(write, read, setting);
    ServerReadsBack(Quotient(write, MS), Quotient(read, MS));
  }

  /** The intervals and deadlines fit a time.Duration, when the client's allowance leaves room for itself. */
  lemma DurationsFit(write: int, read: int, setting: int, error: int)
    requires error > 0 && HandleConnect(Offer(write, read), setting).Some?
    requires error <= MAX_INT64 - (MAX_HEART_BEAT + 1) * MS
    ensures var s := HandleConnect(Offer(write, read), setting).value;
            Connect(s.announced, read, error).Some? &&
            var c := Connect(s.announced, read, error).value;
            && s.writeTimeout <= MAX_INT64 && 2 * ReadLoopTimeout(Offer(write, read), setting) <= MAX_INT64
            && c.readTimeout <= MAX_INT64 && 0 <= c.writeTimeout <= MAX_INT64
  {
    AnnouncedIsUsed(write, read, setting);
    AcceptedIff(write, read, setting);
    ServerReadsBack(Quotient(write, MS), Quotient(read, MS));
    MinimumBounded(setting);
  }
}
