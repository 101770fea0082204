/** The frame codec (frame/encode.go, frame/writer.go, frame/reader.go) as functions on byte strings:
    what Writer.Write puts on the wire, and what Reader.Read makes of a byte stream. */
module Codec {
  import opened Text
  import opened Frames

  const NEWLINE := '\n'
  const CR := '\r'
  const NUL := '\0'
  const UINT32_MAX := 0xffff_ffff

  // ---------------------------------------------------------------- escaping

  function EscapeChar(c: char): string {
    match c
    case '\\' => "\\\\"
    case '\r' => "\\r"
    case '\n' => "\\n"
    case ':' => "\\c"
    case _ => [c]
  }

  /** replacerForEncodeValue */
  function Escape(s: string): string {
    if s == "" then "" else EscapeChar(s[0]) + Escape(s[1..])
  }

  /** The byte that a backslash followed by c stands for. */
  function EscapeCode(c: char): Option<char> {
    match c
    case 'r' => Some('\r')
    case 'n' => Some('\n')
    case 'c' => Some(':')
    case '\\' => Some('\\')
    case _ => None
  }

  /** replacerForUnencodeValue, and so unencodeValue: a backslash before any other byte is an ordinary byte. */
  function Unescape(s: string): string
    decreases |s|
  {
    if s == "" then ""
    else if s[0] == '\\' && |s| >= 2 && EscapeCode(s[1]).Some? then [EscapeCode(s[1]).value] + Unescape(s[2..])
    else [s[0]] + Unescape(s[1..])
  }

  lemma {:induction false} UnescapeEscape(s: string)
    ensures Unescape(Escape(s)) == s
  {
    if s != "" {
      UnescapeEscape(s[1..]);
      var rest := Escape(s[1..]);
      UnescapeFirst(s[0], rest);
    }
  }

  lemma UnescapeFirst(c: char, rest: string)
    ensures Unescape(EscapeChar(c) + rest) == [c] + Unescape(rest)
  {
    var t := EscapeChar(c) + rest;
    if |EscapeChar(c)| == 2 {
      assert t[2..] == rest;
    } else {
      assert t[1..] == rest;
    }
  }

  /** An escaped text has none of the bytes that delimit a header line. */
  lemma {:induction false} EscapeClean(s: string)
    ensures forall i | 0 <= i < |Escape(s)| :: Escape(s)[i] !in {':', '\r', '\n'}
    ensures Escape(s) == "" <==> s == ""
  {
    if s != "" {
      EscapeClean(s[1..]);
    }
  }

  /** No bare delimiter, and every backslash is the first half of a defined escape. */
  predicate Canonical(t: string)
    decreases |t|
  {
    if t == "" then true
    else if t[0] == '\\' then |t| >= 2 && EscapeCode(t[1]).Some? && Canonical(t[2..])
    else t[0] !in {':', '\r', '\n'} && Canonical(t[1..])
  }

  lemma {:induction false} EscapeCanonical(s: string)
    ensures Canonical(Escape(s))
  {
    if s != "" {
      EscapeCanonical(s[1..]);
      var e, rest := EscapeChar(s[0]), Escape(s[1..]);
      assert (e + rest)[|e|..] == rest;
    }
  }

  lemma {:induction false} CanonicalEscapes(t: string)
    requires Canonical(t)
    ensures Escape(Unescape(t)) == t
    decreases |t|
  {
    if t != "" {
      if t[0] == '\\' {
        var c := EscapeCode(t[1]).value;
        CanonicalEscapes(t[2..]);
        assert EscapeChar(c) == t[..2] && ([c] + Unescape(t[2..]))[1..] == Unescape(t[2..]);
        assert t == t[..2] + t[2..];
      } else {
        CanonicalEscapes(t[1..]);
        assert ([t[0]] + Unescape(t[1..]))[1..] == Unescape(t[1..]);
      }
    }
  }

  /** The texts that escaping gives back after unescaping are exactly the canonical ones. Any other text, such
      as one with an undefined escape, is accepted by the reader but not written the same way again. */
  lemma {:induction false} EscapeUnescapeIff(t: string)
    ensures Escape(Unescape(t)) == t <==> Canonical(t)
  {
    EscapeCanonical(Unescape(t));
    if Canonical(t) { CanonicalEscapes(t); }
  }

  lemma {:induction false} UnescapeNonEmpty(s: string)
    ensures Unescape(s) == "" <==> s == ""
  {
  }

  // ---------------------------------------------------------------- what can be sent

  const COMMANDS := {
    "CONNECT", "STOMP", "SEND", "SUBSCRIBE", "UNSUBSCRIBE", "ACK", "NACK", "BEGIN",
    "COMMIT", "ABORT", "DISCONNECT", "CONNECTED", "MESSAGE", "RECEIPT", "ERROR" }

  /** Header.ContentLength: no entry, or the value of the first one, which may be malformed. */
  function ContentLength(h: seq<Entry>): Option<Option<nat>> {
    match Find(h, "content-length")
    case None => None
    case Some(t) => Some(ParseUint(t, UINT32_MAX))
  }

  /** The body can be framed: its length is the announced one, or none is announced and it has no NUL. */
  predicate Framed(h: seq<Entry>, body: string) {
    match ContentLength(h)
    case None => NUL !in body
    case Some(n) => n == Some(|body|)
  }

  predicate WellFormed(f: Frame) {
    && f.command in COMMANDS
    && (forall i | 0 <= i < |f.header| :: f.header[i].key != "")
    && Framed(f.header, f.body)
  }

  /** A frame, or (None) a heart-beat, which is a nil frame. */
  type Item = Option<Frame>

  predicate ItemOk(x: Item) {
    x.Some? ==> WellFormed(x.value)
  }

  // ---------------------------------------------------------------- writing

  function WriteEntry(e: Entry): string {
    Escape(e.key) + ":" + Escape(e.value) + "\n"
  }

  function WriteHeader(h: seq<Entry>): string {
    if h == [] then "" else WriteEntry(h[0]) + WriteHeader(h[1..])
  }

  function WriteFrame(f: Frame): string {
    f.command + "\n" + WriteHeader(f.header) + "\n" + f.body + "\0"
  }

  function WriteItem(x: Item): string {
    match x
    case None => "\n"
    case Some(f) => WriteFrame(f)
  }

  function WriteAll(items: seq<Item>): string {
    if items == [] then "" else WriteItem(items[0]) + WriteAll(items[1..])
  }

  // ---------------------------------------------------------------- reading

  datatype ReadError = Eof | InvalidCommand | InvalidFormat | InvalidContentLength

  datatype Parsed<T> = Value(value: T) | Error(error: ReadError)

  /** What a read gives, and the input that is left after it. */
  datatype Reading<T> = Reading(parsed: Parsed<T>, rest: string)

  function StripCr(line: string): string {
    if line != "" && line[|line| - 1] == CR then line[..|line| - 1] else line
  }

  /** readLine; a line that is not terminated consumes the input. */
  function ReadLine(s: string): (r: Reading<string>)
    ensures |r.rest| <= |s|
    ensures r.parsed.Value? ==> |r.rest| < |s|
  {
    var i := IndexOf(s, NEWLINE);
    if i == |s| then Reading(Error(Eof), "") else Reading(Value(StripCr(s[..i])), s[i + 1..])
  }

  /** The header loop of Read, with the entries h already read. */
  function ReadHeader(s: string, h: seq<Entry>): (r: Reading<seq<Entry>>)
    ensures |r.rest| <= |s|
    decreases |s|
  {
    var line := ReadLine(s);
    if line.parsed.Error? then Reading(Error(line.parsed.error), line.rest)
    else if line.parsed.value == "" then Reading(Value(h), line.rest)
    else
      var text := line.parsed.value;
      var i := IndexOf(text, ':');
      if i == 0 || i == |text| then Reading(Error(InvalidFormat), line.rest)
      else ReadHeader(line.rest, h + [Entry(Unescape(text[..i]), Unescape(text[i + 1..]))])
  }

  /** A body of n bytes and the NUL after it. */
  function ReadCounted(s: string, n: nat): (r: Reading<string>)
    ensures |r.rest| <= |s|
  {
    if |s| <= n then Reading(Error(Eof), "")
    else Reading(if s[n] == NUL then Value(s[..n]) else Error(InvalidFormat), s[n + 1..])
  }

  /** A body that ends at the first NUL. */
  function ReadTerminated(s: string): (r: Reading<string>)
    ensures |r.rest| <= |s|
  {
    var i := IndexOf(s, NUL);
    if i == |s| then Reading(Error(Eof), "") else Reading(Value(s[..i]), s[i + 1..])
  }

  function ReadBody(s: string, h: seq<Entry>): (r: Reading<string>)
    ensures |r.rest| <= |s|
  {
    match ContentLength(h)
    case None => ReadTerminated(s)
    case Some(None) => Reading(Error(InvalidContentLength), s)
    case Some(Some(n)) => ReadCounted(s, n)
  }

  /** Read, after the command line. */
  function ReadRest(s: string, command: string): (r: Reading<Item>)
    ensures |r.rest| <= |s|
  {
    var header := ReadHeader(s, []);
    if header.parsed.Error? then Reading(Error(header.parsed.error), header.rest)
    else
      var body := ReadBody(header.rest, header.parsed.value);
      if body.parsed.Error? then Reading(Error(body.parsed.error), body.rest)
      else Reading(Value(Some(Frame(command, header.parsed.value, body.parsed.value))), body.rest)
  }

  /** Read: a frame, a heart-beat or an error. */
  function ReadItem(s: string): (r: Reading<Item>)
    ensures r.parsed.Value? ==> |r.rest| < |s|
  {
    var command := ReadLine(s);
    if command.parsed.Error? then Reading(Error(command.parsed.error), command.rest)
    else if command.parsed.value == "" then Reading(Value(None), command.rest)
    else if command.parsed.value !in COMMANDS then Reading(Error(InvalidCommand), command.rest)
    else ReadRest(command.rest, command.parsed.value)
  }

  datatype Stream = Stream(items: seq<Item>, error: ReadError)

  /** Reading again and again until there is an error. */
  function ReadAll(s: string): Stream
    decreases |s|
  {
    var r := ReadItem(s);
    match r.parsed
    case Error(e) => Stream([], e)
    case Value(x) => var more := ReadAll(r.rest); Stream([x] + more.items, more.error)
  }

  // ---------------------------------------------------------------- a read does not look ahead

  /** Unless a read ran into the end of the input, it gives the same when more input follows, and leaves
      that input alone. */
  predicate Extends<T(==)>(r: Reading<T>, r': Reading<T>, more: string) {
    r.parsed != Error(Eof) ==> r' == Reading(r.parsed, r.rest + more)
  }

  lemma IndexOfExtends(s: string, c: char, more: string)
    requires IndexOf(s, c) < |s|
    ensures IndexOf(s + more, c) == IndexOf(s, c)
  {
    var i := IndexOf(s, c);
    assert forall j | 0 <= j <= i :: (s + more)[j] == s[j];
    IndexOfUnique(s + more, c, i);
  }

  lemma LineExtends(s: string, more: string)
    ensures Extends(ReadLine(s), ReadLine(s + more), more)
  {
    var i := IndexOf(s, NEWLINE);
    if i < |s| {
      IndexOfExtends(s, NEWLINE, more);
      assert (s + more)[..i] == s[..i] && (s + more)[i + 1..] == s[i + 1..] + more;
    }
  }

  lemma {:induction false} HeaderExtends(s: string, h: seq<Entry>, more: string)
    ensures Extends(ReadHeader(s, h), ReadHeader(s + more, h), more)
    decreases |s|
  {
    hide ReadLine, Unescape;
    LineExtends(s, more);
    var line := ReadLine(s);
    if line.parsed.Value? && line.parsed.value != "" {
      var text := line.parsed.value;
      var i := IndexOf(text, ':');
      if 0 < i < |text| {
        HeaderExtends(line.rest, h + [Entry(Unescape(text[..i]), Unescape(text[i + 1..]))], more);
      }
    } else if line.parsed.Error? {
      LineErrors(s);
    }
  }

  lemma LineErrors(s: string)
    ensures ReadLine(s).parsed.Error? ==> ReadLine(s).parsed.error == Eof
  {
  }

  lemma BodyExtends(s: string, h: seq<Entry>, more: string)
    ensures Extends(ReadBody(s, h), ReadBody(s + more, h), more)
  {
    match ContentLength(h)
    case None =>
      var i := IndexOf(s, NUL);
      if i < |s| {
        IndexOfExtends(s, NUL, more);
        assert (s + more)[..i] == s[..i] && (s + more)[i + 1..] == s[i + 1..] + more;
      }
    case Some(None) =>
    case Some(Some(n)) =>
      if n < |s| {
        assert (s + more)[..n] == s[..n] && (s + more)[n + 1..] == s[n + 1..] + more;
      }
  }

  lemma ItemExtends(s: string, more: string)
    ensures Extends(ReadItem(s), ReadItem(s + more), more)
  {
    hide ReadLine, ReadHeader, ReadBody;
    LineExtends(s, more);
    LineErrors(s);
    var command := ReadLine(s);
    if command.parsed.Value? && command.parsed.value != "" && command.parsed.value in COMMANDS {
      HeaderExtends(command.rest, [], more);
      var header := ReadHeader(command.rest, []);
      if header.parsed.Value? {
        BodyExtends(header.rest, header.parsed.value, more);
      }
    }
  }

  // ---------------------------------------------------------------- round trip of one item

  lemma LineRoundTrip(line: string, rest: string)
    requires NEWLINE !in line && (line == "" || line[|line| - 1] != CR)
    ensures ReadLine(line + "\n" + rest) == Reading(Value(line), rest)
  {
    var s := line + "\n" + rest;
    assert forall j | 0 <= j < |line| :: s[j] == line[j];
    IndexOfUnique(s, NEWLINE, |line|);
    assert s[..|line|] == line && s[|line| + 1..] == rest;
  }

  /** A written entry is one line, and splits at its first colon into the escaped key and value. */
  lemma EntryRoundTrip(e: Entry, rest: string)
    requires e.key != ""
    ensures var text := Escape(e.key) + ":" + Escape(e.value);
            && ReadLine(WriteEntry(e) + rest) == Reading(Value(text), rest)
            && text != "" && 0 < IndexOf(text, ':') < |text|
            && Unescape(text[..IndexOf(text, ':')]) == e.key && Unescape(text[IndexOf(text, ':') + 1..]) == e.value
  {
    hide Escape, Unescape, EscapeChar;
    var k, v := Escape(e.key), Escape(e.value);
    EscapeClean(e.key);
    EscapeClean(e.value);
    UnescapeEscape(e.key);
    UnescapeEscape(e.value);
    var text := k + ":" + v;
    assert forall j | 0 <= j < |k| :: text[j] == k[j];
    IndexOfUnique(text, ':', |k|);
    assert text[..|k|] == k && text[|k| + 1..] == v;
    forall j | 0 <= j < |text| ensures text[j] != NEWLINE && text[j] != CR {
      if j > |k| { assert text[j] == v[j - |k| - 1]; }
    }
    LineRoundTrip(text, rest);
    assert WriteEntry(e) + rest == text + "\n" + rest;
  }

  lemma {:induction false} HeaderRoundTrip(h: seq<Entry>, before: seq<Entry>, rest: string)
    requires forall i | 0 <= i < |h| :: h[i].key != ""
    ensures ReadHeader(WriteHeader(h) + "\n" + rest, before) == Reading(Value(before + h), rest)
    decreases |h|
  {
    hide ReadLine, WriteEntry, Escape, Unescape;
    if h == [] {
      LineRoundTrip("", rest);
      assert WriteHeader(h) + "\n" + rest == "" + "\n" + rest;
      assert before + h == before;
    } else {
      var tail := WriteHeader(h[1..]) + "\n" + rest;
      EntryRoundTrip(h[0], tail);
      assert WriteHeader(h) + "\n" + rest == WriteEntry(h[0]) + tail;
      HeaderRoundTrip(h[1..], before + [h[0]], rest);
      assert before + [h[0]] + h[1..] == before + h;
    }
  }

  lemma BodyRoundTrip(h: seq<Entry>, body: string, rest: string)
    requires Framed(h, body)
    ensures ReadBody(body + "\0" + rest, h) == Reading(Value(body), rest)
  {
    var s := body + "\0" + rest;
    assert forall j | 0 <= j < |body| :: s[j] == body[j];
    assert s[..|body|] == body && s[|body| + 1..] == rest;
    if ContentLength(h).None? { IndexOfUnique(s, NUL, |body|); }
  }

  lemma CommandsAreLines(c: string)
    requires c in COMMANDS
    ensures NEWLINE !in c && c != "" && c[|c| - 1] != CR
  {
  }

  lemma FrameRoundTrip(f: Frame, rest: string)
    requires WellFormed(f)
    ensures ReadItem(WriteFrame(f) + rest) == Reading(Value(Some(f)), rest)
  {
    hide ReadLine, ReadHeader, ReadBody, WriteHeader;
    var afterHeader := f.body + "\0" + rest;
    var afterCommand := WriteHeader(f.header) + "\n" + afterHeader;
    CommandsAreLines(f.command);
    LineRoundTrip(f.command, afterCommand);
    assert WriteFrame(f) + rest == f.command + "\n" + afterCommand;
    HeaderRoundTrip(f.header, [], afterHeader);
    assert [] + f.header == f.header;
    BodyRoundTrip(f.header, f.body, rest);
  }

  lemma ItemRoundTrip(x: Item, rest: string)
    requires ItemOk(x)
    ensures ReadItem(WriteItem(x) + rest) == Reading(Value(x), rest)
  {
    match x
    case Some(f) => FrameRoundTrip(f, rest);
    case None =>
      LineRoundTrip("", rest);
      assert "" + "\n" + rest == "\n" + rest;
  }

  // ---------------------------------------------------------------- the reader gives only well-formed frames

  lemma {:induction false} HeaderKeys(s: string, h: seq<Entry>)
    requires forall i | 0 <= i < |h| :: h[i].key != ""
    ensures ReadHeader(s, h).parsed.Value? ==>
              forall i | 0 <= i < |ReadHeader(s, h).parsed.value| :: ReadHeader(s, h).parsed.value[i].key != ""
    decreases |s|
  {
    hide ReadLine, Unescape;
    var line := ReadLine(s);
    if line.parsed.Value? && line.parsed.value != "" {
      var text := line.parsed.value;
      var i := IndexOf(text, ':');
      if 0 < i < |text| {
        UnescapeNonEmpty(text[..i]);
        HeaderKeys(line.rest, h + [Entry(Unescape(text[..i]), Unescape(text[i + 1..]))]);
      }
    }
  }

  lemma ReadsWellFormed(s: string)
    ensures ReadItem(s).parsed.Value? ==> ItemOk(ReadItem(s).parsed.value)
  {
    hide ReadLine, ReadHeader;
    var command := ReadLine(s);
    if command.parsed.Value? {
      HeaderKeys(command.rest, []);
    }
  }

  // ---------------------------------------------------------------- main results

  /** Whatever follows it, a written frame is read back, and nothing after it is touched, exactly when it is
      well-formed: a known command, non-empty keys, and a body that can be framed. */
  lemma RoundTripIff(f: Frame, rest: string)
    ensures ReadItem(WriteFrame(f) + rest) == Reading(Value(Some(f)), rest) <==> WellFormed(f)
  {
    hide ReadItem, WriteFrame, WellFormed;
    ReadsWellFormed(WriteFrame(f) + rest);
    if WellFormed(f) { FrameRoundTrip(f, rest); }
  }

  lemma {:induction false} ReadsAllWellFormed(s: string)
    ensures forall i | 0 <= i < |ReadAll(s).items| :: ItemOk(ReadAll(s).items[i])
    decreases |s|
  {
    hide ReadItem, ItemOk;
    ReadsWellFormed(s);
    if ReadItem(s).parsed.Value? { ReadsAllWellFormed(ReadItem(s).rest); }
  }

  lemma {:induction false} StreamThen(items: seq<Item>, rest: string)
    requires forall i | 0 <= i < |items| :: ItemOk(items[i])
    ensures ReadAll(WriteAll(items) + rest) == Stream(items + ReadAll(rest).items, ReadAll(rest).error)
  {
    hide ReadItem, ItemOk, WriteItem;
    if items == [] {
      assert WriteAll(items) + rest == rest;
      assert items + ReadAll(rest).items == ReadAll(rest).items;
    } else {
      var tail := WriteAll(items[1..]) + rest;
      assert WriteAll(items) + rest == WriteItem(items[0]) + tail;
      ItemRoundTrip(items[0], tail);
      StreamThen(items[1..], rest);
      assert [items[0]] + (items[1..] + ReadAll(rest).items) == items + ReadAll(rest).items;
    }
  }

  /** A stream of heart-beats and frames is read back item by item with nothing left over, exactly when every
      frame in it is well-formed. */
  lemma StreamRoundTripIff(items: seq<Item>)
    ensures ReadAll(WriteAll(items)) == Stream(items, Eof) <==> forall i | 0 <= i < |items| :: ItemOk(items[i])
  {
    hide ItemOk, ReadItem, WriteItem;
    ReadsAllWellFormed(WriteAll(items));
    if forall i | 0 <= i < |items| :: ItemOk(items[i]) {
      StreamThen(items, "");
      EmptyIsEof();
      assert WriteAll(items) + "" == WriteAll(items);
      assert items + [] == items;
    }
  }

  /** A proper prefix of a written item is never accepted as an item. */
  lemma ProperPrefixIsEof(x: Item, n: nat)
    requires ItemOk(x) && n < |WriteItem(x)|
    ensures ReadItem(WriteItem(x)[..n]).parsed == Error(Eof)
  {
    hide ReadItem, WriteItem, ItemOk;
    var w := WriteItem(x);
    var more := w[n..];
    assert w[..n] + more == w && w + "" == w;
    ItemRoundTrip(x, "");
    ItemExtends(w[..n], more);
  }

  /** Cutting a stream anywhere gives exactly the items written completely before the cut, and then the end of
      the input. */
  lemma {:induction false} CutStream(items: seq<Item>, n: nat) returns (k: nat)
    requires (forall i | 0 <= i < |items| :: ItemOk(items[i])) && n <= |WriteAll(items)|
    ensures k <= |items| && ReadAll(WriteAll(items)[..n]) == Stream(items[..k], Eof)
    ensures |WriteAll(items[..k])| <= n && (k < |items| ==> n < |WriteAll(items[..k + 1])|)
    decreases |items|
  {
    hide ReadItem, ItemOk, WriteItem;
    if items == [] {
      k := 0;
      EmptyIsEof();
    } else {
      var w, all := WriteItem(items[0]), WriteAll(items);
      if n < |w| {
        k := 0;
        assert all[..n] == w[..n];
        ProperPrefixIsEof(items[0], n);
        assert items[..1] == [items[0]] && [items[0]][1..] == [] && WriteAll([]) == "";
        assert WriteAll(items[..1]) == w + "" == w;
      } else {
        var tail := WriteAll(items[1..]);
        var j := CutStream(items[1..], n - |w|);
        k := j + 1;
        assert all[..n] == w + tail[..n - |w|];
        ItemRoundTrip(items[0], tail[..n - |w|]);
        PrefixLength(items, j);
        if k < |items| { PrefixLength(items, j + 1); }
        assert [items[0]] + items[1..][..j] == items[..k];
      }
    }
  }

  lemma EmptyIsEof()
    ensures ReadItem("") == Reading(Error(Eof), "")
  {
  }

  lemma PrefixLength(items: seq<Item>, j: nat)
    requires j < |items|
    ensures |WriteAll(items[..j + 1])| == |WriteItem(items[0])| + |WriteAll(items[1..][..j])|
  {
    assert items[..j + 1][1..] == items[1..][..j];
  }
}
