/** The text of a frame, byte by byte: the table of escapes, and the grammar of what Reader.Read accepts, with LF or CR-LF
    after each line. */
module Grammar {
  import opened Text
  import opened Frames
  import opened Codec
  import opened Sequences

  // ---------------------------------------------------------------- the table of escapes

  lemma {:induction false} EscapeAppend(a: string, b: string)
    ensures Escape(a + b) == Escape(a) + Escape(b)
  {
    hide EscapeChar;
    if a == "" {
      assert a + b == b;
    } else {
      EscapeAppend(a[1..], b);
      assert (a + b)[0] == a[0] && (a + b)[1..] == a[1..] + b;
      Regroup(EscapeChar(a[0]), Escape(a[1..]), Escape(b));
    }
  }

  lemma OneByte(c: char)
    ensures Escape([c])
            == if c == '\\' then "\\\\" else if c == '\r' then "\\r" else if c == '\n' then "\\n" else if c == ':' then "\\c" else [c]
  {
    assert [c][1..] == "";
  }

  /** A backslash, CR, LF or colon is written as two bytes, anywhere in a text; any other byte as itself. */
  lemma EscapeTable(a: string, c: char, b: string)
    ensures Escape(a + [c] + b)
            == Escape(a)
               + (if c == '\\' then "\\\\" else if c == '\r' then "\\r" else if c == '\n' then "\\n" else if c == ':' then "\\c" else [c])
               + Escape(b)
  {
    OneByte(c);
    hide Escape;
    EscapeAppend(a + [c], b);
    EscapeAppend(a, [c]);
  }

  /** The four escapes are read as the bytes they stand for. A backslash before any other byte, or at the end, stands for
      itself, and so does every other byte. */
  lemma UnescapeTable(t: string)
    ensures Unescape("\\\\" + t) == "\\" + Unescape(t)
    ensures Unescape("\\r" + t) == "\r" + Unescape(t)
    ensures Unescape("\\n" + t) == "\n" + Unescape(t)
    ensures Unescape("\\c" + t) == ":" + Unescape(t)
    ensures forall c | c != '\\' && c != 'r' && c != 'n' && c != 'c' :: Unescape("\\" + [c] + t) == "\\" + Unescape([c] + t)
    ensures forall c | c != '\\' :: Unescape([c] + t) == [c] + Unescape(t)
    ensures Unescape("\\") == "\\" && Unescape("") == ""
  {
    ReadCode('\\', t);
    ReadCode('r', t);
    ReadCode('n', t);
    ReadCode('c', t);
    assert "\\" + ['\\'] + t == "\\\\" + t && "\\" + ['r'] + t == "\\r" + t && "\\" + ['n'] + t == "\\n" + t && "\\" + ['c'] + t == "\\c" + t;
    LoneBackslash();
    hide Unescape;
    forall c | c != '\\' && c != 'r' && c != 'n' && c != 'c' ensures Unescape("\\" + [c] + t) == "\\" + Unescape([c] + t) { ReadOther(c, t); }
    forall c | c != '\\' ensures Unescape([c] + t) == [c] + Unescape(t) { ReadPlain(c, t); }
  }

  lemma ReadCode(c: char, t: string)
    requires c == '\\' || c == 'r' || c == 'n' || c == 'c'
    ensures Unescape("\\" + [c] + t) == (if c == '\\' then "\\" else if c == 'r' then "\r" else if c == 'n' then "\n" else ":") + Unescape(t)
  {
    assert ("\\" + [c] + t)[2..] == t;
  }

  lemma ReadOther(c: char, t: string)
    requires c != '\\' && c != 'r' && c != 'n' && c != 'c'
    ensures Unescape("\\" + [c] + t) == "\\" + Unescape([c] + t)
  {
    assert ("\\" + [c] + t)[1..] == [c] + t;
  }

  lemma ReadPlain(c: char, t: string)
    requires c != '\\'
    ensures Unescape([c] + t) == [c] + Unescape(t)
  {
    assert ([c] + t)[1..] == t;
  }

  lemma LoneBackslash()
    ensures Unescape("\\") == "\\" && Unescape("") == ""
  {
    assert "\\"[1..] == "";
  }

  /** The wire bytes of one header entry: key, colon, value and LF, where a colon in the value is the two bytes \c. */
  lemma EntryOnTheWire(key: string, a: string, b: string)
    ensures WriteEntry(Entry(key, a + ":" + b)) == Escape(key) + ":" + Escape(a) + "\\c" + Escape(b) + "\n"
  {
    hide Escape;
    EscapeTable(a, ':', b);
    var v := a + ":" + b;
    assert a + [':'] + b == v;
    assert WriteEntry(Entry(key, v)) == Escape(key) + ":" + Escape(v) + "\n";
    assert Escape(v) == Escape(a) + "\\c" + Escape(b);
    assert Escape(key) + ":" + (Escape(a) + "\\c" + Escape(b)) + "\n" == Escape(key) + ":" + Escape(a) + "\\c" + Escape(b) + "\n";
  }

  // ---------------------------------------------------------------- the grammar

  /** A header line as it is on the wire: what is before and after its first colon, and whether it ends in CR-LF. */
  datatype Line = Line(key: string, value: string, cr: bool)

  function Eol(cr: bool): string {
    if cr then "\r\n" else "\n"
  }

  /** The text may stand before this line end: it has no LF, and a CR before a bare LF is part of the line end. */
  predicate TextOk(t: string, cr: bool) {
    '\n' !in t && (cr || t == "" || t[|t| - 1] != '\r')
  }

  predicate LineOk(l: Line) {
    l.key != "" && ':' !in l.key && TextOk(l.key + ":" + l.value, l.cr)
  }

  predicate LinesOk(lines: seq<Line>) {
    forall i | 0 <= i < |lines| :: LineOk(lines[i])
  }

  function Lines(lines: seq<Line>): string {
    if lines == [] then "" else lines[0].key + ":" + lines[0].value + Eol(lines[0].cr) + Lines(lines[1..])
  }

  /** The header that the lines mean. */
  function Meaning(lines: seq<Line>): seq<Entry> {
    if lines == [] then [] else [Entry(Unescape(lines[0].key), Unescape(lines[0].value))] + Meaning(lines[1..])
  }

  /** The body ends where the header says, or at the first NUL. */
  predicate BodyOk(h: seq<Entry>, body: string) {
    match Find(h, "content-length")
    case None => '\0' !in body
    case Some(t) => ParseUint(t, 4294967295) == Some(|body|)
  }

  predicate CommandOk(c: string) {
    || c == "CONNECT" || c == "STOMP" || c == "CONNECTED" || c == "DISCONNECT"
    || c == "SEND" || c == "SUBSCRIBE" || c == "UNSUBSCRIBE" || c == "ACK" || c == "NACK"
    || c == "BEGIN" || c == "COMMIT" || c == "ABORT"
    || c == "MESSAGE" || c == "RECEIPT" || c == "ERROR"
  }

  /** s starts with a frame f, spelled with these lines and line ends, and rest follows it. */
  predicate Spells(s: string, f: Frame, rest: string, cr: bool, lines: seq<Line>, cr': bool) {
    && CommandOk(f.command) && LinesOk(lines) && f.header == Meaning(lines) && BodyOk(f.header, f.body)
    && s == f.command + Eol(cr) + (Lines(lines) + Eol(cr') + (f.body + "\0" + rest))
  }

  // ---------------------------------------------------------------- lines

  lemma LineRead(t: string, cr: bool, rest: string)
    requires TextOk(t, cr)
    ensures ReadLine(t + Eol(cr) + rest) == Reading(Value(t), rest)
  {
    var s := t + Eol(cr) + rest;
    var line := if cr then t + "\r" else t;
    assert forall j | 0 <= j < |line| :: s[j] == line[j] && line[j] != '\n';
    IndexOfUnique(s, NEWLINE, |line|);
    assert s[..|line|] == line && s[|line| + 1..] == rest;
    assert cr ==> line[..|line| - 1] == t;
  }

  lemma LineSpelled(s: string) returns (cr: bool)
    requires ReadLine(s).parsed.Value?
    ensures TextOk(ReadLine(s).parsed.value, cr) && s == ReadLine(s).parsed.value + Eol(cr) + ReadLine(s).rest
  {
    var i := IndexOf(s, NEWLINE);
    cr := i > 0 && s[i - 1] == CR;
    assert s == s[..i] + "\n" + s[i + 1..];
    if cr { assert s[..i] == s[..i - 1] + "\r"; }
  }

  // ---------------------------------------------------------------- the header

  /** A line is cut at its first colon, so its value may hold others. */
  lemma KeyEnds(key: string, value: string)
    requires ':' !in key
    ensures IndexOf(key + ":" + value, ':') == |key|
    ensures (key + ":" + value)[..|key|] == key && (key + ":" + value)[|key| + 1..] == value
  {
    var t := key + ":" + value;
    assert forall j | 0 <= j < |key| :: t[j] == key[j];
    IndexOfUnique(t, ':', |key|);
  }

  lemma {:induction false} HeaderRead(lines: seq<Line>, cr: bool, before: seq<Entry>, rest: string)
    requires LinesOk(lines)
    ensures ReadHeader(Lines(lines) + Eol(cr) + rest, before) == Reading(Value(before + Meaning(lines)), rest)
    decreases |lines|
  {
    hide ReadLine, Unescape, Eol;
    var s := Lines(lines) + Eol(cr) + rest;
    if lines == [] {
      LineRead("", cr, rest);
      assert s == "" + Eol(cr) + rest && before + [] == before;
    } else {
      var l, tail := lines[0], Lines(lines[1..]) + Eol(cr) + rest;
      var e := Entry(Unescape(l.key), Unescape(l.value));
      LineRead(l.key + ":" + l.value, l.cr, tail);
      assert s == l.key + ":" + l.value + Eol(l.cr) + tail;
      KeyEnds(l.key, l.value);
      HeaderRead(lines[1..], cr, before + [e], rest);
      assert before + [e] + Meaning(lines[1..]) == before + Meaning(lines);
    }
  }

  lemma {:induction false} HeaderSpelled(s: string, before: seq<Entry>) returns (lines: seq<Line>, cr: bool)
    requires ReadHeader(s, before).parsed.Value?
    ensures LinesOk(lines) && ReadHeader(s, before).parsed.value == before + Meaning(lines)
    ensures s == Lines(lines) + Eol(cr) + ReadHeader(s, before).rest
    decreases |s|
  {
    hide ReadLine, Unescape, Eol, TextOk;
    var line := ReadLine(s);
    var cr0 := LineSpelled(s);
    var t := line.parsed.value;
    if t == "" {
      lines, cr := [], cr0;
      assert before + [] == before;
    } else {
      var i := IndexOf(t, ':');
      var l := Line(t[..i], t[i + 1..], cr0);
      var e := Entry(Unescape(l.key), Unescape(l.value));
      assert t == l.key + ":" + l.value;
      var more;
      more, cr := HeaderSpelled(line.rest, before + [e]);
      lines := [l] + more;
      OneLineMore(l, more);
      Regroup(before, [e], Meaning(more));
      LineAhead(l, more, cr, ReadHeader(s, before).rest);
    }
  }

  lemma OneLineMore(l: Line, more: seq<Line>)
    requires LineOk(l) && LinesOk(more)
    ensures LinesOk([l] + more)
    ensures Lines([l] + more) == l.key + ":" + l.value + Eol(l.cr) + Lines(more)
    ensures Meaning([l] + more) == [Entry(Unescape(l.key), Unescape(l.value))] + Meaning(more)
  {
    hide LineOk, Eol, Unescape;
    assert ([l] + more)[1..] == more;
  }

  lemma LineAhead(l: Line, more: seq<Line>, cr: bool, rest: string)
    requires LineOk(l) && LinesOk(more)
    ensures l.key + ":" + l.value + Eol(l.cr) + (Lines(more) + Eol(cr) + rest) == Lines([l] + more) + Eol(cr) + rest
  {
    OneLineMore(l, more);
    hide LineOk, Lines, Eol;
  }

  // ---------------------------------------------------------------- the body

  lemma BodySpelled(s: string, h: seq<Entry>)
    requires ReadBody(s, h).parsed.Value?
    ensures BodyOk(h, ReadBody(s, h).parsed.value) && s == ReadBody(s, h).parsed.value + "\0" + ReadBody(s, h).rest
  {
    hide ParseUint, Find;
    match ContentLength(h)
    case None =>
      var i := IndexOf(s, NUL);
      assert s == s[..i] + "\0" + s[i + 1..];
    case Some(None) =>
    case Some(Some(n)) => assert s == s[..n] + "\0" + s[n + 1..];
  }

  lemma BodyIsFramed(h: seq<Entry>, body: string)
    ensures BodyOk(h, body) <==> Framed(h, body)
  {
    hide ParseUint, Find;
  }

  lemma CommandsListed(c: string)
    ensures c in COMMANDS <==> CommandOk(c)
    ensures CommandOk(c) ==> c != "" && forall cr :: TextOk(c, cr)
  {
  }

  // ---------------------------------------------------------------- main results

  lemma SpelledIsRead(s: string, f: Frame, rest: string, cr: bool, lines: seq<Line>, cr': bool)
    requires Spells(s, f, rest, cr, lines, cr')
    ensures ReadItem(s) == Reading(Value(Some(f)), rest)
  {
    hide ReadLine, ReadHeader, ReadBody, Lines, Meaning, Eol, LinesOk, BodyOk, CommandOk, TextOk, Framed;
    var afterHeader := f.body + "\0" + rest;
    CommandsListed(f.command);
    LineRead(f.command, cr, Lines(lines) + Eol(cr') + afterHeader);
    HeaderRead(lines, cr', [], afterHeader);
    assert [] + Meaning(lines) == Meaning(lines);
    BodyIsFramed(f.header, f.body);
    BodyRoundTrip(f.header, f.body, rest);
  }

  lemma ReadIsSpelled(s: string) returns (cr: bool, lines: seq<Line>, cr': bool)
    requires ReadItem(s).parsed.Value? && ReadItem(s).parsed.value.Some?
    ensures Spells(s, ReadItem(s).parsed.value.value, ReadItem(s).rest, cr, lines, cr')
  {
    hide ReadLine, ReadHeader, ReadBody, Lines, Meaning, Eol, LinesOk, BodyOk, CommandOk, TextOk;
    var command := ReadLine(s);
    CommandsListed(command.parsed.value);
    cr := LineSpelled(s);
    lines, cr' := HeaderSpelled(command.rest, []);
    var header := ReadHeader(command.rest, []);
    assert [] + Meaning(lines) == Meaning(lines);
    BodySpelled(header.rest, header.parsed.value);
  }

  /** The reader takes a frame off the input exactly when the input starts with that frame in the grammar: one of the
      fifteen commands, lines that each have a non-empty key before their first colon, an empty line, the body that the
      content-length announces (or that has no NUL), and a NUL; each line ends in LF or CR-LF. */
  lemma ReadsIff(s: string, f: Frame, rest: string)
    ensures ReadItem(s) == Reading(Value(Some(f)), rest) <==> exists cr, lines, cr' :: Spells(s, f, rest, cr, lines, cr')
  {
    hide ReadItem, Spells;
    if ReadItem(s) == Reading(Value(Some(f)), rest) {
      var cr, lines, cr' := ReadIsSpelled(s);
    }
    if cr, lines, cr' :| Spells(s, f, rest, cr, lines, cr') {
      SpelledIsRead(s, f, rest, cr, lines, cr');
    }
  }

  /** A heart-beat is an empty line, with LF or CR-LF. */
  lemma HeartBeatIff(s: string, rest: string)
    ensures ReadItem(s) == Reading(Value(None), rest) <==> s == "\n" + rest || s == "\r\n" + rest
  {
    hide ReadLine, ReadHeader, ReadBody;
    if ReadItem(s) == Reading(Value(None), rest) {
      var cr := LineSpelled(s);
      assert s == "" + Eol(cr) + rest;
    }
    LineRead("", false, rest);
    LineRead("", true, rest);
    assert "" + Eol(false) + rest == "\n" + rest && "" + Eol(true) + rest == "\r\n" + rest;
  }

  /** The command is refused exactly when there is a complete first line that is neither empty nor a command. */
  lemma InvalidCommandIff(s: string)
    ensures ReadItem(s).parsed == Error(InvalidCommand) <==> ReadLine(s).parsed.Value? && ReadLine(s).parsed.value != "" && !CommandOk(ReadLine(s).parsed.value)
  {
    hide ReadLine, ReadHeader, CommandOk;
    LineErrors(s);
    if ReadLine(s).parsed.Value? {
      CommandsListed(ReadLine(s).parsed.value);
      HeaderErrors(ReadLine(s).rest, []);
    }
  }

  lemma {:induction false} HeaderErrors(s: string, h: seq<Entry>)
    ensures ReadHeader(s, h).parsed.Error? ==> ReadHeader(s, h).parsed.error == Eof || ReadHeader(s, h).parsed.error == InvalidFormat
    decreases |s|
  {
    hide ReadLine, Unescape;
    LineErrors(s);
    var line := ReadLine(s);
    if line.parsed.Value? && line.parsed.value != "" {
      var t := line.parsed.value;
      var i := IndexOf(t, ':');
      if 0 < i < |t| { HeaderErrors(line.rest, h + [Entry(Unescape(t[..i]), Unescape(t[i + 1..]))]); }
    }
  }

  /** After good lines, a line without a colon, or with nothing before it, is refused. */
  lemma {:induction false} BadLineRefused(lines: seq<Line>, t: string, cr: bool, before: seq<Entry>, rest: string)
    requires LinesOk(lines) && TextOk(t, cr) && t != "" && (':' !in t || t[0] == ':')
    ensures ReadHeader(Lines(lines) + (t + Eol(cr) + rest), before).parsed == Error(InvalidFormat)
    decreases |lines|
  {
    hide ReadLine, Unescape, Eol, TextOk;
    if lines == [] {
      LineRead(t, cr, rest);
      assert Lines(lines) + (t + Eol(cr) + rest) == t + Eol(cr) + rest;
      if ':' in t { IndexOfUnique(t, ':', 0); }
    } else {
      var l, tail := lines[0], Lines(lines[1..]) + (t + Eol(cr) + rest);
      LineRead(l.key + ":" + l.value, l.cr, tail);
      assert Lines(lines) + (t + Eol(cr) + rest) == l.key + ":" + l.value + Eol(l.cr) + tail;
      KeyEnds(l.key, l.value);
      BadLineRefused(lines[1..], t, cr, before + [Entry(Unescape(l.key), Unescape(l.value))], rest);
    }
  }

  // ---------------------------------------------------------------- the writer

  function Escaped(h: seq<Entry>): seq<Line> {
    if h == [] then [] else [Line(Escape(h[0].key), Escape(h[0].value), false)] + Escaped(h[1..])
  }

  lemma {:induction false} HeaderOnTheWire(h: seq<Entry>)
    ensures WriteHeader(h) == Lines(Escaped(h)) && Meaning(Escaped(h)) == h
    ensures (forall i | 0 <= i < |h| :: h[i].key != "") ==> LinesOk(Escaped(h))
  {
    hide Escape, Unescape, LineOk;
    if h != [] {
      HeaderOnTheWire(h[1..]);
      var l := Line(Escape(h[0].key), Escape(h[0].value), false);
      assert Escaped(h)[1..] == Escaped(h[1..]) && Escaped(h)[0] == l;
      UnescapeEscape(h[0].key);
      UnescapeEscape(h[0].value);
      if h[0].key != "" { EscapedLineOk(h[0]); }
    }
  }

  lemma EscapedLineOk(e: Entry)
    requires e.key != ""
    ensures LineOk(Line(Escape(e.key), Escape(e.value), false))
  {
    EscapeClean(e.key);
    EscapeClean(e.value);
    hide Escape;
    var k, v := Escape(e.key), Escape(e.value);
    var t := k + ":" + v;
    forall j | 0 <= j < |t| ensures t[j] != '\n' && t[j] != '\r' {
      if j > |k| { assert t[j] == v[j - |k| - 1]; }
    }
  }

  /** The writer puts exactly these bytes on the wire: the command, LF, each entry as one line with escaped key and value,
      LF, the body and NUL. */
  lemma WritesTheGrammar(f: Frame, rest: string)
    ensures WriteFrame(f) == f.command + "\n" + Lines(Escaped(f.header)) + "\n" + f.body + "\0"
    ensures WellFormed(f) ==> Spells(WriteFrame(f) + rest, f, rest, false, Escaped(f.header), false)
  {
    hide WriteHeader, Lines, Escaped, Meaning, LinesOk, BodyOk, CommandOk, Framed;
    HeaderOnTheWire(f.header);
    CommandsListed(f.command);
    BodyIsFramed(f.header, f.body);
    var lines := Lines(Escaped(f.header));
    assert WriteFrame(f) + rest == f.command + Eol(false) + (lines + Eol(false) + (f.body + "\0" + rest));
  }
}
