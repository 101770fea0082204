/** Reader and Writer as objects (frame/reader.go, frame/writer.go). The buffered input and output are the
    bytes not yet taken and the bytes given so far; errors of the underlying connection other than the end
    of the input are left out. */
module FrameIO {
  import opened Text
  import opened Sequences
  import opened Frames
  import opened Codec
  import opened Headers

  class Reader {
    var input: string

    constructor (input: string)
      ensures this.input == input
    {
      this.input := input;
    }

    /** bufio.Reader.ReadBytes: everything up to and including the delimiter. */
    method ReadBytes(delim: char) returns (bytes: string, ok: bool)
      modifies this
      ensures var i := IndexOf(old(input), delim);
              if i == |old(input)| then !ok && input == ""
              else ok && bytes == old(input)[..i + 1] && input == old(input)[i + 1..]
    {
      var i := IndexOf(input, delim);
      ok := i < |input|;
      if ok {
        bytes, input := input[..i + 1], input[i + 1..];
      } else {
        bytes, input := input, "";
      }
    }

    method ReadTextLine() returns (line: string, ok: bool)
      modifies this
      ensures ReadLine(old(input)) == Reading(if ok then Value(line) else Error(Eof), input)
    {
      line, ok := ReadBytes(NEWLINE);
      if ok {
        ghost var i := IndexOf(old(input), NEWLINE);
        assert line[..|line| - 1] == old(input)[..i];
        if |line| >= 2 && line[|line| - 2] == CR {
          line := line[..|line| - 2];
          assert line == old(input)[..i][..i - 1];
        } else {
          line := line[..|line| - 1];
        }
      }
    }

    /** bufio.Reader.Read into the end of buf, from position from: some of the bytes that are there, in the
        order they arrived, or 0 at the end of the input. How many is up to the connection. */
    method Fill(buf: array<char>, from: nat) returns (n: nat)
      requires from < buf.Length
      modifies this, buf
      ensures n == 0 <==> old(input) == ""
      ensures n <= buf.Length - from && n <= |old(input)| && input == old(input)[n..]
      ensures buf[..from + n] == old(buf[..from]) + old(input)[..n]
    {
      if input == "" {
        n := 0;
      } else {
        n :| 0 < n <= |input| && n <= buf.Length - from by { assert 0 < 1 <= |input| && 1 <= buf.Length - from; }
        for i := 0 to n
          modifies buf
          invariant input == old(input)
          invariant buf[..from + i] == old(buf[..from]) + input[..i]
        {
          buf[from + i] := input[i];
        }
        input := input[n..];
      }
    }

    method ReadCountedBody(n: nat) returns (body: array<char>, err: Option<ReadError>)
      modifies this
      ensures fresh(body)
      ensures ReadCounted(old(input), n) == Reading(if err.Some? then Error(err.value) else Value(body[..]), input)
    {
      body := new char[n];
      var bytesRead := 0;
      while bytesRead < n
        invariant bytesRead <= n && bytesRead <= |old(input)|
        invariant input == old(input)[bytesRead..] && body[..bytesRead] == old(input)[..bytesRead]
      {
        var k := Fill(body, bytesRead);
        if k == 0 {
          return body, Some(Eof);
        }
        bytesRead := bytesRead + k;
      }
      assert body[..] == old(input)[..n];
      if input == "" {
        return body, Some(Eof);
      }
      var terminator := input[0];
      input := input[1..];
      err := if terminator != NUL then Some(InvalidFormat) else None;
    }

    method ReadHeaderLines(header: Header) returns (err: Option<ReadError>)
      requires header.Valid() && header.Contents() == []
      modifies this, header
      ensures header.Valid()
      ensures ReadHeader(old(input), []) == Reading(if err.Some? then Error(err.value) else Value(header.Contents()), input)
    {
      while true
        invariant header.Valid()
        invariant ReadHeader(input, header.Contents()) == ReadHeader(old(input), [])
        decreases |input|
      {
        var line, ok := ReadTextLine();
        if !ok {
          return Some(Eof);
        }
        if line == "" {
          return None;
        }
        var index := IndexOf(line, ':');
        if index == |line| || index == 0 {
          return Some(InvalidFormat);
        }
        header.Add(Unescape(line[..index]), Unescape(line[index + 1..]));
      }
    }

    method ReadFrameBody(header: Header) returns (body: array<char>, err: Option<ReadError>)
      requires header.Valid()
      modifies this
      ensures fresh(body)
      ensures ReadBody(old(input), header.Contents()) == Reading(if err.Some? then Error(err.value) else Value(body[..]), input)
    {
      var contentLength, given, malformed := header.ContentLength();
      if malformed {
        body := new char[0];
        return body, Some(InvalidContentLength);
      } else if given {
        body, err := ReadCountedBody(contentLength);
      } else {
        var bytes, ok := ReadBytes(NUL);
        if !ok {
          body := new char[0];
          return body, Some(Eof);
        }
        body := new char[|bytes| - 1](i requires 0 <= i < |bytes| - 1 => bytes[i]);
        assert body[..] == bytes[..|bytes| - 1] == old(input)[..|bytes| - 1];
        err := None;
      }
    }

    /** Read. A nil frame without an error is a heart-beat. The result depends on the bytes alone, not on how
        the connection splits them into chunks. */
    method Read() returns (f: FrameObject?, err: Option<ReadError>)
      modifies this
      ensures f != null ==> fresh(f) && f.Valid()
      ensures ReadItem(old(input)) ==
              Reading(if err.Some? then Error(err.value) else Value(if f == null then None else Some(f.Value())), input)
      ensures err.Some? ==> f == null
    {
      var command, ok := ReadTextLine();
      if !ok {
        return null, Some(Eof);
      }
      if command == "" {
        return null, None;
      }
      if command !in COMMANDS {
        return null, Some(InvalidCommand);
      }
      var header := new Header([]);
      assert header.Contents() == [];
      err := ReadHeaderLines(header);
      if err.Some? {
        return null, err;
      }
      var body;
      body, err := ReadFrameBody(header);
      if err.Some? {
        return null, err;
      }
      f := new FrameObject(command, header, body);
    }
  }

  lemma {:induction false} WriteHeaderAppend(h: seq<Entry>, e: Entry)
    ensures WriteHeader(h + [e]) == WriteHeader(h) + WriteEntry(e)
  {
    hide WriteEntry;
    if h == [] {
      assert (h + [e])[1..] == [];
    } else {
      WriteHeaderAppend(h[1..], e);
      assert (h + [e])[1..] == h[1..] + [e];
      Regroup(WriteEntry(h[0]), WriteHeader(h[1..]), WriteEntry(e));
    }
  }

  lemma WriteHeaderMore(h: seq<Entry>, i: nat)
    requires i < |h|
    ensures WriteHeader(h[..i + 1]) == WriteHeader(h[..i]) + WriteEntry(h[i])
  {
    hide WriteHeader, WriteEntry;
    WriteHeaderAppend(h[..i], h[i]);
    assert h[..i] + [h[i]] == h[..i + 1];
  }

  /** Text written piece by piece. */
  lemma Pieces(before: string, a: string, b: string, c: string, d: string)
    ensures before + a + b + c + d == before + (a + b + c + d)
  {
  }

  lemma MorePieces(before: string, command: string, header: string, body: string)
    ensures before + command + "\n" + header + "\n" + body + "\0" == before + (command + "\n" + header + "\n" + body + "\0")
  {
    Pieces(before, command, "\n", header, "\n");
    Pieces(before, command + "\n" + header + "\n", body, "\0", "");
  }

  lemma EmptyHeader()
    ensures WriteHeader([]) == ""
  {
  }

  class Writer {
    var output: string

    constructor ()
      ensures output == ""
    {
      output := "";
    }

    method WriteLine(key: string, value: string)
      modifies this
      ensures output == old(output) + WriteEntry(Entry(key, value))
    {
      hide Escape;
      Pieces(output, Escape(key), ":", Escape(value), "\n");
      output := output + Escape(key);
      output := output + ":";
      output := output + Escape(value);
      output := output + "\n";
    }

    method WriteHeaderLines(header: Header)
      requires header.Valid()
      modifies this
      ensures output == old(output) + WriteHeader(header.Contents())
    {
      var i := 0;
      ghost var h := header.Contents();
      while i < |header.slice| / 2
        invariant i <= |h| == |header.slice| / 2
        invariant header.Valid() && header.Contents() == h
        invariant output == old(output) + WriteHeader(h[..i])
      {
        hide WriteHeader, WriteEntry, Entries;
        var key, value := header.GetAt(i);
        WriteLine(key, value);
        WriteHeaderMore(h, i);
        Regroup(old(output), WriteHeader(h[..i]), WriteEntry(h[i]));
        i := i + 1;
      }
      assert h[..i] == h;
    }

    /** Write. A nil frame is written as a heart-beat. */
    method Write(f: FrameObject?)
      requires f != null ==> f.Valid()
      modifies this
      ensures output == old(output) + WriteItem(if f == null then None else Some(f.Value()))
    {
      if f == null {
        output := output + "\n";
      } else {
        output := output + f.command;
        output := output + "\n";
        hide WriteHeader;
        ghost var v := f.Value();
        if f.header != null {
          WriteHeaderLines(f.header);
        } else {
          assert WriteHeader([]) == "" by { EmptyHeader(); }
        }
        output := output + "\n";
        if f.body != null && f.body.Length > 0 {
          output := output + f.body[..];
        }
        output := output + "\0";
        MorePieces(old(output), f.command, WriteHeader(v.header), v.body);
        assert output == old(output) + f.command + "\n" + WriteHeader(v.header) + "\n" + v.body + "\0";
      }
    }
  }
}
