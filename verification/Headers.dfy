/** Header and Frame objects (frame/header.go, frame/frame.go). A Header keeps its entries in one flat
    list of strings, keys at even positions and values at odd ones; it is proved against the functions of
    module Frames, which work on entries. */
module Headers {
  import opened Text
  import opened Frames
  import Codec

  /** The entries of a flat list of keys and values. */
  function Entries(slice: seq<string>): (h: seq<Entry>)
    requires |slice| % 2 == 0
    ensures |h| == |slice| / 2
    ensures forall i | 0 <= i < |h| :: h[i] == Entry(slice[2 * i], slice[2 * i + 1])
  {
    seq(|slice| / 2, i requires 0 <= i < |slice| / 2 => Entry(slice[2 * i], slice[2 * i + 1]))
  }

  /** The first entry with key k is at position j, or there is none and j is the length. */
  predicate FirstAt(h: seq<Entry>, k: string, j: nat) {
    j <= |h| && (forall i | 0 <= i < j :: h[i].key != k) && (j < |h| ==> h[j].key == k)
  }

  lemma {:induction false} FindAt(h: seq<Entry>, k: string, j: nat)
    requires FirstAt(h, k, j)
    ensures Find(h, k) == if j < |h| then Some(h[j].value) else None
  {
    if j > 0 {
      assert FirstAt(h[1..], k, j - 1);
      FindAt(h[1..], k, j - 1);
    }
  }

  lemma {:induction false} PutAt(h: seq<Entry>, k: string, v: string, j: nat)
    requires FirstAt(h, k, j)
    ensures Put(h, k, v) == if j < |h| then h[j := Entry(k, v)] else h + [Entry(k, v)]
  {
    if j > 0 {
      assert FirstAt(h[1..], k, j - 1);
      PutAt(h[1..], k, v, j - 1);
    }
  }

  lemma {:induction false} DropAt(h: seq<Entry>, k: string, j: nat)
    requires FirstAt(h, k, j) && j < |h|
    ensures Drop(h, k) == Drop(h[..j] + h[j + 1..], k)
  {
    if j == 0 {
      assert h[..0] + h[1..] == h[1..];
    } else {
      var t := h[1..];
      var g := h[..j] + h[j + 1..];
      assert FirstAt(t, k, j - 1);
      DropAt(t, k, j - 1);
      assert g[1..] == t[..j - 1] + t[j..];
    }
  }

  lemma ReplacedEntry(slice: seq<string>, i: nat, key: string, value: string)
    requires |slice| % 2 == 0 && i % 2 == 0 && i < |slice| && slice[i] == key
    ensures Entries(slice[i + 1 := value]) == Entries(slice)[i / 2 := Entry(key, value)]
  {
  }

  lemma AddedEntry(slice: seq<string>, key: string, value: string)
    requires |slice| % 2 == 0
    ensures Entries(slice + [key, value]) == Entries(slice) + [Entry(key, value)]
  {
  }

  /** The entry found at position i of the flat list. */
  lemma KeyAt(slice: seq<string>, i: nat, key: string)
    requires |slice| % 2 == 0 && i % 2 == 0 && i < |slice| && FirstAt(Entries(slice), key, i / 2)
    ensures slice[i] == key
  {
  }

  lemma WithoutEntry(slice: seq<string>, i: nat)
    requires |slice| % 2 == 0 && i % 2 == 0 && i < |slice|
    ensures Entries(slice[..i] + slice[i + 2..]) == Entries(slice)[..i / 2] + Entries(slice)[i / 2 + 1..]
  {
  }

  lemma {:induction false} ValuesAppend(h: seq<Entry>, e: Entry, k: string)
    ensures Values(h + [e], k) == Values(h, k) + if e.key == k then [e.value] else []
  {
    if h == [] {
      assert (h + [e])[1..] == [];
    } else {
      ValuesAppend(h[1..], e, k);
      assert (h + [e])[1..] == h[1..] + [e];
    }
  }

  class Header {
    var slice: seq<string>

    ghost predicate Valid()
      reads this
    {
      |slice| % 2 == 0
    }

    ghost function Contents(): seq<Entry>
      reads this
      requires Valid()
    {
      Entries(slice)
    }

    /** NewHeader: a key without a value gets the empty value. */
    constructor (entries: seq<string>)
      ensures Valid()
      ensures |entries| % 2 == 0 ==> Contents() == Entries(entries)
      ensures |entries| % 2 == 1 ==> Contents() == Entries(entries + [""])
    {
      slice := entries;
      new;
      if |slice| % 2 != 0 {
        slice := slice + [""];
      }
    }

    method Add(key: string, value: string)
      requires Valid()
      modifies this
      ensures Valid() && Contents() == old(Contents()) + [Entry(key, value)]
    {
      slice := slice + [key, value];
    }

    /** The position of the first entry with this key in the flat list. */
    method Index(key: string) returns (i: int, ok: bool)
      requires Valid()
      ensures ok ==> 0 <= i < |slice| && i % 2 == 0 && FirstAt(Contents(), key, i / 2)
      ensures !ok ==> i == -1 && FirstAt(Contents(), key, |Contents()|)
    {
      i := 0;
      while i < |slice|
        invariant 0 <= i <= |slice| && i % 2 == 0
        invariant forall j | 0 <= j < i / 2 :: Contents()[j].key != key
      {
        if slice[i] == key {
          return i, true;
        }
        i := i + 2;
      }
      return -1, false;
    }

    method Contains(key: string) returns (value: string, ok: bool)
      requires Valid()
      ensures Find(Contents(), key) == if ok then Some(value) else None
      ensures !ok ==> value == ""
    {
      var i;
      value := "";
      i, ok := Index(key);
      if ok {
        value := slice[i + 1];
        FindAt(Contents(), key, i / 2);
      } else {
        FindAt(Contents(), key, |Contents()|);
      }
    }

    method Set(key: string, value: string)
      requires Valid()
      modifies this
      ensures Valid() && Contents() == Put(old(Contents()), key, value)
    {
      hide Entries, FirstAt, Put;
      var i, ok := Index(key);
      ghost var h := Contents();
      if ok {
        PutAt(h, key, value, i / 2);
        KeyAt(slice, i, key);
        ReplacedEntry(slice, i, key, value);
        slice := slice[i + 1 := value];
      } else {
        PutAt(h, key, value, |h|);
        AddedEntry(slice, key, value);
        slice := slice + [key, value];
      }
    }

    method Del(key: string)
      requires Valid()
      modifies this
      ensures Valid() && Contents() == Drop(old(Contents()), key)
    {
      var i, ok := Index(key);
      while ok
        invariant Valid()
        invariant ok ==> 0 <= i < |slice| && i % 2 == 0 && FirstAt(Contents(), key, i / 2)
        invariant !ok ==> FirstAt(Contents(), key, |Contents()|)
        invariant Drop(Contents(), key) == Drop(old(Contents()), key)
        decreases |slice|, ok
      {
        DropAt(Contents(), key, i / 2);
        WithoutEntry(slice, i);
        slice := slice[..i] + slice[i + 2..];
        i, ok := Index(key);
      }
      FindAt(Contents(), key, |Contents()|);
      DropAbsent(Contents(), key);
    }

    method GetAll(key: string) returns (values: seq<string>)
      requires Valid()
      ensures values == Values(Contents(), key)
    {
      values := [];
      var i := 0;
      ghost var h := Contents();
      while i < |slice|
        invariant 0 <= i <= |slice| && i % 2 == 0
        invariant values == Values(h[..i / 2], key)
      {
        ValuesAppend(h[..i / 2], h[i / 2], key);
        assert h[..i / 2] + [h[i / 2]] == h[..(i + 2) / 2];
        if slice[i] == key {
          values := values + [slice[i + 1]];
        }
        i := i + 2;
      }
      assert h[..i / 2] == h;
    }

    method GetAt(index: nat) returns (key: string, value: string)
      requires Valid() && index < |slice| / 2
      ensures Entry(key, value) == Contents()[index]
    {
      key, value := slice[2 * index], slice[2 * index + 1];
    }

    /** ContentLength: malformed is true when the entry is not a number of 32 bits. */
    method ContentLength() returns (value: nat, ok: bool, malformed: bool)
      requires Valid()
      ensures Codec.ContentLength(Contents()) ==
              if !ok then None else if malformed then Some(None) else Some(Some(value))
      ensures !ok ==> !malformed
    {
      var text;
      text, ok := Contains("content-length");
      value, malformed := 0, false;
      if ok {
        var n := ParseUint(text, Codec.UINT32_MAX);
        if n.Some? {
          value := n.value;
        } else {
          malformed := true;
        }
      }
    }

    method Clone() returns (copy: Header)
      requires Valid()
      ensures fresh(copy) && copy.Valid() && copy.Contents() == Contents()
    {
      copy := new Header(slice);
    }
  }

  /** A frame object. Its header is a separate object, so two frames may share it. */
  class FrameObject {
    var command: string
    const header: Header?
    const body: array?<char>

    constructor (command: string, header: Header?, body: array?<char>)
      ensures this.command == command && this.header == header && this.body == body
    {
      this.command, this.header, this.body := command, header, body;
    }

    ghost predicate Valid()
      reads this, header
    {
      header != null ==> header.Valid()
    }

    /** The frame as a value; a nil header has no entries, and a nil body no bytes. */
    ghost function Value(): Frame
      reads this, header, body
      requires Valid()
    {
      Frame(command, if header == null then [] else header.Contents(), if body == null then "" else body[..])
    }

    /** Clone: a frame with the same value whose header and body are new objects. */
    method Clone() returns (copy: FrameObject)
      requires Valid()
      ensures fresh(copy) && copy.Valid() && copy.Value() == Value()
      ensures (copy.header == null <==> header == null) && (copy.body == null <==> body == null)
      ensures copy.header != null ==> fresh(copy.header)
      ensures copy.body != null ==> fresh(copy.body)
    {
      var h: Header? := null;
      if header != null {
        h := header.Clone();
      }
      var b: array?<char> := null;
      if body != null {
        var was := body;
        b := new char[was.Length](i requires 0 <= i < was.Length reads was => was[i]);
        assert b[..] == body[..];
      }
      copy := new FrameObject(command, h, b);
    }
  }
}
