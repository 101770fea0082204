/** STOMP frames and their headers (frame/frame.go, frame/header.go), as values: what the Header
    methods promise about the list of header entries. */
module Frames {
  import opened Text

  datatype Entry = Entry(key: string, value: string)

  datatype Frame = Frame(command: string, header: seq<Entry>, body: string)

  /** Contains: the value of the first entry with this key. */
  function Find(h: seq<Entry>, k: string): Option<string> {
    if h == [] then None else if h[0].key == k then Some(h[0].value) else Find(h[1..], k)
  }

  /** Set: replaces the first entry with this key, or appends one. */
  function Put(h: seq<Entry>, k: string, v: string): (r: seq<Entry>)
    ensures Find(r, k) == Some(v)
  {
    if h == [] then [Entry(k, v)]
    else if h[0].key == k then [Entry(k, v)] + h[1..]
    else [h[0]] + Put(h[1..], k, v)
  }

  /** Del: removes every entry with this key. */
  function Drop(h: seq<Entry>, k: string): (r: seq<Entry>)
    ensures Find(r, k) == None
    ensures |r| <= |h|
  {
    if h == [] then [] else if h[0].key == k then Drop(h[1..], k) else [h[0]] + Drop(h[1..], k)
  }

  /** GetAll: every value for this key, in order. */
  function Values(h: seq<Entry>, k: string): seq<string> {
    if h == [] then [] else (if h[0].key == k then [h[0].value] else []) + Values(h[1..], k)
  }

  /** The entries whose key is not in ks, in order. */
  function Without(h: seq<Entry>, ks: set<string>): seq<Entry> {
    if h == [] then [] else (if h[0].key in ks then [] else [h[0]]) + Without(h[1..], ks)
  }

  lemma {:induction false} PutKeepsOthers(h: seq<Entry>, k: string, v: string, ks: set<string>)
    requires k in ks
    ensures Without(Put(h, k, v), ks) == Without(h, ks)
  {
    if h != [] && h[0].key != k {
      PutKeepsOthers(h[1..], k, v, ks);
    }
  }

  lemma {:induction false} DropKeepsOthers(h: seq<Entry>, k: string, ks: set<string>)
    requires k in ks
    ensures Without(Drop(h, k), ks) == Without(h, ks)
  {
    if h != [] {
      DropKeepsOthers(h[1..], k, ks);
    }
  }

  lemma {:induction false} FindWithout(h: seq<Entry>, k: string, ks: set<string>)
    requires k !in ks
    ensures Find(Without(h, ks), k) == Find(h, k)
  {
    if h != [] {
      FindWithout(h[1..], k, ks);
      if h[0].key in ks {
        assert Without(h, ks) == Without(h[1..], ks);
      } else {
        assert Without(h, ks)[1..] == Without(h[1..], ks);
      }
    }
  }

  lemma {:induction false} FindAfterPut(h: seq<Entry>, k: string, v: string, k': string)
    requires k != k'
    ensures Find(Put(h, k, v), k') == Find(h, k')
  {
    if h != [] && h[0].key != k {
      FindAfterPut(h[1..], k, v, k');
    }
  }

  lemma {:induction false} FindAfterDrop(h: seq<Entry>, k: string, k': string)
    requires k != k'
    ensures Find(Drop(h, k), k') == Find(h, k')
  {
    if h != [] {
      FindAfterDrop(h[1..], k, k');
    }
  }

  lemma {:induction false} DropAbsent(h: seq<Entry>, k: string)
    requires Find(h, k) == None
    ensures Drop(h, k) == h
  {
    if h != [] {
      DropAbsent(h[1..], k);
    }
  }
}
