/** The choice of the protocol version (determineVersion in server/client/frame.go). */
module Versions {
  import opened Text
  import opened Frames

  const V10 := "1.0"
  const V11 := "1.1"
  const V12 := "1.2"

  datatype VersionError = NotConnectFrame | UnknownVersion | MissingHeader | UnsupportedVersion

  predicate Supported(v: string) {
    v == "1.0" || v == "1.1" || v == "1.2"
  }

  /** v is the highest supported version among parts. */
  predicate Highest(parts: seq<string>, v: string) {
    && v in parts && Supported(v)
    && (v == "1.0" ==> "1.1" !in parts && "1.2" !in parts)
    && (v == "1.1" ==> "1.2" !in parts)
  }

  predicate NoneSupported(parts: seq<string>) {
    forall v | v in parts :: !Supported(v)
  }

  // ---------------------------------------------------------------- sort.Strings

  /** Byte order. */
  predicate AtMost(a: string, b: string) {
    if a == "" then true
    else if b == "" then false
    else a[0] < b[0] || (a[0] == b[0] && AtMost(a[1..], b[1..]))
  }

  lemma {:induction false} AtMostTotal(a: string, b: string)
    ensures AtMost(a, b) || AtMost(b, a)
  {
    if a != "" && b != "" {
      AtMostTotal(a[1..], b[1..]);
    }
  }

  lemma {:induction false} AtMostTransitive(a: string, b: string, c: string)
    requires AtMost(a, b) && AtMost(b, c)
    ensures AtMost(a, c)
  {
    if a != "" && b != "" && c != "" && a[0] == b[0] == c[0] {
      AtMostTransitive(a[1..], b[1..], c[1..]);
    }
  }

  predicate Ascending(s: seq<string>) {
    forall i, j | 0 <= i < j < |s| :: AtMost(s[i], s[j])
  }

  function Insert(x: string, s: seq<string>): seq<string> {
    if s == [] then [x] else if AtMost(x, s[0]) then [x] + s else [s[0]] + Insert(x, s[1..])
  }

  function Sort(s: seq<string>): seq<string> {
    if s == [] then [] else Insert(s[0], Sort(s[1..]))
  }

  lemma {:induction false} InsertMember(x: string, s: seq<string>, y: string)
    ensures y in Insert(x, s) <==> y == x || y in s
  {
    if s != [] {
      InsertMember(x, s[1..], y);
      assert s == [s[0]] + s[1..];
    }
  }

  lemma {:induction false} InsertAscending(x: string, s: seq<string>)
    requires Ascending(s)
    ensures Ascending(Insert(x, s))
  {
    hide AtMost;
    if s != [] {
      var r := Insert(x, s);
      AtMostTotal(x, s[0]);
      if AtMost(x, s[0]) {
        forall j | 0 < j < |r| ensures AtMost(r[0], r[j]) {
          if j > 1 { AtMostTransitive(x, s[0], s[j - 1]); }
        }
      } else {
        var t := Insert(x, s[1..]);
        InsertAscending(x, s[1..]);
        forall j | 0 < j < |r| ensures AtMost(r[0], r[j]) {
          assert r[j] == t[j - 1];
          InsertMember(x, s[1..], t[j - 1]);
        }
      }
    }
  }

  /** Sorting orders the list and keeps its members. */
  lemma {:induction false} SortSorts(s: seq<string>)
    ensures Ascending(Sort(s)) && forall v :: v in Sort(s) <==> v in s
  {
    hide AtMost, Insert;
    if s != [] {
      SortSorts(s[1..]);
      InsertAscending(s[0], Sort(s[1..]));
      assert s == [s[0]] + s[1..];
      forall v ensures v in Sort(s) <==> v in s { InsertMember(s[0], Sort(s[1..]), v); }
    }
  }

  lemma VersionOrder()
    ensures !AtMost(V11, V10) && !AtMost(V12, V10) && !AtMost(V12, V11)
  {
    assert V11[0] == V10[0] == V12[0] && V11[1..][0] == V10[1..][0] == V12[1..][0];
    assert V11[1..][1..][0] == '1' && V10[1..][1..][0] == '0' && V12[1..][1..][0] == '2';
  }

  /** In a sorted list, the last supported version is the highest one. */
  lemma OneMoreVersion(parts: seq<string>, v: string)
    requires forall i | 0 <= i < |parts| :: AtMost(parts[i], v)
    ensures Supported(v) ==> Highest(parts + [v], v) && !NoneSupported(parts + [v])
    ensures !Supported(v) ==> (NoneSupported(parts + [v]) <==> NoneSupported(parts)) && forall w :: Highest(parts + [v], w) <==> Highest(parts, w)
  {
    VersionOrder();
    hide AtMost;
    assert v in parts + [v] && forall w | w in parts + [v] :: w in parts || w == v;
    assert forall w | w in parts :: w in parts + [v];
  }

  // ---------------------------------------------------------------- the choice

  /** determineVersion: the highest supported version of the accept-version entry, whatever its order, repetitions and
      unknown versions, and an error exactly when it names no supported one. Without the entry, a CONNECT frame means
      1.0 and a STOMP frame is refused. */
  method DetermineVersion(f: Frame) returns (version: string, err: Option<VersionError>)
    ensures f.command != "CONNECT" && f.command != "STOMP" ==> err == Some(NotConnectFrame)
    ensures f.command == "CONNECT" || f.command == "STOMP" ==>
              match Find(f.header, "accept-version")
              case Some(text) =>
                var parts := Split(text, ',');
                if NoneSupported(parts) then err == Some(UnknownVersion) else err == None && Highest(parts, version)
              case None => if f.command == "CONNECT" then err == None && version == "1.0" else err == Some(MissingHeader)
  {
    version := "";
    var isConnect := f.command == "CONNECT";
    if !isConnect && f.command != "STOMP" {
      return version, Some(NotConnectFrame);
    }
    err := Some(UnknownVersion);
    var acceptVersion := Find(f.header, "accept-version");
    if acceptVersion.Some? {
      var versions := Sort(Split(acceptVersion.value, ','));
      SortSorts(Split(acceptVersion.value, ','));
      assert NoneSupported([]);
      for i := 0 to |versions|
        invariant if NoneSupported(versions[..i]) then err == Some(UnknownVersion) else err == None && Highest(versions[..i], version)
      {
        hide Sort, AtMost, Split, Highest, NoneSupported;
        var v := versions[i];
        assert versions[..i + 1] == versions[..i] + [v];
        OneMoreVersion(versions[..i], v);
        if v == V10 {
          version, err := V10, None;
        } else if v == V11 {
          version, err := V11, None;
        } else if v == V12 {
          version, err := V12, None;
        }
      }
      assert versions[..|versions|] == versions;
    } else if isConnect {
      version, err := V10, None;
    } else {
      err := Some(MissingHeader);
    }
  }

  /** The version part of handleConnect, which refuses 1.0 after it was chosen: a connection gets past it exactly when
      its accept-version entry names 1.1 or 1.2. */
  method ConnectVersion(f: Frame) returns (version: string, err: Option<VersionError>)
    requires f.command == "CONNECT" || f.command == "STOMP"
    ensures var named := match Find(f.header, "accept-version") case Some(text) => Split(text, ',') case None => [];
            && (err == None <==> "1.1" in named || "1.2" in named)
            && (err == None ==> version == if "1.2" in named then "1.2" else "1.1")
  {
    version, err := DetermineVersion(f);
    if err.None? && version == V10 {
      err := Some(UnsupportedVersion);
    }
  }
}
