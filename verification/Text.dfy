/** Text as the program sees it. A Go string or byte slice is a sequence of bytes; byte b is held in
    the char with code b. No definition or proof here depends on a char being below 256, so every
    result holds for all byte strings. */
module Text {

  datatype Option<+T> = None | Some(value: T)

  predicate IsDigit(c: char) {
    '0' <= c <= '9'
  }

  predicate AllDigits(s: string) {
    forall i | 0 <= i < |s| :: IsDigit(s[i])
  }

  /** The number written by a string of decimal digits. */
  function DecimalValue(s: string): nat
    requires AllDigits(s)
  {
    if s == "" then 0 else 10 * DecimalValue(s[..|s| - 1]) + (s[|s| - 1] - '0') as nat
  }

  /** strconv.FormatUint(n, 10), and %d for a non-negative value. */
  function FormatDecimal(n: nat): string {
    if n < 10 then [n as char + '0'] else FormatDecimal(n / 10) + [(n % 10) as char + '0']
  }

  /** strconv.ParseUint(s, 10, bits) with max = 2^bits - 1: one or more digits, value at most max. */
  function ParseUint(s: string, max: nat): Option<nat> {
    if s != "" && AllDigits(s) && DecimalValue(s) <= max then Some(DecimalValue(s)) else None
  }

  lemma {:induction false} FormatParses(n: nat)
    ensures FormatDecimal(n) != "" && AllDigits(FormatDecimal(n)) && DecimalValue(FormatDecimal(n)) == n
  {
    var s := FormatDecimal(n);
    if n < 10 {
      assert s[..|s| - 1] == "";
    } else {
      FormatParses(n / 10);
      assert s[..|s| - 1] == FormatDecimal(n / 10);
    }
  }

  /** Parsing inverts formatting, exactly within the range of the integer type. */
  lemma ParseFormat(n: nat, max: nat)
    ensures ParseUint(FormatDecimal(n), max) == if n <= max then Some(n) else None
  {
    FormatParses(n);
  }

  function Power10(k: nat): nat {
    if k == 0 then 1 else 10 * Power10(k - 1)
  }

  /** A number below 10^k is written with at most k digits. */
  lemma {:induction false} FormatLength(n: nat, k: nat)
    requires 0 < k && n < Power10(k)
    ensures |FormatDecimal(n)| <= k
  {
    if n >= 10 {
      assert k > 1;
      FormatLength(n / 10, k - 1);
    }
  }

  /** Position of the first c in s, or |s| when there is none (bytes.IndexByte with |s| for -1). */
  function IndexOf(s: string, c: char): (i: nat)
    ensures i <= |s|
    ensures i < |s| ==> s[i] == c
    ensures forall j | 0 <= j < i :: s[j] != c
  {
    if s == "" then 0 else if s[0] == c then 0 else 1 + IndexOf(s[1..], c)
  }

  lemma IndexOfUnique(s: string, c: char, i: nat)
    requires i < |s| && s[i] == c && forall j | 0 <= j < i :: s[j] != c
    ensures IndexOf(s, c) == i
  {
  }

  /** strings.Split(s, sep) for a one-byte separator. */
  function Split(s: string, sep: char): (parts: seq<string>)
    ensures |parts| >= 1
    decreases |s|
  {
    var i := IndexOf(s, sep);
    if i == |s| then [s] else [s[..i]] + Split(s[i + 1..], sep)
  }

  /** strings.Join(parts, sep). */
  function Join(parts: seq<string>, sep: char): string
    requires |parts| >= 1
  {
    if |parts| == 1 then parts[0] else parts[0] + [sep] + Join(parts[1..], sep)
  }

  lemma SplitFirst(p: string, sep: char, rest: string)
    requires sep !in p
    ensures Split(p + [sep] + rest, sep) == [p] + Split(rest, sep)
  {
    var s := p + [sep] + rest;
    assert forall j | 0 <= j < |p| :: s[j] == p[j];
    IndexOfUnique(s, sep, |p|);
    assert s[..|p|] == p && s[|p| + 1..] == rest;
  }

  lemma {:induction false} SplitJoin(parts: seq<string>, sep: char)
    requires |parts| >= 1
    requires forall i | 0 <= i < |parts| :: sep !in parts[i]
    ensures Split(Join(parts, sep), sep) == parts
  {
    if |parts| == 1 {
      assert IndexOf(parts[0], sep) == |parts[0]|;
    } else {
      SplitFirst(parts[0], sep, Join(parts[1..], sep));
      SplitJoin(parts[1..], sep);
      assert parts == [parts[0]] + parts[1..];
    }
  }
}
