/**
 * The pieces of the PHP runtime that the library's core leans on, written out
 * so that the rest of the model can be stated exactly: `empty()` on strings,
 * `trim`, `explode` and its inverse `implode`, the two-piece `explode(':', s, 2)`,
 * ASCII `strtoupper`/`strtolower`, integer-to-decimal conversion, and PHP's
 * ordered associative arrays.
 */
module Php {

  datatype Option<T> = None | Some(value: T)

  /** PHP's `empty()` on a string: both "" and "0" count as empty. */
  predicate EmptyString(s: string) {
    s == "" || s == "0"
  }

  // ---------------------------------------------------------------------------
  // trim
  // ---------------------------------------------------------------------------

  /** The characters `trim($s)` strips when no character list is given. */
  const Whitespace: set<char> := {' ', '\t', '\n', '\r', '\0', '\U{0B}'}

  /** The character list "\r\n" that the header parsers pass to `trim`. */
  const LineBreaks: set<char> := {'\r', '\n'}

  /** `ltrim($s, $cs)`: drops the longest prefix made of characters in `cs`. */
  function TrimLeft(s: string, cs: set<char>): string {
    if s != [] && s[0] in cs then TrimLeft(s[1..], cs) else s
  }

  /** `rtrim($s, $cs)`: drops the longest suffix made of characters in `cs`. */
  function TrimRight(s: string, cs: set<char>): string {
    if s != [] && s[|s| - 1] in cs then TrimRight(s[..|s| - 1], cs) else s
  }

  /** `trim($s, $cs)`. */
  function Trim(s: string, cs: set<char>): string {
    TrimRight(TrimLeft(s, cs), cs)
  }

  /** `ltrim` keeps a suffix of `s`, which does not start with a character of `cs`, and strips only such characters. */
  lemma {:induction false} TrimLeftKeepsSuffix(s: string, cs: set<char>)
    ensures var r := TrimLeft(s, cs);
      && |r| <= |s| && r == s[|s| - |r|..]
      && (forall i :: 0 <= i < |s| - |r| ==> s[i] in cs)
      && (r == [] || r[0] !in cs)
    decreases |s|
  {
    if s != [] && s[0] in cs {
      TrimLeftKeepsSuffix(s[1..], cs);
    }
  }

  /** `rtrim` keeps a prefix of `s`, which does not end with a character of `cs`, and strips only such characters. */
  lemma {:induction false} TrimRightKeepsPrefix(s: string, cs: set<char>)
    ensures var r := TrimRight(s, cs);
      && |r| <= |s| && r == s[..|r|]
      && (forall i :: |r| <= i < |s| ==> s[i] in cs)
      && (r == [] || r[|r| - 1] !in cs)
    decreases |s|
  {
    if s != [] && s[|s| - 1] in cs {
      TrimRightKeepsPrefix(s[..|s| - 1], cs);
    }
  }

  /**
   * What `trim` cuts away: the result is a contiguous piece of `s` and every
   * character of `s` on either side of it is in `cs`.
   */
  lemma TrimIsSlice(s: string, cs: set<char>)
    ensures exists a :: TrimmedAt(s, cs, a, Trim(s, cs))
  {
    var l := TrimLeft(s, cs);
    TrimLeftKeepsSuffix(s, cs);
    TrimRightKeepsPrefix(l, cs);
    assert TrimmedAt(s, cs, |s| - |l|, Trim(s, cs));
  }

  /** The result of `trim` neither starts nor ends with a character of `cs`. */
  lemma TrimEnds(s: string, cs: set<char>)
    ensures var r := Trim(s, cs);
      r == [] || (r[0] !in cs && r[|r| - 1] !in cs)
  {
    var l := TrimLeft(s, cs);
    TrimLeftKeepsSuffix(s, cs);
    TrimRightKeepsPrefix(l, cs);
  }

  /** `r` sits in `s` at offset `a` and every character of `s` outside it is in `cs`. */
  predicate TrimmedAt(s: string, cs: set<char>, a: int, r: string) {
    && 0 <= a <= a + |r| <= |s|
    && r == s[a..a + |r|]
    && (forall i :: 0 <= i < a ==> s[i] in cs)
    && (forall i :: a + |r| <= i < |s| ==> s[i] in cs)
  }

  // ---------------------------------------------------------------------------
  // explode / implode
  // ---------------------------------------------------------------------------

  /** The delimiter `d` occurs in `s` starting at position `i`. */
  predicate OccursAt(d: string, s: string, i: int) {
    0 <= i && i + |d| <= |s| && s[i..i + |d|] == d
  }

  /** `strpos($s, $d)`: the first position at which `d` occurs in `s`. */
  function Find(d: string, s: string): (r: Option<nat>)
    requires |d| > 0
    ensures r.Some? ==> OccursAt(d, s, r.value)
    ensures r.Some? ==> forall j :: 0 <= j < r.value ==> !OccursAt(d, s, j)
    ensures r.None? ==> forall j :: !OccursAt(d, s, j)
    decreases |s|
  {
    if |s| < |d| then None
    else if s[..|d|] == d then
      assert OccursAt(d, s, 0);
      Some(0)
    else
      var rest := Find(d, s[1..]);
      forall j | 1 <= j
        ensures OccursAt(d, s, j) == OccursAt(d, s[1..], j - 1)
      {
        if j + |d| <= |s| {
          var here, there := s[j..j + |d|], s[1..][j - 1..j - 1 + |d|];
          assert forall t :: 0 <= t < |d| ==> here[t] == s[j + t] == there[t];
          assert here == there;
        }
      }
      match rest
      case None => None
      case Some(i) => Some(i + 1)
  }

  /** `implode($d, $parts)`. */
  function Join(d: string, parts: seq<string>): string {
    if parts == [] then ""
    else if |parts| == 1 then parts[0]
    else parts[0] + d + Join(d, parts[1..])
  }

  /** Joining one more part adds the delimiter and that part at the end. */
  lemma {:induction false} JoinSnoc(d: string, parts: seq<string>, x: string)
    requires parts != []
    ensures Join(d, parts + [x]) == Join(d, parts) + d + x
  {
    if |parts| == 1 {
      assert parts + [x] == [parts[0], x];
      assert [parts[0], x][1..] == [x];
    } else {
      assert (parts + [x])[1..] == parts[1..] + [x];
      JoinSnoc(d, parts[1..], x);
    }
  }

  /**
   * `explode($d, $s)`: cuts `s` at every occurrence of `d`. There is always at
   * least one piece, no piece holds the delimiter, and joining the pieces with
   * `d` gives `s` back.
   */
  function Explode(d: string, s: string): (r: seq<string>)
    requires |d| > 0
    ensures |r| >= 1
    ensures forall k, j :: 0 <= k < |r| ==> !OccursAt(d, r[k], j)
    ensures Join(d, r) == s
    decreases |s|
  {
    match Find(d, s)
    case None => [s]
    case Some(i) =>
      var head := s[..i];
      var rest := Explode(d, s[i + |d|..]);
      forall j | OccursAt(d, head, j) ensures false {
        assert head[j..j + |d|] == s[j..j + |d|];
        assert OccursAt(d, s, j);
      }
      assert ([head] + rest)[1..] == rest;
      assert s == head + d + s[i + |d|..];
      [head] + rest
  }

  /** `strpos($s, $c)` for a single character: the first position of `c` in `s`. */
  function IndexOf(s: string, c: char): (r: Option<nat>)
    ensures r.Some? ==> r.value < |s|
  {
    if s == [] then None
    else if s[0] == c then Some(0)
    else
      match IndexOf(s[1..], c)
      case None => None
      case Some(i) => Some(i + 1)
  }

  /** The position found holds `c` and no earlier one does; None means `c` does not occur. */
  lemma {:induction false} IndexOfFirst(s: string, c: char)
    ensures var r := IndexOf(s, c);
      && (r.Some? ==> s[r.value] == c && c !in s[..r.value])
      && (r.None? ==> c !in s)
    decreases |s|
  {
    if s != [] && s[0] != c {
      IndexOfFirst(s[1..], c);
      match IndexOf(s[1..], c) {
        case None =>
          assert s == [s[0]] + s[1..];
        case Some(i) =>
          assert s[..i + 1] == [s[0]] + s[1..][..i];
      }
    }
  }

  /** Searching past a prefix that does not hold `c` finds `c` where it sits in the rest, shifted by the prefix. */
  lemma {:induction false} IndexOfAfter(a: string, b: string, c: char)
    requires c !in a
    ensures IndexOf(a + b, c) == match IndexOf(b, c) case None => None case Some(i) => Some(|a| + i)
    decreases |a|
  {
    if a == [] {
      assert a + b == b;
    } else {
      assert (a + b)[0] == a[0];
      assert (a + b)[1..] == a[1..] + b;
      IndexOfAfter(a[1..], b, c);
    }
  }

  /**
   * `explode($c, $s, 2)`: the part before the first `c` and everything after
   * it; a string without `c` stays in one piece.
   */
  function SplitOnce(s: string, c: char): (string, string) {
    match IndexOf(s, c)
    case None => (s, "")
    case Some(i) => (s[..i], s[i + 1..])
  }

  /**
   * On a string that holds `c`, the first part holds no `c`, and first part,
   * `c` and rest give the string back, so the rest may hold `c` again.
   */
  lemma SplitOnceParts(s: string, c: char)
    requires c in s
    ensures var r := SplitOnce(s, c);
      c !in r.0 && s == r.0 + [c] + r.1
  {
    IndexOfFirst(s, c);
    var i := IndexOf(s, c).value;
    assert s == s[..i] + [c] + s[i + 1..];
  }

  // ---------------------------------------------------------------------------
  // strtoupper / strtolower (ASCII letters only)
  // ---------------------------------------------------------------------------

  function UpperChar(c: char): char {
    if 'a' <= c <= 'z' then (c as int - 32) as char else c
  }

  function LowerChar(c: char): char {
    if 'A' <= c <= 'Z' then (c as int + 32) as char else c
  }

  /** `strtoupper`: maps every ASCII lower-case letter to upper case, position by position. */
  function Upper(s: string): (r: string)
    ensures |r| == |s|
    ensures forall i :: 0 <= i < |s| ==> r[i] == UpperChar(s[i])
  {
    if s == [] then [] else [UpperChar(s[0])] + Upper(s[1..])
  }

  /** `strtolower`: maps every ASCII upper-case letter to lower case, position by position. */
  function Lower(s: string): (r: string)
    ensures |r| == |s|
    ensures forall i :: 0 <= i < |s| ==> r[i] == LowerChar(s[i])
  {
    if s == [] then [] else [LowerChar(s[0])] + Lower(s[1..])
  }

  /** Lower-casing forgets whether the text was upper-cased first. */
  lemma LowerOfUpper(s: string)
    ensures Lower(Upper(s)) == Lower(s)
  {
    var a, b := Lower(Upper(s)), Lower(s);
    assert |a| == |b|;
    forall i | 0 <= i < |a| ensures a[i] == b[i] {
      assert LowerChar(UpperChar(s[i])) == LowerChar(s[i]);
    }
  }

  // ---------------------------------------------------------------------------
  // Integers as decimal text (string concatenation with an int)
  // ---------------------------------------------------------------------------

  function DigitChar(n: nat): char
    requires n < 10
  {
    ('0' as int + n) as char
  }

  function NatToString(n: nat): (r: string)
    ensures |r| >= 1
    ensures forall i :: 0 <= i < |r| ==> '0' <= r[i] <= '9'
    decreases n
  {
    if n < 10 then [DigitChar(n)] else NatToString(n / 10) + [DigitChar(n % 10)]
  }

  /** The value of a string of decimal digits, read left to right. */
  function DecimalValue(s: string): nat
    requires forall i :: 0 <= i < |s| ==> '0' <= s[i] <= '9'
    decreases |s|
  {
    if s == [] then 0
    else DecimalValue(s[..|s| - 1]) * 10 + (s[|s| - 1] as int - '0' as int)
  }

  /** Reading back the digits of `n` gives `n`. */
  lemma {:induction false} NatToStringRoundTrip(n: nat)
    ensures DecimalValue(NatToString(n)) == n
    decreases n
  {
    if n >= 10 {
      var s := NatToString(n);
      assert s[..|s| - 1] == NatToString(n / 10);
      NatToStringRoundTrip(n / 10);
    }
  }

  /** PHP's conversion of an int to a string, as `.` performs it. */
  function IntToString(i: int): (r: string)
    ensures |r| >= 1
    ensures r[0] == '-' <==> i < 0
  {
    if i < 0 then "-" + NatToString(-i) else NatToString(i)
  }

  // ---------------------------------------------------------------------------
  // Ordered associative arrays
  // ---------------------------------------------------------------------------

  /** A PHP array with keys of type K: entries in insertion order. */
  type Assoc<K, V> = seq<(K, V)>

  function Keys<K, V>(a: Assoc<K, V>): (ks: seq<K>)
    ensures |ks| == |a|
    ensures forall i :: 0 <= i < |a| ==> ks[i] == a[i].0
  {
    if a == [] then [] else [a[0].0] + Keys(a[1..])
  }

  /** The keys of a non-empty array are the keys of all but its last entry, then the last key. */
  lemma {:induction false} KeysInit<K, V>(a: Assoc<K, V>)
    requires a != []
    ensures Keys(a) == Keys(a[..|a| - 1]) + [a[|a| - 1].0]
    decreases |a|
  {
    if |a| == 1 {
      assert a[..0] == [];
    } else {
      KeysInit(a[1..]);
      assert a[1..][..|a| - 2] == a[..|a| - 1][1..];
    }
  }

  predicate Distinct<T(==)>(s: seq<T>) {
    forall i, j :: 0 <= i < j < |s| ==> s[i] != s[j]
  }

  /** `$a[$k]` (None when `isset($a[$k])` is false). */
  function Get<K(==), V>(a: Assoc<K, V>, k: K): (r: Option<V>)
    ensures r.Some? <==> k in Keys(a)
  {
    if a == [] then None
    else if a[0].0 == k then Some(a[0].1)
    else Get(a[1..], k)
  }

  /**
   * `$a[$k] = $v`: a key already present keeps its position and takes the new
   * value; a new key goes to the end. No other key changes.
   */
  function Put<K(==,!new), V>(a: Assoc<K, V>, k: K, v: V): (r: Assoc<K, V>)
    ensures Keys(r) == if k in Keys(a) then Keys(a) else Keys(a) + [k]
    ensures Get(r, k) == Some(v)
    ensures forall k' :: k' != k ==> Get(r, k') == Get(a, k')
  {
    if a == [] then [(k, v)]
    else if a[0].0 == k then [(k, v)] + a[1..]
    else
      var rest := Put(a[1..], k, v);
      assert Keys([a[0]] + rest) == [a[0].0] + Keys(rest);
      assert Keys(a) == [a[0].0] + Keys(a[1..]);
      [a[0]] + rest
  }
}
