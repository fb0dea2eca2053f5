/**
 * What the two header parsers of the library have in common: how a raw
 * header block is cut into lines, which lines are header fields, and how a
 * field line is split into a trimmed name and a trimmed value.
 *
 * Both parsers visit the field lines in order and act on each (name, value)
 * pair, so their results are stated over `Fields(lines)`, the pairs of the
 * field lines in order. This module also gives the reference definitions the
 * parsers are proved against: the values given for one name, in order, and
 * the distinct names in order of first appearance.
 */
module HeaderFields {
  import opened Php

  const CRLF: string := "\r\n"

  /**
   * `explode("\r\n", trim($raw, "\r\n"))`: the lines of a header block. There
   * is at least one line, no line holds a CRLF, and the lines joined with CRLF
   * give back the block without its leading and trailing CR/LF characters.
   */
  function BlockLines(raw: string): (ls: seq<string>)
    ensures |ls| >= 1
    ensures Join(CRLF, ls) == Trim(raw, LineBreaks)
    ensures forall k, j :: 0 <= k < |ls| ==> !OccursAt(CRLF, ls[k], j)
  {
    Explode(CRLF, Trim(raw, LineBreaks))
  }

  /** `strpos($line, ':') !== false`: only such lines are header fields. */
  predicate IsField(line: string) {
    ':' in line
  }

  /** The trimmed text before the first colon of a field line; it holds no colon. */
  function FieldName(line: string): (name: string)
    requires IsField(line)
    ensures ':' !in name
  {
    var raw := SplitOnce(line, ':').0;
    var name := Trim(raw, Whitespace);
    assert ':' !in name by {
      SplitOnceParts(line, ':');
      TrimIsSlice(raw, Whitespace);
      var a :| TrimmedAt(raw, Whitespace, a, name);
      assert forall i :: 0 <= i < |name| ==> name[i] == raw[a + i];
    }
    name
  }

  /** The trimmed text after the first colon of a field line; it may hold colons itself. */
  function FieldValue(line: string): string
    requires IsField(line)
  {
    Trim(SplitOnce(line, ':').1, Whitespace)
  }

  /** The (name, value) pairs of the field lines among `ls`, in order; other lines give none. */
  function Fields(ls: seq<string>): seq<(string, string)>
    decreases |ls|
  {
    if ls == [] then []
    else
      var last := ls[|ls| - 1];
      Fields(ls[..|ls| - 1]) + if IsField(last) then [(FieldName(last), FieldValue(last))] else []
  }

  /** One more line adds its pair when it is a field line, and nothing otherwise. */
  lemma FieldsStep(ls: seq<string>, i: int)
    requires 0 <= i < |ls|
    ensures IsField(ls[i]) ==> Fields(ls[..i + 1]) == Fields(ls[..i]) + [(FieldName(ls[i]), FieldValue(ls[i]))]
    ensures !IsField(ls[i]) ==> Fields(ls[..i + 1]) == Fields(ls[..i])
  {
    assert ls[..i + 1][..i] == ls[..i];
    assert Fields(ls[..i]) + [] == Fields(ls[..i]);
  }

  /** Every field line contributes its pair: the position of the pair that line `i` gave. */
  lemma {:induction false} FieldPosition(ls: seq<string>, i: nat) returns (m: nat)
    requires i < |ls| && IsField(ls[i])
    ensures m < |Fields(ls)| && Fields(ls)[m] == (FieldName(ls[i]), FieldValue(ls[i]))
    decreases |ls|
  {
    var n := |ls| - 1;
    var init := Fields(ls[..n]);
    FieldsExtend(ls);
    if i < n {
      assert ls[..n][i] == ls[i];
      m := FieldPosition(ls[..n], i);
    } else {
      m := |init|;
    }
  }

  /**
   * The pairs of all but the last line are a prefix of the pairs of all
   * lines, followed by the pair of the last line when it is a field line.
   */
  lemma FieldsExtend(ls: seq<string>)
    requires ls != []
    ensures var init := Fields(ls[..|ls| - 1]);
      var last := ls[|ls| - 1];
      && |Fields(ls)| == |init| + (if IsField(last) then 1 else 0)
      && (forall m :: 0 <= m < |init| ==> Fields(ls)[m] == init[m])
      && (IsField(last) ==> Fields(ls)[|init|] == (FieldName(last), FieldValue(last)))
  {
  }

  /** Every pair comes from a field line: the index of the line that gave pair `m`. */
  function FieldOrigin(ls: seq<string>, m: nat): (i: nat)
    requires m < |Fields(ls)|
    ensures i < |ls| && IsField(ls[i])
    ensures Fields(ls)[m] == (FieldName(ls[i]), FieldValue(ls[i]))
    decreases |ls|
  {
    var n := |ls| - 1;
    var init := Fields(ls[..n]);
    if m < |init| then
      var i := FieldOrigin(ls[..n], m);
      assert ls[..n][i] == ls[i];
      i
    else
      n
  }

  /** Every parsed name is the trimmed name of some field line of `ls`. */
  lemma NameFromLine(ls: seq<string>, m: nat) returns (i: nat)
    requires m < |Fields(ls)|
    ensures i < |ls| && IsField(ls[i]) && FieldName(ls[i]) == Keys(Fields(ls))[m]
  {
    i := FieldOrigin(ls, m);
  }

  /** The trimmed name of every field line of `ls` is a parsed name. */
  lemma NameOfLine(ls: seq<string>, i: nat)
    requires i < |ls| && IsField(ls[i])
    ensures FieldName(ls[i]) in Keys(Fields(ls))
  {
    var m := FieldPosition(ls, i);
    assert Keys(Fields(ls))[m] == FieldName(ls[i]);
  }

  /** A name is among the parsed names exactly when some field line of `ls` has that trimmed name. */
  lemma NamesOfFields(ls: seq<string>, k: string)
    ensures k in Keys(Fields(ls)) <==> exists i :: 0 <= i < |ls| && IsField(ls[i]) && FieldName(ls[i]) == k
  {
    var ks := Keys(Fields(ls));
    if k in ks {
      var m :| 0 <= m < |ks| && ks[m] == k;
      var i := NameFromLine(ls, m);
    }
    forall i | 0 <= i < |ls| && IsField(ls[i]) && FieldName(ls[i]) == k
      ensures k in ks
    {
      NameOfLine(ls, i);
    }
  }

  /** The values given for the name `k` among the pairs `ps`, in order. */
  function ValuesFor(ps: seq<(string, string)>, k: string): seq<string>
    decreases |ps|
  {
    if ps == [] then []
    else
      var last := ps[|ps| - 1];
      ValuesFor(ps[..|ps| - 1], k) + if last.0 == k then [last.1] else []
  }

  /** A name has values exactly when some pair carries it. */
  lemma {:induction false} ValuesForNames(ps: seq<(string, string)>, k: string)
    ensures ValuesFor(ps, k) == [] <==> k !in Keys(ps)
    decreases |ps|
  {
    if ps != [] {
      var n := |ps| - 1;
      ValuesForNames(ps[..n], k);
      KeysInit(ps);
    }
  }

  /** The last pair that carries the name `k`: no later pair carries it. */
  function LastPairNamed(ps: seq<(string, string)>, k: string): (i: nat)
    requires k in Keys(ps)
    ensures i < |ps| && ps[i].0 == k
    ensures forall j :: i < j < |ps| ==> ps[j].0 != k
    decreases |ps|
  {
    var n := |ps| - 1;
    if ps[n].0 == k then n
    else
      KeysInit(ps);
      var i := LastPairNamed(ps[..n], k);
      forall j | i < j < |ps|
        ensures ps[j].0 != k
      {
        if j < n {
          assert ps[..n][j] == ps[j];
        }
      }
      i
  }

  /** The last value given for a name is the value of the last pair that carries it. */
  lemma {:induction false} LastValueOfLastPair(ps: seq<(string, string)>, k: string)
    requires k in Keys(ps)
    ensures ValuesFor(ps, k) != []
    ensures ValuesFor(ps, k)[|ValuesFor(ps, k)| - 1] == ps[LastPairNamed(ps, k)].1
    decreases |ps|
  {
    var n := |ps| - 1;
    if ps[n].0 != k {
      KeysInit(ps);
      LastValueOfLastPair(ps[..n], k);
    }
  }

  /** The distinct elements of `s`, each where it first appears. */
  function Dedup(s: seq<string>): (r: seq<string>)
    ensures Distinct(r)
    ensures forall x :: x in r <==> x in s
    decreases |s|
  {
    if s == [] then []
    else
      var d := Dedup(s[..|s| - 1]);
      var x := s[|s| - 1];
      assert forall y :: y in s <==> y in s[..|s| - 1] || y == x by {
        assert s == s[..|s| - 1] + [x];
      }
      if x in d then d else d + [x]
  }

  /** One more element is kept exactly when it has not appeared before. */
  lemma DedupSnoc(s: seq<string>, x: string)
    ensures Dedup(s + [x]) == if x in s then Dedup(s) else Dedup(s) + [x]
  {
    assert (s + [x])[..|s|] == s;
  }
}
