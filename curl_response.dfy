/**
 * The response object of the library: a record of the raw response, the
 * parsed header table, the body and the status code, built once and then only
 * read. Its header parser differs from `Curl::parseHeader` in two ways: it
 * also accepts lines already split into an array, and it does not let a
 * repeated name overwrite the earlier value, but joins the values with commas
 * in the order they arrive (the combining rule of section 4.2 of RFC 2616).
 */
module CurlResponseLib {
  import opened Php
  import opened HeaderFields
  import CurlLib

  /** The `$raw_headers` argument of `parseHeaders`: a raw header block, or an array of lines. */
  datatype RawHeaders = Block(text: string) | Lines(lines: seq<string>)

  /** The lines the parser visits: a block is trimmed of CR/LF and cut at CRLF; an array is used as it is. */
  function InputLines(raw: RawHeaders): seq<string> {
    match raw
    case Block(text) => BlockLines(text)
    case Lines(ls) => ls
  }

  /**
   * One field arriving: a name not yet in the table takes the value; a name
   * already there gets a comma and the value appended to what it holds.
   */
  function Combine(h: Assoc<string, string>, k: string, v: string): Assoc<string, string> {
    match Get(h, k)
    case None => Put(h, k, v)
    case Some(prev) => Put(h, k, prev + "," + v)
  }

  /** Combining adds the name at the end when it is new, and keeps the names otherwise. */
  lemma CombineKeys(h: Assoc<string, string>, k: string, v: string)
    ensures Keys(Combine(h, k, v)) == if k in Keys(h) then Keys(h) else Keys(h) + [k]
  {
  }

  /** The table `parseHeaders` builds from the field pairs, in order. */
  function Combined(ps: seq<(string, string)>): Assoc<string, string>
    decreases |ps|
  {
    if ps == [] then []
    else
      var last := ps[|ps| - 1];
      Combine(Combined(ps[..|ps| - 1]), last.0, last.1)
  }

  /** One more pair is one more `Combine`. */
  lemma CombinedStep(ps: seq<(string, string)>, k: string, v: string)
    ensures Combined(ps + [(k, v)]) == Combine(Combined(ps), k, v)
  {
    assert (ps + [(k, v)])[..|ps|] == ps;
  }

  /** What `CombinedKeys` states about `ps`. */
  predicate KeysDeduped(ps: seq<(string, string)>) {
    Keys(Combined(ps)) == Dedup(Keys(ps))
  }

  /** The step of `CombinedKeys`: the last pair adds its name exactly when the name is new. */
  lemma KeysDedupedStep(ps: seq<(string, string)>)
    requires ps != [] && KeysDeduped(ps[..|ps| - 1])
    ensures KeysDeduped(ps)
  {
    var n := |ps| - 1;
    KeysInit(ps);
    DedupSnoc(Keys(ps[..n]), ps[n].0);
    CombineKeys(Combined(ps[..n]), ps[n].0, ps[n].1);
  }

  /** The names of the table are the distinct field names, each where it first appears. */
  lemma {:induction false} CombinedKeys(ps: seq<(string, string)>)
    ensures Keys(Combined(ps)) == Dedup(Keys(ps))
    decreases |ps|
  {
    if ps != [] {
      var n := |ps| - 1;
      CombinedKeys(ps[..n]);
      KeysDedupedStep(ps);
    }
  }

  /**
   * Combining one more value for a name whose earlier values are already
   * joined in the table gives all the values joined, the new one last.
   */
  lemma CombineJoins(h: Assoc<string, string>, vs: seq<string>, k: string, v: string)
    requires Get(h, k) == if vs == [] then None else Some(Join(",", vs))
    ensures Get(Combine(h, k, v), k) == Some(Join(",", vs + [v]))
  {
    if vs == [] {
      assert vs + [v] == [v];
    } else {
      JoinSnoc(",", vs, v);
    }
  }

  /** Combining a value for one name leaves every other name as it was. */
  lemma CombineOthers(h: Assoc<string, string>, k: string, v: string, other: string)
    requires other != k
    ensures Get(Combine(h, k, v), other) == Get(h, other)
  {
  }

  /** What `CombinedValue` states about `ps` and `k`. */
  predicate JoinedFor(ps: seq<(string, string)>, k: string) {
    Get(Combined(ps), k) == if k in Keys(ps) then Some(Join(",", ValuesFor(ps, k))) else None
  }

  /** The step of `CombinedValue` for a pair that carries the name: its value joins the others. */
  lemma JoinedForHit(ps: seq<(string, string)>, k: string)
    requires ps != [] && ps[|ps| - 1].0 == k
    requires JoinedFor(ps[..|ps| - 1], k)
    ensures JoinedFor(ps, k)
  {
    var init := ps[..|ps| - 1];
    KeysInit(ps);
    ValuesForNames(init, k);
    CombineJoins(Combined(init), ValuesFor(init, k), k, ps[|ps| - 1].1);
  }

  /** The step of `CombinedValue` for a pair that carries another name: nothing changes for `k`. */
  lemma JoinedForMiss(ps: seq<(string, string)>, k: string)
    requires ps != [] && ps[|ps| - 1].0 != k
    requires JoinedFor(ps[..|ps| - 1], k)
    ensures JoinedFor(ps, k)
  {
    var init := ps[..|ps| - 1];
    var last := ps[|ps| - 1];
    KeysInit(ps);
    assert ValuesFor(ps, k) == ValuesFor(init, k) + [];
    assert Combined(ps) == Combine(Combined(init), last.0, last.1);
    CombineOthers(Combined(init), last.0, last.1, k);
    assert Get(Combined(ps), k) == Get(Combined(init), k);
    assert k in Keys(ps) <==> k in Keys(init);
    assert ValuesFor(ps, k) == ValuesFor(init, k);
  }

  /**
   * A name maps to all the values given for it, in order of appearance and
   * separated by commas; a name no field carries has no entry.
   */
  lemma {:induction false} CombinedValue(ps: seq<(string, string)>, k: string)
    ensures Get(Combined(ps), k) == if k in Keys(ps) then Some(Join(",", ValuesFor(ps, k))) else None
    decreases |ps|
  {
    if ps != [] {
      var n := |ps| - 1;
      CombinedValue(ps[..n], k);
      if ps[n].0 == k {
        JoinedForHit(ps, k);
      } else {
        JoinedForMiss(ps, k);
      }
    }
  }

  /** A name given exactly once maps to its single value unchanged. */
  lemma CombinedSingle(ps: seq<(string, string)>, k: string)
    requires |ValuesFor(ps, k)| == 1
    ensures Get(Combined(ps), k) == Some(ValuesFor(ps, k)[0])
  {
    ValuesForNames(ps, k);
    CombinedValue(ps, k);
  }

  /**
   * When no name repeats, the two header parsers of the library build the
   * same table: combining and overwriting only differ on repeated names.
   */
  lemma {:induction false} CombinedWhenDistinct(ps: seq<(string, string)>)
    requires Distinct(Keys(ps))
    ensures Combined(ps) == CurlLib.LastWins(ps)
    decreases |ps|
  {
    if ps != [] {
      var n := |ps| - 1;
      var init := ps[..n];
      KeysInit(ps);
      CombinedWhenDistinct(init);
      CombinedKeys(init);
      assert ps[n].0 !in Keys(init);
      assert Get(Combined(init), ps[n].0) == None;
    }
  }

  /** One more line combines its field into the table, when it is a field line. */
  lemma CombinedLine(lines: seq<string>, i: nat)
    requires i < |lines|
    ensures var before := Combined(Fields(lines[..i]));
      Combined(Fields(lines[..i + 1])) ==
        if IsField(lines[i]) then Combine(before, FieldName(lines[i]), FieldValue(lines[i])) else before
  {
    FieldsStep(lines, i);
    if IsField(lines[i]) {
      CombinedStep(Fields(lines[..i]), FieldName(lines[i]), FieldValue(lines[i]));
    }
  }

  /**
   * `CurlResponse::parseHeaders($raw_headers)`: visits the lines in order,
   * skips those without a colon, and combines each field into the table.
   */
  method ParseHeaders(raw: RawHeaders) returns (h: Assoc<string, string>)
    ensures h == Combined(Fields(InputLines(raw)))
  {
    var lines := InputLines(raw);
    h := [];
    for i := 0 to |lines|
      invariant h == Combined(Fields(lines[..i]))
    {
      var line := lines[i];
      CombinedLine(lines, i);
      if ':' in line {
        var key, value := FieldName(line), FieldValue(line);
        match Get(h, key)
        case None => h := Put(h, key, value);
        case Some(prev) => h := Put(h, key, prev + "," + value);
      }
    }
    assert lines[..|lines|] == lines;
  }

  /**
   * What the parsed table holds, for any input: its names are exactly the
   * trimmed names of the field lines, each once; a name maps to its values
   * joined with commas in order; a line without a colon contributes nothing.
   */
  lemma ParsedHeaders(raw: RawHeaders, k: string)
    ensures var h := Combined(Fields(InputLines(raw)));
      && Distinct(Keys(h))
      && (k in Keys(h) <==> exists i :: 0 <= i < |InputLines(raw)| && IsField(InputLines(raw)[i]) && FieldName(InputLines(raw)[i]) == k)
      && Get(h, k) == if k in Keys(h) then Some(Join(",", ValuesFor(Fields(InputLines(raw)), k))) else None
  {
    var ps := Fields(InputLines(raw));
    CombinedKeys(ps);
    CombinedValue(ps, k);
    NamesOfFields(InputLines(raw), k);
  }

  /** A response: built once, then only read. */
  datatype Response = Response(response: string, headers: Assoc<string, string>, body: string, code: int)
  {
    function GetResponse(): string { response }

    function GetHeaders(): Assoc<string, string> { headers }

    function GetBody(): string { body }

    function GetCode(): int { code }

    /** A response used as a string is its body. */
    function ToString(): string { body }
  }

  /**
   * `new CurlResponse($response, $headers, $body, $code)`: the getters give
   * back the response, body and code as passed, and the header table parsed
   * from the raw headers; the string form is the body.
   */
  method NewResponse(response: string, rawHeaders: RawHeaders, body: string, code: int) returns (r: Response)
    ensures r.GetResponse() == response
    ensures r.GetHeaders() == Combined(Fields(InputLines(rawHeaders)))
    ensures r.GetBody() == body && r.ToString() == body
    ensures r.GetCode() == code
  {
    var headers := ParseHeaders(rawHeaders);
    r := Response(response, headers, body, code);
  }
}
