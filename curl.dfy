/**
 * The request builder of lib/Curl.php: class `Curl`, which collects an option
 * table, a list of request header lines, a URL and a port through chained
 * mutators, prepares one request from them in `execute`, and then resets
 * itself; plus its raw header parser `parseHeader`.
 *
 * The curl engine is not modelled: what it does with a request is a parameter
 * (`Transfer`), and `Execute` reports the request it prepares
 * (`Request`: the URL and the final option table). The `parse_url` call of
 * `setUrl`, `realpath` and the `safe_mode`/`open_basedir` probe are
 * parameters too.
 */
module CurlLib {
  import opened Php
  import opened HeaderFields

  // ---------------------------------------------------------------------------
  // Values held in the option table
  // ---------------------------------------------------------------------------

  /**
   * The `CURLOPT_*` keys the library writes itself, one case each, and
   * `Other(code)` for any other curl option a caller passes by number.
   */
  datatype Opt =
    | HttpGet | Post | CustomRequest | Header | NoBody | PostFields | Cookie
    | HttpAuth | UserPwd | HttpProxyTunnel | Proxy | ProxyPort | ProxyUserPwd
    | SslVerifyPeer | SslVerifyHost | CaInfo | Port
    | ReturnTransfer | Timeout | FailOnError | FollowLocation | MaxRedirs | HttpHeader | HttpVersion
    | Other(code: int)

  /**
   * A PHP value stored in the option table. `Lines` is a list of strings,
   * `Form` a string-keyed array, `Const` a curl constant looked up by name.
   */
  datatype Val =
    | Null
    | Bool(b: bool)
    | Int(i: int)
    | Str(s: string)
    | Lines(items: seq<string>)
    | Form(pairs: seq<(string, string)>)
    | Const(name: string)

  /**
   * The negation of PHP's `empty()`. A `Const` counts as truthy even though
   * some curl constants (`CURLAUTH_NONE`) are 0; Truthy is only consulted for
   * `CURLOPT_FOLLOWLOCATION`, which never holds a `Const`.
   */
  predicate Truthy(v: Val) {
    match v
    case Null => false
    case Bool(b) => b
    case Int(i) => i != 0
    case Str(s) => !EmptyString(s)
    case Lines(items) => items != []
    case Form(pairs) => pairs != []
    case Const(_) => true
  }

  /** `isset($opts[$k])`: the key is present and its value is not NULL. */
  predicate IsSet(opts: map<Opt, Val>, k: Opt) {
    k in opts && opts[k] != Null
  }

  /** The `$data` argument of a request: a key => value array or a ready-made string. */
  datatype Payload = Params(pairs: seq<(string, string)>) | Raw(text: string)

  /** `empty($data)`. */
  predicate PayloadEmpty(data: Payload) {
    match data
    case Params(pairs) => pairs == []
    case Raw(text) => EmptyString(text)
  }

  /** `http_build_query($pairs, NULL, $sep)`, without percent-encoding. */
  function BuildQuery(pairs: seq<(string, string)>, sep: string): string {
    Join(sep, seq(|pairs|, i requires 0 <= i < |pairs| => pairs[i].0 + "=" + pairs[i].1))
  }

  /** The payload as query text: arrays go through `http_build_query`, strings are used as they are. */
  function PayloadQuery(data: Payload): string {
    match data
    case Params(pairs) => BuildQuery(pairs, "&")
    case Raw(text) => text
  }

  /** The payload as the value stored under `CURLOPT_POSTFIELDS`. */
  function PayloadValue(data: Payload): Val {
    match data
    case Params(pairs) => Form(pairs)
    case Raw(text) => Str(text)
  }

  // ---------------------------------------------------------------------------
  // Settings, results and the engine
  // ---------------------------------------------------------------------------

  /** The HTTP versions the constructor accepts, by their configuration names "1.0" and "1.1". */
  datatype Protocol = Http10 | Http11

  function ProtocolConstant(v: Protocol): string {
    match v
    case Http10 => "CURL_HTTP_VERSION_1_0"
    case Http11 => "CURL_HTTP_VERSION_1_1"
  }

  /** `isset($this->http_versions[$name])`, with the value it finds. */
  function ProtocolNamed(name: string): Option<Protocol> {
    if name == "1.0" then Some(Http10)
    else if name == "1.1" then Some(Http11)
    else None
  }

  /** The constructor's configuration array: each entry may be missing. */
  datatype Config = Config(
    timeout: Option<int>,
    strictMode: Option<bool>,
    maxRedirects: Option<int>,
    httpVersion: Option<string>)

  /** The per-instance settings that `execute` turns into defaults. */
  datatype Settings = Settings(timeout: int, strictMode: bool, maxRedirects: int, httpVersion: Option<Protocol>)

  /** The settings an instance starts with. */
  const InitialSettings: Settings := Settings(28, false, 10, None)

  /** The settings after `_initialize($config)`. */
  function Configure(s: Settings, config: Config): Settings {
    Settings(
      if config.timeout.Some? then config.timeout.value else s.timeout,
      if config.strictMode.Some? then config.strictMode.value else s.strictMode,
      if config.maxRedirects.Some? then config.maxRedirects.value else s.maxRedirects,
      if config.httpVersion.Some? && ProtocolNamed(config.httpVersion.value).Some?
      then ProtocolNamed(config.httpVersion.value) else s.httpVersion)
  }

  /** The error code field: '' until the engine reports an errno. */
  datatype CurlCode = Unset | Code(n: int)

  /** What the curl engine does with a request: no handle, a failure with errno and message, or a body. */
  datatype Transfer = NoHandle | Failed(errno: int, message: string) | Delivered(body: string)

  /** What `execute` returns: `false` or the response text. */
  datatype Reply = Fail | Data(body: string)

  /** What `sendRequest` does: throws a `CurlException` or returns what `execute` returned. */
  datatype Outcome = Thrown(message: string) | Returned(reply: Reply)

  /** The request `execute` prepares: the URL for `curl_init($url)` and the table for `curl_setopt_array($options)`. */
  datatype Request = Request(url: string, options: map<Opt, Val>)

  /**
   * The components of a truthy `parse_url` result; a missing string component
   * is "", a missing port 0. A falsy result is None: `false`, and also the
   * empty array that PHP before 8 returns for "?", "#" or "?#".
   */
  datatype UrlParts = UrlParts(
    scheme: string, host: string, path: string, query: string,
    port: int, user: string, pass: Option<string>)

  /** The request state that `clear()` resets: URL, port, header lines and option table. */
  datatype Draft = Draft(url: string, port: int, headers: seq<string>, options: map<Opt, Val>)

  /** The request state of a new or just-cleared instance. */
  const Fresh: Draft := Draft("", 80, [], map[])

  // ---------------------------------------------------------------------------
  // The specification of the mutators and of a request
  // ---------------------------------------------------------------------------

  /** The `CURLOPT_PORT` entry `setPort` writes: only for a port other than 80 and 0. */
  function PortOptions(opts: map<Opt, Val>, port: int): map<Opt, Val> {
    if port != 80 && port != 0 then opts[Port := Int(port)] else opts
  }

  function WithPort(d: Draft, port: int): Draft {
    d.(options := PortOptions(d.options, port), port := port)
  }

  /** The URL `setUrl` rebuilds from the parts: scheme, host, and the path and query when not empty. */
  function Rebuild(p: UrlParts): string {
    p.scheme + "://" + p.host
      + (if EmptyString(p.path) then "" else p.path)
      + (if EmptyString(p.query) then "" else "?" + p.query)
  }

  /**
   * `parse_url` gave a falsy result (None) for a non-empty URL: `setUrl`
   * records 'Invalid URL format.'.
   */
  predicate RejectsUrl(target: string, parsed: Option<UrlParts>) {
    !EmptyString(target) && parsed.None?
  }

  /**
   * The request state after `setUrl($target, $port)`. `parsed` stands for
   * `parse_url($target)`, and is None exactly when that result is falsy.
   */
  function SetUrlDraft(d: Draft, target: string, parsed: Option<UrlParts>, portArg: int): Draft {
    if EmptyString(target) || parsed.None? then d
    else
      var p := parsed.value;
      var d1 := d.(url := Rebuild(p));
      var d2 := if portArg != 0 then WithPort(d1, portArg) else if p.port != 0 then WithPort(d1, p.port) else d1;
      if !EmptyString(p.user) && p.pass.Some?
      then d2.(options := d2.options[UserPwd := Str(p.user + ":" + p.pass.value)])
      else d2
  }

  /**
   * What `setUrl` changes: never the header lines; nothing at all for an
   * empty or unparsable URL; otherwise the URL becomes the rebuilt one, the
   * port the argument, else the parsed port, else the old one, and of the
   * options only `CURLOPT_PORT` and `CURLOPT_USERPWD` may change.
   */
  lemma SetUrlDraftTouches(d: Draft, target: string, parsed: Option<UrlParts>, portArg: int, k: Opt)
    ensures var r := SetUrlDraft(d, target, parsed, portArg);
      && r.headers == d.headers
      && ((EmptyString(target) || parsed.None?) ==> r == d)
      && (!EmptyString(target) && parsed.Some? ==>
          && r.url == Rebuild(parsed.value)
          && r.port == (if portArg != 0 then portArg else if parsed.value.port != 0 then parsed.value.port else d.port))
      && (k != Port && k != UserPwd ==>
          && (k in r.options <==> k in d.options)
          && (k in d.options ==> r.options[k] == d.options[k]))
  {
  }

  /** The header line `httpMethod($m)` appends. */
  function OverrideLine(m: string): string {
    "X-HTTP-Method-Override: " + Upper(m)
  }

  function WithMethod(d: Draft, m: string): Draft {
    d.(options := d.options[CustomRequest := Str(Upper(m))], headers := d.headers + [OverrideLine(m)])
  }

  /** The verbs `sendRequest` supports. */
  datatype Verb = GET | POST | PUT | PATCH | DELETE | HEAD | OPTIONS

  function VerbName(v: Verb): string {
    match v
    case GET => "get"
    case POST => "post"
    case PUT => "put"
    case PATCH => "patch"
    case DELETE => "delete"
    case HEAD => "head"
    case OPTIONS => "options"
  }

  /**
   * `switch(strtolower($method))`: the verb whose lower-case name is the
   * lower-cased method, or None when there is no such verb.
   */
  function ParseVerb(m: string): (r: Option<Verb>)
    ensures r.Some? ==> VerbName(r.value) == Lower(m)
    ensures r.None? ==> forall v: Verb :: VerbName(v) != Lower(m)
  {
    var l := Lower(m);
    if l == "get" then Some(GET)
    else if l == "post" then Some(POST)
    else if l == "put" then Some(PUT)
    else if l == "patch" then Some(PATCH)
    else if l == "delete" then Some(DELETE)
    else if l == "head" then Some(HEAD)
    else if l == "options" then Some(OPTIONS)
    else None
  }

  /** A method name whose lower-case form is a verb's name selects that verb. */
  lemma ParseVerbSelects(m: string, v: Verb)
    requires Lower(m) == VerbName(v)
    ensures ParseVerb(m) == Some(v)
  {
  }

  /** The verb is recognised whatever the case of the method name. */
  lemma ParseVerbIgnoresCase(m: string)
    ensures ParseVerb(Upper(m)) == ParseVerb(m)
  {
    LowerOfUpper(m);
  }

  /** The verbs whose payload travels as `CURLOPT_POSTFIELDS`; the others put it in the URL. */
  predicate SendsBody(v: Verb) {
    v == POST || v == PUT || v == PATCH || v == DELETE
  }

  /**
   * The query test of `sendRequest`, `parse_url($url, PHP_URL_QUERY)`, read
   * as the text after the first '?' up to any '#'. This agrees with
   * `parse_url` on the URLs `setUrl` rebuilds (see `QueryOfRebuilt`), not on
   * every URL: `parse_url` puts a '?' that follows a '#' into the fragment.
   */
  function QueryPart(url: string): Option<string> {
    match IndexOf(url, '?')
    case None => None
    case Some(i) =>
      var rest := url[i + 1..];
      match IndexOf(rest, '#')
      case None => Some(rest)
      case Some(j) => Some(rest[..j])
  }

  /** The URL already has a (non-empty) query, so more parameters follow an '&'. */
  predicate HasQuery(url: string) {
    var q := QueryPart(url);
    q.Some? && !EmptyString(q.value)
  }

  /**
   * On a URL that `setUrl` rebuilt from the parts of `parse_url` (no '?' in
   * scheme, host or path, no '#' in the query), the query test reads back
   * exactly the query that went in, and finds none when it was empty.
   */
  lemma QueryOfRebuilt(p: UrlParts)
    requires '?' !in p.scheme && '?' !in p.host && '?' !in p.path && '#' !in p.query
    ensures QueryPart(Rebuild(p)) == if EmptyString(p.query) then None else Some(p.query)
  {
    var prefix := p.scheme + "://" + p.host + (if EmptyString(p.path) then "" else p.path);
    assert '?' !in prefix;
    IndexOfFirst(p.query, '#');
    if EmptyString(p.query) {
      assert Rebuild(p) == prefix;
      IndexOfFirst(prefix, '?');
    } else {
      assert Rebuild(p) == prefix + ("?" + p.query);
      IndexOfAfter(prefix, "?" + p.query, '?');
      assert Rebuild(p)[|prefix| + 1..] == p.query;
    }
  }

  /** The request state after the verb switch of `sendRequest`. */
  function Verbed(d: Draft, v: Verb, verbText: string): Draft {
    match v
    case GET => d.(options := d.options[HttpGet := Bool(true)])
    case POST => d.(options := d.options[Post := Bool(true)])
    case PUT => WithMethod(d, verbText)
    case PATCH => WithMethod(d, verbText)
    case DELETE => WithMethod(d, verbText)
    case HEAD =>
      var h := WithMethod(d, "head");
      h.(options := h.options[Header := Bool(true)][NoBody := Bool(true)])
    case OPTIONS =>
      var o := WithMethod(d, "options");
      o.(options := o.options[Header := Bool(true)])
  }

  /**
   * The request state after the payload is placed: nothing for an empty
   * payload, `CURLOPT_POSTFIELDS` for a verb with a body, otherwise the URL's
   * query string.
   */
  function Placed(d: Draft, body: bool, data: Payload): Draft {
    if PayloadEmpty(data) then d
    else if body then d.(options := d.options[PostFields := PayloadValue(data)])
    else d.(url := d.url + (if HasQuery(d.url) then "&" else "?") + PayloadQuery(data))
  }

  /** The verb switch touches the options and header lines only: URL and port stay as they were. */
  lemma VerbedKeepsUrl(d: Draft, v: Verb, verbText: string)
    ensures Verbed(d, v, verbText).url == d.url && Verbed(d, v, verbText).port == d.port
  {
  }

  /** The request state after the verb switch and payload placement of `sendRequest`. */
  function Staged(d: Draft, v: Verb, verbText: string, data: Payload): Draft {
    Placed(Verbed(d, v, verbText), SendsBody(v), data)
  }

  /**
   * Where the payload of `sendRequest` goes: a verb with a body stores a
   * non-empty payload under `CURLOPT_POSTFIELDS` and leaves the URL as
   * `setUrl` made it; any other verb leaves the option table as the verb
   * switch made it and appends a non-empty payload to the URL after '&'
   * when it already has a query, after '?' otherwise.
   */
  lemma StagedPayload(d: Draft, v: Verb, verbText: string, data: Payload)
    ensures var s := Staged(d, v, verbText, data);
      var o := Verbed(d, v, verbText).options;
      && s.port == d.port
      && (SendsBody(v) ==>
          && s.url == d.url
          && s.options == if PayloadEmpty(data) then o else o[PostFields := PayloadValue(data)])
      && (!SendsBody(v) ==>
          && s.options == o
          && s.url == if PayloadEmpty(data) then d.url else d.url + (if HasQuery(d.url) then "&" else "?") + PayloadQuery(data))
  {
    VerbedKeepsUrl(d, v, verbText);
  }

  /** The option table after `setOptions($pairs)`: the pairs are written in order. */
  function Overlay(m: map<Opt, Val>, ps: seq<(Opt, Val)>): map<Opt, Val>
    decreases |ps|
  {
    if ps == [] then m
    else
      var last := ps[|ps| - 1];
      Overlay(m, ps[..|ps| - 1])[last.0 := last.1]
  }

  /** The keys `execute` may fill in, in the order it fills them. */
  const DefaultCount: nat := 7

  /** The `i`-th key `execute` fills in. */
  function DefaultKey(i: nat): (k: Opt)
    requires i < DefaultCount
    ensures DefaultRank(k) == i
  {
    if i == 0 then ReturnTransfer
    else if i == 1 then Timeout
    else if i == 2 then FailOnError
    else if i == 3 then FollowLocation
    else if i == 4 then MaxRedirs
    else if i == 5 then HttpHeader
    else HttpVersion
  }

  /** The position of a key among the defaults, or `DefaultCount` for any other key. */
  function DefaultRank(k: Opt): nat {
    match k
    case ReturnTransfer => 0
    case Timeout => 1
    case FailOnError => 2
    case FollowLocation => 3
    case MaxRedirs => 4
    case HttpHeader => 5
    case HttpVersion => 6
    case _ => 7
  }

  /**
   * Redirects are on in the table `execute` prepares: the caller's
   * `CURLOPT_FOLLOWLOCATION` if it is set, otherwise whatever the environment allows.
   */
  predicate FollowsRedirects(opts: map<Opt, Val>, followAllowed: bool) {
    if IsSet(opts, FollowLocation) then Truthy(opts[FollowLocation]) else followAllowed
  }

  /**
   * The default `execute` writes for key `k` when `k` is not set, or None
   * when it writes none: MAXREDIRS only when redirects are on, HTTPHEADER
   * only when there are header lines, HTTP_VERSION only when configured.
   */
  function DefaultFor(k: Opt, opts: map<Opt, Val>, headers: seq<string>, s: Settings, followAllowed: bool): Option<Val> {
    match k
    case ReturnTransfer => Some(Bool(true))
    case Timeout => Some(Int(s.timeout))
    case FailOnError => Some(Bool(s.strictMode))
    case FollowLocation => if followAllowed then Some(Bool(true)) else None
    case MaxRedirs => if FollowsRedirects(opts, followAllowed) then Some(Int(s.maxRedirects)) else None
    case HttpHeader => if headers != [] then Some(Lines(headers)) else None
    case HttpVersion => if s.httpVersion.Some? then Some(Const(ProtocolConstant(s.httpVersion.value))) else None
    case _ => None
  }

  /** Writes `v` under `k` unless `k` is set or there is nothing to write. */
  function Fill(cur: map<Opt, Val>, k: Opt, v: Option<Val>): map<Opt, Val> {
    if IsSet(cur, k) || v.None? then cur else cur[k := v.value]
  }

  /** Fills the default keys from the `i`-th on, with the defaults decided by `opts`. */
  function FillFrom(cur: map<Opt, Val>, i: nat, opts: map<Opt, Val>, headers: seq<string>, s: Settings, followAllowed: bool): map<Opt, Val>
    decreases DefaultCount - i
  {
    if i >= DefaultCount then cur
    else
      var k := DefaultKey(i);
      FillFrom(Fill(cur, k, DefaultFor(k, opts, headers, s, followAllowed)), i + 1, opts, headers, s, followAllowed)
  }

  /** The option table `execute` prepares: the caller's table with each default filled in turn. */
  function Prepared(opts: map<Opt, Val>, headers: seq<string>, s: Settings, followAllowed: bool): map<Opt, Val> {
    FillFrom(opts, 0, opts, headers, s, followAllowed)
  }

  /** One step of the filling: the key at position `i` is filled with its default `v`. */
  lemma FillFromStep(cur: map<Opt, Val>, i: nat, opts: map<Opt, Val>, headers: seq<string>, s: Settings, followAllowed: bool, k: Opt, v: Option<Val>)
    requires i < DefaultCount && DefaultKey(i) == k
    requires DefaultFor(k, opts, headers, s, followAllowed) == v
    ensures FillFrom(cur, i, opts, headers, s, followAllowed) == FillFrom(Fill(cur, k, v), i + 1, opts, headers, s, followAllowed)
  {
  }

  /** The first four steps of the filling, written out. */
  lemma FillFromFirstFour(opts: map<Opt, Val>, headers: seq<string>, s: Settings, followAllowed: bool)
    ensures FillFrom(opts, 0, opts, headers, s, followAllowed) ==
      var o1 := Fill(opts, ReturnTransfer, Some(Bool(true)));
      var o2 := Fill(o1, Timeout, Some(Int(s.timeout)));
      var o3 := Fill(o2, FailOnError, Some(Bool(s.strictMode)));
      FillFrom(Fill(o3, FollowLocation, if followAllowed then Some(Bool(true)) else None), 4, opts, headers, s, followAllowed)
  {
    var f := followAllowed;
    var o1 := Fill(opts, ReturnTransfer, Some(Bool(true)));
    FillFromStep(opts, 0, opts, headers, s, f, ReturnTransfer, Some(Bool(true)));
    var o2 := Fill(o1, Timeout, Some(Int(s.timeout)));
    FillFromStep(o1, 1, opts, headers, s, f, Timeout, Some(Int(s.timeout)));
    var o3 := Fill(o2, FailOnError, Some(Bool(s.strictMode)));
    FillFromStep(o2, 2, opts, headers, s, f, FailOnError, Some(Bool(s.strictMode)));
    var v4 := if f then Some(Bool(true)) else None;
    FillFromStep(o3, 3, opts, headers, s, f, FollowLocation, v4);
  }

  /** The last three steps of the filling, written out. */
  lemma FillFromLastThree(cur: map<Opt, Val>, opts: map<Opt, Val>, headers: seq<string>, s: Settings, followAllowed: bool)
    ensures FillFrom(cur, 4, opts, headers, s, followAllowed) ==
      var o5 := Fill(cur, MaxRedirs, if FollowsRedirects(opts, followAllowed) then Some(Int(s.maxRedirects)) else None);
      var o6 := Fill(o5, HttpHeader, if headers != [] then Some(Lines(headers)) else None);
      Fill(o6, HttpVersion, if s.httpVersion.Some? then Some(Const(ProtocolConstant(s.httpVersion.value))) else None)
  {
    var f := followAllowed;
    var v5 := if FollowsRedirects(opts, f) then Some(Int(s.maxRedirects)) else None;
    FillFromStep(cur, 4, opts, headers, s, f, MaxRedirs, v5);
    var o5 := Fill(cur, MaxRedirs, v5);
    var v6 := if headers != [] then Some(Lines(headers)) else None;
    FillFromStep(o5, 5, opts, headers, s, f, HttpHeader, v6);
    var o6 := Fill(o5, HttpHeader, v6);
    var v7 := if s.httpVersion.Some? then Some(Const(ProtocolConstant(s.httpVersion.value))) else None;
    FillFromStep(o6, 6, opts, headers, s, f, HttpVersion, v7);
  }

  /** The filling written out key by key, in the order `execute` writes the defaults. */
  lemma PreparedUnrolled(opts: map<Opt, Val>, headers: seq<string>, s: Settings, followAllowed: bool)
    ensures Prepared(opts, headers, s, followAllowed) ==
      var o1 := Fill(opts, ReturnTransfer, Some(Bool(true)));
      var o2 := Fill(o1, Timeout, Some(Int(s.timeout)));
      var o3 := Fill(o2, FailOnError, Some(Bool(s.strictMode)));
      var o4 := Fill(o3, FollowLocation, if followAllowed then Some(Bool(true)) else None);
      var o5 := Fill(o4, MaxRedirs, if FollowsRedirects(opts, followAllowed) then Some(Int(s.maxRedirects)) else None);
      var o6 := Fill(o5, HttpHeader, if headers != [] then Some(Lines(headers)) else None);
      Fill(o6, HttpVersion, if s.httpVersion.Some? then Some(Const(ProtocolConstant(s.httpVersion.value))) else None)
  {
    var o1 := Fill(opts, ReturnTransfer, Some(Bool(true)));
    var o2 := Fill(o1, Timeout, Some(Int(s.timeout)));
    var o3 := Fill(o2, FailOnError, Some(Bool(s.strictMode)));
    var o4 := Fill(o3, FollowLocation, if followAllowed then Some(Bool(true)) else None);
    FillFromFirstFour(opts, headers, s, followAllowed);
    FillFromLastThree(o4, opts, headers, s, followAllowed);
  }

  /**
   * The redirect decision `execute` takes on its half-filled table (after the
   * first four defaults) is the one `FollowsRedirects` takes on the caller's table.
   */
  lemma FollowDecision(opts: map<Opt, Val>, timeout: int, strictMode: bool, followAllowed: bool)
    ensures var o3 := Fill(Fill(Fill(opts, ReturnTransfer, Some(Bool(true))), Timeout, Some(Int(timeout))), FailOnError, Some(Bool(strictMode)));
            var o4 := Fill(o3, FollowLocation, if followAllowed then Some(Bool(true)) else None);
            (FollowLocation in o4 && Truthy(o4[FollowLocation])) == FollowsRedirects(opts, followAllowed)
  {
    var o1 := Fill(opts, ReturnTransfer, Some(Bool(true)));
    var o2 := Fill(o1, Timeout, Some(Int(timeout)));
    var o3 := Fill(o2, FailOnError, Some(Bool(strictMode)));
    assert (FollowLocation in o3 <==> FollowLocation in opts) && (FollowLocation in opts ==> o3[FollowLocation] == opts[FollowLocation]);
  }

  /** A set key, and any key no remaining step fills, comes out of the filling unchanged. */
  lemma {:induction false} FillFromLeaves(cur: map<Opt, Val>, i: nat, opts: map<Opt, Val>, headers: seq<string>, s: Settings, followAllowed: bool, k: Opt)
    requires IsSet(cur, k) || forall j :: i <= j < DefaultCount ==> DefaultKey(j) != k
    ensures var r := FillFrom(cur, i, opts, headers, s, followAllowed);
            (k in r <==> k in cur) && (k in cur ==> r[k] == cur[k])
    decreases DefaultCount - i
  {
    if i < DefaultCount {
      var k' := DefaultKey(i);
      FillFromLeaves(Fill(cur, k', DefaultFor(k', opts, headers, s, followAllowed)), i + 1, opts, headers, s, followAllowed, k);
    }
  }

  /** An option the caller set reaches the engine unchanged: no default overrides it. */
  lemma PreparedKeepsSet(opts: map<Opt, Val>, headers: seq<string>, s: Settings, followAllowed: bool, k: Opt)
    requires IsSet(opts, k)
    ensures var p := Prepared(opts, headers, s, followAllowed);
            k in p && p[k] == opts[k]
  {
    FillFromLeaves(opts, 0, opts, headers, s, followAllowed, k);
  }

  /** Keys other than the seven defaults are exactly as the caller left them. */
  lemma PreparedKeepsOthers(opts: map<Opt, Val>, headers: seq<string>, s: Settings, followAllowed: bool, k: Opt)
    requires DefaultRank(k) == DefaultCount
    ensures var p := Prepared(opts, headers, s, followAllowed);
            (k in p <==> k in opts) && (k in opts ==> p[k] == opts[k])
  {
    FillFromLeaves(opts, 0, opts, headers, s, followAllowed, k);
  }

  /** The filling from step `i` on reaches the default at step `m`, which the remaining steps keep. */
  lemma {:induction false} FillFromReaches(cur: map<Opt, Val>, i: nat, opts: map<Opt, Val>, headers: seq<string>, s: Settings, followAllowed: bool, m: nat)
    requires i <= m < DefaultCount && !IsSet(cur, DefaultKey(m))
    ensures var r := FillFrom(cur, i, opts, headers, s, followAllowed);
            var k := DefaultKey(m);
            var v := DefaultFor(k, opts, headers, s, followAllowed);
            (IsSet(r, k) <==> v.Some?) && (v.Some? ==> r[k] == v.value)
    decreases m - i
  {
    var k := DefaultKey(m);
    var k' := DefaultKey(i);
    var next := Fill(cur, k', DefaultFor(k', opts, headers, s, followAllowed));
    assert DefaultRank(k) == m && DefaultRank(k') == i;
    if i < m {
      FillFromReaches(next, i + 1, opts, headers, s, followAllowed, m);
    } else {
      forall j | i + 1 <= j < DefaultCount ensures DefaultKey(j) != k {
        assert DefaultRank(DefaultKey(j)) == j;
      }
      FillFromLeaves(next, i + 1, opts, headers, s, followAllowed, k);
    }
  }

  /** A default key that is not set is set afterwards exactly when it has a default, and then holds that default. */
  lemma PreparedFillsDefault(opts: map<Opt, Val>, headers: seq<string>, s: Settings, followAllowed: bool, m: nat)
    requires m < DefaultCount && !IsSet(opts, DefaultKey(m))
    ensures var p := Prepared(opts, headers, s, followAllowed);
            var k := DefaultKey(m);
            var v := DefaultFor(k, opts, headers, s, followAllowed);
            (IsSet(p, k) <==> v.Some?) && (v.Some? ==> p[k] == v.value)
  {
    FillFromReaches(opts, 0, opts, headers, s, followAllowed, m);
  }

  /** The request `execute` prepares, or None when the URL is empty and it returns early. */
  function Dispatch(d: Draft, s: Settings, followAllowed: bool): Option<Request> {
    if EmptyString(d.url) then None
    else Some(Request(d.url, Prepared(d.options, d.headers, s, followAllowed)))
  }

  /**
   * What `execute` returns and leaves in the error fields. Both messages are
   * written after `clear()`: a missing URL always reads 'URL not provided.'
   * (an earlier 'Invalid URL format.' is gone), and the connect failure names
   * the URL and port as `clear()` left them.
   */
  function Finish(sent: Option<Request>, engine: Transfer): (Reply, CurlCode, string) {
    if sent.None? then (Fail, Unset, "URL not provided.") else Delivery(engine)
  }

  /** What `execute` returns and records once it has prepared a request, by the engine's outcome. */
  function Delivery(engine: Transfer): (Reply, CurlCode, string) {
    match engine
    case NoHandle => (Fail, Unset, "Could not connect to :80")
    case Failed(errno, message) => (Fail, Code(errno), message)
    case Delivered(body) => (Data(body), Unset, "")
  }

  /** An error code counts for `getError` when it is a non-zero errno. */
  predicate CodeTruthy(c: CurlCode) {
    c.Code? && c.n != 0
  }

  function CodeText(c: CurlCode): string {
    match c
    case Unset => ""
    case Code(n) => IntToString(n)
  }

  /** `getError()`: empty exactly when neither error field is truthy. */
  function ErrorText(code: CurlCode, msg: string): (r: string)
    ensures r == "" <==> !CodeTruthy(code) && EmptyString(msg)
  {
    if CodeTruthy(code) || !EmptyString(msg) then "Curl Class Error " + CodeText(code) + ": " + msg
    else ""
  }

  /** The line `httpHeaders` appends for one (name, content) pair: the bare name when the content is NULL. */
  function HeaderLine(pair: (string, Option<string>)): string {
    match pair.1
    case None => pair.0
    case Some(content) => pair.0 + ": " + content
  }

  /** The `$header` argument of `httpHeaders`: one name with its content, or a name => content array. */
  datatype HeaderArg = One(name: string, content: Option<string>) | Many(pairs: seq<(string, Option<string>)>)

  function HeaderPairs(arg: HeaderArg): seq<(string, Option<string>)> {
    match arg
    case One(name, content) => [(name, content)]
    case Many(pairs) => pairs
  }

  /** The table `parseHeader` builds from the field pairs, in order. */
  function LastWins(ps: seq<(string, string)>): Assoc<string, string>
    decreases |ps|
  {
    if ps == [] then []
    else
      var last := ps[|ps| - 1];
      Put(LastWins(ps[..|ps| - 1]), last.0, last.1)
  }

  /** One more pair is one more `Put`. */
  lemma LastWinsStep(ps: seq<(string, string)>, k: string, v: string)
    ensures LastWins(ps + [(k, v)]) == Put(LastWins(ps), k, v)
  {
    assert (ps + [(k, v)])[..|ps|] == ps;
  }

  /** One more line puts its field into the table, when it is a field line. */
  lemma LastWinsLine(lines: seq<string>, i: nat)
    requires i < |lines|
    ensures var before := LastWins(Fields(lines[..i]));
      LastWins(Fields(lines[..i + 1])) ==
        if IsField(lines[i]) then Put(before, FieldName(lines[i]), FieldValue(lines[i])) else before
  {
    FieldsStep(lines, i);
    if IsField(lines[i]) {
      LastWinsStep(Fields(lines[..i]), FieldName(lines[i]), FieldValue(lines[i]));
    }
  }

  /** The names of the table are the distinct field names, each where it first appears. */
  lemma {:induction false} LastWinsKeys(ps: seq<(string, string)>)
    ensures Keys(LastWins(ps)) == Dedup(Keys(ps))
    decreases |ps|
  {
    if ps != [] {
      var n := |ps| - 1;
      LastWinsKeys(ps[..n]);
      KeysInit(ps);
      DedupSnoc(Keys(ps[..n]), ps[n].0);
    }
  }

  /** What `LastWinsValue` states about `ps` and `k`. */
  predicate LastWinsFor(ps: seq<(string, string)>, k: string) {
    Get(LastWins(ps), k) == if k in Keys(ps) then Some(ps[LastPairNamed(ps, k)].1) else None
  }

  /** The step of `LastWinsValue` for a last pair that carries the name: its value replaces the old one. */
  lemma LastWinsForHit(ps: seq<(string, string)>, k: string)
    requires ps != [] && ps[|ps| - 1].0 == k
    ensures LastWinsFor(ps, k)
  {
    KeysInit(ps);
  }

  /** The step of `LastWinsValue` for a last pair that carries another name: nothing changes for `k`. */
  lemma LastWinsForMiss(ps: seq<(string, string)>, k: string)
    requires ps != [] && ps[|ps| - 1].0 != k
    requires LastWinsFor(ps[..|ps| - 1], k)
    ensures LastWinsFor(ps, k)
  {
    var init := ps[..|ps| - 1];
    KeysInit(ps);
    assert Get(LastWins(ps), k) == Get(LastWins(init), k);
    assert k in Keys(ps) <==> k in Keys(init);
  }

  /** A name maps to the value of the last field that carries it, and an absent name to nothing. */
  lemma {:induction false} LastWinsValue(ps: seq<(string, string)>, k: string)
    ensures Get(LastWins(ps), k) == if k in Keys(ps) then Some(ps[LastPairNamed(ps, k)].1) else None
    decreases |ps|
  {
    if ps != [] {
      var n := |ps| - 1;
      if ps[n].0 == k {
        LastWinsForHit(ps, k);
      } else {
        LastWinsValue(ps[..n], k);
        LastWinsForMiss(ps, k);
      }
    }
  }

  /**
   * What the table of `parseHeader` holds, for any raw block: its names are
   * exactly the trimmed names of the field lines, each once, and a name maps
   * to the value of the last field line that carries it.
   */
  lemma ParsedHeader(raw: string, k: string)
    ensures var ls := BlockLines(raw);
      var h := LastWins(Fields(ls));
      && Distinct(Keys(h))
      && (k in Keys(h) <==> exists i :: 0 <= i < |ls| && IsField(ls[i]) && FieldName(ls[i]) == k)
      && (k in Keys(h) <==> k in Keys(Fields(ls)))
      && Get(h, k) == if k in Keys(Fields(ls)) then Some(Fields(ls)[LastPairNamed(Fields(ls), k)].1) else None
  {
    var ls := BlockLines(raw);
    var ps := Fields(ls);
    LastWinsKeys(ps);
    LastWinsValue(ps, k);
    NamesOfFields(ls, k);
  }

  /** A later pair for the same key overrides an earlier one: the key ends with the value of its last pair. */
  lemma {:induction false} OverlayLast(m: map<Opt, Val>, ps: seq<(Opt, Val)>, i: nat)
    requires i < |ps|
    requires forall j :: i < j < |ps| ==> ps[j].0 != ps[i].0
    ensures ps[i].0 in Overlay(m, ps) && Overlay(m, ps)[ps[i].0] == ps[i].1
    decreases |ps|
  {
    var n := |ps| - 1;
    if i < n {
      OverlayLast(m, ps[..n], i);
    }
  }

  /** A key no pair names keeps its entry, or its absence. */
  lemma {:induction false} OverlayUntouched(m: map<Opt, Val>, ps: seq<(Opt, Val)>, k: Opt)
    requires forall j :: 0 <= j < |ps| ==> ps[j].0 != k
    ensures (k in Overlay(m, ps) <==> k in m) && (k in m ==> Overlay(m, ps)[k] == m[k])
    decreases |ps|
  {
    if ps != [] {
      OverlayUntouched(m, ps[..|ps| - 1], k);
    }
  }

  // ---------------------------------------------------------------------------
  // The class
  // ---------------------------------------------------------------------------

  class Curl {
    var url: string
    var port: int
    var headers: seq<string>
    var options: map<Opt, Val>
    var errorCode: CurlCode
    var errorMsg: string
    var timeout: int
    var strictMode: bool
    var maxRedirects: int
    var httpVersion: Option<Protocol>

    /** The request state `clear()` resets. */
    function Current(): Draft
      reads this`url, this`port, this`headers, this`options
    {
      Draft(url, port, headers, options)
    }

    function Configured(): Settings
      reads this`timeout, this`strictMode, this`maxRedirects, this`httpVersion
    {
      Settings(timeout, strictMode, maxRedirects, httpVersion)
    }

    /** `new Curl($config)`: fresh request state, no error, settings from the configuration. */
    constructor (config: Config)
      ensures Current() == Fresh && errorCode == Unset && errorMsg == ""
      ensures Configured() == Configure(InitialSettings, config)
    {
      url, port, headers, options := "", 80, [], map[];
      errorCode, errorMsg := Unset, "";
      timeout, strictMode, maxRedirects, httpVersion := 28, false, 10, None;
      new;
      Initialize(config);
    }

    /** `_initialize($config)`: copies each setting the configuration gives. */
    method Initialize(config: Config)
      modifies this`timeout, this`strictMode, this`maxRedirects, this`httpVersion
      ensures Configured() == Configure(old(Configured()), config)
    {
      if config.timeout.Some? {
        timeout := config.timeout.value;
      }
      if config.strictMode.Some? {
        strictMode := config.strictMode.value;
      }
      if config.maxRedirects.Some? {
        maxRedirects := config.maxRedirects.value;
      }
      if config.httpVersion.Some? && ProtocolNamed(config.httpVersion.value).Some? {
        httpVersion := ProtocolNamed(config.httpVersion.value);
      }
    }

    /** `setOption($option, $value)` for a numeric option key. */
    method SetOption(opt: Opt, value: Val)
      modifies this`options
      ensures options == old(options)[opt := value]
    {
      options := options[opt := value];
    }

    /** `setOptions($pairs)`: each pair in order; a later pair for the same key wins. */
    method SetOptions(ps: seq<(Opt, Val)>)
      modifies this`options
      ensures options == Overlay(old(options), ps)
    {
      for i := 0 to |ps|
        invariant options == Overlay(old(options), ps[..i])
      {
        assert ps[..i + 1][..i] == ps[..i];
        SetOption(ps[i].0, ps[i].1);
      }
      assert ps[..|ps|] == ps;
    }

    /** `setCookies($data)`: an array is joined as name=value pairs separated by "; ". */
    method SetCookies(data: Payload)
      modifies this`options
      ensures options == old(options)[Cookie := Str(match data
                                                   case Params(pairs) => BuildQuery(pairs, "; ")
                                                   case Raw(text) => text)]
    {
      var text := match data
        case Params(pairs) => BuildQuery(pairs, "; ")
        case Raw(t) => t;
      options := options[Cookie := Str(text)];
    }

    /** `httpMethod($m)`: a custom request verb, also announced in one override header line. */
    method HttpMethod(m: string)
      modifies this`options, this`headers
      ensures options == old(options)[CustomRequest := Str(Upper(m))]
      ensures headers == old(headers) + [OverrideLine(m)]
    {
      options := options[CustomRequest := Str(Upper(m))];
      headers := headers + ["X-HTTP-Method-Override: " + Upper(m)];
    }

    /** `httpHeaders($header, $content)`: one line per pair, in order, after the lines already there. */
    method HttpHeaders(arg: HeaderArg)
      modifies this`headers
      ensures |headers| == |old(headers)| + |HeaderPairs(arg)|
      ensures headers[..|old(headers)|] == old(headers)
      ensures forall i :: 0 <= i < |HeaderPairs(arg)| ==> headers[|old(headers)| + i] == HeaderLine(HeaderPairs(arg)[i])
    {
      var pairs := HeaderPairs(arg);
      for i := 0 to |pairs|
        invariant |headers| == |old(headers)| + i
        invariant headers[..|old(headers)|] == old(headers)
        invariant forall j :: 0 <= j < i ==> headers[|old(headers)| + j] == HeaderLine(pairs[j])
      {
        var line := if pairs[i].1.None? then pairs[i].0 else pairs[i].0 + ": " + pairs[i].1.value;
        headers := headers + [line];
      }
    }

    /** `httpLogin($user, $pass, $httpAuth, $authType)`. */
    method HttpLogin(user: string, pass: string, httpAuth: bool, authType: string)
      modifies this`options
      ensures options == (if httpAuth then old(options)[HttpAuth := Const("CURLAUTH_" + Upper(authType))] else old(options))
                         [UserPwd := Str(user + ":" + pass)]
    {
      if httpAuth {
        options := options[HttpAuth := Const("CURLAUTH_" + Upper(authType))];
      }
      options := options[UserPwd := Str(user + ":" + pass)];
    }

    /** `proxy($host, $port, $useConnect)`. */
    method SetProxy(host: string, proxyPort: int, useConnect: bool)
      modifies this`options
      ensures options == (if useConnect then old(options)[HttpProxyTunnel := Bool(true)] else old(options))
                         [Proxy := Str(host)][ProxyPort := Int(proxyPort)]
    {
      if useConnect {
        options := options[HttpProxyTunnel := Bool(true)];
      }
      options := options[Proxy := Str(host)];
      options := options[ProxyPort := Int(proxyPort)];
    }

    /** `proxyLogin($user, $pass)`. */
    method ProxyLogin(user: string, pass: string)
      modifies this`options
      ensures options == old(options)[ProxyUserPwd := Str(user + ":" + pass)]
    {
      options := options[ProxyUserPwd := Str(user + ":" + pass)];
    }

    /**
     * `secure($verifyPeer, $certPath, $verifyHost)`, with `resolvedCert`
     * standing for `realpath($certPath)`.
     */
    method Secure(verifyPeer: bool, certPath: string, resolvedCert: Val, verifyHost: Val)
      modifies this`options
      ensures verifyPeer ==>
        var o := old(options)[SslVerifyPeer := Bool(true)][SslVerifyHost := verifyHost];
        options == if EmptyString(certPath) then o else o[CaInfo := resolvedCert]
      ensures !verifyPeer ==>
        var o := old(options)[SslVerifyPeer := Bool(false)];
        options == if verifyHost.Bool? then o[SslVerifyHost := verifyHost] else o
    {
      if verifyPeer {
        options := options[SslVerifyPeer := Bool(true)];
        options := options[SslVerifyHost := verifyHost];
        if !EmptyString(certPath) {
          options := options[CaInfo := resolvedCert];
        }
      } else {
        options := options[SslVerifyPeer := Bool(false)];
        if verifyHost.Bool? {
          options := options[SslVerifyHost := verifyHost];
        }
      }
    }

    /** `setPort($p)`: stores the port, and a `CURLOPT_PORT` entry unless it is 80 or 0. */
    method SetPort(p: int)
      modifies this`options, this`port
      ensures options == PortOptions(old(options), p) && port == p
    {
      if p != 80 && p != 0 {
        options := options[Port := Int(p)];
      }
      port := p;
    }

    /** `setUrl($target, $portArg)`, with `parsed` standing for `parse_url($target)`. */
    method SetUrl(target: string, parsed: Option<UrlParts>, portArg: int)
      modifies this`url, this`port, this`options, this`errorMsg
      ensures Current() == SetUrlDraft(old(Current()), target, parsed, portArg)
      ensures errorMsg == if RejectsUrl(target, parsed) then "Invalid URL format." else old(errorMsg)
    {
      if !EmptyString(target) {
        match parsed {
          case Some(p) =>
            url := Rebuild(p);
            if portArg != 0 {
              SetPort(portArg);
            } else if p.port != 0 {
              SetPort(p.port);
            }
            if !EmptyString(p.user) && p.pass.Some? {
              HttpLogin(p.user, p.pass.value, false, "any");
            }
          case None =>
            errorMsg := "Invalid URL format.";
        }
      }
    }

    /** `clear()`: resets the request state and both error fields. */
    method Clear()
      modifies this`url, this`port, this`headers, this`options, this`errorCode, this`errorMsg
      ensures Current() == Fresh && errorCode == Unset && errorMsg == ""
    {
      headers := [];
      options := map[];
      url := "";
      port := 80;
      errorCode := Unset;
      errorMsg := "";
    }

    /** `isset($options[$k]) or $options[$k] = $v`. */
    method FillDefault(k: Opt, v: Val)
      modifies this`options
      ensures options == Fill(old(options), k, Some(v))
    {
      if !IsSet(options, k) {
        options := options[k := v];
      }
    }

    /** The defaulting step of `execute`: each default is written only where the key is not set. */
    method ApplyDefaults(followAllowed: bool)
      modifies this`options
      ensures options == Prepared(old(options), headers, Configured(), followAllowed)
    {
      ghost var given := options;
      ghost var s := Configured();
      PreparedUnrolled(given, headers, s, followAllowed);
      FillDefault(ReturnTransfer, Bool(true));
      FillDefault(Timeout, Int(timeout));
      FillDefault(FailOnError, Bool(strictMode));
      if followAllowed {
        FillDefault(FollowLocation, Bool(true));
      }
      FollowDecision(given, s.timeout, s.strictMode, followAllowed);
      if FollowLocation in options && Truthy(options[FollowLocation]) {
        FillDefault(MaxRedirs, Int(maxRedirects));
      }
      if headers != [] {
        FillDefault(HttpHeader, Lines(headers));
      }
      if httpVersion.Some? {
        FillDefault(HttpVersion, Const(ProtocolConstant(httpVersion.value)));
      }
    }

    /**
     * The end of `execute` once the request is out: the state is cleared, and
     * only then are the reply and the error fields set from what the engine did.
     */
    method Deliver(engine: Transfer) returns (r: Reply)
      modifies this`url, this`port, this`headers, this`options, this`errorCode, this`errorMsg
      ensures Current() == Fresh
      ensures (r, errorCode, errorMsg) == Delivery(engine)
    {
      Clear();
      match engine {
        case NoHandle =>
          assert IntToString(port) == "80";
          errorMsg := "Could not connect to " + url + ":" + IntToString(port);
          assert errorMsg == "Could not connect to :80";
          r := Fail;
        case Failed(errno, message) =>
          errorCode := Code(errno);
          errorMsg := message;
          r := Fail;
        case Delivered(body) =>
          r := Data(body);
      }
    }

    /**
     * `execute($target)`: sets the URL, fills in the defaults for unset keys,
     * prepares the request (`sent`), and resets the request state
     * on every path; the error fields are written after the reset.
     */
    method Execute(target: string, parsed: Option<UrlParts>, engine: Transfer, followAllowed: bool)
      returns (r: Reply, sent: Option<Request>)
      modifies this`url, this`port, this`headers, this`options, this`errorCode, this`errorMsg
      ensures sent == Dispatch(SetUrlDraft(old(Current()), target, parsed, 0), Configured(), followAllowed)
      ensures (r, errorCode, errorMsg) == Finish(sent, engine)
      ensures Current() == Fresh
    {
      SetUrl(target, parsed, 0);
      if EmptyString(url) {
        Clear();
        if EmptyString(errorMsg) {
          errorMsg := "URL not provided.";
        }
        return Fail, None;
      }
      ApplyDefaults(followAllowed);
      sent := Some(Request(url, options));
      r := Deliver(engine);
    }

    /** The verb switch of `sendRequest`. */
    method ApplyVerb(verb: Verb, verbText: string)
      modifies this`headers, this`options
      ensures Current() == Verbed(old(Current()), verb, verbText)
    {
      ghost var before := Current();
      match verb {
        case GET =>
          options := options[HttpGet := Bool(true)];
        case POST =>
          options := options[Post := Bool(true)];
        case PUT =>
          HttpMethod(verbText);
        case PATCH =>
          HttpMethod(verbText);
        case DELETE =>
          HttpMethod(verbText);
        case HEAD =>
          HttpMethod("head");
          assert Current() == WithMethod(before, "head");
          options := options[Header := Bool(true)];
          options := options[NoBody := Bool(true)];
        case OPTIONS =>
          HttpMethod("options");
          assert Current() == WithMethod(before, "options");
          options := options[Header := Bool(true)];
      }
    }

    /** The payload placement of `sendRequest`; `postData` says whether the verb carries a body. */
    method PlacePayload(postData: bool, data: Payload)
      modifies this`url, this`options
      ensures Current() == Placed(old(Current()), postData, data)
    {
      if !PayloadEmpty(data) {
        if postData {
          options := options[PostFields := PayloadValue(data)];
        } else {
          url := url + (if HasQuery(url) then "&" else "?") + PayloadQuery(data);
        }
      }
    }

    /**
     * `sendRequest($method, $target, $data, $userOptions)`: sets the URL,
     * applies the verb (throwing for an unsupported one, after `setUrl` has
     * already run), places the payload, writes the caller's options and
     * executes.
     */
    method SendRequest(verbText: string, target: string, parsed: Option<UrlParts>, data: Payload,
                       userOptions: seq<(Opt, Val)>, engine: Transfer, followAllowed: bool)
      returns (outcome: Outcome, sent: Option<Request>)
      modifies this`url, this`port, this`headers, this`options, this`errorCode, this`errorMsg
      ensures ParseVerb(verbText).None? ==>
        && outcome == Thrown("Method '" + verbText + "' not supported by Curl class.")
        && sent == None
        && Current() == SetUrlDraft(old(Current()), target, parsed, 0)
        && errorCode == old(errorCode)
        && errorMsg == (if RejectsUrl(target, parsed) then "Invalid URL format." else old(errorMsg))
      ensures ParseVerb(verbText).Some? ==>
        var staged := Staged(SetUrlDraft(old(Current()), target, parsed, 0), ParseVerb(verbText).value, verbText, data);
        && sent == Dispatch(staged.(options := Overlay(staged.options, userOptions)), Configured(), followAllowed)
        && (outcome, errorCode, errorMsg) == (Returned(Finish(sent, engine).0), Finish(sent, engine).1, Finish(sent, engine).2)
        && Current() == Fresh
    {
      SetUrl(target, parsed, 0);
      var verb := ParseVerb(verbText);
      if verb.None? {
        return Thrown("Method '" + verbText + "' not supported by Curl class."), None;
      }
      ghost var located := Current();
      ApplyVerb(verb.value, verbText);
      PlacePayload(SendsBody(verb.value), data);
      ghost var staged := Current();
      assert staged == Staged(located, verb.value, verbText, data);
      SetOptions(userOptions);
      assert Current() == staged.(options := Overlay(staged.options, userOptions));
      var r;
      r, sent := Execute("", None, engine, followAllowed);
      outcome := Returned(r);
    }

    /**
     * `getHeaders($target, $data, $userOptions)`: a HEAD request whose
     * response text is parsed with `parseHeader`. The caller's data and
     * options are replaced by empty arrays before the request is made, so
     * they have no effect.
     */
    method GetHeaders(target: string, parsed: Option<UrlParts>, data: Payload, userOptions: seq<(Opt, Val)>,
                      engine: Transfer, followAllowed: bool)
      returns (h: Assoc<string, string>)
      modifies this`url, this`port, this`headers, this`options, this`errorCode, this`errorMsg
      ensures
        var staged := Staged(SetUrlDraft(old(Current()), target, parsed, 0), HEAD, "head", Params([]));
        var reply := Finish(Dispatch(staged, Configured(), followAllowed), engine).0;
        h == if reply.Data? && !EmptyString(reply.body) then LastWins(Fields(BlockLines(reply.body))) else []
      ensures
        var staged := Staged(SetUrlDraft(old(Current()), target, parsed, 0), HEAD, "head", Params([]));
        var fin := Finish(Dispatch(staged, Configured(), followAllowed), engine);
        errorCode == fin.1 && errorMsg == fin.2
      ensures Current() == Fresh
    {
      ParseVerbSelects("head", HEAD);
      ghost var staged := Staged(SetUrlDraft(Current(), target, parsed, 0), HEAD, "head", Params([]));
      assert staged.(options := Overlay(staged.options, [])) == staged;
      var outcome, sent := SendRequest("head", target, parsed, Params([]), [], engine, followAllowed);
      h := [];
      if outcome.Returned? && outcome.reply.Data? && !EmptyString(outcome.reply.body) {
        h := ParseHeader(outcome.reply.body);
      }
    }

    /** `getError()`: empty exactly when neither error field is truthy. */
    function GetError(): (r: string)
      reads this
      ensures r == "" <==> !CodeTruthy(errorCode) && EmptyString(errorMsg)
    {
      ErrorText(errorCode, errorMsg)
    }

    /**
     * `parseHeader($raw)`: for every line of the block that holds a colon,
     * stores the trimmed value under the trimmed name; a repeated name keeps
     * its first position and takes its last value.
     */
    method ParseHeader(raw: string) returns (h: Assoc<string, string>)
      ensures h == LastWins(Fields(BlockLines(raw)))
    {
      var lines := BlockLines(raw);
      h := [];
      for i := 0 to |lines|
        invariant h == LastWins(Fields(lines[..i]))
      {
        var line := lines[i];
        LastWinsLine(lines, i);
        if ':' in line {
          h := Put(h, FieldName(line), FieldValue(line));
        }
      }
      assert lines[..|lines|] == lines;
    }
  }
}
