# php-curl-lib in Dafny

This project models the core of the PHP library php-curl-lib and proves properties of that model. The core has two parts:

- `lib/Curl.php`, the request builder. Class `Curl` collects request state through chained mutators:
  - an option table keyed by `CURLOPT_*` constants;
  - a list of request header lines;
  - a URL and a port;
  - two error fields.

  `execute` fills in default options for the keys the caller left unset. It prepares the request for the curl engine and then resets the request state on every exit path. `sendRequest` dispatches on the HTTP verb. `parseHeader` turns a raw header block into a name => value table in which the last value of a repeated name wins.
- `src/CurlResponse.php`, the response record: the raw response, the parsed headers, the body and the status code. Its `parseHeaders` accepts either a raw block or an array of lines. A repeated name does not overwrite the earlier value: all its values are joined with commas, in order, as section 4.2 of RFC 2616 allows.

The project has four modules, one per file:

| file | module | models |
|---|---|---|
| `php.dfy` | `Php` | The PHP runtime the core relies on: `empty()` on strings, `trim`, `explode`/`implode`, `explode(':', $s, 2)`, ASCII `strtoupper`/`strtolower`, int-to-string conversion, and ordered PHP arrays as association lists. |
| `header_fields.dfy` | `HeaderFields` | What both header parsers share: block splitting, field lines, trimmed names and values. It also holds the reference definitions the parsers are proved against: the values given for a name, the last pair carrying a name, the distinct names in order. |
| `curl.dfy` | `CurlLib` | Class `Curl`, with the specification functions its methods are proved against (`SetUrlDraft`, `Staged`, `Overlay`, `Prepared`, `Dispatch`, `Finish`) and the lemmas about them. |
| `curl_response.dfy` | `CurlResponseLib` | `parseHeaders` as a loop proved against the specification function `Combined`, and the response as an immutable datatype with its getters. |

Parsed header tables are PHP arrays, so they are ordered. The model keeps that order: a name sits where it first appeared. The proofs cover the names in that order (`Dedup`) as well as the values.

Behaviour of the code that the model reproduces as written:

- `execute` calls `clear()` before it writes the error message, so:
  - when the URL is empty, the message is always `URL not provided.`, and an `Invalid URL format.` that `setUrl` recorded just before is lost (`lib/Curl.php:258`, `lib/Curl.php:284-285`);
  - the connect-failure message is built from the already reset URL and port, so it always reads `Could not connect to :80` (`lib/Curl.php:328-329`).
- `sendRequest` calls `setUrl` before it looks at the verb (`lib/Curl.php:61`). So when it throws `CurlException` for an unsupported verb, `setUrl` may already have:
  - changed the URL and the port;
  - written `CURLOPT_PORT` and `CURLOPT_USERPWD`;
  - recorded `Invalid URL format.`.

  Apart from that, an unsupported verb writes no option and never reaches `execute`.
- `getHeaders` assigns empty arrays to its `$data` and `$options` arguments inside the call to `head` (`lib/Curl.php:118`). The caller's data and options therefore have no effect; `Curl.GetHeaders` takes them and ignores them.
- Both parsers compare names exactly and case-sensitively, because they use PHP array keys. `CurlResponse` has no case-insensitive lookup and no `withHeader`-style methods: its getters return the stored values as they are.

External calls are parameters of the model:

- What the curl engine does with a request (`curl_init`, `curl_setopt_array`, `curl_exec`, `curl_errno`, `curl_error`) is the parameter `Transfer`:
  - no handle;
  - failure with an errno and a message;
  - a body.
- `Execute` also returns the prepared `Request`: the URL and the final option table. It is what `curl_setopt_array` would receive; under the `NoHandle` outcome the engine never receives it.
- `parse_url($url)` in `setUrl` (`lib/Curl.php:246`) is the parameter `parsed`. It is None exactly when that result is falsy. That is `false`, or the empty array that PHP before 8 returns for "?", "#" or "?#"; `setUrl` then records 'Invalid URL format.'. The query test of `sendRequest` (`lib/Curl.php:101`) is the function `QueryPart` instead.
- `realpath($path)` is the parameter `resolvedCert`.
- The `safe_mode`/`open_basedir` probe is the parameter `followAllowed`.

## Model

| member | source | states |
|---|---|---|
| Php.TrimLeftKeepsSuffix | lib/Curl.php:386 | the left trim keeps a suffix of the text that does not start with a listed character, and strips only listed characters |
| Php.TrimRightKeepsPrefix | lib/Curl.php:386 | the right trim keeps a prefix of the text that does not end with a listed character, and strips only listed characters |
| Php.TrimEnds | lib/Curl.php:383 | `trim` leaves a result that neither starts nor ends with a character of the list |
| Php.TrimIsSlice | lib/Curl.php:386 | `trim` keeps one contiguous piece of the text and strips only listed characters on either side |
| Php.Find | lib/Curl.php:383 | the position found is the first occurrence of the delimiter; None means it occurs nowhere |
| Php.Explode | lib/Curl.php:383 | `explode` gives at least one piece, no piece holds the delimiter, and joining the pieces with the delimiter gives the text back |
| Php.JoinSnoc | src/CurlResponse.php:63 | joining one more value appends the separator and that value |
| Php.IndexOfFirst | lib/Curl.php:384 | the position found holds the character and no earlier position does; None means the character is absent |
| Php.IndexOfAfter | lib/Curl.php:101 | searching past a prefix without the character finds it where it sits in the rest, shifted by the prefix's length |
| Php.SplitOnceParts | lib/Curl.php:385 | `explode(':', $line, 2)` on a line with a colon: the first part holds no colon, and first part, colon and rest give the line back, so the rest may hold colons |
| Php.Upper | lib/Curl.php:167 | `strtoupper` maps every character to its upper-case form, position by position |
| Php.Lower | lib/Curl.php:64 | `strtolower` maps every character to its lower-case form, position by position |
| Php.LowerOfUpper | lib/Curl.php:64 | lower-casing an upper-cased text gives the lower-cased original |
| Php.NatToString | lib/Curl.php:329 | the decimal text of a number is non-empty and made of digits |
| Php.NatToStringRoundTrip | lib/Curl.php:329 | reading the decimal text back gives the number |
| Php.IntToString | lib/Curl.php:360 | the text of an int starts with '-' exactly when the int is negative |
| Php.Get | src/CurlResponse.php:63 | a lookup finds a value exactly when the key is present |
| Php.Put | lib/Curl.php:386 | `$a[$k] = $v`: a present key keeps its position, a new key goes last, the key maps to `v` and every other key is unchanged |
| Php.KeysInit | src/CurlResponse.php:63 | the keys of an array are the keys of all but its last entry, then the last entry's key |
| HeaderFields.BlockLines | lib/Curl.php:383 | the lines of a block: at least one, none holds CRLF, and joined with CRLF they give the block without its outer CR/LF |
| HeaderFields.FieldName | lib/Curl.php:386 | a field's name is the trimmed text before its first colon and holds no colon |
| HeaderFields.FieldsStep | lib/Curl.php:384-387 | a line with a colon adds its (name, value) pair; a line without one adds nothing |
| HeaderFields.FieldPosition | lib/Curl.php:384-386 | every line holding a colon contributes its trimmed pair |
| HeaderFields.FieldsExtend | lib/Curl.php:383-387 | the pairs of the earlier lines come first, followed by the last line's pair when it holds a colon |
| HeaderFields.FieldOrigin | lib/Curl.php:384-386 | every pair comes from a line holding a colon |
| HeaderFields.NameFromLine | lib/Curl.php:386 | every parsed name is the trimmed name of some field line |
| HeaderFields.NameOfLine | lib/Curl.php:386 | the trimmed name of every field line is a parsed name |
| HeaderFields.NamesOfFields | lib/Curl.php:383-387 | a name is parsed if and only if some line holding a colon has it as its trimmed name |
| HeaderFields.ValuesForNames | src/CurlResponse.php:63 | a name has values if and only if some pair carries it |
| HeaderFields.LastPairNamed | lib/Curl.php:386 | the last pair carrying a name: it carries the name and no later pair does |
| HeaderFields.LastValueOfLastPair | lib/Curl.php:386 | the last value given for a name is the value of the last pair carrying it |
| HeaderFields.Dedup | src/CurlResponse.php:58-66 | the distinct names: no repeats, and exactly the names that occur |
| HeaderFields.DedupSnoc | src/CurlResponse.php:63 | one more name is kept exactly when it has not appeared before |
| CurlLib.ParseVerb | lib/Curl.php:64-94 | a method is recognised exactly when its lower-case form is one of get, post, put, patch, delete, head, options, and then as that verb |
| CurlLib.ParseVerbSelects | lib/Curl.php:64 | a method whose lower-case form is a verb's name selects that verb |
| CurlLib.ParseVerbIgnoresCase | lib/Curl.php:64 | the verb switch does not depend on the case of the method name |
| CurlLib.QueryOfRebuilt | lib/Curl.php:101 | on a URL `setUrl` rebuilt, the query test reads back exactly the query that went in, and none when it was empty |
| CurlLib.VerbedKeepsUrl | lib/Curl.php:64-91 | the verb switch leaves the URL and the port as they were |
| CurlLib.StagedPayload | lib/Curl.php:96-103 | post/put/patch/delete store non-empty data under `CURLOPT_POSTFIELDS` and leave the URL alone; get/head/options leave the options alone and append the data after '&' when the URL has a query, after '?' otherwise |
| CurlLib.DefaultKey | lib/Curl.php:289-305 | the seven keys `execute` may fill, in order, each at its own position |
| CurlLib.FillFromStep | lib/Curl.php:289-305 | one filling step writes the default of the key at that position |
| CurlLib.FillFromFirstFour | lib/Curl.php:289-295 | the first four filling steps: RETURNTRANSFER, TIMEOUT, FAILONERROR, then FOLLOWLOCATION when the environment allows it |
| CurlLib.FillFromLastThree | lib/Curl.php:297-305 | the last three steps: MAXREDIRS when redirects are on, HTTPHEADER when there are header lines, HTTP_VERSION when one is configured |
| CurlLib.PreparedUnrolled | lib/Curl.php:289-305 | the prepared option table is the seven conditional writes in source order |
| CurlLib.FollowDecision | lib/Curl.php:297 | the MAXREDIRS decision on the half-filled table is whether redirects are on in the caller's table or allowed by the environment |
| CurlLib.FillFromLeaves | lib/Curl.php:289-305 | a set key, and any key no remaining step fills, leaves the filling unchanged |
| CurlLib.PreparedKeepsSet | lib/Curl.php:289-305 | an option the caller set reaches the engine unchanged: defaults never overwrite |
| CurlLib.PreparedKeepsOthers | lib/Curl.php:289-305 | options other than the seven defaults reach the engine exactly as the caller left them |
| CurlLib.FillFromReaches | lib/Curl.php:289-305 | an unset default key is filled at its own step and keeps that value to the end |
| CurlLib.PreparedFillsDefault | lib/Curl.php:289-305 | an unset default key is set afterwards exactly when it has a default (MAXREDIRS only with redirects on, HTTPHEADER only with header lines, HTTP_VERSION only when configured) and then holds it |
| CurlLib.ErrorText | lib/Curl.php:359-361 | `getError()` is empty exactly when neither the error code nor the message is truthy |
| CurlLib.LastWinsStep | lib/Curl.php:386 | one more field line is one more array assignment |
| CurlLib.LastWinsLine | lib/Curl.php:384-387 | a line holding a colon is one more assignment to the table; any other line leaves it unchanged |
| CurlLib.LastWinsKeys | lib/Curl.php:381-390 | the names of the `parseHeader` table are the distinct field names, each where it first appears |
| CurlLib.LastWinsForHit | lib/Curl.php:386 | a last field carrying the name gives the name that field's value |
| CurlLib.LastWinsForMiss | lib/Curl.php:386 | a last field carrying another name leaves the name's value as it was |
| CurlLib.LastWinsValue | lib/Curl.php:386 | a name maps to the value of the last field carrying it; an absent name maps to nothing |
| CurlLib.ParsedHeader | lib/Curl.php:381-390 | the `parseHeader` table for any block: distinct names, exactly the trimmed names of lines with a colon, each mapping to its last value |
| CurlLib.OverlayLast | lib/Curl.php:146-148 | after `setOptions` a key ends with the value of its last pair |
| CurlLib.OverlayUntouched | lib/Curl.php:146-148 | after `setOptions` a key no pair names keeps its entry or its absence |
| CurlLib.Curl.constructor | lib/Curl.php:36-42 | a new instance has a fresh request state, no error, and the settings the configuration gives |
| CurlLib.Curl.Initialize | lib/Curl.php:392-401 | `_initialize` copies each setting the configuration gives, and an HTTP version only when it is "1.0" or "1.1" |
| CurlLib.Curl.SetOption | lib/Curl.php:130-136 | the option takes the value and no other option changes |
| CurlLib.Curl.SetOptions | lib/Curl.php:142-150 | the table is the old table with the pairs written in order |
| CurlLib.Curl.SetCookies | lib/Curl.php:156-160 | `CURLOPT_COOKIE` holds the cookie string, with array data joined by "; " |
| CurlLib.Curl.HttpMethod | lib/Curl.php:166-170 | `CURLOPT_CUSTOMREQUEST` is the upper-cased method, and exactly one override line is appended after the lines already there |
| CurlLib.Curl.HttpHeaders | lib/Curl.php:177-183 | one line per pair is appended, in order: `name: content`, or the bare name when the content is NULL; earlier lines are unchanged |
| CurlLib.Curl.HttpLogin | lib/Curl.php:192-196 | `CURLOPT_USERPWD` is `user:pass`, and `CURLOPT_HTTPAUTH` is the named `CURLAUTH_` constant only when HTTP auth is requested |
| CurlLib.Curl.SetProxy | lib/Curl.php:204-209 | proxy host and port are written, and the tunnel flag only when CONNECT is asked for |
| CurlLib.Curl.ProxyLogin | lib/Curl.php:216-219 | `CURLOPT_PROXYUSERPWD` is `user:pass` |
| CurlLib.Curl.Secure | lib/Curl.php:227-237 | peer verification on: VERIFYPEER, VERIFYHOST and the CA path when one is given; off: VERIFYPEER false, and VERIFYHOST only for a boolean argument |
| CurlLib.Curl.SetPort | lib/Curl.php:268-274 | the port is stored, and `CURLOPT_PORT` is written only for a port other than 80 and 0 |
| CurlLib.SetUrlDraftTouches | lib/Curl.php:244-262 | `setUrl` never touches the header lines, changes nothing for an empty or unparsable URL, and otherwise sets the rebuilt URL, the port by precedence (argument, parsed port, old port), and of the options only `CURLOPT_PORT` and `CURLOPT_USERPWD` |
| CurlLib.Curl.SetUrl | lib/Curl.php:244-262 | the URL is rebuilt from the parts, the port and the credentials applied; a URL that does not parse records 'Invalid URL format.'; an empty URL changes nothing |
| CurlLib.Curl.Clear | lib/Curl.php:337-346 | headers, options, URL, port and both error fields are reset |
| CurlLib.Curl.FillDefault | lib/Curl.php:289-291 | a default is written only where the key is not set |
| CurlLib.Curl.ApplyDefaults | lib/Curl.php:289-305 | the option table becomes the prepared table of the caller's options |
| CurlLib.Curl.Deliver | lib/Curl.php:307-331 | the state is cleared on every engine outcome; then the reply and error fields are set from the outcome |
| CurlLib.Curl.Execute | lib/Curl.php:280-332 | the prepared request is the URL with the prepared table, or none for an empty URL; reply and error fields follow from it; the request state is reset on every path |
| CurlLib.Curl.ApplyVerb | lib/Curl.php:64-91 | the verb switch: HTTPGET, POST, or a custom method with its override line, plus HEADER/NOBODY for head and HEADER for options |
| CurlLib.Curl.PlacePayload | lib/Curl.php:96-103 | non-empty data goes to `CURLOPT_POSTFIELDS` or onto the URL's query string |
| CurlLib.Curl.SendRequest | lib/Curl.php:60-108 | an unsupported verb throws with only `setUrl`'s effects; a supported one executes the staged request with the caller's options written last and returns what `execute` returns |
| CurlLib.Curl.GetHeaders | lib/Curl.php:116-122 | a HEAD request with empty data and options whose truthy response text is parsed by `parseHeader`, and an empty table otherwise; the error fields are the ones `execute` leaves for that request; the request state is reset |
| CurlLib.Curl.GetError | lib/Curl.php:359-361 | `getError()` is empty exactly when neither the error code nor the message is truthy |
| CurlLib.Curl.ParseHeader | lib/Curl.php:381-390 | the loop builds the table the field lines give when the last value wins |
| CurlResponseLib.CombinedStep | src/CurlResponse.php:59-64 | one more field line is one more combining step |
| CurlResponseLib.CombineKeys | src/CurlResponse.php:63 | combining adds the name at the end when it is new and keeps the names otherwise |
| CurlResponseLib.KeysDedupedStep | src/CurlResponse.php:63 | the last field adds its name to the table exactly when the name is new |
| CurlResponseLib.CombinedKeys | src/CurlResponse.php:58-66 | the names of the `parseHeaders` table are the distinct field names, each where it first appears |
| CurlResponseLib.CombineJoins | src/CurlResponse.php:63 | combining a value for a name already holding its earlier values joined gives all values joined, the new one last |
| CurlResponseLib.CombineOthers | src/CurlResponse.php:63 | combining a value for one name leaves every other name unchanged |
| CurlResponseLib.JoinedForHit | src/CurlResponse.php:63 | a field carrying the name extends the joined values by its value |
| CurlResponseLib.JoinedForMiss | src/CurlResponse.php:63 | a field carrying another name leaves the name's joined values as they were |
| CurlResponseLib.CombinedValue | src/CurlResponse.php:62-63 | a name maps to all its values joined with ',' in order of appearance; an absent name maps to nothing |
| CurlResponseLib.CombinedSingle | src/CurlResponse.php:63 | a name given once maps to its single value unchanged |
| CurlResponseLib.CombinedWhenDistinct | src/CurlResponse.php:63 | when no name repeats, `parseHeaders` and `Curl::parseHeader` build the same table |
| CurlResponseLib.CombinedLine | src/CurlResponse.php:59-64 | a line holding a colon is one more combining step; any other line leaves the table unchanged |
| CurlResponseLib.ParseHeaders | src/CurlResponse.php:56-67 | the loop builds the combined table of the field lines; a block is trimmed of CR/LF and split on CRLF, an array is used as given |
| CurlResponseLib.ParsedHeaders | src/CurlResponse.php:56-67 | the `parseHeaders` table for any input: distinct names, exactly the trimmed names of lines with a colon, each mapping to its values joined with ',' |
| CurlResponseLib.NewResponse | src/CurlResponse.php:17-22 | the getters return the response, body and code as passed and the parsed headers; the string form is the body |

## Left out

- The curl engine and its bookkeeping are left out. `curl_init`, `curl_setopt_array`, `curl_exec`, `curl_getinfo`, `curl_errno`, `curl_error` and `curl_close` are foreign network I/O, and their combined outcome is the parameter `Transfer`. This also covers PHP 8, where `curl_init` returns an object that `is_resource` rejects: that case is the `NoHandle` outcome. `getInfo`, the `$info`, `$request` and `$response` fields are left out too, because they only carry the engine's output.
- `parse_url`, `realpath` and `ini_get` are library and environment calls, so their results are parameters. `parsed` is None for every falsy `parse_url` result, including the empty array of PHP before 8. A caller that maps that empty array to empty parts instead would get the URL "://" from `SetUrlDraft`, where the source reports 'Invalid URL format.'.
- `BuildQuery` does not model the percent-encoding or the nested arrays of `http_build_query`: string escaping is outside the core.
- Option names are not resolved. `constant(...)` at `lib/Curl.php:132` and `lib/Curl.php:193` is reflection. `setOption` is modelled for enumerated and numeric keys only, and `CURLOPT_HTTPAUTH` holds the constant's name (`Const`). An auth type without a matching constant, which PHP reports at run time, is not modelled.
- `Other(code)` does not alias the named `CURLOPT_*` cases: a caller's numeric key equal to a named constant's number stays a separate key in the model, because the constants' numbers come from the extension.
- `_isEnabled` and the constructor's extension check (`lib/Curl.php:37-39`, `lib/Curl.php:403-405`) are environment probes.
- The magic `__call` is not modelled separately, because it only forwards to `sendRequest`.
- Arguments of the wrong PHP type are not modelled, because the model's parameters are typed. This covers:
  - `setOptions` with a non-array, which throws;
  - string ports converted by `intval`;
  - configuration values cast by `(bool)`/`(int)`;
  - `$response`, `$body` and `$code` of any type in `CurlResponse`.
- CurlLib.ErrorText: uses the class name `Curl` in the message; a subclass would print its own name through `get_class($this)`.
- CurlLib.Curl.SendRequest: the exception for an unknown verb names the class `Curl`; a subclass would print its own name through `get_class($this)`.
- `errorCode()` and `errorMsg()` (lib/Curl.php:366-375) only return the two error fields; the model reads the fields `errorCode` and `errorMsg` directly.
- CurlResponseLib.ParseHeaders: keeps every name as a string, while PHP turns a decimal name such as `"123"` into an integer array key. `CurlLib.Curl.ParseHeader` does the same. Lookups by exact name are unaffected.
- CurlLib.QueryPart: reads the query as the text after the first '?' up to any '#'. That is what `parse_url($url, PHP_URL_QUERY)` gives for the URLs `setUrl` rebuilds (`QueryOfRebuilt`), but not for every URL: for `h/p#f?x` PHP finds no query, because the '?' sits in the fragment.
- The option table is a `map`, so it does not keep the insertion order of the PHP array. `curl_setopt_array` applies options in that order; the model does not capture that order.
- `example.php` is a demo script that performs live requests and is not part of this model.
