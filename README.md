# Can server request pipeline, in Dafny

The Can extension is a PHP HTTP server written in C on top of libevent. This
project models its per-request core: the libevent callback `request_handler`
in `Server.c`, with `typeToMethod`, `cleanUp` and `parse_cookies`. The
callback does the following in order:

- It takes the URI's path. A missing path is a 400.
- It resolves the route for the request's method. An exact entry in the
  method's route hash wins. Otherwise the hash's pattern keys are tried in
  stored order, and the first that matches decides; its named captures,
  URL-decoded, become the parameters.
- With no route, it scans every registered pattern. The answer is 405 when
  one matches the path, 404 otherwise.
- It applies the route's declared casts: integer, double and safe-path. A
  NUL byte in a safe-path parameter is a 400 and stops the casts.
- It parses the Cookie header, the query string and, for POST, the body.
  A body longer than its Content-Length is a 400.
- NUL bytes are removed from the top-level string values of the cookie, GET
  and POST arrays.
- It calls the PHP handler only while the status is still 0.
- It turns the returned value into the response: 200 by default, a string
  body, JSON from a `JsonSerializable` object, and 500 naming the type of
  anything else.
- It maps a pending exception to a status and a message: an `HTTPError`'s own
  code, otherwise 500.
- It sends the reply unless the handler sent one.

Two classes of the bundled Porter example application are also modelled:

- `UpstreamRoute`: building a route from a configuration entry, with a
  `"GET|POST"` method mask, auth-level validation, and the 403 access rule of
  its handler.
- `Session`: its `"\1"`-separated serialization and its magic accessors.

Modules, one per file:

| file | module | models |
|---|---|---|
| `wrappers.dfy` | `Wrappers` | `Option`, `Result` |
| `text.dfy` | `Text` | byte-string helpers with C/PHP semantics: NUL removal, C strings, explode/join, substr_count, strstr, php_url_decode, atol, `%ld` |
| `http.dfy` | `Http` | the request methods, libevent's numbering, `typeToMethod` |
| `zend.dfy` | `Zend` | PHP values and `cleanUp` |
| `cookies.dfy` | `Cookies` | `parse_cookies`, as a specification and as the strtok loop |
| `routing.dfy` | `Routing` | the route table, exact and pattern resolution, the 405/404 scan, the cast loop |
| `responses.dfy` | `Responses` | return value to response, exception to status and message |
| `dispatch.dfy` | `Dispatch` | `request_handler`: the function `Dispatch` on values, and the imperative `HandleRequest` that updates a `Request` object and is proved equal to it |
| `upstream_route.dfy` | `UpstreamRouting` | Porter's `UpstreamRoute` |
| `session.dfy` | `Sessions` | Porter's `Session` |

The model follows the code where the code and the design description differ:

- The safe-path cast checks only for a NUL byte (`CHECK_ZVAL_NULL_PATH`). It
  does not look for path traversal.
- After a failed safe-path cast the callback still parses cookies, the query
  and the POST body. Only the handler call is skipped.
- The Content-Length guard skips only the POST body. Cookies and the query are
  already parsed by then.
- A method's routes are one ordered PHP hash, as in the C code. Literal paths
  are keys. Patterns are keys that begin with the `"\1"` delimiter.

Collaborators that are not part of this model are parameters of type `Env`:

- PCRE compile-and-match;
- `convert_to_long_ex` and `convert_to_double_ex`;
- `php_default_treat_data`;
- multipart parsing;
- the PHP handler call, with `jsonSerialize`. Its outcome is constrained as PHP constrains it: a handler that throws returns null, unless the exception came from the `jsonSerialize` of the object it returned, which then gives no JSON text.

`php_url_decode` is written out, after PHP's definition: `'+'` becomes a
space, and `%XY` with two hex digits becomes that byte.

## Model

| member | source | states |
|---|---|---|
| Text.StripNul | Server.c:122-132 | the scrubbed string holds no NUL byte and is no longer than the original |
| Text.StripNulAppend | Server.c:124-125 | scrubbing distributes over concatenation, so the kept bytes stay in their order |
| Text.StripNulWithoutNul | Server.c:126-130 | a string without NUL is left exactly as it is |
| Text.StripNulCounts | Server.c:124-125 | every byte other than NUL keeps its number of occurrences; NUL occurs zero times |
| Text.CPrefix | Server.c:162-165 | the C string a buffer holds is its prefix up to, and excluding, the first NUL |
| Text.CPrefixWithoutNul | Server.c:165 | a buffer without NUL is its own C string |
| Text.Explode | examples/Porter/Session.php:50 | explode yields at least one piece, and no piece contains the separator |
| Text.Count | examples/Porter/Session.php:46 | substr_count is at most the length, and 0 exactly when the byte is absent |
| Text.JoinExplode | examples/Porter/Session.php:50-55 | joining the pieces of an explode gives back the string |
| Text.ExplodeJoin | examples/Porter/Session.php:39-55 | explode undoes join when no piece contains the separator |
| Text.ExplodeLength | examples/Porter/Session.php:46-50 | explode yields one more piece than the string has separators |
| Text.CountJoin | examples/Porter/Session.php:39-46 | a join of n separator-free pieces holds n - 1 separators |
| Text.ExplodeWithoutSep | examples/Porter/UpstreamRoute.php:114-115 | a string without the separator explodes to itself alone |
| Text.ExplodeAtSep | examples/Porter/UpstreamRoute.php:114-115 | a separator after a separator-free prefix ends the first piece there |
| Text.ContainsAt | Server.c:366-368 | strstr finds a needle exactly when it occurs at some position |
| Text.UrlDecode | Server.c:162-163 | URL decoding never lengthens the text |
| Text.UrlDecodePlain | Server.c:252-253 | text without '%' and '+' decodes to itself |
| Text.AtolIntToString | Server.c:354-360 | atol reads back every number "%ld" prints |
| Http.TypeToMethod | Server.c:90-104 | the name of a request type is the name of the method with that libevent number |
| Http.TypeToMethodInjective | Server.c:92-101 | distinct methods have distinct numbers and names, and none is named "Unknown" |
| Http.TypeToMethodUnknown | Server.c:102 | "Unknown" is returned exactly for numbers that are no method's |
| Zend.CleanUp | Server.c:109-135 | the result is scrubbed; it is a string iff the input is, its text is the input's without NUL bytes, non-strings (arrays included) are unchanged, a scrubbed value is unchanged |
| Zend.CleanAll | Server.c:332 | applying cleanUp over a hash keeps its keys and scrubs each entry |
| Zend.CleanAllIdempotent | Server.c:122-132 | cleaning a cleaned hash changes nothing |
| Cookies.FindChar | Server.c:144 | strchr's result is the first occurrence, or none when the byte is absent |
| Cookies.Tokens | Server.c:141-178 | strtok's tokens are non-empty and hold no ';' |
| Cookies.LeadingSpace | Server.c:149-151 | the trimmed prefix is white space and is followed by a non-space byte or the end |
| Cookies.ParseToken | Server.c:144-176 | a kept token's name is the decoded text from the end of the leading white space to the first '=' (or the end), cut at its first NUL; its value is the decoded text after the first '=', or "" without one |
| Cookies.TrimmedName | Server.c:149-166 | white space, a name not starting with white space and free of '=', then '=' and a value give the decoded name, cut at its first NUL, and the decoded value |
| Cookies.AddCookie | Server.c:144-176 | the per-token loop body adds what the token specification adds |
| Cookies.ParseCookies | Server.c:137-182 | the strtok loop builds exactly the cookie jar of its header |
| Cookies.ParseTokenDrops | Server.c:153-155 | a token is dropped exactly when the bytes before its first '=', or all of it, are white space |
| Cookies.ParseTokenWithoutValue | Server.c:167-175 | a token without '=' is kept with the empty value |
| Cookies.TokensAppend | Server.c:141-178 | the tokens of two texts joined by ';' are the tokens of each in turn |
| Cookies.TokensOfToken | Server.c:141-178 | a non-empty text without ';' is one token |
| Cookies.AddTokensAppend | Server.c:165-174 | adding two runs of tokens is adding one after the other |
| Cookies.AddTokensUntouched | Server.c:165-174 | names no token carries keep their earlier value |
| Cookies.AddTokensLastWins | Server.c:165-174 | a name takes the value of its last token |
| Cookies.CookieJarAbsent | Server.c:137-182 | a name no token carries is not in the jar |
| Cookies.CookieJarLaterWins | Server.c:165-174 | a later cookie overwrites an earlier one of the same name |
| Cookies.ParseTokenExampleA | Server.c:144-166 | "a=1" gives a and 1 |
| Cookies.ParseTokenExampleB | Server.c:144-166 | " b=2" gives b and 2 |
| Cookies.ParseTokenExampleC | Server.c:167-175 | " c" gives c and the empty value |
| Cookies.CookieJarExample | Server.c:137-182 | "a=1; b=2; c" gives a:1, b:2 and c with the empty value |
| Routing.Lookup | Server.c:230-234 | a key lookup finds no entry iff no entry has the key, otherwise an entry's index |
| Routing.CopyNamedCaptures | Server.c:250-256 | the subpattern loop adds what the capture specification adds |
| Routing.FindRoute | Server.c:228-267 | route lookup with its break yields the index and parameters of the resolution specification |
| Routing.FindAnyPattern | Server.c:273-296 | the global scan finds a match iff some pattern key matches the path |
| Routing.CastAll | Server.c:305-323 | the casts keep the parameter keys |
| Routing.ApplyCasts | Server.c:305-323 | the cast loop with its break gives the parameters and the flag of the cast specification |
| Routing.ExactRouteWins | Server.c:232-234 | an exact entry is chosen with no parameters, whatever patterns also match |
| Routing.LookupFirst | Server.c:232 | the lookup returns the first entry with the key |
| Routing.ScanFirstMatch | Server.c:237-265 | the scan takes the first matching pattern and its captures only |
| Routing.ScanNoMatch | Server.c:237-265 | with no matching pattern the scan changes nothing |
| Routing.FirstPatternWins | Server.c:235-266 | without an exact entry, the first matching pattern in stored order decides, with its named captures |
| Routing.NoRouteResolves | Server.c:230-267 | a method without routes, or without a matching one, resolves to index -1 and no parameters |
| Routing.AddCapturesKeys | Server.c:250-256 | the parameter keys are exactly the names of the named captures |
| Routing.AddCapturesValue | Server.c:250-256 | a named capture with no later capture of its name leaves its URL-decoded text as that parameter |
| Routing.CastsOfAbsentNames | Server.c:309 | casts of absent parameters are no-ops |
| Routing.CastsKeepUndeclared | Server.c:308-322 | a parameter no cast names keeps its value |
| Routing.CastAllAppend | Server.c:308-322 | the cast loop over two runs is the first run, then the second unless the first failed |
| Routing.SafePathStops | Server.c:314-319 | a safe-path parameter with a NUL flags the request, and the later casts are not applied |
| Responses.EffectiveStatus | Server.c:391-393 | a status left at 0 becomes 200; any other is kept |
| Responses.TypeName | Server.c:428-435 | the type names in the message are non-empty lower-case words |
| Responses.TypeNameAsWritten | Server.c:428-435 | the source's names differ from the intended ones only for booleans |
| Responses.Respond | Server.c:390-437 | the 500 carries a type-naming message and an empty body; a non-empty body comes only with a 2xx and no error; null gives an empty body and no error; under 2xx an object's non-empty JSON text is the body with the JSON type, which goes with no other body |
| Responses.RespondAsWritten | Server.c:426-436 | the response as written has the same status and body, and names the type as the source spells it |
| Responses.Int32 | Server.c:464 | the (int) cast gives the low 32 bits as a signed number, and keeps numbers already in range |
| Responses.FormatString | Server.c:455-465 | "%s" prints a string up to its first NUL |
| Responses.ExceptionResponse | Server.c:449-467 | an HTTPError gives its code (500 without one) and its message ("Unknown" without one); another exception gives 500 |
| Responses.UncaughtMessage | Server.c:461-466 | another exception's message starts by naming its class, ends with its own message, and names the file and the line, truncated to an int, in between |
| Responses.RespondFailsIff | Server.c:394-437 | the 500 is given exactly for a 2xx status and a value other than a string, null or usable JSON |
| Responses.RespondString | Server.c:395-399 | a string returned under 2xx is the body, with the status unchanged |
| Responses.RespondIgnoresValue | Server.c:394 | outside 2xx the value does not reach the response |
| Responses.RespondExamples | Server.c:390-437 | "ok" becomes 200 "ok", null becomes 200 with an empty body, an integer becomes 500 naming "integer", and a 404 keeps no body |
| Responses.BooleanNameAsWritten | Server.c:433 | the source's boolean message ends in three extra bytes after "boolean" |
| Responses.LineNumberTruncated | Server.c:464 | a line number past 32 bits prints truncated |
| Dispatch.CastParams | Server.c:305-323 | only the parameters, status and error change: a failed safe-path gives 400 and its message |
| Dispatch.WithCookies | Server.c:325-333 | only the cookie array changes: it is the scrubbed jar of the header, when there is one |
| Dispatch.WithQuery | Server.c:335-346 | the uri is the path; with a query string, the query is recorded and GET is its parse with NUL bytes removed; without one, the query and GET stay as they were |
| Dispatch.PostData | Server.c:362-376 | a multipart type, checked first, gives the scrubbed multipart fields as POST and its file array when one is created; otherwise a url-encoded type gives the scrubbed parse of the body; any other type gives an empty POST; nothing else changes |
| Dispatch.WithPost | Server.c:349-378 | an oversized body gives 400 and its message, with POST untouched; an accepted POST with a Content-Type is the POST step; anything else leaves POST and the files as they were |
| Dispatch.TakeReturn | Server.c:390-437 | the status, body and JSON flag are those of the return-value policy on the request's status and the value; its error, when it gives one, replaces the old; the response length is the body's |
| Dispatch.Invoke | Server.c:380-444 | a failed call only marks the handler as called; otherwise the pending exception and the sent flag are the handler's; a handler that sent its reply keeps its own status and adds no body or length; otherwise the status, body, JSON flag, response length and "must return a string" error are the return step's on the handler's status and value |
| Dispatch.ParseData | Server.c:325-378 | the uri is the path; the cookie array (the scrubbed jar of the header), the query, GET and POST are replaced only when their input is present, otherwise kept; the status becomes 400 exactly for an oversized POST |
| Dispatch.ParseDataQuery | Server.c:335-346 | after the parse step GET is the scrubbed parse of the query, or unchanged without a query |
| Dispatch.ParseDataPost | Server.c:349-378 | after the parse step POST and the files come from the content-type dispatch for an accepted POST with a Content-Type, and are unchanged otherwise |
| Dispatch.MapException | Server.c:449-469 | a pending exception gives its status and message and is cleared; otherwise nothing changes |
| Dispatch.SendReply | Server.c:471-474 | a reply with the status and body is sent exactly when the handler sent none |
| Dispatch.Request.constructor | Server.c:204-208 | a new request object is all zero and unset |
| Dispatch.Request.Fail | Server.c:218-219 | the status and error are set, and nothing else changes |
| Dispatch.Request.ParseCookieHeader | Server.c:325-333 | the strtok parse and cleanUp update the object as the cookie step specifies |
| Dispatch.Request.ParseQuery | Server.c:336-346 | updates the object as the query step specifies |
| Dispatch.Request.ParsePost | Server.c:349-378 | the length guard and POST parse update the object as the POST step specifies |
| Dispatch.Request.ParsePostData | Server.c:362-376 | the content-type dispatch updates the object as the POST-array step specifies |
| Dispatch.Request.CallHandler | Server.c:389-441 | the handler call updates the object as the call step specifies |
| Dispatch.Request.TakeReturnValue | Server.c:394-437 | the return-value handling updates the object as the return step specifies |
| Dispatch.Request.Finish | Server.c:449-474 | the exception mapping and reply update the object as those steps specify |
| Dispatch.ServeRoute | Server.c:300-445 | casts, parsing and the gated call update the object as the serving step specifies |
| Dispatch.HandleRequest | Server.c:215-474 | the imperative callback leaves the new request object equal to the dispatch specification |
| Dispatch.InvokedIff | Server.c:269-380 | the handler runs exactly when the path parses, a route is found, no safe-path cast fails and the POST length is accepted |
| Dispatch.NoPathIsBadRequest | Server.c:215-220 | a URI without a path is answered 400 with its message and nothing else happens |
| Dispatch.NoRouteIsNotFound | Server.c:269-298 | without a route: 405 if any pattern matches, else 404; the message names the path, and nothing is parsed or called |
| Dispatch.PostTooLongIsBadRequest | Server.c:349-361 | an oversized POST is a 400 with its message and no POST array, and the handler is not called |
| Dispatch.InvalidPathIsBadRequest | Server.c:314-346 | a NUL in a safe path is a 400 and no call, yet the uri and cookies are still taken |
| Dispatch.ParsedDataScrubbed | Server.c:332-375 | no top-level string value of the cookie, GET or POST array holds a NUL byte |
| Dispatch.ReplyUnlessSent | Server.c:471-474 | a reply is sent exactly when the handler sent none, with the final status and body; no exception stays pending |
| Dispatch.ExceptionDecides | Server.c:449-468 | an exception from the handler decides the final status and message |
| Dispatch.ThrownGivesNoBody | Server.c:389-474 | a handler that throws and sends nothing gets a reply with the exception's status and an empty body |
| Dispatch.ReturnDecides | Server.c:389-474 | a handler that returns without throwing or sending gets the reply of the return-value policy on its status and value |
| Dispatch.BodyNeedsHandler | Server.c:395-419 | only a called handler produces a body; the response length is the body's, and JSON implies a body |
| Dispatch.CallFailureRepliesZero | Server.c:389-474 | when call_user_function fails, the reply goes out with status 0 and no body |
| Dispatch.UnknownTypeNotFound | Server.c:228-230 | a request type that is no method finds no route: 404 or 405, and no call |
| Dispatch.UserExample | Server.c:237-399 | GET /users/42 on an integer-cast pattern calls the handler with id 42 and replies 200 "ok" |
| UpstreamRouting.MethodFlag | examples/Porter/UpstreamRoute.php:123-148 | each verb's flag is a single bit |
| UpstreamRouting.VerbNamed | examples/Porter/UpstreamRoute.php:119-150 | a name is recognised exactly when it spells a verb |
| UpstreamRouting.MethodNames | examples/Porter/UpstreamRoute.php:114-115 | both branches amount to explode on '\|' |
| UpstreamRouting.ParseMethods | examples/Porter/UpstreamRoute.php:117-151 | the foreach yields the mask the fold specification accumulates |
| UpstreamRouting.UpstreamRoute.constructor | examples/Porter/UpstreamRoute.php:41-47 | a new route has its pattern, no methods, auth level 0 and no server |
| UpstreamRouting.UpstreamRoute.SetServer | examples/Porter/UpstreamRoute.php:54-58 | stores the server, changes nothing else, returns the same object |
| UpstreamRouting.UpstreamRoute.SetRouteMethod | examples/Porter/UpstreamRoute.php:81-85 | stores the mask, returns the same object |
| UpstreamRouting.UpstreamRoute.SetAuthLevel | examples/Porter/UpstreamRoute.php:66-74 | throws exactly when 15 & v is 0, changing nothing; otherwise stores v unchanged and returns the same object |
| UpstreamRouting.UpstreamRoute.Access | examples/Porter/UpstreamRoute.php:177-184 | 403 exactly without a session on a route whose level has the AUTH bit; otherwise "http://" + server + uri |
| UpstreamRouting.UpstreamRoute.FromConfig | examples/Porter/UpstreamRoute.php:94-169 | fails with the configuration function's message; no route when the builder threw; else a fresh route with the specified state |
| UpstreamRouting.AllIsUnion | examples/Porter/UpstreamRoute.php:121-148 | METHOD_ALL is the union of the distinct verb flags |
| UpstreamRouting.AddMethodWithinAll | examples/Porter/UpstreamRoute.php:119-150 | one switch pass keeps the mask inside METHOD_ALL |
| UpstreamRouting.MaskWithinAll | examples/Porter/UpstreamRoute.php:117-151 | the mask never has bits outside METHOD_ALL |
| UpstreamRouting.MaskHasVerb | examples/Porter/UpstreamRoute.php:117-151 | a verb's bit is set iff some name is "*" or that verb |
| UpstreamRouting.AddMethodHasVerb | examples/Porter/UpstreamRoute.php:119-150 | one switch pass sets a verb's bit iff it was set, or the name is "*" or that verb |
| UpstreamRouting.AddMethodZero | examples/Porter/UpstreamRoute.php:119-150 | a pass leaves 0 iff the mask was 0 and the name is no verb and not "*" |
| UpstreamRouting.MaskZero | examples/Porter/UpstreamRoute.php:117-157 | the mask is 0, and the definition refused, iff no name is "*" or a verb |
| UpstreamRouting.StarGivesAll | examples/Porter/UpstreamRoute.php:120-122 | "*" anywhere gives every method |
| UpstreamRouting.GetPostExample | examples/Porter/UpstreamRoute.php:114-151 | "GET\|POST" gives the GET and POST flags |
| UpstreamRouting.ConfigureFails | examples/Porter/UpstreamRoute.php:96-157 | configuration fails iff a key is missing or no method is named; the missing keys are reported in the order pattern, method, auth level |
| UpstreamRouting.ConfigureBuilds | examples/Porter/UpstreamRoute.php:159-168 | with valid keys, an invalid auth level yields no route and a valid one the route with its mask and level |
| UpstreamRouting.ValidAuthLevelBits | examples/Porter/UpstreamRoute.php:66-70 | a level is accepted iff one of its low four bits is set; every named level but AUTH_LEVEL_NONE is accepted, and so is every level that requires authentication |
| Sessions.AsString | examples/Porter/Session.php:39-41 | concatenation keeps strings and fails only for objects |
| Sessions.Encode | examples/Porter/Session.php:37-42 | serialization is the join of the three fields with "\1" |
| Sessions.Decode | examples/Porter/Session.php:44-58 | the reject branch is taken exactly for more than two separators |
| Sessions.JoinThree | examples/Porter/Session.php:39-41 | the join of three pieces is the chained concatenation |
| Sessions.Session.constructor | examples/Porter/Session.php:15-21 | stores id, user id (default "ANON") and payload (default "{}") and the provider |
| Sessions.Session.Get | examples/Porter/Session.php:23-28 | declared properties give their value; other names give null |
| Sessions.Session.Set | examples/Porter/Session.php:30-35 | a declared property takes the value, no other name changes, and undeclared names change nothing |
| Sessions.Session.Serialize | examples/Porter/Session.php:37-42 | serialize is the encoding of the stored fields |
| Sessions.Session.Unserialize | examples/Porter/Session.php:44-58 | no session exactly for the reject branch; otherwise a fresh session with the decoded fields and the provider |
| Sessions.DecodeEncode | examples/Porter/Session.php:37-58 | three strings without "\1" survive serialize then unserialize |
| Sessions.NullUserIdReadsEmpty | examples/Porter/Session.php:39-54 | a null user id comes back as the empty string |
| Sessions.EncodeDecode | examples/Porter/Session.php:37-58 | data with exactly two separators re-serializes to itself |
| Sessions.DecodeParts | examples/Porter/Session.php:50-56 | the fields are the first piece, the second (null when absent) and the third ("" when absent) |
| Sessions.TooManySeparators | examples/Porter/Session.php:46-48 | data with three separators takes the reject branch |
| Sessions.CountAppend | examples/Porter/Session.php:46 | substr_count distributes over concatenation |

## Left out

- The server's lifecycle (construction, `start`/`stop`, the libevent loop, module hooks) is plumbing around the callback.
- Logging (the log entry from `Server.c:478` on), `gettimeofday` and the request time are stream I/O, clock access and floating point.
- PCRE, `convert_to_long_ex`, `convert_to_double_ex`, `php_default_treat_data`, multipart parsing, `call_user_function` and `jsonSerialize` are foreign code. They are `Env` parameters, and the handler's effect is the `HandlerOutcome` datatype.
- `evhttp_find_header` and `evhttp_uri_get_path`/`_query` are not modelled. The `Input` record holds their results.
- Dispatch.Invoke: of the handler's changes to the request object, only the status and the sent flag are modelled. A `response_len` the handler sets itself is not; it starts at 0.
- Responses.Respond: assumes `HAVE_JSON` and a successful `evhttp_add_header`. The branch where adding the Content-Type header fails is not modelled.
- Exceptions raised outside the handler call (for example by a conversion) are not modelled. Only the handler leaves one pending.
- Text.Atol: does not model overflow of `long`. Buffer and declared lengths are unbounded integers, and so is the status.
- Dispatch.ParsedDataScrubbed: `cleanUp` is applied to the top-level entries only, as in the source, so a nested array value (a query `a[]=%00`, say) keeps its NUL bytes.
- Zend.CleanUp: the in-place replacement of the hash entry's string is modelled as a function on values, so aliasing of the entry is not captured.
- Insertion order of the PHP arrays built per request (cookies, GET, POST, parameters) is not modelled; they are maps. The route hash and the global pattern list keep their order.
- Memory management (`efree`, reference counts, `zval_ptr_dtor`) does not affect the result.
- The C `Route` class is not part of this model. Its constructor is taken to store the pattern, `setMethod` to store the mask, and the `METHOD_*` flags to be libevent's single-bit numbers with `METHOD_ALL` as their union.
- UpstreamRouting.UpstreamRoute.FromConfig: the swallowed exception's message is echoed; that output is not modelled. An unset server is modelled as "", which is what concatenating a null gives.
- Auth levels are 64-bit two's-complement PHP integers, the operands of `&`. A configured value of another PHP type, which `&` would first convert, is not modelled.
- UpstreamRouting.UpstreamRoute.Access: assumes that the `HTTPError` thrown at `examples/Porter/UpstreamRoute.php:180` is `\Can\HTTPError`, so that the callback answers with its code 403. The file is in namespace `Porter` and imports only `Request` and `Route`, so PHP resolves the name to `Porter\HTTPError`. `Porter\HTTPError` is not part of this model; if no such class exists, that line fails with a class-not-found error instead of a 403.
- `handleRequest`'s session lookup through `SessionProvider` is a Boolean parameter. The `HTTPForward` code after its first `return` is unreachable and is not modelled.
- `\Can\Server::ANNON_USERID` is not part of this model. The value "ANON" is taken from Porter's own `Server.php`.
- Sessions.Session.Unserialize: the reject branch calls the constructor without its required arguments, which PHP refuses at run time. It is modelled as no session.
- `Session::save`/`delete`, `SessionProvider.php`, `Upstream.php` and Porter's `Server.php` only delegate to memcached, the network or the configuration files.
- PHP values in `Session` are limited to null, strings, integers and objects. An object has no string form, so serializing one fails.

## Findings

| source | as written | input that shows it | evidently intended | confidence | as-written member | corrected member |
|---|---|---|---|---|---|---|
| Server.c:433 | the type name for a boolean return is "boolean" followed by the bytes E2 80 9A (a UTF-8 low quotation mark) | a handler returning `true` under status 0: the 500 message ends in "boolean" plus three stray bytes | the message names the type "boolean", like the other type names | not executed | Responses.RespondAsWritten (shown by Responses.BooleanNameAsWritten) | Responses.Respond (with Responses.TypeName); the request pipeline (Dispatch.TakeReturn, Dispatch.Request.TakeReturnValue, hence Dispatch.HandleRequest) uses it, so it gives the intended "boolean" message |
