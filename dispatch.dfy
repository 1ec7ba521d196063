/**
 * Server.c's request_handler: the libevent callback that builds the request
 * object, resolves the route, casts the path parameters, parses cookies, the
 * query and the POST body, calls the PHP handler, maps a pending exception and
 * sends the reply.
 */
module Dispatch {
  import opened Wrappers
  import opened Text
  import opened Http
  import opened Zend
  import opened Cookies
  import opened Routing
  import opened Responses

  /**
   * What the handler reads from libevent: the request type, the URI's path and
   * query when they parse, the Cookie, Content-Type and Content-Length header
   * values when present, and the input buffer.
   */
  datatype Input = Input(reqType: int, path: Option<CString>, query: Option<CString>,
                         cookie: Option<CString>, contentType: Option<CString>,
                         contentLength: Option<CString>, body: string)

  /**
   * What calling the PHP handler leaves behind: call_user_function failed, or it
   * succeeded with the request's status as the handler left it, whether the
   * handler sent the reply itself, the return value and a pending exception.
   */
  datatype HandlerOutcome =
    | CallFailed
    | Called(status: int, sent: bool, value: RetVal, thrown: Option<Thrown>)

  /**
   * A handler that throws does not return: call_user_function leaves the return
   * value null. The one exception is an object whose jsonSerialize threw after
   * the handler returned it; that object then gives no JSON text.
   */
  predicate ConsistentOutcome(o: HandlerOutcome) {
    o.Called? && o.thrown.Some? ==> o.value.Null? || (o.value.Object? && o.value.json.None?)
  }

  type Outcome = o: HandlerOutcome | ConsistentOutcome(o) witness CallFailed

  type Table = map<string, Zval>

  /**
   * The request object's state, and what the callback did with it: the status
   * and error message, the uri and query strings, the cookie, GET, POST and
   * file arrays, the parameters handed to the handler, the response body and
   * its length, whether the JSON content type was added, whether the handler
   * sent the reply, whether it was called, the exception pending, and the
   * reply sent at the end (status and body).
   */
  datatype Context = Context(
    status: int, error: Option<string>, uri: Option<string>, query: Option<string>,
    cookies: Option<Table>, get: Option<Table>, post: Option<Table>, files: Option<Table>,
    params: Table, body: string, responseLen: int, json: bool, sent: bool,
    invoked: bool, pending: Option<Thrown>, reply: Option<(int, string)>)

  /**
   * The collaborators the callback calls and this model does not contain: PCRE
   * matching, convert_to_long/double, php_default_treat_data, multipart parsing
   * (the POST array and the file array it may create) and the PHP handler.
   */
  datatype Env = Env(matcher: Matcher, conv: Conversions,
                     treatData: string -> Table,
                     parseMultipart: (string, string) -> (Table, Option<Table>),
                     invoke: (Route, Context) -> Outcome)

  const Initial: Context :=
    Context(0, None, None, None, None, None, None, None, map[], "", 0, false, false, false, None, None)

  const NoPathError := "Cannot determine path of the uri"
  const InvalidPathError := "Detected invalid characters in the URI."

  function NoRouteError(path: CString): string {
    "Cannot determine route for the path '" + path + "'"
  }

  function PostLengthError(actual: int, declared: int): string {
    "Actual POST length " + IntToString(actual) + " does not match Content-Length " + IntToString(declared)
  }

  // ---------------------------------------------------------------------------
  // The callback as a function of its input
  // ---------------------------------------------------------------------------

  /** The declared length: atol of the Content-Length header, 0 without one. */
  function ContentLength(input: Input): int {
    if input.contentLength.Some? then Atol(input.contentLength.value) else 0
  }

  /** The POST body is refused when the buffer is longer than the declared length. */
  predicate PostTooLong(input: Input) {
    input.reqType == EVHTTP_REQ_POST && |input.body| > ContentLength(input)
  }

  /** The route the path resolves to for the request's method, if the router holds it. */
  function FoundRoute(router: Router, input: Input, path: CString, env: Env): Option<Route> {
    var (index, _) := Resolve(router, TypeToMethod(input.reqType), path, env.matcher);
    if index == -1 || index !in router.routes then None else Some(router.routes[index])
  }

  /** The 404 or 405 for a path without a route. */
  function NotFound(router: Router, path: CString, env: Env, c: Context): Context {
    c.(status := NotFoundStatus(router, path, env.matcher), error := Some(NoRouteError(path)))
  }

  /** The casts of the route applied to the resolved parameters; a NUL in a safe path is a 400. */
  function CastParams(route: Route, params: Table, env: Env, c: Context): (r: Context)
    ensures r == c.(params := r.params, status := r.status, error := r.error)
    ensures r.params == CastAll(route.casts, params, env.conv).0
    ensures r.status == if CastAll(route.casts, params, env.conv).1 then 400 else c.status
    ensures r.error == if CastAll(route.casts, params, env.conv).1 then Some(InvalidPathError) else c.error
  {
    var (params', invalid) := CastAll(route.casts, params, env.conv);
    var c' := c.(params := params');
    if invalid then c'.(status := 400, error := Some(InvalidPathError)) else c'
  }

  predicate ScrubbedTable(t: Option<Table>) {
    t.Some? ==> forall k :: k in t.value ==> Scrubbed(t.value[k])
  }

  /** The Cookie header parsed into the cookie array and scrubbed of NUL bytes. */
  function WithCookies(input: Input, c: Context): (r: Context)
    ensures r == c.(cookies := r.cookies)
    ensures input.cookie.Some? ==> r.cookies == Some(CleanAll(StringTable(CookieJar(input.cookie.value))))
    ensures input.cookie.None? ==> r == c
    ensures ScrubbedTable(c.cookies) ==> ScrubbedTable(r.cookies)
  {
    if input.cookie.Some? then c.(cookies := Some(CleanAll(StringTable(CookieJar(input.cookie.value)))))
    else c
  }

  /** The uri set, and the query string parsed into GET and scrubbed. */
  function WithQuery(input: Input, path: CString, env: Env, c: Context): (r: Context)
    ensures r == c.(uri := Some(path), query := r.query, get := r.get)
    ensures input.query.Some? ==> r.query == input.query && r.get == Some(CleanAll(env.treatData(input.query.value)))
    ensures input.query.None? ==> r.query == c.query && r.get == c.get
    ensures ScrubbedTable(c.get) ==> ScrubbedTable(r.get)
  {
    var c' := c.(uri := Some(path));
    if input.query.Some? then
      c'.(query := Some(input.query.value), get := Some(CleanAll(env.treatData(input.query.value))))
    else c'
  }

  /**
   * The POST array for an accepted body with a Content-Type header: filled by
   * multipart parsing (which may also create the file array) or url-encoded
   * parsing, multipart checked first, empty for any other type, and scrubbed.
   */
  function PostData(contentType: CString, input: Input, env: Env, c: Context): (r: Context)
    ensures r == c.(post := r.post, files := r.files)
    ensures r.post.Some? && ScrubbedTable(r.post)
    ensures Contains(contentType, "multipart/form-data") ==>
      var (post, files) := env.parseMultipart(contentType, input.body);
      r.post == Some(CleanAll(post)) && (files.Some? ==> r.files == files) && (files.None? ==> r.files == c.files)
    ensures !Contains(contentType, "multipart/form-data") && Contains(contentType, "application/x-www-form-urlencoded") ==>
      r.post == Some(CleanAll(env.treatData(input.body))) && r.files == c.files
    ensures !Contains(contentType, "multipart/form-data") && !Contains(contentType, "application/x-www-form-urlencoded") ==>
      r.post == Some(map[]) && r.files == c.files
  {
    if Contains(contentType, "multipart/form-data") then
      var (post, files) := env.parseMultipart(contentType, input.body);
      c.(post := Some(CleanAll(post)), files := if files.Some? then files else c.files)
    else if Contains(contentType, "application/x-www-form-urlencoded") then
      c.(post := Some(CleanAll(env.treatData(input.body))))
    else c.(post := Some(CleanAll(map[])))
  }

  /**
   * POST only: a body longer than the declared length is a 400 and no POST
   * array; otherwise a Content-Type header gives the POST array.
   */
  function WithPost(input: Input, env: Env, c: Context): (r: Context)
    ensures r == c.(status := r.status, error := r.error, post := r.post, files := r.files)
    ensures r.status == if PostTooLong(input) then 400 else c.status
    ensures PostTooLong(input) ==> r.post == c.post && r.error == Some(PostLengthError(|input.body|, ContentLength(input)))
    ensures !PostTooLong(input) ==> r.error == c.error
    ensures ScrubbedTable(c.post) ==> ScrubbedTable(r.post)
    ensures input.reqType != EVHTTP_REQ_POST || PostTooLong(input) || input.contentType.None? ==>
      r.post == c.post && r.files == c.files
    ensures input.reqType == EVHTTP_REQ_POST && !PostTooLong(input) && input.contentType.Some? ==>
      r == PostData(input.contentType.value, input, env, c)
  {
    if input.reqType != EVHTTP_REQ_POST then c
    else if PostTooLong(input) then
      c.(status := 400, error := Some(PostLengthError(|input.body|, ContentLength(input))))
    else if input.contentType.None? then c
    else PostData(input.contentType.value, input, env, c)
  }

  /** What the handler's return leaves in the request, the handler not having sent a reply. */
  function TakeReturn(c: Context, value: RetVal): (r: Context)
    ensures r == c.(status := r.status, body := r.body, responseLen := r.responseLen, json := r.json, error := r.error)
    ensures r.responseLen == |r.body| && (r.json ==> r.body != "")
    ensures (r.status, r.body, r.json) ==
      (Respond(c.status, value).status, Respond(c.status, value).body, Respond(c.status, value).json)
    ensures Respond(c.status, value).error.Some? ==> r.error == Respond(c.status, value).error
    ensures Respond(c.status, value).error.None? ==> r.error == c.error
  {
    var o := Respond(c.status, value);
    c.(status := o.status, body := o.body, responseLen := |o.body|, json := o.json,
       error := if o.error.Some? then o.error else c.error)
  }

  /** The handler called with the request and the parameters. */
  function Invoke(route: Route, env: Env, c: Context): (r: Context)
    ensures r == c.(invoked := true, status := r.status, sent := r.sent, pending := r.pending, body := r.body,
                    responseLen := r.responseLen, json := r.json, error := r.error)
    ensures env.invoke(route, c).CallFailed? ==> r == c.(invoked := true)
    ensures env.invoke(route, c).Called? ==> r.pending == env.invoke(route, c).thrown && r.sent == env.invoke(route, c).sent
    ensures r.body != c.body || r.json != c.json ==> r.responseLen == |r.body| && (r.json ==> r.body != "")
    ensures env.invoke(route, c).Called? && env.invoke(route, c).sent ==>
      r.status == env.invoke(route, c).status && r.body == c.body && r.json == c.json && r.error == c.error
    ensures env.invoke(route, c).Called? && !env.invoke(route, c).sent ==>
      var o := Respond(env.invoke(route, c).status, env.invoke(route, c).value);
      (r.status, r.body, r.json) == (o.status, o.body, o.json)
    ensures env.invoke(route, c).Called? && !env.invoke(route, c).sent ==>
      var h := env.invoke(route, c);
      r == TakeReturn(c.(invoked := true, status := h.status, sent := h.sent, pending := h.thrown), h.value)
    ensures env.invoke(route, c).Called? && env.invoke(route, c).sent ==> r.responseLen == c.responseLen
  {
    var c' := c.(invoked := true);
    match env.invoke(route, c)
    case CallFailed => c'
    case Called(status, sent, value, thrown) =>
      var c'' := c'.(status := status, sent := sent, pending := thrown);
      if sent then c'' else TakeReturn(c'', value)
  }

  /** The request data parsed after the casts. */
  function ParseData(input: Input, path: CString, env: Env, c: Context): (r: Context)
    ensures r == c.(status := r.status, error := r.error, post := r.post, files := r.files,
                    cookies := r.cookies, uri := Some(path), query := r.query, get := r.get)
    ensures r.status == if PostTooLong(input) then 400 else c.status
    ensures input.cookie.Some? ==> r.cookies == Some(CleanAll(StringTable(CookieJar(input.cookie.value))))
    ensures input.cookie.None? ==> r.cookies == c.cookies
    ensures PostTooLong(input) ==> r.post == c.post && r.error == Some(PostLengthError(|input.body|, ContentLength(input)))
    ensures !PostTooLong(input) ==> r.error == c.error
    ensures ScrubbedTable(c.cookies) && ScrubbedTable(c.get) && ScrubbedTable(c.post) ==>
              ScrubbedTable(r.cookies) && ScrubbedTable(r.get) && ScrubbedTable(r.post)
  {
    WithPost(input, env, WithQuery(input, path, env, WithCookies(input, c)))
  }

  /** GET is the scrubbed parse of the query when there is one, and stays as it was otherwise. */
  lemma ParseDataQuery(input: Input, path: CString, env: Env, c: Context)
    ensures var r := ParseData(input, path, env, c);
      (input.query.Some? ==> r.query == input.query && r.get == Some(CleanAll(env.treatData(input.query.value)))) &&
      (input.query.None? ==> r.query == c.query && r.get == c.get)
  {
    var c2 := WithQuery(input, path, env, WithCookies(input, c));
    assert ParseData(input, path, env, c).get == c2.get && ParseData(input, path, env, c).query == c2.query;
  }

  /**
   * POST is filled by the content-type dispatch only for an accepted POST body
   * with a Content-Type header, and stays as it was otherwise.
   */
  lemma ParseDataPost(input: Input, path: CString, env: Env, c: Context)
    ensures var r := ParseData(input, path, env, c);
      input.reqType != EVHTTP_REQ_POST || PostTooLong(input) || input.contentType.None? ==>
      r.post == c.post && r.files == c.files
    ensures var r := ParseData(input, path, env, c);
      input.reqType == EVHTTP_REQ_POST && !PostTooLong(input) && input.contentType.Some? ==>
      var p := PostData(input.contentType.value, input, env, c);
      r.post == p.post && r.files == p.files
  {
    var c2 := WithQuery(input, path, env, WithCookies(input, c));
    assert c2.post == c.post && c2.files == c.files;
    assert ParseData(input, path, env, c) == WithPost(input, env, c2);
    if input.reqType == EVHTTP_REQ_POST && !PostTooLong(input) && input.contentType.Some? {
      PostDataOfFiles(input.contentType.value, input, env, c2, c);
    }
  }

  /** The POST step depends on the request object only through its file array. */
  lemma PostDataOfFiles(contentType: CString, input: Input, env: Env, c: Context, d: Context)
    requires c.files == d.files
    ensures PostData(contentType, input, env, c).post == PostData(contentType, input, env, d).post
    ensures PostData(contentType, input, env, c).files == PostData(contentType, input, env, d).files
  {
    if Contains(contentType, "multipart/form-data") {
      var (post, files) := env.parseMultipart(contentType, input.body);
      assert PostData(contentType, input, env, c).post == Some(CleanAll(post));
      assert PostData(contentType, input, env, d).post == Some(CleanAll(post));
    }
  }

  /** The parameters the resolved route receives. */
  function PathParams(router: Router, input: Input, path: CString, env: Env): Table {
    Resolve(router, TypeToMethod(input.reqType), path, env.matcher).1
  }

  /** The request as the handler sees it. */
  function Prepared(router: Router, input: Input, path: CString, env: Env, route: Route, c: Context): Context {
    ParseData(input, path, env, CastParams(route, PathParams(router, input, path, env), env, c))
  }

  /** Everything after a route was found. */
  function Serve(router: Router, input: Input, path: CString, env: Env, route: Route, c: Context): Context {
    var c' := Prepared(router, input, path, env, route, c);
    if c'.status == 0 then Invoke(route, env, c') else c'
  }

  /** A pending exception sets the status and the message, and is cleared. */
  function MapException(c: Context): (r: Context)
    ensures r == c.(status := r.status, error := r.error, pending := None)
    ensures c.pending.Some? ==> (r.status, r.error) == (ExceptionResponse(c.pending.value).0, Some(ExceptionResponse(c.pending.value).1))
    ensures c.pending.None? ==> r == c
  {
    if c.pending.Some? then
      var (status, message) := ExceptionResponse(c.pending.value);
      c.(status := status, error := Some(message), pending := None)
    else c
  }

  /** The reply is sent with the status and the body unless the handler sent one. */
  function SendReply(c: Context): (r: Context)
    ensures r == c.(reply := r.reply)
    ensures r.reply.Some? <==> !c.sent || c.reply.Some?
    ensures !c.sent ==> r.reply == Some((c.status, c.body))
  {
    if c.sent then c else c.(reply := Some((c.status, c.body)))
  }

  /** The request object before the reply: the 400, the 404 or 405, or the served route. */
  function Handled(router: Router, input: Input, env: Env): Context {
    if input.path.None? then Initial.(status := 400, error := Some(NoPathError))
    else
      var path := input.path.value;
      match FoundRoute(router, input, path, env)
      case None => NotFound(router, path, env, Initial)
      case Some(route) => Serve(router, input, path, env, route, Initial)
  }

  /** The request object after the callback, as a function of its input. */
  function Dispatch(router: Router, input: Input, env: Env): Context {
    SendReply(MapException(Handled(router, input, env)))
  }

  // ---------------------------------------------------------------------------
  // The callback as it updates the request object
  // ---------------------------------------------------------------------------

  /** The request object (php_can_server_request) and what the callback records beside it. */
  class Request {
    var status: int
    var error: Option<string>
    var uri: Option<string>
    var query: Option<string>
    var cookies: Option<Table>
    var get: Option<Table>
    var post: Option<Table>
    var files: Option<Table>
    var params: Table
    var body: string
    var responseLen: int
    var json: bool
    var sent: bool
    var invoked: bool
    var pending: Option<Thrown>
    var reply: Option<(int, string)>

    function State(): Context
      reads this
    {
      Context(status, error, uri, query, cookies, get, post, files, params, body, responseLen, json,
              sent, invoked, pending, reply)
    }

    /** object_init_ex: every field zero, empty or unset. */
    constructor ()
      ensures State() == Initial
    {
      status, error, uri, query := 0, None, None, None;
      cookies, get, post, files := None, None, None, None;
      params, body, responseLen, json := map[], "", 0, false;
      sent, invoked, pending, reply := false, false, None, None;
    }

    method Fail(code: int, message: string)
      modifies this
      ensures State() == old(State()).(status := code, error := Some(message))
    {
      status, error := code, Some(message);
    }

    method ParseCookieHeader(input: Input)
      modifies this
      ensures State() == WithCookies(input, old(State()))
    {
      if input.cookie.Some? {
        var jar := ParseCookies(input.cookie.value);
        cookies := Some(CleanAll(StringTable(jar)));
      }
    }

    method ParseQuery(input: Input, path: CString, env: Env)
      modifies this
      ensures State() == WithQuery(input, path, env, old(State()))
    {
      uri := Some(path);
      if input.query.Some? {
        query := Some(input.query.value);
        get := Some(CleanAll(env.treatData(input.query.value)));
      }
    }

    method ParsePost(input: Input, env: Env)
      modifies this
      ensures State() == WithPost(input, env, old(State()))
    {
      if input.reqType == EVHTTP_REQ_POST {
        var bufferLen := |input.body|;
        var contentLen := 0;
        if input.contentLength.Some? {
          contentLen := Atol(input.contentLength.value);
        }
        if bufferLen > contentLen {
          Fail(400, PostLengthError(bufferLen, contentLen));
        } else if input.contentType.Some? {
          ParsePostData(input.contentType.value, input, env);
        }
      }
    }

    method ParsePostData(contentType: CString, input: Input, env: Env)
      modifies this
      ensures State() == PostData(contentType, input, env, old(State()))
    {
      var table: Table := map[];
      if Contains(contentType, "multipart/form-data") {
        var (p, f) := env.parseMultipart(contentType, input.body);
        table := p;
        if f.Some? {
          files := f;
        }
      } else if Contains(contentType, "application/x-www-form-urlencoded") {
        table := env.treatData(input.body);
      }
      post := Some(CleanAll(table));
    }

    method CallHandler(route: Route, env: Env)
      modifies this
      ensures State() == Invoke(route, env, old(State()))
    {
      var outcome := env.invoke(route, State());
      ghost var before := State();
      invoked := true;
      assert State() == before.(invoked := true);
      if outcome.Called? {
        status, sent, pending := outcome.status, outcome.sent, outcome.thrown;
        assert State() == before.(invoked := true, status := outcome.status, sent := outcome.sent,
                                  pending := outcome.thrown);
        if !sent {
          TakeReturnValue(outcome.value);
        }
      }
    }

    method TakeReturnValue(value: RetVal)
      modifies this
      ensures State() == TakeReturn(old(State()), value)
    {
      var o := Respond(status, value);
      ghost var before := State();
      var message := if o.error.Some? then o.error else error;
      status, body, responseLen, json, error := o.status, o.body, |o.body|, o.json, message;
      assert State() == before.(status := o.status, body := o.body, responseLen := |o.body|, json := o.json,
                                error := message);
    }

    method Finish()
      modifies this
      ensures State() == SendReply(MapException(old(State())))
    {
      ghost var before := State();
      if pending.Some? {
        var (code, message) := ExceptionResponse(pending.value);
        status, error, pending := code, Some(message), None;
        assert State() == before.(status := code, error := Some(message), pending := None);
      }
      ghost var mapped := State();
      if !sent {
        reply := Some((status, body));
        assert State() == mapped.(reply := Some((status, body)));
      }
    }
  }

  /** The route found, its casts applied, the request data parsed and the handler called. */
  method ServeRoute(r: Request, router: Router, input: Input, path: CString, env: Env, route: Route,
                    params: Table)
    requires (params == Resolve(router, TypeToMethod(input.reqType), path, env.matcher).1)
    modifies r
    ensures r.State() == Serve(router, input, path, env, route, old(r.State()))
  {
    ghost var before := r.State();
    var casted, invalid := ApplyCasts(route.casts, params, env.conv);
    r.params := casted;
    if invalid {
      r.Fail(400, InvalidPathError);
    }
    ghost var c := r.State();
    assert c == CastParams(route, params, env, before);
    r.ParseCookieHeader(input);
    r.ParseQuery(input, path, env);
    r.ParsePost(input, env);
    assert r.State() == ParseData(input, path, env, c);
    if r.status == 0 {
      r.CallHandler(route, env);
    }
  }

  /** request_handler: the request object it builds and replies with. */
  method HandleRequest(router: Router, input: Input, env: Env) returns (r: Request)
    ensures fresh(r)
    ensures r.State() == Dispatch(router, input, env)
  {
    r := new Request();
    if input.path.None? {
      r.Fail(400, NoPathError);
    } else {
      var path := input.path.value;
      var methodName := TypeToMethod(input.reqType);
      var routeIndex, params := FindRoute(router, methodName, path, env.matcher);
      if routeIndex == -1 || routeIndex !in router.routes {
        var found := FindAnyPattern(router.routeMethods, path, env.matcher);
        r.Fail(if found then 405 else 404, NoRouteError(path));
      } else {
        ServeRoute(r, router, input, path, env, router.routes[routeIndex], params);
      }
    }
    r.Finish();
  }

  // ---------------------------------------------------------------------------
  // Properties
  // ---------------------------------------------------------------------------

  /** The handler runs exactly when the path parses, a route is found, its casts pass and so does the POST length. */
  lemma InvokedIff(router: Router, input: Input, env: Env)
    ensures Dispatch(router, input, env).invoked <==>
      input.path.Some? && FoundRoute(router, input, input.path.value, env).Some? &&
      !CastAll(FoundRoute(router, input, input.path.value, env).value.casts,
               PathParams(router, input, input.path.value, env), env.conv).1 &&
      !PostTooLong(input)
  {
    if input.path.Some? {
      var path := input.path.value;
      var found := FoundRoute(router, input, path, env);
      if found.Some? {
        var c := Prepared(router, input, path, env, found.value, Initial);
        assert c.status == 0 <==>
          !CastAll(found.value.casts, PathParams(router, input, path, env), env.conv).1 && !PostTooLong(input);
        assert !c.invoked;
      }
    }
  }

  /** A URI without a path is answered 400 and nothing else happens. */
  lemma NoPathIsBadRequest(router: Router, input: Input, env: Env)
    requires input.path.None?
    ensures Dispatch(router, input, env) ==
      Initial.(status := 400, error := Some(NoPathError), reply := Some((400, "")))
  {
  }

  /** A path without a route is answered 404, or 405 if another method's pattern matches it. */
  lemma NoRouteIsNotFound(router: Router, input: Input, env: Env)
    requires input.path.Some? && FoundRoute(router, input, input.path.value, env).None?
    ensures var c := Dispatch(router, input, env);
      c == Initial.(status := c.status, error := c.error, reply := c.reply) &&
      c.status == (if PatternExists(router.routeMethods, input.path.value, env.matcher) then 405 else 404) &&
      c.error == Some(NoRouteError(input.path.value)) &&
      c.reply == Some((c.status, ""))
  {
  }

  /** A POST body longer than its declared length is a 400 with no POST array, and no handler call. */
  lemma PostTooLongIsBadRequest(router: Router, input: Input, env: Env)
    requires input.path.Some? && FoundRoute(router, input, input.path.value, env).Some?
    requires PostTooLong(input)
    ensures var c := Dispatch(router, input, env);
      !c.invoked && c.post.None? && c.status == 400 &&
      c.error == Some(PostLengthError(|input.body|, ContentLength(input))) &&
      c.reply == Some((400, ""))
  {
    var path := input.path.value;
    var c := Prepared(router, input, path, env, FoundRoute(router, input, path, env).value, Initial);
    assert c.status == 400 && !c.invoked && c.pending.None? && !c.sent && c.body == "";
  }

  /** A safe-path parameter with a NUL byte is a 400; the request data is still parsed. */
  lemma InvalidPathIsBadRequest(router: Router, input: Input, env: Env)
    requires input.path.Some? && FoundRoute(router, input, input.path.value, env).Some?
    requires CastAll(FoundRoute(router, input, input.path.value, env).value.casts,
                     PathParams(router, input, input.path.value, env), env.conv).1
    requires !PostTooLong(input)
    ensures var c := Dispatch(router, input, env);
      !c.invoked && c.status == 400 && c.error == Some(InvalidPathError) &&
      c.uri == Some(input.path.value) && (input.cookie.Some? <==> c.cookies.Some?) &&
      c.reply == Some((400, ""))
  {
    var path := input.path.value;
    var c := Prepared(router, input, path, env, FoundRoute(router, input, path, env).value, Initial);
    assert c.status == 400 && !c.invoked && c.pending.None? && !c.sent && c.body == "";
  }

  /**
   * No top-level string value of the cookie, GET or POST array holds a NUL
   * byte; nested arrays are not cleaned.
   */
  lemma ParsedDataScrubbed(router: Router, input: Input, env: Env)
    ensures var c := Dispatch(router, input, env);
      ScrubbedTable(c.cookies) && ScrubbedTable(c.get) && ScrubbedTable(c.post)
  {
    var h := Handled(router, input, env);
    assert ScrubbedTable(h.cookies) && ScrubbedTable(h.get) && ScrubbedTable(h.post) by {
      if input.path.Some? {
        var path := input.path.value;
        var found := FoundRoute(router, input, path, env);
        if found.Some? {
          var c := Prepared(router, input, path, env, found.value, Initial);
          assert ScrubbedTable(c.cookies) && ScrubbedTable(c.get) && ScrubbedTable(c.post);
        }
      }
    }
  }

  /** A reply is sent exactly when the handler did not send one, with the final status and body. */
  lemma ReplyUnlessSent(router: Router, input: Input, env: Env)
    ensures var c := Dispatch(router, input, env);
      (c.reply.Some? <==> !c.sent) && (c.reply.Some? ==> c.reply.value == (c.status, c.body)) &&
      (c.sent ==> c.invoked) && c.pending.None?
  {
    var h := Handled(router, input, env);
    assert h.reply.None? && (h.sent ==> h.invoked) by {
      if input.path.Some? {
        var path := input.path.value;
        var found := FoundRoute(router, input, path, env);
        if found.Some? {
          var c := Prepared(router, input, path, env, found.value, Initial);
          assert c.reply.None? && !c.sent;
        }
      }
    }
  }

  /** The handler's outcome, for a request that reaches it. */
  function HandlerCall(router: Router, input: Input, env: Env): Outcome
    requires input.path.Some? && FoundRoute(router, input, input.path.value, env).Some?
  {
    var path := input.path.value;
    var route := FoundRoute(router, input, path, env).value;
    env.invoke(route, Prepared(router, input, path, env, route, Initial))
  }

  /** An exception the handler leaves decides the status and the message. */
  lemma ExceptionDecides(router: Router, input: Input, env: Env, t: Thrown)
    requires input.path.Some? && FoundRoute(router, input, input.path.value, env).Some?
    requires Dispatch(router, input, env).invoked
    requires HandlerCall(router, input, env).Called? && HandlerCall(router, input, env).thrown == Some(t)
    ensures Dispatch(router, input, env).status == ExceptionResponse(t).0
    ensures Dispatch(router, input, env).error == Some(ExceptionResponse(t).1)
  {
    InvokedIff(router, input, env);
    var path := input.path.value;
    var route := FoundRoute(router, input, path, env).value;
    var c := Prepared(router, input, path, env, route, Initial);
    assert c.status == 0;
    assert Handled(router, input, env).pending == Some(t);
  }

  /** A handler that throws leaves no body: the reply carries the exception's status and an empty body. */
  lemma ThrownGivesNoBody(router: Router, input: Input, env: Env, t: Thrown)
    requires input.path.Some? && FoundRoute(router, input, input.path.value, env).Some?
    requires Dispatch(router, input, env).invoked
    requires HandlerCall(router, input, env).Called? && HandlerCall(router, input, env).thrown == Some(t)
    requires !HandlerCall(router, input, env).sent
    ensures Dispatch(router, input, env).reply == Some((ExceptionResponse(t).0, ""))
  {
    ExceptionDecides(router, input, env, t);
    var path := input.path.value;
    var route := FoundRoute(router, input, path, env).value;
    var c := Prepared(router, input, path, env, route, Initial);
    assert c.status == 0 && c.body == "" && !c.sent;
    assert Handled(router, input, env).body == "";
  }

  /**
   * A handler that returns without throwing and without sending decides the
   * reply through the return-value policy: the status and body of Respond on
   * the status it left and the value it returned.
   */
  lemma ReturnDecides(router: Router, input: Input, env: Env, status: int, v: RetVal)
    requires input.path.Some? && FoundRoute(router, input, input.path.value, env).Some?
    requires Dispatch(router, input, env).invoked
    requires HandlerCall(router, input, env) == Called(status, false, v, None)
    ensures Dispatch(router, input, env).reply == Some((Respond(status, v).status, Respond(status, v).body))
  {
    InvokedIff(router, input, env);
    var path := input.path.value;
    var route := FoundRoute(router, input, path, env).value;
    var c := Prepared(router, input, path, env, route, Initial);
    assert c.status == 0 && !c.sent && c.pending.None?;
    assert Handled(router, input, env) == Invoke(route, env, c);
  }

  /** Only a called handler produces a body, and the response length is the body's. */
  lemma BodyNeedsHandler(router: Router, input: Input, env: Env)
    ensures var c := Dispatch(router, input, env);
      (c.body != "" ==> c.invoked) && c.responseLen == |c.body| && (c.json ==> c.body != "")
  {
    var h := Handled(router, input, env);
    assert (h.body != "" ==> h.invoked) && h.responseLen == |h.body| && (h.json ==> h.body != "") by {
      if input.path.Some? {
        var path := input.path.value;
        var found := FoundRoute(router, input, path, env);
        if found.Some? {
          var c := Prepared(router, input, path, env, found.value, Initial);
          assert c.body == "" && c.responseLen == 0 && !c.json;
        }
      }
    }
  }

  /** A handler whose call fails leaves the status at 0, and the reply goes out with status 0. */
  lemma CallFailureRepliesZero(router: Router, input: Input, env: Env)
    requires input.path.Some? && FoundRoute(router, input, input.path.value, env).Some?
    requires Dispatch(router, input, env).invoked
    requires HandlerCall(router, input, env).CallFailed?
    ensures Dispatch(router, input, env).reply == Some((0, ""))
  {
    InvokedIff(router, input, env);
    var path := input.path.value;
    var route := FoundRoute(router, input, path, env).value;
    var c := Prepared(router, input, path, env, route, Initial);
    assert c.status == 0 && c.body == "" && c.pending.None? && !c.sent;
  }

  /** A request type that is no known method resolves under "Unknown", which holds no routes: 404 or 405. */
  lemma UnknownTypeNotFound(router: Router, input: Input, env: Env)
    requires input.path.Some?
    requires forall v :: ReqType(v) != input.reqType
    requires "Unknown" !in router.methodRoutes
    ensures var c := Dispatch(router, input, env);
      !c.invoked && (c.status == 404 || c.status == 405)
  {
    TypeToMethodUnknown(input.reqType);
    NoRouteIsNotFound(router, input, env);
  }

  /** The pattern key of the example route, with its delimiters. */
  const UserPattern := [SOH] + "^/users/(?P<id>\\d+)$" + [SOH]

  const UserPath: CString := "/users/42"

  /** The subpattern array PCRE fills for the example path: the whole match, then "id" under its name and its number. */
  const UserCaptures: seq<(SubpatKey, string)> := [(Numbered(0), "/users/42"), (Named("id"), "42"), (Numbered(1), "42")]

  /** Handler 7, with "id" cast to an integer. */
  const UserRoute := Route(7, [("id", CastInteger)])

  /** One GET route, under the pattern; the pattern is also the global list. */
  const UserRouter := Router(map["GET" := [(UserPattern, 0)]], map[0 := UserRoute], [UserPattern])

  /** GET /users/42, no query, no cookie, no body. */
  const UserInput := Input(1, Some(UserPath), None, None, None, None, "")

  /** A matcher that knows the example pattern, a conversion that reads "42", and a handler that returns "ok". */
  const UserEnv := Env((key: string, path: string) => if key == UserPattern && path == UserPath then Some(UserCaptures) else None,
                       Conversions((v: Zval) => if v == ZString("42") then 42 else 0, (v: Zval) => 0.0),
                       (q: string) => map[],
                       (t: string, b: string) => (map[], None),
                       (route: Route, c: Context) => Called(c.status, false, Str("ok"), None))

  lemma UserCapturesParams()
    ensures AddCaptures(map[], UserCaptures) == map["id" := ZString("42")]
  {
    var captures := UserCaptures;
    assert UrlDecode("42") == "42" by { UrlDecodePlain("42"); }
    assert captures[..2][..1] == captures[..1];
    assert captures[..1][..0] == [];
    assert AddCaptures(map[], captures[..1]) == map[];
    assert AddCaptures(map[], captures[..2]) == map["id" := ZString("42")];
    assert captures[..3] == captures;
  }

  lemma UserResolves()
    ensures Resolve(UserRouter, TypeToMethod(UserInput.reqType), UserPath, UserEnv.matcher) == (0, map["id" := ZString("42")])
    ensures FoundRoute(UserRouter, UserInput, UserPath, UserEnv) == Some(UserRoute)
  {
    assert TypeToMethod(1) == "GET";
    assert UserPath != UserPattern;
    var b := UserRouter.methodRoutes["GET"];
    assert b == [(UserPattern, 0)];
    assert Lookup(b, UserPath) == None;
    assert IsPatternKey(UserPattern);
    assert UserEnv.matcher(UserPattern, UserPath) == Some(UserCaptures);
    UserCapturesParams();
    assert Scan(b, UserPath, UserEnv.matcher, -1, map[]) == (0, map["id" := ZString("42")]);
  }

  lemma UserPrepared()
    ensures var c := Prepared(UserRouter, UserInput, UserPath, UserEnv, UserRoute, Initial);
      c.status == 0 && c.params == map["id" := ZLong(42)] && !c.sent && c.pending.None?
  {
    UserResolves();
    var params := map["id" := ZString("42")];
    assert PathParams(UserRouter, UserInput, UserPath, UserEnv) == params;
    var casts := UserRoute.casts;
    assert casts[0] == ("id", CastInteger) && casts[1..] == [];
    assert UserEnv.conv.toLong(params["id"]) == 42;
    assert params["id" := ZLong(42)] == map["id" := ZLong(42)];
    assert CastAll(casts, params, UserEnv.conv) == CastAll([], map["id" := ZLong(42)], UserEnv.conv);
    assert !PostTooLong(UserInput);
  }

  /**
   * GET /users/42 on a pattern route whose "id" is cast to an integer: the
   * handler runs with id 42 and its "ok" goes out with status 200.
   */
  lemma UserExample()
    ensures var c := Dispatch(UserRouter, UserInput, UserEnv);
      c.invoked && c.params == map["id" := ZLong(42)] && c.reply == Some((200, "ok"))
  {
    UserResolves();
    UserPrepared();
    var c := Prepared(UserRouter, UserInput, UserPath, UserEnv, UserRoute, Initial);
    var served := Invoke(UserRoute, UserEnv, c);
    assert served == TakeReturn(c.(invoked := true, status := 0, sent := false, pending := None), Str("ok"));
    assert Respond(0, Str("ok")) == Outcome(200, "ok", false, None);
    assert Handled(UserRouter, UserInput, UserEnv) == served;
  }
}
