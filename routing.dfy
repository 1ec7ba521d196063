/**
 * Route resolution and parameter casts of Server.c's request_handler: an exact
 * lookup in the method's route hash, then its patterns in stored order, the
 * global pattern scan that tells 405 from 404, and the declared casts.
 */
module Routing {
  import opened Wrappers
  import opened Text
  import opened Zend

  // ---------------------------------------------------------------------------
  // The route table
  // ---------------------------------------------------------------------------

  /** A PCRE match-result key: every group by number, a named group also by name. */
  datatype SubpatKey = Numbered(n: nat) | Named(name: string)

  /**
   * Compiling the pattern key and running it on the path: the subpatterns when
   * it compiles and matches, None when it does not compile or does not match.
   */
  type Matcher = (string, string) -> Option<seq<(SubpatKey, string)>>

  /** A declared cast: IS_LONG, IS_DOUBLE, IS_PATH or any other code. */
  datatype CastKind = CastInteger | CastDouble | CastSafePath | CastOther(code: int)

  /** A route object: its handler (an opaque callable) and its casts hash in order. */
  datatype Route = Route(handler: nat, casts: seq<(string, CastKind)>)

  /**
   * A PHP hash from key to route index, in insertion order. Literal paths are
   * stored under the path itself, patterns under a key that starts with "\1"
   * (the regular expression's delimiter).
   */
  type Bucket = seq<(string, int)>

  /**
   * The router: `methodRoutes` maps a method name to its hash, `routes` maps a
   * route index to the route, `routeMethods` lists the keys of the global hash
   * of all patterns in order.
   */
  datatype Router = Router(methodRoutes: map<string, Bucket>, routes: map<int, Route>,
                           routeMethods: seq<string>)

  predicate IsPatternKey(key: string) {
    key != [] && key[0] == SOH
  }

  /** zend_hash_find on a bucket: the index stored under the first entry with that key. */
  function Lookup(b: Bucket, key: string): (r: Option<int>)
    ensures r.None? <==> forall i :: 0 <= i < |b| ==> b[i].0 != key
    ensures r.Some? ==> exists i :: 0 <= i < |b| && b[i] == (key, r.value)
  {
    if b == [] then None
    else if b[0].0 == key then Some(b[0].1)
    else
      var r := Lookup(b[1..], key);
      if r.Some? then
        ghost var i :| 0 <= i < |b[1..]| && b[1..][i] == (key, r.value);
        assert b[i + 1] == (key, r.value);
        r
      else r
  }

  /** The parameter a capture adds: a named one, URL-decoded, overwrites; a numbered one adds nothing. */
  function AddCapture(params: map<string, Zval>, capture: (SubpatKey, string)): map<string, Zval>
  {
    match capture.0
    case Named(name) => params[name := ZString(UrlDecode(capture.1))]
    case Numbered(_) => params
  }

  /** The parameters the subpattern array adds, walked in order. */
  function AddCaptures(params: map<string, Zval>, captures: seq<(SubpatKey, string)>): map<string, Zval>
    decreases |captures|
  {
    if captures == [] then params
    else AddCapture(AddCaptures(params, captures[..|captures| - 1]), captures[|captures| - 1])
  }

  /**
   * The pattern scan from some point of the bucket on, given the route index and
   * parameters found so far: every pattern that matches sets the index and adds
   * its captures; the scan stops at the first match whose index is not negative.
   */
  function Scan(b: Bucket, path: string, matcher: Matcher, index: int, params: map<string, Zval>)
    : (int, map<string, Zval>)
    decreases |b|
  {
    if b == [] then (index, params)
    else if IsPatternKey(b[0].0) && matcher(b[0].0, path).Some? then
      var params' := AddCaptures(params, matcher(b[0].0, path).value);
      if b[0].1 >= 0 then (b[0].1, params')
      else Scan(b[1..], path, matcher, b[0].1, params')
    else Scan(b[1..], path, matcher, index, params)
  }

  /**
   * The route index (-1 for none) and the path parameters for a method name and
   * a path: an exact entry wins with no parameters, otherwise the pattern scan.
   */
  function Resolve(router: Router, methodName: string, path: CString, matcher: Matcher): (int, map<string, Zval>)
  {
    if methodName !in router.methodRoutes then (-1, map[])
    else
      var b := router.methodRoutes[methodName];
      match Lookup(b, path)
      case Some(index) => (index, map[])
      case None => Scan(b, path, matcher, -1, map[])
  }

  /** Some pattern of the global list matches the path. */
  predicate PatternExists(keys: seq<string>, path: string, matcher: Matcher) {
    exists i :: 0 <= i < |keys| && IsPatternKey(keys[i]) && matcher(keys[i], path).Some?
  }

  /** The status for a path no route of the method takes: 405 if another method's pattern matches it. */
  function NotFoundStatus(router: Router, path: string, matcher: Matcher): int
  {
    if PatternExists(router.routeMethods, path, matcher) then 405 else 404
  }

  // ---------------------------------------------------------------------------
  // The loops of request_handler
  // ---------------------------------------------------------------------------

  /** The subpattern loop: copies the named captures into the parameters. */
  method CopyNamedCaptures(params: map<string, Zval>, subpats: seq<(SubpatKey, string)>)
    returns (r: map<string, Zval>)
    ensures r == AddCaptures(params, subpats)
  {
    r := params;
    var k := 0;
    while k < |subpats|
      invariant 0 <= k <= |subpats|
      invariant r == AddCaptures(params, subpats[..k])
    {
      assert subpats[..k + 1][..k] == subpats[..k];
      if subpats[k].0.Named? {
        r := r[subpats[k].0.name := ZString(UrlDecode(subpats[k].1))];
      }
      k := k + 1;
    }
    assert subpats[..k] == subpats;
  }

  /** Route lookup for the request's method: the exact entry, else the pattern loop with its break. */
  method FindRoute(router: Router, methodName: string, path: CString, matcher: Matcher)
    returns (routeIndex: int, params: map<string, Zval>)
    ensures (routeIndex, params) == Resolve(router, methodName, path, matcher)
  {
    routeIndex := -1;
    params := map[];
    if methodName in router.methodRoutes {
      var b := router.methodRoutes[methodName];
      var item := Lookup(b, path);
      if item.Some? {
        // static route
        routeIndex := item.value;
      } else {
        // dynamic routes
        var i := 0;
        while i < |b|
          invariant 0 <= i <= |b|
          invariant routeIndex < 0
          invariant Scan(b[i..], path, matcher, routeIndex, params) == Scan(b, path, matcher, -1, map[])
        {
          assert b[i..][1..] == b[i + 1..];
          var key := b[i].0;
          if IsPatternKey(key) {
            var subpats := matcher(key, path);
            if subpats.Some? {
              routeIndex := b[i].1;
              params := CopyNamedCaptures(params, subpats.value);
            }
            if routeIndex >= 0 {
              break;
            }
          }
          i := i + 1;
        }
        if i == |b| {
          assert b[i..] == [];
        }
      }
    }
  }

  /** The loop over the global pattern list that decides between 405 and 404. */
  method FindAnyPattern(keys: seq<string>, path: string, matcher: Matcher) returns (found: bool)
    ensures found <==> PatternExists(keys, path, matcher)
  {
    found := false;
    var i := 0;
    while i < |keys|
      invariant 0 <= i <= |keys|
      invariant !found
      invariant forall j :: 0 <= j < i ==> !(IsPatternKey(keys[j]) && matcher(keys[j], path).Some?)
    {
      if IsPatternKey(keys[i]) {
        if matcher(keys[i], path).Some? {
          found := true;
        }
        if found {
          break;
        }
      }
      i := i + 1;
    }
  }

  // ---------------------------------------------------------------------------
  // Parameter casts
  // ---------------------------------------------------------------------------

  /** convert_to_long_ex and convert_to_double_ex, abstract total conversions. */
  datatype Conversions = Conversions(toLong: Zval -> int, toDouble: Zval -> real)

  /** CHECK_ZVAL_NULL_PATH: the string value holds a NUL byte. */
  predicate HasNulByte(v: Zval) {
    v.ZString? && '\0' in v.s
  }

  /**
   * The casts loop: integer and double casts convert the named parameter in
   * place; a safe-path parameter with a NUL byte stops the loop and flags the
   * request (the Boolean); casts of absent parameters do nothing.
   */
  function CastAll(casts: seq<(string, CastKind)>, params: map<string, Zval>, conv: Conversions)
    : (r: (map<string, Zval>, bool))
    ensures r.0.Keys == params.Keys
    decreases |casts|
  {
    if casts == [] then (params, false)
    else
      var (name, kind) := casts[0];
      if name !in params then CastAll(casts[1..], params, conv)
      else match kind
        case CastInteger => CastAll(casts[1..], params[name := ZLong(conv.toLong(params[name]))], conv)
        case CastDouble => CastAll(casts[1..], params[name := ZDouble(conv.toDouble(params[name]))], conv)
        case CastSafePath => if HasNulByte(params[name]) then (params, true) else CastAll(casts[1..], params, conv)
        case CastOther(_) => CastAll(casts[1..], params, conv)
  }

  method ApplyCasts(casts: seq<(string, CastKind)>, params: map<string, Zval>, conv: Conversions)
    returns (r: map<string, Zval>, invalid: bool)
    ensures (r, invalid) == CastAll(casts, params, conv)
  {
    r, invalid := params, false;
    if |casts| > 0 {
      var i := 0;
      while i < |casts|
        invariant 0 <= i <= |casts|
        invariant CastAll(casts[i..], r, conv) == CastAll(casts, params, conv)
      {
        assert casts[i..][1..] == casts[i + 1..];
        var name := casts[i].0;
        if name in r {
          match casts[i].1
          case CastInteger =>
            r := r[name := ZLong(conv.toLong(r[name]))];
          case CastDouble =>
            r := r[name := ZDouble(conv.toDouble(r[name]))];
          case CastSafePath =>
            if HasNulByte(r[name]) {
              invalid := true;
              break;
            }
          case CastOther(_) =>
        }
        i := i + 1;
      }
      if !invalid {
        assert casts[i..] == [];
      }
    }
  }

  // ---------------------------------------------------------------------------
  // Properties
  // ---------------------------------------------------------------------------

  /** Route indices are not negative, as the router stores them. */
  predicate WellFormed(router: Router) {
    forall m, i :: m in router.methodRoutes && 0 <= i < |router.methodRoutes[m]| ==>
      router.methodRoutes[m][i].1 >= 0
  }

  /** An exact entry for the path is chosen, with no parameters, whatever patterns also match. */
  lemma ExactRouteWins(router: Router, methodName: string, path: CString, matcher: Matcher, i: nat)
    requires methodName in router.methodRoutes
    requires i < |router.methodRoutes[methodName]| && router.methodRoutes[methodName][i].0 == path
    requires forall j :: 0 <= j < i ==> router.methodRoutes[methodName][j].0 != path
    ensures Resolve(router, methodName, path, matcher) == (router.methodRoutes[methodName][i].1, map[])
  {
    LookupFirst(router.methodRoutes[methodName], path, i);
  }

  lemma {:induction false} LookupFirst(b: Bucket, key: string, i: nat)
    requires i < |b| && b[i].0 == key
    requires forall j :: 0 <= j < i ==> b[j].0 != key
    ensures Lookup(b, key) == Some(b[i].1)
  {
    if i > 0 {
      LookupFirst(b[1..], key, i - 1);
    }
  }

  /** The scan takes the first matching pattern and its captures only. */
  lemma {:induction false} ScanFirstMatch(b: Bucket, path: string, matcher: Matcher, index: int,
                                          params: map<string, Zval>, i: nat)
    requires i < |b| && IsPatternKey(b[i].0) && matcher(b[i].0, path).Some? && b[i].1 >= 0
    requires forall j :: 0 <= j < i ==> b[j].1 >= 0
    requires forall j :: 0 <= j < i ==> !(IsPatternKey(b[j].0) && matcher(b[j].0, path).Some?)
    ensures Scan(b, path, matcher, index, params) == (b[i].1, AddCaptures(params, matcher(b[i].0, path).value))
  {
    if i > 0 {
      ScanFirstMatch(b[1..], path, matcher, index, params, i - 1);
    }
  }

  /** With no matching pattern the scan keeps what it was given. */
  lemma {:induction false} ScanNoMatch(b: Bucket, path: string, matcher: Matcher, index: int,
                                       params: map<string, Zval>)
    requires forall j :: 0 <= j < |b| ==> !(IsPatternKey(b[j].0) && matcher(b[j].0, path).Some?)
    ensures Scan(b, path, matcher, index, params) == (index, params)
  {
    if b != [] {
      ScanNoMatch(b[1..], path, matcher, index, params);
    }
  }

  /**
   * Without an exact entry, the first pattern in stored order that matches
   * decides the route, and its named captures are the parameters.
   */
  lemma FirstPatternWins(router: Router, methodName: string, path: CString, matcher: Matcher, i: nat)
    requires WellFormed(router)
    requires methodName in router.methodRoutes
    requires forall j :: 0 <= j < |router.methodRoutes[methodName]| ==> router.methodRoutes[methodName][j].0 != path
    requires i < |router.methodRoutes[methodName]|
    requires IsPatternKey(router.methodRoutes[methodName][i].0)
    requires matcher(router.methodRoutes[methodName][i].0, path).Some?
    requires forall j :: 0 <= j < i ==>
      !(IsPatternKey(router.methodRoutes[methodName][j].0) && matcher(router.methodRoutes[methodName][j].0, path).Some?)
    ensures Resolve(router, methodName, path, matcher) ==
      (router.methodRoutes[methodName][i].1,
       AddCaptures(map[], matcher(router.methodRoutes[methodName][i].0, path).value))
  {
    ScanFirstMatch(router.methodRoutes[methodName], path, matcher, -1, map[], i);
  }

  /** A method with no routes, or no route for the path, resolves to no route. */
  lemma NoRouteResolves(router: Router, methodName: string, path: CString, matcher: Matcher)
    requires methodName in router.methodRoutes ==>
      var b := router.methodRoutes[methodName];
      forall j :: 0 <= j < |b| ==> b[j].0 != path && !(IsPatternKey(b[j].0) && matcher(b[j].0, path).Some?)
    ensures Resolve(router, methodName, path, matcher) == (-1, map[])
  {
    if methodName in router.methodRoutes {
      ScanNoMatch(router.methodRoutes[methodName], path, matcher, -1, map[]);
    }
  }

  /** Only named captures become parameters; each holds the URL-decoded text of its last capture. */
  lemma {:induction false} AddCapturesKeys(params: map<string, Zval>, captures: seq<(SubpatKey, string)>)
    ensures AddCaptures(params, captures).Keys ==
      params.Keys + set i | 0 <= i < |captures| && captures[i].0.Named? :: captures[i].0.name
    decreases |captures|
  {
    if captures != [] {
      var n := |captures| - 1;
      AddCapturesKeys(params, captures[..n]);
      var front := set i | 0 <= i < n && captures[..n][i].0.Named? :: captures[..n][i].0.name;
      var all := set i | 0 <= i < |captures| && captures[i].0.Named? :: captures[i].0.name;
      assert all == front + (if captures[n].0.Named? then {captures[n].0.name} else {}) by {
        forall x | x in all ensures x in front + (if captures[n].0.Named? then {captures[n].0.name} else {}) {
          var i :| 0 <= i < |captures| && captures[i].0.Named? && captures[i].0.name == x;
          if i < n {
            assert captures[..n][i] == captures[i];
          }
        }
        forall x | x in front ensures x in all {
          var i :| 0 <= i < n && captures[..n][i].0.Named? && captures[..n][i].0.name == x;
          assert captures[i] == captures[..n][i];
        }
      }
    }
  }

  /**
   * A named capture with no later capture of the same name leaves its
   * URL-decoded text as the parameter of that name.
   */
  lemma {:induction false} AddCapturesValue(params: map<string, Zval>, captures: seq<(SubpatKey, string)>, i: nat)
    requires i < |captures| && captures[i].0.Named?
    requires forall j :: i < j < |captures| ==> captures[j].0 != captures[i].0
    ensures captures[i].0.name in AddCaptures(params, captures)
    ensures AddCaptures(params, captures)[captures[i].0.name] == ZString(UrlDecode(captures[i].1))
    decreases |captures|
  {
    var n := |captures| - 1;
    if i < n {
      assert captures[..n][i] == captures[i];
      AddCapturesValue(params, captures[..n], i);
    }
  }

  /** The casts of absent parameters are no-ops: without any present name nothing changes. */
  lemma {:induction false} CastsOfAbsentNames(casts: seq<(string, CastKind)>, params: map<string, Zval>,
                                              conv: Conversions)
    requires forall i :: 0 <= i < |casts| ==> casts[i].0 !in params
    ensures CastAll(casts, params, conv) == (params, false)
    decreases |casts|
  {
    if casts != [] {
      CastsOfAbsentNames(casts[1..], params, conv);
    }
  }

  /** A parameter no cast names keeps its value. */
  lemma {:induction false} CastsKeepUndeclared(casts: seq<(string, CastKind)>, params: map<string, Zval>,
                                               conv: Conversions, name: string)
    requires name in params
    requires forall i :: 0 <= i < |casts| ==> casts[i].0 != name
    ensures CastAll(casts, params, conv).0[name] == params[name]
    decreases |casts|
  {
    if casts != [] && casts[0].0 in params {
      var (n, kind) := casts[0];
      match kind
      case CastInteger => CastsKeepUndeclared(casts[1..], params[n := ZLong(conv.toLong(params[n]))], conv, name);
      case CastDouble => CastsKeepUndeclared(casts[1..], params[n := ZDouble(conv.toDouble(params[n]))], conv, name);
      case CastSafePath =>
        if !HasNulByte(params[n]) {
          CastsKeepUndeclared(casts[1..], params, conv, name);
        }
      case CastOther(_) => CastsKeepUndeclared(casts[1..], params, conv, name);
    } else if casts != [] {
      CastsKeepUndeclared(casts[1..], params, conv, name);
    }
  }

  /** The cast loop over two runs of casts: the second runs only if the first found nothing invalid. */
  lemma {:induction false} CastAllAppend(a: seq<(string, CastKind)>, b: seq<(string, CastKind)>,
                                         params: map<string, Zval>, conv: Conversions)
    ensures CastAll(a + b, params, conv) ==
      var first := CastAll(a, params, conv);
      if first.1 then first else CastAll(b, first.0, conv)
    decreases |a|
  {
    if a == [] {
      assert a + b == b;
    } else {
      assert (a + b)[0] == a[0];
      assert (a + b)[1..] == a[1..] + b;
      var (n, kind) := a[0];
      if n in params {
        match kind
        case CastInteger => CastAllAppend(a[1..], b, params[n := ZLong(conv.toLong(params[n]))], conv);
        case CastDouble => CastAllAppend(a[1..], b, params[n := ZDouble(conv.toDouble(params[n]))], conv);
        case CastSafePath =>
          if !HasNulByte(params[n]) {
            CastAllAppend(a[1..], b, params, conv);
          }
        case CastOther(_) => CastAllAppend(a[1..], b, params, conv);
      } else {
        CastAllAppend(a[1..], b, params, conv);
      }
    }
  }

  /**
   * A safe-path parameter holding a NUL byte flags the request and stops the
   * loop: the casts after it are not applied.
   */
  lemma SafePathStops(pre: seq<(string, CastKind)>, name: string, post: seq<(string, CastKind)>,
                      params: map<string, Zval>, conv: Conversions)
    requires !CastAll(pre, params, conv).1
    requires name in params && HasNulByte(CastAll(pre, params, conv).0[name])
    ensures CastAll(pre + [(name, CastSafePath)] + post, params, conv) == (CastAll(pre, params, conv).0, true)
  {
    CastAllAppend(pre + [(name, CastSafePath)], post, params, conv);
    CastAllAppend(pre, [(name, CastSafePath)], params, conv);
  }
}
