/**
 * Porter's UpstreamRoute: a route built from a configuration entry, with a
 * method mask parsed from "GET|POST"-style strings, an auth level checked
 * against the valid levels, and the access rule of its request handler.
 */
module UpstreamRouting {
  import opened Wrappers
  import opened Text
  import opened Http

  type Mask = bv16

  /** A PHP integer: 64 bits, two's complement, as the bitwise operators see it. */
  type PhpInt = bv64

  /** The route's METHOD_* flag for a verb: one bit per verb, as libevent numbers them. */
  function MethodFlag(v: Verb): (f: Mask)
    ensures f != 0 && f & (f - 1) == 0
  {
    match v
    case GET => 1
    case POST => 2
    case HEAD => 4
    case PUT => 8
    case DELETE => 16
    case OPTIONS => 32
    case TRACE => 64
    case CONNECT => 128
    case PATCH => 256
  }

  /** METHOD_ALL: every verb's flag. */
  const METHOD_ALL: Mask := 0x1FF

  const AUTH_LEVEL_NONE: PhpInt := 0
  const AUTH_LEVEL_ANON: PhpInt := 1
  const AUTH_LEVEL_AUTH: PhpInt := 2
  const AUTH_LEVEL_UNAUTH: PhpInt := 4
  const AUTH_LEVEL_LOCAL: PhpInt := 8
  const AUTH_LEVEL_VALID: PhpInt := 15

  /** The verb a configuration name stands for: the name exactly as the request line spells it. */
  function VerbNamed(name: string): (r: Option<Verb>)
    ensures r.Some? ==> Name(r.value) == name
    ensures r.None? ==> forall v :: Name(v) != name
  {
    if name == "GET" then Some(GET)
    else if name == "POST" then Some(POST)
    else if name == "HEAD" then Some(HEAD)
    else if name == "PUT" then Some(PUT)
    else if name == "DELETE" then Some(DELETE)
    else if name == "OPTIONS" then Some(OPTIONS)
    else if name == "TRACE" then Some(TRACE)
    else if name == "CONNECT" then Some(CONNECT)
    else if name == "PATCH" then Some(PATCH)
    else None
  }

  /** One pass of the switch: "*" replaces the mask with METHOD_ALL, a verb ORs in its flag, any other name adds nothing. */
  function AddMethod(mask: Mask, name: string): Mask {
    if name == "*" then METHOD_ALL
    else match VerbNamed(name)
      case Some(v) => mask | MethodFlag(v)
      case None => mask
  }

  /** The mask the loop accumulates over the names, from 0. */
  function MaskOf(names: seq<string>): Mask
    decreases |names|
  {
    if names == [] then 0 else AddMethod(MaskOf(names[..|names| - 1]), names[|names| - 1])
  }

  /** The method names of a definition: split on '|' when it holds one, else the whole string. */
  function MethodNames(definition: string): (names: seq<string>)
    ensures names == Explode('|', definition)
  {
    if '|' in definition then Explode('|', definition)
    else (ExplodeWithoutSep('|', definition); [definition])
  }

  /** The foreach over the method names. */
  method ParseMethods(names: seq<string>) returns (mask: Mask)
    ensures mask == MaskOf(names)
  {
    mask := 0;
    for i := 0 to |names|
      invariant mask == MaskOf(names[..i])
    {
      assert names[..i + 1][..i] == names[..i];
      var name := names[i];
      if name == "*" {
        mask := METHOD_ALL;
      } else {
        var verb := VerbNamed(name);
        if verb.Some? {
          mask := mask | MethodFlag(verb.value);
        }
      }
    }
    assert names[..|names|] == names;
  }

  /** setAuthLevel's test: AUTH_LEVEL_VALID & v is not 0. */
  predicate ValidAuthLevel(v: PhpInt) {
    AUTH_LEVEL_VALID & v != 0
  }

  /** handleRequest's test: v & AUTH_LEVEL_AUTH is not 0. */
  predicate RequiresAuth(v: PhpInt) {
    v & AUTH_LEVEL_AUTH != 0
  }

  /** A configuration entry: each key's value when it is set. */
  datatype RouteConfig = RouteConfig(pattern: Option<string>, methodDef: Option<string>, authlevel: Option<PhpInt>)

  /** A route's state: its pattern, its server, its method mask and its auth level. */
  datatype RouteState = RouteState(pattern: string, server: string, methods: Mask, authLevel: PhpInt)

  const NoPattern := "No pattern definition in the route configuration."
  const NoMethod := "No HTTP method definition in the route configuration."
  const NoAuthLevel := "No auth level definition in the route configuration."
  const InvalidMethod := "Invalid HTTP method definition in the route configuration."
  const UnknownAuthLevel := "Unknown auth level provided."

  /**
   * fromConfig as a function: the InvalidArgumentException thrown for a missing
   * key or an empty mask; Success(None) when the builder chain threw (an auth
   * level outside the valid mask) and the unassigned route is returned; the
   * built route otherwise.
   */
  function Configure(config: RouteConfig, server: string): Result<Option<RouteState>, string> {
    if config.pattern.None? then Failure(NoPattern)
    else if config.methodDef.None? then Failure(NoMethod)
    else if config.authlevel.None? then Failure(NoAuthLevel)
    else
      var mask := MaskOf(MethodNames(config.methodDef.value));
      if mask == 0 then Failure(InvalidMethod)
      else if !ValidAuthLevel(config.authlevel.value) then Success(None)
      else Success(Some(RouteState(config.pattern.value, server, mask, config.authlevel.value)))
  }

  class UpstreamRoute {
    var pattern: string
    var methods: Mask
    var authLevel: PhpInt
    var server: string

    function State(): RouteState
      reads this
    {
      RouteState(pattern, server, methods, authLevel)
    }

    /** new self(pattern): the parent Route stores the pattern; no method, auth level 0, no server. */
    constructor (pattern: string)
      ensures State() == RouteState(pattern, "", 0, AUTH_LEVEL_NONE)
    {
      this.pattern := pattern;
      methods := 0;
      authLevel := AUTH_LEVEL_NONE;
      server := "";
    }

    method SetServer(value: string) returns (self: UpstreamRoute)
      modifies this
      ensures self == this
      ensures State() == old(State()).(server := value)
    {
      server := value;
      self := this;
    }

    /** setRouteMethod: the parent's setMethod stores the mask. */
    method SetRouteMethod(mask: Mask) returns (self: UpstreamRoute)
      modifies this
      ensures self == this
      ensures State() == old(State()).(methods := mask)
    {
      methods := mask;
      self := this;
    }

    /** setAuthLevel: the InvalidArgumentException for a level outside the valid mask, else the level stored as given. */
    method SetAuthLevel(value: PhpInt) returns (r: Result<UpstreamRoute, string>)
      modifies this
      ensures r.Success? <==> ValidAuthLevel(value)
      ensures r.Success? ==> r.value == this && State() == old(State()).(authLevel := value)
      ensures r.Failure? ==> r.error == UnknownAuthLevel && State() == old(State())
    {
      if AUTH_LEVEL_VALID & value == 0 {
        return Failure(UnknownAuthLevel);
      }
      authLevel := value;
      return Success(this);
    }

    /** handleRequest's decision: HTTPError 403 without a session on a route that requires one, else the upstream URL. */
    function Access(hasSession: bool, uri: string): (r: Result<string, int>)
      reads this
      ensures r.Failure? <==> !hasSession && RequiresAuth(authLevel)
      ensures r.Failure? ==> r.error == 403
      ensures r.Success? ==> r.value == "http://" + server + uri
    {
      if !hasSession && authLevel & AUTH_LEVEL_AUTH != 0 then Failure(403) else Success("http://" + server + uri)
    }

    /**
     * fromConfig: the key checks in order, the method loop, then the builder
     * chain, whose exception is swallowed so that no route comes back.
     */
    static method FromConfig(config: RouteConfig, server: string) returns (r: Result<Option<UpstreamRoute>, string>)
      ensures Configure(config, server).Failure? ==> r == Failure(Configure(config, server).error)
      ensures Configure(config, server).Success? ==>
        r.Success? && (r.value.Some? <==> Configure(config, server).value.Some?)
      ensures r.Success? && r.value.Some? ==>
        fresh(r.value.value) && r.value.value.State() == Configure(config, server).value.value
    {
      if config.pattern.None? {
        return Failure(NoPattern);
      }
      if config.methodDef.None? {
        return Failure(NoMethod);
      }
      if config.authlevel.None? {
        return Failure(NoAuthLevel);
      }
      var methodNames := MethodNames(config.methodDef.value);
      var mask := ParseMethods(methodNames);
      if mask == 0 {
        return Failure(InvalidMethod);
      }
      var route := new UpstreamRoute(config.pattern.value);
      var self := route.SetServer(server);
      self := self.SetRouteMethod(mask);
      var built := self.SetAuthLevel(config.authlevel.value);
      if built.Failure? {
        // the exception is echoed and swallowed; $route stays unassigned
        return Success(None);
      }
      return Success(Some(built.value));
    }
  }

  // ---------------------------------------------------------------------------
  // Properties
  // ---------------------------------------------------------------------------

  /** METHOD_ALL is the union of the verbs' flags, and the flags are distinct. */
  lemma AllIsUnion()
    ensures forall v :: MethodFlag(v) & METHOD_ALL == MethodFlag(v)
    ensures forall v, w :: v != w ==> MethodFlag(v) & MethodFlag(w) == 0
    ensures MethodFlag(GET) | MethodFlag(POST) | MethodFlag(HEAD) | MethodFlag(PUT) | MethodFlag(DELETE) |
            MethodFlag(OPTIONS) | MethodFlag(TRACE) | MethodFlag(CONNECT) | MethodFlag(PATCH) == METHOD_ALL
  {
  }

  /** One step keeps the mask inside METHOD_ALL. */
  lemma AddMethodWithinAll(mask: Mask, name: string)
    requires mask & METHOD_ALL == mask
    ensures AddMethod(mask, name) & METHOD_ALL == AddMethod(mask, name)
  {
    if name != "*" {
      match VerbNamed(name)
      case Some(v) =>
        FlagWithinAll(v);
        UnionWithinAll(mask, MethodFlag(v));
      case None =>
    }
  }

  lemma FlagWithinAll(v: Verb)
    ensures MethodFlag(v) & METHOD_ALL == MethodFlag(v)
  {
  }

  lemma UnionWithinAll(a: Mask, b: Mask)
    requires a & METHOD_ALL == a && b & METHOD_ALL == b
    ensures (a | b) & METHOD_ALL == a | b
  {
  }

  /** The accumulated mask never leaves METHOD_ALL. */
  lemma {:induction false} MaskWithinAll(names: seq<string>)
    ensures MaskOf(names) & METHOD_ALL == MaskOf(names)
    decreases |names|
  {
    if names != [] {
      MaskWithinAll(names[..|names| - 1]);
      AddMethodWithinAll(MaskOf(names[..|names| - 1]), names[|names| - 1]);
    }
  }

  /** The mask holds a verb's flag exactly when some name is "*" or names that verb. */
  lemma {:induction false} MaskHasVerb(names: seq<string>, v: Verb)
    ensures MaskOf(names) & MethodFlag(v) != 0 <==>
      exists i :: 0 <= i < |names| && (names[i] == "*" || names[i] == Name(v))
    decreases |names|
  {
    if names != [] {
      var n := |names| - 1;
      var front := names[..n];
      MaskHasVerb(front, v);
      AddMethodHasVerb(MaskOf(front), names[n], v);
      if exists i :: 0 <= i < n && (front[i] == "*" || front[i] == Name(v)) {
        var i :| 0 <= i < n && (front[i] == "*" || front[i] == Name(v));
        assert names[i] == front[i];
      }
      if exists i :: 0 <= i < |names| && (names[i] == "*" || names[i] == Name(v)) {
        var i :| 0 <= i < |names| && (names[i] == "*" || names[i] == Name(v));
        if i < n {
          assert front[i] == names[i];
        }
      }
    }
  }

  /** One step sets a verb's flag exactly when it was set, or the name is "*" or that verb. */
  lemma AddMethodHasVerb(mask: Mask, name: string, v: Verb)
    ensures AddMethod(mask, name) & MethodFlag(v) != 0 <==>
      mask & MethodFlag(v) != 0 || name == "*" || name == Name(v)
  {
    if name == "*" {
      FlagWithinAll(v);
    } else {
      var w := VerbNamed(name);
      if w.Some? {
        FlagOr(mask, w.value, v);
        VerbNamedName(v);
      }
    }
  }

  /** ORing in a verb's flag sets another verb's flag only when they are the same verb. */
  lemma FlagOr(mask: Mask, w: Verb, v: Verb)
    ensures (mask | MethodFlag(w)) & MethodFlag(v) != 0 <==> mask & MethodFlag(v) != 0 || w == v
  {
    var f, g := MethodFlag(v), MethodFlag(w);
    assert (mask | g) & f == (mask & f) | (g & f);
    if w != v {
      AllIsUnion();
      assert g & f == 0;
    } else {
      assert g & f == f;
    }
  }

  /** A verb's own name is recognised as that verb. */
  lemma VerbNamedName(v: Verb)
    ensures VerbNamed(Name(v)) == Some(v)
  {
  }

  /** One step leaves the mask at 0 exactly when it was 0 and the name is neither "*" nor a verb. */
  lemma AddMethodZero(mask: Mask, name: string)
    ensures AddMethod(mask, name) == 0 <==> mask == 0 && name != "*" && VerbNamed(name).None?
  {
    if name != "*" && VerbNamed(name).Some? {
      var f := MethodFlag(VerbNamed(name).value);
      assert f != 0;
      assert (mask | f) & f == f;
    }
  }

  /** The mask is 0 exactly when no name is "*" or a verb: the definition fromConfig rejects. */
  lemma {:induction false} MaskZero(names: seq<string>)
    ensures MaskOf(names) == 0 <==> forall i :: 0 <= i < |names| ==> names[i] != "*" && VerbNamed(names[i]).None?
    decreases |names|
  {
    if names != [] {
      var n := |names| - 1;
      MaskZero(names[..n]);
      AddMethodZero(MaskOf(names[..n]), names[n]);
      assert forall i :: 0 <= i < n ==> names[..n][i] == names[i];
    }
  }

  /** "*" anywhere gives every method, whatever comes before or after it. */
  lemma StarGivesAll(pre: seq<string>, post: seq<string>)
    ensures MaskOf(pre + ["*"] + post) == METHOD_ALL
  {
    var names := pre + ["*"] + post;
    MaskWithinAll(names);
    forall v: Verb ensures MaskOf(names) & MethodFlag(v) != 0 {
      assert names[|pre|] == "*";
      MaskHasVerb(names, v);
    }
    var m := MaskOf(names);
    assert m & 1 != 0 && m & 2 != 0 && m & 4 != 0 && m & 8 != 0 && m & 16 != 0 && m & 32 != 0 &&
      m & 64 != 0 && m & 128 != 0 && m & 256 != 0 by {
      assert MethodFlag(GET) == 1 && MethodFlag(POST) == 2 && MethodFlag(HEAD) == 4 && MethodFlag(PUT) == 8;
      assert MethodFlag(DELETE) == 16 && MethodFlag(OPTIONS) == 32 && MethodFlag(TRACE) == 64;
      assert MethodFlag(CONNECT) == 128 && MethodFlag(PATCH) == 256;
    }
  }

  /** "GET|POST" gives the GET and POST flags. */
  lemma GetPostExample()
    ensures MaskOf(MethodNames("GET|POST")) == MethodFlag(GET) | MethodFlag(POST)
  {
    assert "GET|POST" == "GET" + ['|'] + "POST";
    ExplodeAtSep('|', "GET", "POST");
    ExplodeWithoutSep('|', "POST");
    var names := ["GET", "POST"];
    assert names[..1] == ["GET"];
    assert names[..1][..0] == [];
  }

  /** The keys are checked in order, and a definition naming no method is refused. */
  lemma ConfigureFails(config: RouteConfig, server: string)
    ensures Configure(config, server).Failure? <==>
      config.pattern.None? || config.methodDef.None? || config.authlevel.None? ||
      forall i :: 0 <= i < |MethodNames(config.methodDef.value)| ==>
        MethodNames(config.methodDef.value)[i] != "*" && VerbNamed(MethodNames(config.methodDef.value)[i]).None?
    ensures config.pattern.None? ==> Configure(config, server) == Failure(NoPattern)
    ensures config.pattern.Some? && config.methodDef.None? ==> Configure(config, server) == Failure(NoMethod)
    ensures config.pattern.Some? && config.methodDef.Some? && config.authlevel.None? ==>
      Configure(config, server) == Failure(NoAuthLevel)
  {
    if config.methodDef.Some? {
      MaskZero(MethodNames(config.methodDef.value));
    }
  }

  /** With every key present and some method named, an invalid auth level yields no route, a valid one the route. */
  lemma ConfigureBuilds(config: RouteConfig, server: string)
    requires config.pattern.Some? && config.methodDef.Some? && config.authlevel.Some?
    requires MaskOf(MethodNames(config.methodDef.value)) != 0
    ensures Configure(config, server).Success?
    ensures Configure(config, server).value.None? <==> !ValidAuthLevel(config.authlevel.value)
    ensures Configure(config, server).value.Some? ==>
      Configure(config, server).value.value ==
        RouteState(config.pattern.value, server, MaskOf(MethodNames(config.methodDef.value)), config.authlevel.value)
  {
  }

  /**
   * An auth level is valid exactly when one of its four low bits is set: every
   * named level but AUTH_LEVEL_NONE is, and so is every level that requires
   * authentication.
   */
  lemma ValidAuthLevelBits(v: PhpInt)
    ensures ValidAuthLevel(v) <==> v & 1 != 0 || v & 2 != 0 || v & 4 != 0 || v & 8 != 0
    ensures RequiresAuth(v) ==> ValidAuthLevel(v)
    ensures !ValidAuthLevel(AUTH_LEVEL_NONE)
    ensures ValidAuthLevel(AUTH_LEVEL_ANON) && ValidAuthLevel(AUTH_LEVEL_AUTH) && ValidAuthLevel(AUTH_LEVEL_UNAUTH)
    ensures ValidAuthLevel(AUTH_LEVEL_LOCAL) && ValidAuthLevel(AUTH_LEVEL_VALID)
  {
  }
}
