/** Server.c's parse_cookies: a Cookie header turned into a name -> value hash. */
module Cookies {
  import opened Wrappers
  import opened Text

  // ---------------------------------------------------------------------------
  // Specification
  // ---------------------------------------------------------------------------

  /** strchr(t, c): the index of the first `c` in `t`. */
  function FindChar(t: string, c: char): (r: Option<nat>)
    ensures r.None? <==> c !in t
    ensures r.Some? ==> r.value < |t| && t[r.value] == c && c !in t[..r.value]
  {
    if t == [] then None
    else if t[0] == c then Some(0)
    else match FindChar(t[1..], c)
      case None => None
      case Some(i) => assert t[1..][..i] == t[1..i + 1]; Some(i + 1)
  }

  /** The length of the token at the start of `s`: the bytes before the first ';'. */
  function TokenLength(s: string): (n: nat)
    ensures n <= |s|
    ensures forall k :: 0 <= k < n ==> s[k] != ';'
    ensures n < |s| ==> s[n] == ';'
  {
    if s == [] || s[0] == ';' then 0 else 1 + TokenLength(s[1..])
  }

  /**
   * The tokens strtok(header, ";") returns one after another: the non-empty
   * runs of bytes other than ';', in order.
   */
  function Tokens(s: string): (r: seq<string>)
    ensures forall i :: 0 <= i < |r| ==> r[i] != [] && ';' !in r[i]
    decreases |s|
  {
    if s == [] then []
    else if s[0] == ';' then Tokens(s[1..])
    else
      var n := TokenLength(s);
      [s[..n]] + Tokens(s[n..])
  }

  /** The number of leading bytes the isspace() loop skips. */
  function LeadingSpace(t: string): (n: nat)
    ensures n <= |t|
    ensures forall k :: 0 <= k < n ==> IsSpace(t[k])
    ensures n < |t| ==> !IsSpace(t[n])
  {
    if t != [] && IsSpace(t[0]) then 1 + LeadingSpace(t[1..]) else 0
  }

  /**
   * One token: the name starts after the leading white space and ends at the
   * first '='; the value is the rest. None when the name is empty (the token is
   * white space only, or white space then '='). A token without '=' gets the
   * value "". Name and value are URL-decoded; the name is then a C string, so it
   * ends at the first NUL the decoding produced.
   */
  function ParseToken(t: string): (r: Option<(string, string)>)
    ensures r.Some? ==> '\0' !in r.value.0
    ensures r.Some? && FindChar(t, '=').Some? ==>
      r.value.1 == UrlDecode(t[FindChar(t, '=').value + 1..])
    ensures r.Some? && FindChar(t, '=').None? ==> r.value.1 == ""
    ensures r.Some? && FindChar(t, '=').Some? ==>
      r.value.0 == CPrefix(UrlDecode(t[LeadingSpace(t)..FindChar(t, '=').value]))
    ensures r.Some? && FindChar(t, '=').None? ==> r.value.0 == CPrefix(UrlDecode(t[LeadingSpace(t)..]))
  {
    var eq := FindChar(t, '=');
    var n := LeadingSpace(t);
    if n == |t| || (eq.Some? && eq.value == n) then None
    else if eq.Some? then
      assert t[n] != '=' && !IsSpace(t[eq.value]);
      Some((CPrefix(UrlDecode(t[n..eq.value])), UrlDecode(t[eq.value + 1..])))
    else Some((CPrefix(UrlDecode(t[n..])), ""))
  }

  /** add_assoc_stringl for one token: a later cookie of the same name overwrites. */
  function AddToken(jar: map<string, string>, t: string): map<string, string>
  {
    match ParseToken(t)
    case None => jar
    case Some((name, value)) => jar[name := value]
  }

  function AddTokens(jar: map<string, string>, ts: seq<string>): map<string, string>
    decreases |ts|
  {
    if ts == [] then jar else AddTokens(AddToken(jar, ts[0]), ts[1..])
  }

  /** The hash parse_cookies fills from a Cookie header. */
  function CookieJar(header: string): map<string, string>
  {
    AddTokens(map[], Tokens(header))
  }

  // ---------------------------------------------------------------------------
  // The strtok loop
  // ---------------------------------------------------------------------------

  lemma {:induction false} TokenLengthIs(s: string, n: nat)
    requires n <= |s|
    requires forall k :: 0 <= k < n ==> s[k] != ';'
    requires n < |s| ==> s[n] == ';'
    ensures TokenLength(s) == n
  {
    if n > 0 {
      TokenLengthIs(s[1..], n - 1);
    }
  }

  lemma {:induction false} LeadingSpaceIs(t: string, n: nat)
    requires n <= |t|
    requires forall k :: 0 <= k < n ==> IsSpace(t[k])
    requires n < |t| ==> !IsSpace(t[n])
    ensures LeadingSpace(t) == n
  {
    if n > 0 {
      LeadingSpaceIs(t[1..], n - 1);
    }
  }

  /** The body of the strtok loop for one token: add its cookie, if it names one. */
  method AddCookie(jar: map<string, string>, token: string) returns (r: map<string, string>)
    ensures r == AddToken(jar, token)
  {
    r := jar;
    // val = strchr(var, '='); then skip the name's leading white space
    var val := FindChar(token, '=');
    var k := 0;
    while k < |token| && IsSpace(token[k])
      invariant 0 <= k <= |token|
      invariant forall m :: 0 <= m < k ==> IsSpace(token[m])
    {
      k := k + 1;
    }
    LeadingSpaceIs(token, k);
    if k == |token| || (val.Some? && val.value == k) {
      // empty name: next_cookie
    } else if val.Some? {
      assert !IsSpace(token[val.value]);
      var name := CPrefix(UrlDecode(token[k..val.value]));
      var value := UrlDecode(token[val.value + 1..]);
      r := r[name := value];
    } else {
      var name := CPrefix(UrlDecode(token[k..]));
      r := r[name := ""];
    }
  }

  /** parse_cookies: walks the header token by token as strtok does. */
  method ParseCookies(header: CString) returns (jar: map<string, string>)
    ensures jar == CookieJar(header)
  {
    jar := map[];
    var i := 0;
    while i < |header|
      invariant 0 <= i <= |header|
      invariant AddTokens(jar, Tokens(header[i..])) == CookieJar(header)
    {
      if header[i] == ';' {
        assert Tokens(header[i..]) == Tokens(header[i + 1..]) by {
          assert header[i..][1..] == header[i + 1..];
        }
        i := i + 1;
      } else {
        // the token runs up to the next ';' or the end of the header
        var j := i;
        while j < |header| && header[j] != ';'
          invariant i <= j <= |header|
          invariant forall k :: i <= k < j ==> header[k] != ';'
        {
          j := j + 1;
        }
        var token := header[i..j];
        TokenLengthIs(header[i..], j - i);
        assert Tokens(header[i..]) == [token] + Tokens(header[j..]) by {
          assert header[i..][..j - i] == token;
          assert header[i..][j - i..] == header[j..];
        }
        jar := AddCookie(jar, token);
        i := j;
      }
    }
    assert header[|header|..] == [];
  }

  // ---------------------------------------------------------------------------
  // Properties
  // ---------------------------------------------------------------------------

  /** The cookie `t` names `name`. */
  predicate Names(t: string, name: string) {
    ParseToken(t).Some? && ParseToken(t).value.0 == name
  }

  /**
   * A token is dropped exactly when everything before its first '=' (all of it,
   * if it has none) is white space.
   */
  lemma ParseTokenDrops(t: string)
    ensures ParseToken(t).None? <==>
      forall m :: 0 <= m < FindChar(t, '=').GetOr(|t|) ==> IsSpace(t[m])
  {
    var eq := FindChar(t, '=');
    var n := LeadingSpace(t);
    if eq.Some? {
      assert !IsSpace(t[eq.value]);
      if n < eq.value {
        assert !IsSpace(t[n]);
      }
    } else if n < |t| {
      assert !IsSpace(t[n]);
    }
  }

  /** A token without '=' is a cookie whose value is "". */
  lemma ParseTokenWithoutValue(t: string)
    requires '=' !in t
    requires exists m :: 0 <= m < |t| && !IsSpace(t[m])
    ensures ParseToken(t).Some? && ParseToken(t).value.1 == ""
  {
    ParseTokenDrops(t);
  }

  /**
   * Leading white space is trimmed from a name: white space, then a name that
   * does not start with white space and holds no '=', then '=' and a value,
   * gives that name and that value, both URL-decoded.
   */
  lemma TrimmedName(w: string, n: string, v: string)
    requires forall k :: 0 <= k < |w| ==> IsSpace(w[k])
    requires n != [] && !IsSpace(n[0]) && '=' !in n
    ensures ParseToken(w + n + "=" + v) == Some((CPrefix(UrlDecode(n)), UrlDecode(v)))
  {
    FirstEquals(w, n, v);
    NameAfterSpace(w, n, v);
    TokenSlices(w, n, v);
    ParseTokenAt(w + n + "=" + v, |w|, |w| + |n|);
  }

  /** The white space before a name that does not start with white space is all the isspace() loop skips. */
  lemma NameAfterSpace(w: string, n: string, v: string)
    requires forall k :: 0 <= k < |w| ==> IsSpace(w[k])
    requires n != [] && !IsSpace(n[0])
    ensures LeadingSpace(w + n + "=" + v) == |w|
  {
    var t := w + n + "=" + v;
    assert t[|w|] == n[0];
    LeadingSpaceIs(t, |w|);
  }

  /** The name and the value are read back from the token by slicing. */
  lemma TokenSlices(w: string, n: string, v: string)
    ensures (w + n + "=" + v)[|w|..|w| + |n|] == n
    ensures (w + n + "=" + v)[|w| + |n| + 1..] == v
  {
  }

  /** A token whose name starts at `s` and whose first '=' is at `e`, after it, is parsed at those places. */
  lemma ParseTokenAt(t: string, s: nat, e: nat)
    requires LeadingSpace(t) == s && FindChar(t, '=') == Some(e) && s < e
    ensures ParseToken(t) == Some((CPrefix(UrlDecode(t[s..e])), UrlDecode(t[e + 1..])))
  {
  }

  /** In white space, a name without '=', '=' and a value, the first '=' is the one after the name. */
  lemma FirstEquals(w: string, n: string, v: string)
    requires '=' !in n
    requires forall k :: 0 <= k < |w| ==> IsSpace(w[k])
    ensures FindChar(w + n + "=" + v, '=') == Some(|w| + |n|)
  {
    var t := w + n + "=" + v;
    var e := |w| + |n|;
    assert t[e] == '=';
  }

  /** A ';' between two pieces of a header separates their tokens. */
  lemma {:induction false} TokensAppend(a: string, b: string)
    ensures Tokens(a + [';'] + b) == Tokens(a) + Tokens(b)
    decreases |a|
  {
    var s := a + [';'] + b;
    if a == [] {
      assert s == [';'] + b && s[1..] == b;
    } else if a[0] == ';' {
      assert s[1..] == a[1..] + [';'] + b;
      TokensAppend(a[1..], b);
    } else {
      var m := TokenLength(a);
      TokenLengthIs(s, m);
      assert s[..m] == a[..m];
      assert s[m..] == a[m..] + [';'] + b;
      TokensAppend(a[m..], b);
    }
  }

  /** A token is its own only strtok token. */
  lemma TokensOfToken(t: string)
    requires t != [] && ';' !in t
    ensures Tokens(t) == [t]
  {
    assert t[0] != ';';
    TokenLengthIs(t, |t|);
    assert t[..|t|] == t;
    assert t[|t|..] == [];
  }

  lemma {:induction false} AddTokensAppend(jar: map<string, string>, x: seq<string>, y: seq<string>)
    ensures AddTokens(jar, x + y) == AddTokens(AddTokens(jar, x), y)
    decreases |x|
  {
    if x == [] {
      assert x + y == y;
    } else {
      assert (x + y)[1..] == x[1..] + y;
      AddTokensAppend(AddToken(jar, x[0]), x[1..], y);
    }
  }

  /** Tokens that do not name a cookie leave its entry as it was. */
  lemma {:induction false} AddTokensUntouched(jar: map<string, string>, ts: seq<string>, name: string)
    requires forall i :: 0 <= i < |ts| ==> !Names(ts[i], name)
    ensures name in AddTokens(jar, ts) <==> name in jar
    ensures name in jar ==> AddTokens(jar, ts)[name] == jar[name]
    decreases |ts|
  {
    if ts != [] {
      assert !Names(ts[0], name);
      AddTokensUntouched(AddToken(jar, ts[0]), ts[1..], name);
    }
  }

  /** The last token that names a cookie decides its value. */
  lemma AddTokensLastWins(jar: map<string, string>, pre: seq<string>, t: string, post: seq<string>,
                          name: string, value: string)
    requires ParseToken(t) == Some((name, value))
    requires forall i :: 0 <= i < |post| ==> !Names(post[i], name)
    ensures name in AddTokens(jar, pre + [t] + post)
    ensures AddTokens(jar, pre + [t] + post)[name] == value
  {
    AddTokensAppend(jar, pre + [t], post);
    AddTokensAppend(jar, pre, [t]);
    AddTokensUntouched(AddTokens(jar, pre + [t]), post, name);
  }

  /** A cookie nothing in the header names is absent from the hash. */
  lemma CookieJarAbsent(header: string, name: string)
    requires forall i :: 0 <= i < |Tokens(header)| ==> !Names(Tokens(header)[i], name)
    ensures name !in CookieJar(header)
  {
    AddTokensUntouched(map[], Tokens(header), name);
  }

  /** A cookie appended after a ';' overwrites any earlier one of the same name. */
  lemma CookieJarLaterWins(header: string, t: string, name: string, value: string)
    requires ';' !in t
    requires ParseToken(t) == Some((name, value))
    ensures CookieJar(header + [';'] + t) == CookieJar(header)[name := value]
  {
    TokensAppend(header, t);
    TokensOfToken(t);
    AddTokensAppend(map[], Tokens(header), [t]);
  }

  lemma ParseTokenExampleA()
    ensures ParseToken("a=1") == Some(("a", "1"))
  {
    var t := "a=1";
    assert FindChar(t, '=') == Some(1);
    assert LeadingSpace(t) == 0;
    assert t[0..1] == "a" && t[2..] == "1";
    UrlDecodePlain("a");
    UrlDecodePlain("1");
    CPrefixWithoutNul("a");
  }

  lemma ParseTokenExampleB()
    ensures ParseToken(" b=2") == Some(("b", "2"))
  {
    var t := " b=2";
    assert FindChar(t, '=') == Some(2);
    assert LeadingSpace(t) == 1;
    assert t[1..2] == "b" && t[3..] == "2";
    UrlDecodePlain("b");
    UrlDecodePlain("2");
    CPrefixWithoutNul("b");
  }

  lemma ParseTokenExampleC()
    ensures ParseToken(" c") == Some(("c", ""))
  {
    var t := " c";
    assert FindChar(t, '=') == None;
    assert LeadingSpace(t) == 1;
    assert t[1..] == "c";
    UrlDecodePlain("c");
    CPrefixWithoutNul("c");
  }

  /** The header "a=1; b=2; c" gives the cookies a = "1", b = "2" and c = "". */
  lemma CookieJarExample()
    ensures CookieJar("a=1; b=2; c") == map["a" := "1", "b" := "2", "c" := ""]
  {
    CookieJarFirst();
    HeaderPieces();
    ParseTokenExampleB();
    CookieJarLaterWins("a=1", " b=2", "b", "2");
    ParseTokenExampleC();
    CookieJarLaterWins("a=1; b=2", " c", "c", "");
  }

  lemma CookieJarFirst()
    ensures CookieJar("a=1") == map["a" := "1"]
  {
    ParseTokenExampleA();
    TokensOfToken("a=1");
    assert AddTokens(map[], ["a=1"]) == AddTokens(map["a" := "1"], []);
  }

  lemma HeaderPieces()
    ensures "a=1; b=2" == "a=1" + [';'] + " b=2"
    ensures "a=1; b=2; c" == "a=1; b=2" + [';'] + " c"
  {
  }
}
