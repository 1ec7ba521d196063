/**
 * String helpers with the semantics of the C and PHP library calls the core
 * relies on: NUL scrubbing (php_str_to_str_ex with "\0" -> ""), explode and
 * join on a one-character separator, substr_count, strstr, php_url_decode,
 * atol and "%ld" formatting. Strings are sequences of byte-valued chars.
 */
module Text {

  /** A C string: the bytes before the terminating NUL, so it holds no NUL. */
  type CString = s: string | '\0' !in s witness ""

  /** The "\1" byte: the session field separator and the pattern-key marker. */
  const SOH: char := '\U{1}'

  /** isspace() in the C locale. */
  predicate IsSpace(c: char) {
    c == ' ' || c == '\t' || c == '\n' || c == '\U{B}' || c == '\U{C}' || c == '\r'
  }

  predicate IsDigit(c: char) {
    '0' <= c <= '9'
  }

  // ---------------------------------------------------------------------------
  // NUL scrubbing
  // ---------------------------------------------------------------------------

  /** `s` with every NUL byte removed (replacing "\0" by ""). */
  function StripNul(s: string): (r: string)
    ensures '\0' !in r
    ensures |r| <= |s|
  {
    if s == [] then []
    else (if s[0] == '\0' then [] else [s[0]]) + StripNul(s[1..])
  }

  /** Scrubbing distributes over concatenation: the kept bytes stay in order. */
  lemma {:induction false} StripNulAppend(a: string, b: string)
    ensures StripNul(a + b) == StripNul(a) + StripNul(b)
  {
    if a == [] {
      assert a + b == b;
    } else {
      assert (a + b)[1..] == a[1..] + b;
      StripNulAppend(a[1..], b);
    }
  }

  /** A string without NUL bytes is left exactly as it is. */
  lemma {:induction false} StripNulWithoutNul(s: string)
    requires '\0' !in s
    ensures StripNul(s) == s
  {
    if s != [] {
      StripNulWithoutNul(s[1..]);
    }
  }

  /** Every byte other than NUL keeps its number of occurrences. */
  lemma {:induction false} StripNulCounts(s: string, c: char)
    ensures multiset(StripNul(s))[c] == if c == '\0' then 0 else multiset(s)[c]
  {
    if s != [] {
      StripNulCounts(s[1..], c);
      assert s == [s[0]] + s[1..];
      assert multiset(s) == multiset{s[0]} + multiset(s[1..]);
    }
  }

  /** The C string a NUL-terminated buffer holds: the bytes before the first NUL. */
  function CPrefix(s: string): (r: CString)
    ensures |r| <= |s| && r == s[..|r|]
    ensures |r| < |s| ==> s[|r|] == '\0'
  {
    if s == [] || s[0] == '\0' then [] else [s[0]] + CPrefix(s[1..])
  }

  /** A buffer without NUL holds itself as a C string. */
  lemma CPrefixWithoutNul(s: string)
    requires '\0' !in s
    ensures CPrefix(s) == s
  {
    assert |CPrefix(s)| == |s|;
    assert s[..|s|] == s;
  }

  // ---------------------------------------------------------------------------
  // explode / implode on one separator, substr_count
  // ---------------------------------------------------------------------------

  /** PHP's explode(sep, s) for a one-character separator. */
  function Explode(sep: char, s: string): (parts: seq<string>)
    ensures |parts| >= 1
    ensures forall i :: 0 <= i < |parts| ==> sep !in parts[i]
  {
    if s == [] then [""]
    else
      var rest := Explode(sep, s[1..]);
      if s[0] == sep then [""] + rest
      else [[s[0]] + rest[0]] + rest[1..]
  }

  /** PHP's join(sep, parts). */
  function Join(sep: char, parts: seq<string>): string
  {
    if |parts| == 0 then ""
    else if |parts| == 1 then parts[0]
    else parts[0] + [sep] + Join(sep, parts[1..])
  }

  /** substr_count(s, c) for a one-character needle. */
  function Count(c: char, s: string): (n: nat)
    ensures n <= |s|
    ensures n == 0 <==> c !in s
  {
    if s == [] then 0 else (if s[0] == c then 1 else 0) + Count(c, s[1..])
  }

  /** Joining the pieces of an explode gives back the exploded string. */
  lemma {:induction false} JoinExplode(sep: char, s: string)
    ensures Join(sep, Explode(sep, s)) == s
  {
    if s != [] {
      var rest := Explode(sep, s[1..]);
      JoinExplode(sep, s[1..]);
      if s[0] == sep {
        assert Explode(sep, s) == [""] + rest;
        assert ([""] + rest)[1..] == rest;
        assert Join(sep, Explode(sep, s)) == "" + [sep] + Join(sep, rest);
        assert s == [sep] + s[1..];
      } else if |rest| == 1 {
        assert Explode(sep, s) == [[s[0]] + rest[0]];
        assert s == [s[0]] + s[1..];
      } else {
        var parts := Explode(sep, s);
        assert parts == [[s[0]] + rest[0]] + rest[1..];
        assert parts[1..] == rest[1..];
        assert Join(sep, rest) == rest[0] + [sep] + Join(sep, rest[1..]);
        assert s == [s[0]] + s[1..];
      }
    }
  }

  /** A string without the separator explodes to itself alone. */
  lemma {:induction false} ExplodeWithoutSep(sep: char, s: string)
    requires sep !in s
    ensures Explode(sep, s) == [s]
  {
    if s != [] {
      ExplodeWithoutSep(sep, s[1..]);
      assert s == [s[0]] + s[1..];
    }
  }

  /** A separator after a separator-free prefix ends the first piece there. */
  lemma {:induction false} ExplodeAtSep(sep: char, a: string, b: string)
    requires sep !in a
    ensures Explode(sep, a + [sep] + b) == [a] + Explode(sep, b)
  {
    var s := a + [sep] + b;
    if a == [] {
      assert s == [sep] + b;
      assert s[1..] == b;
    } else {
      assert s[0] == a[0];
      assert s[1..] == a[1..] + [sep] + b;
      ExplodeAtSep(sep, a[1..], b);
      assert a == [a[0]] + a[1..];
    }
  }

  /** explode undoes join when no piece contains the separator. */
  lemma {:induction false} ExplodeJoin(sep: char, parts: seq<string>)
    requires |parts| >= 1
    requires forall i :: 0 <= i < |parts| ==> sep !in parts[i]
    ensures Explode(sep, Join(sep, parts)) == parts
  {
    if |parts| == 1 {
      ExplodeWithoutSep(sep, parts[0]);
    } else {
      assert sep !in parts[0];
      ExplodeJoin(sep, parts[1..]);
      ExplodeAtSep(sep, parts[0], Join(sep, parts[1..]));
      assert parts == [parts[0]] + parts[1..];
    }
  }

  /** explode yields one more piece than there are separators. */
  lemma {:induction false} ExplodeLength(sep: char, s: string)
    ensures |Explode(sep, s)| == Count(sep, s) + 1
  {
    if s != [] {
      ExplodeLength(sep, s[1..]);
    }
  }

  /** The separators in a join are exactly those between the pieces. */
  lemma CountJoin(sep: char, parts: seq<string>)
    requires |parts| >= 1
    requires forall i :: 0 <= i < |parts| ==> sep !in parts[i]
    ensures Count(sep, Join(sep, parts)) == |parts| - 1
  {
    ExplodeJoin(sep, parts);
    ExplodeLength(sep, Join(sep, parts));
  }

  // ---------------------------------------------------------------------------
  // strstr
  // ---------------------------------------------------------------------------

  predicate StartsWith(s: string, prefix: string) {
    |prefix| <= |s| && s[..|prefix|] == prefix
  }

  /** strstr(s, t) != NULL. */
  predicate Contains(s: string, t: string)
    decreases |s|
  {
    StartsWith(s, t) || (s != [] && Contains(s[1..], t))
  }

  /** `t` occurs in `s` starting at position `i`. */
  predicate OccursAt(s: string, t: string, i: int) {
    0 <= i <= |s| - |t| && s[i..i + |t|] == t
  }

  /** strstr finds `t` exactly when it occurs at some position of `s`. */
  lemma {:induction false} ContainsAt(s: string, t: string)
    ensures Contains(s, t) <==> exists i :: OccursAt(s, t, i)
  {
    if StartsWith(s, t) {
      assert OccursAt(s, t, 0);
    }
    if s != [] {
      ContainsAt(s[1..], t);
      if Contains(s[1..], t) {
        var i :| OccursAt(s[1..], t, i);
        assert s[i + 1..i + 1 + |t|] == s[1..][i..i + |t|];
        assert OccursAt(s, t, i + 1);
      }
      if i :| OccursAt(s, t, i) {
        if i > 0 {
          assert s[1..][i - 1..i - 1 + |t|] == s[i..i + |t|];
          assert OccursAt(s[1..], t, i - 1);
        }
      }
    } else if i :| OccursAt(s, t, i) {
      assert StartsWith(s, t);
    }
  }

  // ---------------------------------------------------------------------------
  // php_url_decode
  // ---------------------------------------------------------------------------

  predicate IsHex(c: char) {
    '0' <= c <= '9' || 'a' <= c <= 'f' || 'A' <= c <= 'F'
  }

  function HexValue(c: char): (v: nat)
    requires IsHex(c)
    ensures v < 16
  {
    if '0' <= c <= '9' then c as int - '0' as int
    else if 'a' <= c <= 'f' then c as int - 'a' as int + 10
    else c as int - 'A' as int + 10
  }

  /**
   * php_url_decode: '+' becomes a space, "%XY" with two hex digits becomes the
   * byte 0xXY (possibly NUL), every other byte is copied.
   */
  function UrlDecode(s: string): (r: string)
    ensures |r| <= |s|
  {
    if s == [] then []
    else if s[0] == '+' then [' '] + UrlDecode(s[1..])
    else if s[0] == '%' && |s| >= 3 && IsHex(s[1]) && IsHex(s[2]) then
      [(HexValue(s[1]) * 16 + HexValue(s[2])) as char] + UrlDecode(s[3..])
    else [s[0]] + UrlDecode(s[1..])
  }

  /** Text without '%' and '+' decodes to itself. */
  lemma {:induction false} UrlDecodePlain(s: string)
    requires '%' !in s && '+' !in s
    ensures UrlDecode(s) == s
  {
    if s != [] {
      UrlDecodePlain(s[1..]);
    }
  }

  // ---------------------------------------------------------------------------
  // atol and "%ld"
  // ---------------------------------------------------------------------------

  function DigitChar(d: nat): (c: char)
    requires d < 10
    ensures IsDigit(c)
  {
    ('0' as int + d) as char
  }

  /** Decimal digits of `n`, most significant first, without leading zeros. */
  function NatToString(n: nat): (s: string)
    ensures |s| >= 1
    ensures forall i :: 0 <= i < |s| ==> IsDigit(s[i])
    decreases n
  {
    if n < 10 then [DigitChar(n)] else NatToString(n / 10) + [DigitChar(n % 10)]
  }

  /** printf's "%ld". */
  function IntToString(n: int): string
  {
    if n < 0 then "-" + NatToString(-n) else NatToString(n)
  }

  /** The longest prefix of `s` made of decimal digits. */
  function LeadingDigits(s: string): (d: string)
    ensures |d| <= |s| && d == s[..|d|]
    ensures forall i :: 0 <= i < |d| ==> IsDigit(d[i])
    ensures |d| < |s| ==> !IsDigit(s[|d|])
  {
    if s == [] || !IsDigit(s[0]) then [] else [s[0]] + LeadingDigits(s[1..])
  }

  function DigitValue(c: char): (v: nat)
    requires IsDigit(c)
    ensures v < 10
  {
    c as int - '0' as int
  }

  /** The number a string of decimal digits denotes. */
  function DigitsValue(d: string): nat
    requires forall i :: 0 <= i < |d| ==> IsDigit(d[i])
  {
    if d == [] then 0 else DigitsValue(d[..|d| - 1]) * 10 + DigitValue(d[|d| - 1])
  }

  function SkipSpace(s: string): (r: string)
    ensures |r| <= |s| && r == s[|s| - |r|..]
    ensures r != [] ==> !IsSpace(r[0])
  {
    if s != [] && IsSpace(s[0]) then SkipSpace(s[1..]) else s
  }

  /**
   * atol (strtol in base 10): leading white space, an optional sign, then as many
   * decimal digits as follow; 0 when there are none.
   */
  function Atol(s: string): int
  {
    var t := SkipSpace(s);
    if t != [] && t[0] == '-' then 0 - DigitsValue(LeadingDigits(t[1..]))
    else if t != [] && t[0] == '+' then DigitsValue(LeadingDigits(t[1..]))
    else DigitsValue(LeadingDigits(t))
  }

  lemma {:induction false} LeadingDigitsAll(d: string)
    requires forall i :: 0 <= i < |d| ==> IsDigit(d[i])
    ensures LeadingDigits(d) == d
  {
    if d != [] {
      LeadingDigitsAll(d[1..]);
    }
  }

  lemma {:induction false} NatToStringValue(n: nat)
    ensures DigitsValue(NatToString(n)) == n
    decreases n
  {
    if n >= 10 {
      NatToStringValue(n / 10);
      var s := NatToString(n);
      assert s[..|s| - 1] == NatToString(n / 10);
    }
  }

  /** atol reads back what "%ld" prints. */
  lemma AtolIntToString(n: int)
    ensures Atol(IntToString(n)) == n
  {
    var digits := NatToString(if n < 0 then -n else n);
    NatToStringValue(if n < 0 then -n else n);
    LeadingDigitsAll(digits);
    var s := IntToString(n);
    assert !IsSpace(s[0]);
    assert SkipSpace(s) == s;
    if n < 0 {
      assert s[1..] == digits;
    }
  }
}
