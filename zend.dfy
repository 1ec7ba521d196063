/** The PHP values the request pipeline stores in its hashes, and Server.c's cleanUp. */
module Zend {
  import opened Text

  /** A PHP value as far as the pipeline distinguishes it. */
  datatype Zval =
    | ZNull
    | ZBool(b: bool)
    | ZLong(n: int)
    | ZDouble(d: real)
    | ZString(s: string)
    | ZArray(entries: map<string, Zval>)

  /** A string value holding no NUL byte, or any value that is not a string. */
  predicate Scrubbed(v: Zval) {
    v.ZString? ==> '\0' !in v.s
  }

  /**
   * cleanUp: a string loses its NUL bytes and keeps its other bytes in order;
   * any other value, an array included, is left as it is.
   */
  function CleanUp(v: Zval): (r: Zval)
    ensures Scrubbed(r)
    ensures r.ZString? <==> v.ZString?
    ensures r.ZString? ==> r.s == StripNul(v.s)
    ensures !v.ZString? ==> r == v
    ensures Scrubbed(v) ==> r == v
  {
    match v
    case ZString(s) =>
      if '\0' in s then ZString(StripNul(s)) else (StripNulWithoutNul(s); v)
    case _ => v
  }

  /** zend_hash_apply(table, cleanUp): every entry cleaned, the keys unchanged. */
  function CleanAll(table: map<string, Zval>): (r: map<string, Zval>)
    ensures r.Keys == table.Keys
    ensures forall k :: k in r ==> Scrubbed(r[k]) && r[k] == CleanUp(table[k])
  {
    map k | k in table :: CleanUp(table[k])
  }

  /** Cleaning an already cleaned table changes nothing. */
  lemma CleanAllIdempotent(table: map<string, Zval>)
    ensures CleanAll(CleanAll(table)) == CleanAll(table)
  {
  }

  /** A hash of strings as PHP string values. */
  function StringTable(m: map<string, string>): map<string, Zval>
  {
    map k | k in m :: ZString(m[k])
  }
}
