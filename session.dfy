/**
 * Porter's Session: three fields joined with "\1" into the string the session
 * store keeps, split back when the session is read, and the magic accessors
 * limited to the declared properties.
 */
module Sessions {
  import opened Wrappers
  import opened Text

  /** Porter's anonymous user id, the constructor's default. */
  const ANNON_USERID := "ANON"

  /**
   * A property's value: null, a string, an integer, or an object (the session
   * provider), identified by a handle.
   */
  datatype Value = Null | Str(s: string) | Long(n: int) | Object(handle: nat)

  /** What string concatenation makes of a value: None for an object, which has no string form. */
  function AsString(v: Value): (r: Option<string>)
    ensures v.Str? ==> r == Some(v.s)
    ensures r.None? <==> v.Object?
  {
    match v
    case Null => Some("")
    case Str(s) => Some(s)
    case Long(n) => Some(IntToString(n))
    case Object(_) => None
  }

  /** The persisted part of a session. */
  datatype Fields = Fields(id: Value, userId: Value, payload: Value)

  /** serialize: id, userId and payload joined by "\1". */
  function Encode(f: Fields): (r: Option<string>)
    ensures r.None? <==> f.id.Object? || f.userId.Object? || f.payload.Object?
    ensures r.Some? ==> r.value == Join(SOH, [AsString(f.id).value, AsString(f.userId).value, AsString(f.payload).value])
  {
    var id, userId, payload := AsString(f.id), AsString(f.userId), AsString(f.payload);
    if id.None? || userId.None? || payload.None? then None
    else (JoinThree(id.value, userId.value, payload.value); Some(id.value + [SOH] + userId.value + [SOH] + payload.value))
  }

  lemma JoinThree(a: string, b: string, c: string)
    ensures Join(SOH, [a, b, c]) == a + [SOH] + b + [SOH] + c
  {
    assert [a, b, c][1..] == [b, c];
    assert [b, c][1..] == [c];
    assert Join(SOH, [b, c]) == b + [SOH] + c;
    assert a + [SOH] + (b + [SOH] + c) == a + [SOH] + b + [SOH] + c;
  }

  /**
   * unserialize's split: None for more than two separators (the branch that
   * constructs a session without its required arguments); otherwise the first
   * part is the id, the second the user id (null when absent) and the rest,
   * joined again, the payload.
   */
  function Decode(data: string): (r: Option<Fields>)
    ensures r.None? <==> Count(SOH, data) > 2
  {
    if Count(SOH, data) > 2 then None
    else
      var parts := Explode(SOH, data);
      Some(Fields(Str(parts[0]),
                  if |parts| > 1 then Str(parts[1]) else Null,
                  Str(if |parts| > 1 then Join(SOH, parts[2..]) else "")))
  }

  /** The names property_exists accepts: the declared properties. */
  const Declared: set<string> := {"id", "userId", "authLevel", "payload", "provider"}

  class Session {
    var id: Value
    var userId: Value
    var authLevel: Value
    var payload: Value
    var provider: Value

    function Persisted(): Fields
      reads this
    {
      Fields(id, userId, payload)
    }

    /** __construct: the user id defaults to the anonymous id, the payload to "{}"; the auth level stays null. */
    constructor (provider: nat, id: Value, userId: Value := Str(ANNON_USERID), payload: Value := Str("{}"))
      ensures Persisted() == Fields(id, userId, payload)
      ensures this.provider == Object(provider) && authLevel == Null
    {
      this.id := id;
      this.userId := userId;
      this.payload := payload;
      this.provider := Object(provider);
      authLevel := Null;
    }

    /** __get: a declared property's value, null for any other name. */
    function Get(name: string): (r: Value)
      reads this
      ensures name !in Declared ==> r == Null
      ensures name == "id" ==> r == id
      ensures name == "userId" ==> r == userId
      ensures name == "authLevel" ==> r == authLevel
      ensures name == "payload" ==> r == payload
      ensures name == "provider" ==> r == provider
    {
      if name == "id" then id
      else if name == "userId" then userId
      else if name == "authLevel" then authLevel
      else if name == "payload" then payload
      else if name == "provider" then provider
      else Null
    }

    /** __set: a declared property takes the value; any other name changes nothing. */
    method Set(name: string, value: Value)
      modifies this
      ensures name in Declared ==> Get(name) == value
      ensures forall n :: n != name ==> Get(n) == old(Get(n))
      ensures name !in Declared ==> unchanged(this)
    {
      if name == "id" {
        id := value;
      } else if name == "userId" {
        userId := value;
      } else if name == "authLevel" {
        authLevel := value;
      } else if name == "payload" {
        payload := value;
      } else if name == "provider" {
        provider := value;
      }
    }

    /** serialize. */
    function Serialize(): (r: Option<string>)
      reads this
      ensures r == Encode(Persisted())
    {
      Encode(Persisted())
    }

    /** unserialize: the reject branch gives no session; otherwise a session with the split fields. */
    static method Unserialize(provider: nat, data: string) returns (r: Option<Session>)
      ensures r.None? <==> Decode(data).None?
      ensures r.Some? ==> fresh(r.value) && r.value.Persisted() == Decode(data).value &&
                          r.value.provider == Object(provider)
    {
      var c := Count(SOH, data);
      if 2 < c {
        return None;
      }
      var parts := Explode(SOH, data);
      ExplodeLength(SOH, data);
      var id := Str(parts[0]);
      parts := parts[1..];
      var userId := Null;
      if |parts| > 0 {
        userId := Str(parts[0]);
        parts := parts[1..];
      }
      var s := new Session(provider, id, userId, Str(Join(SOH, parts)));
      return Some(s);
    }
  }

  // ---------------------------------------------------------------------------
  // Properties
  // ---------------------------------------------------------------------------

  /** Three strings without "\1" come back from their serialization unchanged. */
  lemma DecodeEncode(id: string, userId: string, payload: string)
    requires SOH !in id && SOH !in userId && SOH !in payload
    ensures Encode(Fields(Str(id), Str(userId), Str(payload))).Some?
    ensures Decode(Encode(Fields(Str(id), Str(userId), Str(payload))).value) ==
      Some(Fields(Str(id), Str(userId), Str(payload)))
  {
    var parts := [id, userId, payload];
    var data := Join(SOH, parts);
    assert Join(SOH, parts[1..]) == userId + [SOH] + payload;
    assert Encode(Fields(Str(id), Str(userId), Str(payload))).value == data;
    CountJoin(SOH, parts);
    ExplodeJoin(SOH, parts);
    assert parts[2..] == [payload];
  }

  /** A null user id is stored as the empty string and read back as "". */
  lemma NullUserIdReadsEmpty(id: string, payload: string)
    requires SOH !in id && SOH !in payload
    ensures Decode(Encode(Fields(Str(id), Null, Str(payload))).value) == Some(Fields(Str(id), Str(""), Str(payload)))
  {
    assert Encode(Fields(Str(id), Null, Str(payload))) == Encode(Fields(Str(id), Str(""), Str(payload)));
    DecodeEncode(id, "", payload);
  }

  /** Data with exactly two separators is re-serialized to itself. */
  lemma EncodeDecode(data: string)
    requires Count(SOH, data) == 2
    ensures Decode(data).Some? && Encode(Decode(data).value) == Some(data)
  {
    var parts := Explode(SOH, data);
    ExplodeLength(SOH, data);
    JoinExplode(SOH, data);
    assert parts == [parts[0], parts[1], parts[2]];
    JoinThree(parts[0], parts[1], parts[2]);
    assert parts[2..] == [parts[2]];
  }

  /** The fields of data with at most two separators: its first, second and third "\1"-pieces. */
  lemma DecodeParts(data: string)
    requires Count(SOH, data) <= 2
    ensures var parts := Explode(SOH, data);
      var f := Decode(data).value;
      f.id == Str(parts[0]) &&
      (|parts| >= 2 <==> f.userId.Str?) && (|parts| >= 2 ==> f.userId == Str(parts[1])) &&
      f.payload == Str(if |parts| == 3 then parts[2] else "")
  {
    var parts := Explode(SOH, data);
    ExplodeLength(SOH, data);
    if |parts| == 3 {
      assert parts[2..] == [parts[2]];
    } else if |parts| == 2 {
      assert parts[2..] == [];
    }
  }

  /** More than two separators take the reject branch. */
  lemma TooManySeparators(a: string, b: string, c: string, d: string)
    ensures Decode(a + [SOH] + b + [SOH] + c + [SOH] + d).None?
  {
    CountAppend(a, [SOH]);
    CountAppend(a + [SOH], b);
    CountAppend(a + [SOH] + b, [SOH]);
    CountAppend(a + [SOH] + b + [SOH], c);
    CountAppend(a + [SOH] + b + [SOH] + c, [SOH]);
    CountAppend(a + [SOH] + b + [SOH] + c + [SOH], d);
    assert Count(SOH, [SOH]) == 1;
  }

  lemma {:induction false} CountAppend(s: string, t: string)
    ensures Count(SOH, s + t) == Count(SOH, s) + Count(SOH, t)
  {
    if s != [] {
      assert (s + t)[1..] == s[1..] + t;
      CountAppend(s[1..], t);
    } else {
      assert s + t == t;
    }
  }
}
