/**
 * What request_handler makes of a handler's return value and of an exception
 * left pending by it: the status, the body, the JSON content type and the
 * error message of the response.
 */
module Responses {
  import opened Wrappers
  import opened Text

  /** The zval types a handler may return besides strings, null and objects. */
  datatype ValueKind = KArray | KInteger | KDouble | KBoolean | KResource | KUnknown

  /**
   * A handler's return value. For an object, `json` is the string its
   * jsonSerialize returned when it implements JsonSerializable and that call
   * gave a string, None otherwise.
   */
  datatype RetVal = Str(s: string) | Null | Object(json: Option<string>) | Other(kind: ValueKind)

  /** The exception pending after the handler: an HTTPError or any other class. */
  datatype Thrown =
    | HTTPError(code: Option<int>, message: Option<string>)
    | Uncaught(className: string, file: Option<string>, line: Option<int>, message: Option<string>)

  /** The part of the response the return value decides; `error` None leaves the error unset. */
  datatype Outcome = Outcome(status: int, body: string, json: bool, error: Option<string>)

  predicate IsSuccess(status: int) {
    200 <= status < 300
  }

  /** A status the handler left at 0 becomes 200. */
  function EffectiveStatus(status: int): (s: int)
    ensures status != 0 ==> s == status
    ensures status == 0 ==> s == 200
    ensures s != 0
  {
    if status == 0 then 200 else status
  }

  /** The type name in the "must return a string" message, as evidently intended. */
  function TypeName(v: RetVal): (name: string)
    ensures name != []
    ensures forall c :: c in name ==> 'a' <= c <= 'z'
  {
    match v
    case Str(_) => "string"
    case Null => "null"
    case Object(_) => "object"
    case Other(KArray) => "array"
    case Other(KInteger) => "integer"
    case Other(KDouble) => "double"
    case Other(KBoolean) => "boolean"
    case Other(KResource) => "resource"
    case Other(KUnknown) => "unknown"
  }

  /**
   * The type name as the source spells it: the boolean case carries the three
   * bytes E2 80 9A (a UTF-8 low quotation mark) after "boolean".
   */
  function TypeNameAsWritten(v: RetVal): (name: string)
    ensures !v.Other? || v.kind != KBoolean ==> name == TypeName(v)
  {
    if v == Other(KBoolean) then "boolean" + ['\U{E2}', '\U{80}', '\U{9A}'] else TypeName(v)
  }

  /** The message for a value that yields no body. */
  function ReturnTypeError(name: string): string {
    "Request handler must return a string instead of " + name
  }

  /** The JSON text an object gives, when it is a non-empty string. */
  predicate GivesJson(v: RetVal) {
    v.Object? && v.json.Some? && v.json.value != ""
  }

  /**
   * The response for a handler that returned `v` with the request's status at
   * `status` and did not send a reply itself. Outside 2xx the value is ignored;
   * a non-empty string is the body; null or an empty string gives an empty
   * body; an object's non-empty JSON text is the body with the JSON content
   * type; everything else is a 500 naming the value's type.
   */
  function Respond(status: int, v: RetVal): (o: Outcome)
    ensures o.error.None? ==> o.status == EffectiveStatus(status)
    ensures o.error.Some? ==> o.status == 500 && o.body == [] && !o.json &&
                              o.error.value == ReturnTypeError(TypeName(v))
    ensures o.body != [] ==> IsSuccess(o.status) && o.error.None?
    ensures o.json <==> o.body != [] && v.Object?
    ensures v.Null? ==> o.body == [] && o.error.None?
    ensures GivesJson(v) && IsSuccess(EffectiveStatus(status)) ==> o.body == v.json.value && o.json
  {
    var s := EffectiveStatus(status);
    if !IsSuccess(s) then Outcome(s, [], false, None)
    else match v
      case Str(text) => Outcome(s, text, false, None)
      case Null => Outcome(s, [], false, None)
      case Object(json) =>
        if json.Some? && json.value != "" then Outcome(s, json.value, true, None)
        else Outcome(500, [], false, Some(ReturnTypeError(TypeName(v))))
      case Other(_) => Outcome(500, [], false, Some(ReturnTypeError(TypeName(v))))
  }

  /** The same, with the type names as the source spells them. */
  function RespondAsWritten(status: int, v: RetVal): (o: Outcome)
    ensures o.error.Some? ==> o.error.value == ReturnTypeError(TypeNameAsWritten(v))
    ensures o.status == Respond(status, v).status && o.body == Respond(status, v).body
  {
    var o := Respond(status, v);
    if o.error.Some? then o.(error := Some(ReturnTypeError(TypeNameAsWritten(v)))) else o
  }

  /** (int) of a long on a two's-complement machine: the low 32 bits, signed. */
  function Int32(x: int): (r: int)
    ensures -0x8000_0000 <= r < 0x8000_0000
    ensures (r - x) % 0x1_0000_0000 == 0
    ensures -0x8000_0000 <= x < 0x8000_0000 ==> r == x
  {
    (x + 0x8000_0000) % 0x1_0000_0000 - 0x8000_0000
  }

  /** What "%s" prints for a C string that may be NULL: up to its first NUL, or "(null)". */
  function FormatString(s: Option<string>): (r: CString)
    ensures s.Some? ==> r == CPrefix(s.value)
  {
    if s.Some? then CPrefix(s.value) else "(null)"
  }

  /**
   * The status and message an exception leaves: an HTTPError's own code
   * (500 without one) and message ("Unknown" without one); any other class
   * 500 and a message naming the class, file, line and message.
   */
  function ExceptionResponse(t: Thrown): (r: (int, string))
    ensures t.HTTPError? ==> r.0 == t.code.GetOr(500)
    ensures t.Uncaught? ==> r.0 == 500
    ensures t.HTTPError? ==> r.1 == CPrefix(t.message.GetOr("Unknown"))
  {
    match t
    case HTTPError(code, message) => (code.GetOr(500), FormatString(Some(message.GetOr("Unknown"))))
    case Uncaught(className, file, line, message) =>
      (500, ("Uncaught exception '" + CPrefix(className) + "'")
            + (" within request handler thrown in " + FormatString(file) + " on line "
               + IntToString(Int32(line.GetOr(0))) + " ")
            + CPrefix(message.GetOr("")))
  }

  // ---------------------------------------------------------------------------
  // Properties
  // ---------------------------------------------------------------------------

  /**
   * An exception other than HTTPError gives a message that starts by naming
   * its class, ends with its own message, and names the file and the line,
   * truncated to an int, in between.
   */
  lemma UncaughtMessage(className: string, file: Option<string>, line: Option<int>, message: Option<string>)
    ensures var m := ExceptionResponse(Uncaught(className, file, line, message)).1;
      var head := "Uncaught exception '" + CPrefix(className) + "'";
      var tail := CPrefix(message.GetOr(""));
      var location := " within request handler thrown in " + FormatString(file) + " on line " +
                      IntToString(Int32(line.GetOr(0))) + " ";
      |head| + |tail| <= |m| && m[..|head|] == head && m[|m| - |tail|..] == tail &&
      m[|head|..|m| - |tail|] == location
  {
    var m := ExceptionResponse(Uncaught(className, file, line, message)).1;
    var head := "Uncaught exception '" + CPrefix(className) + "'";
    var tail := CPrefix(message.GetOr(""));
    var location := " within request handler thrown in " + FormatString(file) + " on line " +
                    IntToString(Int32(line.GetOr(0))) + " ";
    assert m == head + location + tail;
    Parts(head, location, tail);
  }

  /** The three parts of a concatenation can be read back by slicing. */
  lemma Parts(a: string, b: string, c: string)
    ensures (a + b + c)[..|a|] == a && (a + b + c)[|a| + |b|..] == c && (a + b + c)[|a|..|a| + |b|] == b
  {
  }

  /** The call fails with a 500 exactly when a 2xx response has no usable body value. */
  lemma RespondFailsIff(status: int, v: RetVal)
    ensures Respond(status, v).error.Some? <==>
      IsSuccess(EffectiveStatus(status)) && !v.Str? && !v.Null? && !GivesJson(v)
  {
  }

  /** A string returned under a 2xx status is the body, the status unchanged. */
  lemma RespondString(status: int, text: string)
    requires IsSuccess(EffectiveStatus(status))
    ensures Respond(status, Str(text)) == Outcome(EffectiveStatus(status), text, false, None)
  {
  }

  /** Outside 2xx nothing of the value reaches the response. */
  lemma RespondIgnoresValue(status: int, v: RetVal, w: RetVal)
    requires !IsSuccess(EffectiveStatus(status))
    ensures Respond(status, v) == Respond(status, w)
  {
  }

  /** The handler returning "ok" gives 200 with body "ok"; an integer gives 500 naming "integer". */
  lemma RespondExamples()
    ensures Respond(0, Str("ok")) == Outcome(200, "ok", false, None)
    ensures Respond(0, Null) == Outcome(200, "", false, None)
    ensures Respond(0, Other(KInteger)) ==
      Outcome(500, "", false, Some("Request handler must return a string instead of integer"))
    ensures Respond(404, Str("ok")) == Outcome(404, "", false, None)
  {
    assert ReturnTypeError("integer") == "Request handler must return a string instead of integer";
  }

  /** The source's message for a boolean names a type that is not "boolean". */
  lemma BooleanNameAsWritten()
    ensures RespondAsWritten(0, Other(KBoolean)).error ==
      Some(ReturnTypeError("boolean" + ['\U{E2}', '\U{80}', '\U{9A}']))
    ensures RespondAsWritten(0, Other(KBoolean)).error != Respond(0, Other(KBoolean)).error
  {
    var written := ReturnTypeError("boolean" + ['\U{E2}', '\U{80}', '\U{9A}']);
    assert |written| != |ReturnTypeError("boolean")|;
  }

  /** "%d" of a line number beyond 32 bits prints the truncated value. */
  lemma LineNumberTruncated()
    ensures Int32(0x1_0000_0005) == 5
    ensures Int32(0x8000_0000) == -0x8000_0000
  {
  }
}
