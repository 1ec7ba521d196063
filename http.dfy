/** HTTP request methods as libevent numbers them, and Server.c's typeToMethod. */
module Http {

  datatype Verb = GET | POST | HEAD | PUT | DELETE | OPTIONS | TRACE | CONNECT | PATCH

  /** The method's name as it appears on the request line. */
  function Name(v: Verb): string
  {
    match v
    case GET => "GET"
    case POST => "POST"
    case HEAD => "HEAD"
    case PUT => "PUT"
    case DELETE => "DELETE"
    case OPTIONS => "OPTIONS"
    case TRACE => "TRACE"
    case CONNECT => "CONNECT"
    case PATCH => "PATCH"
  }

  /** libevent's EVHTTP_REQ_* value of the method: one bit per method. */
  function ReqType(v: Verb): int
  {
    match v
    case GET => 1
    case POST => 2
    case HEAD => 4
    case PUT => 8
    case DELETE => 16
    case OPTIONS => 32
    case TRACE => 64
    case CONNECT => 128
    case PATCH => 256
  }

  const EVHTTP_REQ_POST: int := 2

  /** typeToMethod: the method name of a request type, "Unknown" for any other number. */
  function TypeToMethod(reqType: int): (name: string)
    ensures forall v :: ReqType(v) == reqType ==> name == Name(v)
  {
    if reqType == 1 then "GET"
    else if reqType == 2 then "POST"
    else if reqType == 4 then "HEAD"
    else if reqType == 8 then "PUT"
    else if reqType == 16 then "DELETE"
    else if reqType == 32 then "OPTIONS"
    else if reqType == 64 then "TRACE"
    else if reqType == 128 then "CONNECT"
    else if reqType == 256 then "PATCH"
    else "Unknown"
  }

  /** Distinct request types get distinct names, and no method is named "Unknown". */
  lemma TypeToMethodInjective(a: Verb, b: Verb)
    ensures TypeToMethod(ReqType(a)) != "Unknown"
    ensures TypeToMethod(ReqType(a)) == TypeToMethod(ReqType(b)) <==> a == b
  {
  }

  /** The name "Unknown" is given exactly to the numbers that are no method's type. */
  lemma TypeToMethodUnknown(reqType: int)
    ensures TypeToMethod(reqType) == "Unknown" <==> forall v :: ReqType(v) != reqType
  {
    if TypeToMethod(reqType) == "Unknown" {
      forall v ensures ReqType(v) != reqType {
        TypeToMethodInjective(v, v);
      }
    } else {
      var v := if reqType == 1 then GET else if reqType == 2 then POST else if reqType == 4 then HEAD
        else if reqType == 8 then PUT else if reqType == 16 then DELETE else if reqType == 32 then OPTIONS
        else if reqType == 64 then TRACE else if reqType == 128 then CONNECT else PATCH;
      assert ReqType(v) == reqType;
    }
  }
}
