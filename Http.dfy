/**
 * The HTTP vocabulary of the request handlers: one.nio's response statuses,
 * the request methods, the translation of a proxied response's numeric status
 * back into a one.nio status, and the validation of the `id` parameter.
 */
module Http {
  import opened Common

  /** The one.nio `Response` status lines the handlers send. */
  datatype Status =
    | Ok200 | Created201 | Accepted202 | NoContent204 | SeeOther303 | UseProxy305
    | BadRequest400 | Unauthorized401 | PaymentRequired402 | Forbidden403 | NotFound404
    | MethodNotAllowed405 | NotAcceptable406 | Conflict409 | Gone410 | LengthRequired411
    | NotImplemented501 | BadGateway502 | ServiceUnavailable503 | GatewayTimeout504

  /** The numeric code in each status line. */
  function Code(s: Status): int {
    match s
    case Ok200 => 200
    case Created201 => 201
    case Accepted202 => 202
    case NoContent204 => 204
    case SeeOther303 => 303
    case UseProxy305 => 305
    case BadRequest400 => 400
    case Unauthorized401 => 401
    case PaymentRequired402 => 402
    case Forbidden403 => 403
    case NotFound404 => 404
    case MethodNotAllowed405 => 405
    case NotAcceptable406 => 406
    case Conflict409 => 409
    case Gone410 => 410
    case LengthRequired411 => 411
    case NotImplemented501 => 501
    case BadGateway502 => 502
    case ServiceUnavailable503 => 503
    case GatewayTimeout504 => 504
  }

  /** `one.nio.http.Request` method constants. */
  datatype HttpMethod = Get | Post | Head | Options | Put | Delete | Trace | Connect | Patch

  datatype Response = Response(status: Status, body: Bytes)

  /** `Response.EMPTY`. */
  const Empty: Bytes := []

  /** The status switch of `proxyRequest`: the `HttpURLConnection` code of the
      peer's response mapped to a one.nio status. None stands for the
      `IllegalArgumentException` thrown for a code the switch does not list. */
  function StatusFromCode(code: int): Option<Status> {
    if code == 200 then Some(Ok200)
    else if code == 201 then Some(Created201)
    else if code == 202 then Some(Accepted202)
    else if code == 204 then Some(NoContent204)
    else if code == 303 then Some(SeeOther303)
    else if code == 304 then Some(NotAcceptable406)
    else if code == 305 then Some(UseProxy305)
    else if code == 400 then Some(BadRequest400)
    else if code == 401 then Some(Unauthorized401)
    else if code == 402 then Some(PaymentRequired402)
    else if code == 403 then Some(Forbidden403)
    else if code == 404 then Some(NotFound404)
    else if code == 406 then Some(NotAcceptable406)
    else if code == 409 then Some(Conflict409)
    else if code == 410 then Some(Gone410)
    else if code == 405 then Some(MethodNotAllowed405)
    else if code == 411 then Some(LengthRequired411)
    else if code == 501 then Some(NotImplemented501)
    else if code == 502 then Some(BadGateway502)
    else if code == 504 then Some(GatewayTimeout504)
    else None
  }

  const ListedCodes: set<int> :=
    {200, 201, 202, 204, 303, 304, 305, 400, 401, 402, 403, 404, 405, 406, 409, 410, 411, 501, 502, 504}

  /** The translation keeps the code, except that 304 (not modified) turns
      into 406 (not acceptable); it is defined on the listed codes only. */
  lemma StatusTranslation(code: int)
    ensures StatusFromCode(code).Some? <==> code in ListedCodes
    ensures StatusFromCode(code).Some? ==>
              Code(StatusFromCode(code).value) == if code == 304 then 406 else code
  {
  }

  /** Every status the switch can produce comes back from its own code;
      503 is the one status it never produces. */
  lemma StatusRoundTrip(s: Status)
    ensures s != ServiceUnavailable503 <==> StatusFromCode(Code(s)) == Some(s)
    ensures forall code :: StatusFromCode(code) != Some(ServiceUnavailable503)
  {
  }

  /** `Character.isWhitespace`: the Unicode space, line and paragraph
      separators other than the non-breaking spaces U+00A0, U+2007 and U+202F,
      and the controls U+0009 to U+000D and U+001C to U+001F. */
  predicate IsWhitespace(c: char) {
    var n := c as int;
    (0x09 <= n <= 0x0D) || (0x1C <= n <= 0x20) || n == 0x1680
    || (0x2000 <= n <= 0x2006) || (0x2008 <= n <= 0x200A)
    || n == 0x2028 || n == 0x2029 || n == 0x205F || n == 0x3000
  }

  /** `String.isBlank`: scans for a character that is not whitespace. */
  function IsBlank(s: string): (r: bool)
    ensures r <==> forall i :: 0 <= i < |s| ==> IsWhitespace(s[i])
  {
    if s == [] then true
    else if !IsWhitespace(s[0]) then false
    else
      var rest := IsBlank(s[1..]);
      assert forall i :: 1 <= i < |s| ==> s[i] == s[1..][i - 1];
      rest
  }

  /** `isIncorrectId`: a missing or blank `id` parameter. */
  function IsIncorrectId(id: Option<string>): (r: bool)
    ensures r <==> id.None? || forall i :: 0 <= i < |id.value| ==> IsWhitespace(id.value[i])
    ensures id == Some("") ==> r
    ensures !r ==> id.Some? && exists i :: 0 <= i < |id.value| && !IsWhitespace(id.value[i])
  {
    id.None? || IsBlank(id.value)
  }
}
