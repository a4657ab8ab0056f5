/**
 * The part the two Casbin authorizer packages (authj and authc) share: the
 * policy oracle's verdict is mapped to forwarding the request or to a JSON
 * error response, which renderJSON writes to the response writer.
 */
module Authz {
  import opened Wrappers
  import opened Http
  import Decimal

  const StatusForbidden := 403
  const StatusInternalServerError := 500
  const ValidationFailedMessage := "Permission validation errors occur!"
  const DeniedMessage := "Permission denied!"
  const ContentTypeKey := "Content-Type"
  const JsonContentType := "application/json; charset=utf-8"

  /** An error returned by the policy engine. */
  datatype EnforceError = EnforceError(message: string)

  /** The result pair (allowed, err) of `Enforce`. */
  datatype Verdict = Verdict(allowed: bool, err: Option<EnforceError>)

  /**
   * The policy engine, queried with (subject, path, method). It is left
   * uninterpreted: nothing is assumed about which triples it allows.
   */
  type Enforcer = (string, string, string) -> Verdict

  /** The error body {"code": ..., "message": ...}. */
  datatype ErrorBody = ErrorBody(code: nat, message: string)

  /** What the authorizer does with a request. */
  datatype Outcome = Forward(request: Request) | Reject(status: nat, body: ErrorBody)

  /**
   * An engine error gives 500 whatever `allowed` says; otherwise a denial
   * gives 403; only (true, no error) forwards, and then the request is
   * forwarded unchanged. A rejection's body repeats its status as its code.
   */
  function Decide(v: Verdict, r: Request): (o: Outcome)
    ensures o.Forward? <==> v == Verdict(true, None)
    ensures o.Forward? ==> o.request == r
    ensures o.Reject? ==> o.body.code == o.status
    ensures v.err.Some? ==> o == Reject(StatusInternalServerError, ErrorBody(StatusInternalServerError, ValidationFailedMessage))
    ensures v.err.None? && !v.allowed ==> o == Reject(StatusForbidden, ErrorBody(StatusForbidden, DeniedMessage))
  {
    if v.err.Some? then Reject(StatusInternalServerError, ErrorBody(StatusInternalServerError, ValidationFailedMessage))
    else if !v.allowed then Reject(StatusForbidden, ErrorBody(StatusForbidden, DeniedMessage))
    else Forward(r)
  }

  // ---------------------------------------------------------------------------
  // JSON body

  /** String escaping for '"' and '\'. */
  function Escape(s: string): (t: string)
    ensures |t| >= |s|
  {
    if s == [] then []
    else (if s[0] == '"' || s[0] == '\\' then ['\\', s[0]] else [s[0]]) + Escape(s[1..])
  }

  /** A JSON object with the keys in sorted order, as json.Marshal writes a map. */
  function Json(b: ErrorBody): (j: string)
    ensures |j| >= 22 + |b.message|
    ensures j[..8] == "{\"code\":" && j[|j| - 2..] == "\"}"
  {
    "{\"code\":" + Decimal.Format(b.code) + ",\"message\":\"" + Escape(b.message) + "\"}"
  }

  lemma {:induction false} EscapePlain(s: string)
    requires '"' !in s && '\\' !in s
    ensures Escape(s) == s
  {
    if s != [] {
      assert s == [s[0]] + s[1..];
      EscapePlain(s[1..]);
    }
  }

  /** With a message that needs no escaping, a 500 body carries the message verbatim. */
  lemma ServerErrorJson(message: string)
    requires Escape(message) == message
    ensures Json(ErrorBody(StatusInternalServerError, message)) == "{\"code\":500,\"message\":\"" + message + "\"}"
  {
    assert Decimal.Format(5) == "5";
    assert Decimal.Format(50) == "50";
    assert Decimal.Format(StatusInternalServerError) == "500";
    assert "{\"code\":" + "500" + ",\"message\":\"" == "{\"code\":500,\"message\":\"";
  }

  /** With a message that needs no escaping, a 403 body carries the message verbatim. */
  lemma ForbiddenJson(message: string)
    requires Escape(message) == message
    ensures Json(ErrorBody(StatusForbidden, message)) == "{\"code\":403,\"message\":\"" + message + "\"}"
  {
    assert Decimal.Format(4) == "4";
    assert Decimal.Format(40) == "40";
    assert Decimal.Format(StatusForbidden) == "403";
    assert "{\"code\":" + "403" + ",\"message\":\"" == "{\"code\":403,\"message\":\"";
  }

  /** The 500 body as it appears on the wire. */
  lemma ValidationErrorOnTheWire()
    ensures Json(ErrorBody(StatusInternalServerError, ValidationFailedMessage))
      == "{\"code\":500,\"message\":\"" + ValidationFailedMessage + "\"}"
  {
    EscapePlain(ValidationFailedMessage);
    ServerErrorJson(ValidationFailedMessage);
  }

  /** The 403 body as it appears on the wire. */
  lemma DeniedOnTheWire()
    ensures Json(ErrorBody(StatusForbidden, DeniedMessage)) == "{\"code\":403,\"message\":\"" + DeniedMessage + "\"}"
  {
    EscapePlain(DeniedMessage);
    ForbiddenJson(DeniedMessage);
  }

  // ---------------------------------------------------------------------------
  // renderJSON

  /**
   * renderJSON as the source writes it: WriteHeader, then the Content-Type
   * header, then the body. The header change comes after the response was
   * committed, so on a fresh writer the committed header lacks it.
   */
  method RenderJsonAsWritten(w: ResponseWriter, code: nat, body: ErrorBody)
    requires 100 <= code <= 999
    modifies w
    ensures w.status == WriteStatus(old(w.status), code)
    ensures w.header == Set(old(w.header), ContentTypeKey, JsonContentType)
    ensures w.sentHeader == if old(w.status) == 0 then old(w.header) else old(w.sentHeader)
    ensures w.body == old(w.body) + Json(body)
  {
    w.WriteHeader(code);
    w.SetHeader(ContentTypeKey, JsonContentType);
    w.Write(Json(body));
  }

  /** renderJSON with the Content-Type header set before the status is written. */
  method RenderJson(w: ResponseWriter, code: nat, body: ErrorBody)
    requires 100 <= code <= 999
    modifies w
    ensures w.status == WriteStatus(old(w.status), code)
    ensures w.header == Set(old(w.header), ContentTypeKey, JsonContentType)
    ensures w.sentHeader == if old(w.status) == 0 then w.header else old(w.sentHeader)
    ensures w.body == old(w.body) + Json(body)
  {
    w.SetHeader(ContentTypeKey, JsonContentType);
    w.WriteHeader(code);
    w.Write(Json(body));
  }

  /** On a fresh writer, the as-written order commits a header without Content-Type. */
  method ContentTypeLostAsWritten(body: ErrorBody) returns (sent: string)
    ensures sent == ""
  {
    var w := new ResponseWriter();
    RenderJsonAsWritten(w, StatusForbidden, body);
    sent := Get(w.sentHeader, ContentTypeKey);
  }

  /** On a fresh writer, the corrected order commits the JSON Content-Type. */
  method ContentTypeSent(body: ErrorBody) returns (sent: string)
    ensures sent == JsonContentType
  {
    var w := new ResponseWriter();
    RenderJson(w, StatusForbidden, body);
    sent := Get(w.sentHeader, ContentTypeKey);
  }

  /**
   * The per-request branch both authorizers share: forward the request
   * untouched, writing nothing, or render the rejection and stop.
   */
  method Respond(w: ResponseWriter, v: Verdict, r: Request) returns (forwarded: Option<Request>)
    modifies w
    ensures forwarded == if v == Verdict(true, None) then Some(r) else None
    ensures forwarded.Some? ==>
      w.header == old(w.header) && w.status == old(w.status) && w.sentHeader == old(w.sentHeader) && w.body == old(w.body)
    ensures forwarded.None? ==>
      && w.status == WriteStatus(old(w.status), Decide(v, r).status)
      && w.header == Set(old(w.header), ContentTypeKey, JsonContentType)
      && w.sentHeader == (if old(w.status) == 0 then w.header else old(w.sentHeader))
      && w.body == old(w.body) + Json(Decide(v, r).body)
  {
    match Decide(v, r)
    case Forward(q) =>
      forwarded := Some(q);
    case Reject(code, body) =>
      RenderJson(w, code, body);
      forwarded := None;
  }
}
