/**
 * The authc authorizer: the subject comes from a function supplied when the
 * authorizer is built.
 */
module Authc {
  import opened Wrappers
  import opened Http
  import opened Authz

  /** The enforcer and the Subject function given to NewAuthorizer. */
  datatype Authorizer = Authorizer(enforcer: Enforcer, subject: Request -> string)

  /** The decision for one request, querying (Subject(r), path, method). */
  function Authorize(a: Authorizer, r: Request): (o: Outcome)
    ensures o.Forward? <==> a.enforcer(a.subject(r), r.path, r.verb) == Verdict(true, None)
    ensures o.Forward? ==> o.request == r
    ensures o.Reject? ==> o.body.code == o.status
    ensures o.Reject? ==> (o.status == StatusInternalServerError <==> a.enforcer(a.subject(r), r.path, r.verb).err.Some?)
  {
    Decide(a.enforcer(a.subject(r), r.path, r.verb), r)
  }

  /** Two authorizers whose engines agree on this request's triple decide it alike. */
  lemma OnlyTheTripleMatters(a: Authorizer, b: Authorizer, r: Request)
    requires a.subject(r) == b.subject(r)
    requires a.enforcer(a.subject(r), r.path, r.verb) == b.enforcer(b.subject(r), r.path, r.verb)
    ensures Authorize(a, r) == Authorize(b, r)
  {
  }

  /** The handler NewAuthorizer(e, s)(next) builds: returns the request passed to `next`, if any. */
  method ServeHttp(a: Authorizer, w: ResponseWriter, r: Request) returns (forwarded: Option<Request>)
    modifies w
    ensures forwarded == if Authorize(a, r).Forward? then Some(r) else None
    ensures forwarded.Some? ==>
      w.header == old(w.header) && w.status == old(w.status) && w.sentHeader == old(w.sentHeader) && w.body == old(w.body)
    ensures forwarded.None? ==>
      && w.status == WriteStatus(old(w.status), Authorize(a, r).status)
      && w.header == Set(old(w.header), ContentTypeKey, JsonContentType)
      && w.sentHeader == (if old(w.status) == 0 then w.header else old(w.sentHeader))
      && w.body == old(w.body) + Json(Authorize(a, r).body)
  {
    forwarded := Respond(w, a.enforcer(a.subject(r), r.path, r.verb), r);
  }
}
