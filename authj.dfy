/**
 * The authj authorizer: the subject is the string stored in the request's
 * context under the package's private key.
 */
module Authj {
  import opened Wrappers
  import opened Ctx
  import opened Http
  import opened Authz

  /** The subject stored by ContextWithSubject, or "" when none (or no string) was stored. */
  function Subject(r: Request): (subject: string)
    ensures Lookup(r.ctx, AuthSubjectKey).None? ==> subject == ""
    ensures subject != "" ==> Lookup(r.ctx, AuthSubjectKey) == Some(Text(subject))
  {
    var v := Lookup(r.ctx, AuthSubjectKey);
    if v.Some? && v.value.Text? then v.value.s else ""
  }

  /** A child context holding `subject` under the private key; every other key reads as before. */
  function ContextWithSubject(c: Context, subject: string): (d: Context)
    ensures Lookup(d, AuthSubjectKey) == Some(Text(subject))
    ensures forall k :: k != AuthSubjectKey ==> Lookup(d, k) == Lookup(c, k)
  {
    WithValue(c, AuthSubjectKey, Text(subject))
  }

  /**
   * A subject stored with ContextWithSubject is the one the authorizer reads,
   * even after other middleware added keys of its own to the context; when
   * none was stored, the subject reads as "".
   */
  lemma SubjectAfterContextWithSubject(r: Request, subject: string, kvs: seq<(Key, Value)>)
    requires forall i :: 0 <= i < |kvs| ==> kvs[i].0 != AuthSubjectKey
    ensures Subject(r.(ctx := Extend(ContextWithSubject(r.ctx, subject), kvs))) == subject
    ensures Lookup(r.ctx, AuthSubjectKey).None? ==> Subject(r.(ctx := Extend(r.ctx, kvs))) == ""
  {
    LastForAbsent(kvs, AuthSubjectKey);
    LookupExtend(ContextWithSubject(r.ctx, subject), kvs, AuthSubjectKey);
    LookupExtend(r.ctx, kvs, AuthSubjectKey);
  }

  /**
   * The decision for one request. The engine is asked about (subject, path,
   * method) in that order, and nothing else about the request matters.
   */
  function Authorize(e: Enforcer, r: Request): (o: Outcome)
    ensures o.Forward? <==> e(Subject(r), r.path, r.verb) == Verdict(true, None)
    ensures o.Forward? ==> o.request == r
    ensures o.Reject? ==> o.body.code == o.status
    ensures o.Reject? ==> (o.status == StatusInternalServerError <==> e(Subject(r), r.path, r.verb).err.Some?)
  {
    Decide(e(Subject(r), r.path, r.verb), r)
  }

  /** The handler NewAuthorizer(e)(next) builds: returns the request passed to `next`, if any. */
  method ServeHttp(e: Enforcer, w: ResponseWriter, r: Request) returns (forwarded: Option<Request>)
    modifies w
    ensures forwarded == if Authorize(e, r).Forward? then Some(r) else None
    ensures forwarded.Some? ==>
      w.header == old(w.header) && w.status == old(w.status) && w.sentHeader == old(w.sentHeader) && w.body == old(w.body)
    ensures forwarded.None? ==>
      && w.status == WriteStatus(old(w.status), Authorize(e, r).status)
      && w.header == Set(old(w.header), ContentTypeKey, JsonContentType)
      && w.sentHeader == (if old(w.status) == 0 then w.header else old(w.sentHeader))
      && w.body == old(w.body) + Json(Authorize(e, r).body)
  {
    forwarded := Respond(w, e(Subject(r), r.path, r.verb), r);
  }
}
