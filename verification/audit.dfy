/** The audit utility: one best-effort write per mutating action. The write
    can fail (storage unavailable, a constraint of the audit table); the
    failure is caught and swallowed, so the caller always continues. */
module Audit {
  import opened Common
  import opened AuditLogModel
  import opened Store

  /** The network origin of a request: the `x-forwarded-for` header and the
      socket's remote address (which may be undefined). */
  datatype Origin = Origin(forwardedFor: Field<string>, remoteAddress: Option<string>)

  /** What the audit write sees beyond its arguments: the request (absent
      when none is passed), the clock, and whether the insert succeeds. */
  datatype Ctx = Ctx(origin: Option<Origin>, now: nat, writeSucceeds: bool)

  /** `req ? (req.headers['x-forwarded-for'] || req.socket.remoteAddress) : null`. */
  function ClientIp(origin: Option<Origin>): (ip: Option<string>)
    ensures origin.None? ==> ip.None?
    ensures origin.Some? && Truthy(origin.value.forwardedFor) ==> ip == Some(origin.value.forwardedFor.value)
    ensures origin.Some? && !Truthy(origin.value.forwardedFor) ==> ip == origin.value.remoteAddress
  {
    match origin
    case None => None
    case Some(o) => if Truthy(o.forwardedFor) then Some(o.forwardedFor.value) else o.remoteAddress
  }

  /** `logAudit(tenantId, userId, action, entityType, entityId, req)`. */
  function Log(s: State, tenantId: Option<Id>, userId: Option<Id>, action: string, entityType: string,
               entityId: Id, ctx: Ctx): (r: State)
    ensures r.tenants == s.tenants && r.users == s.users && r.projects == s.projects && r.tasks == s.tasks
    ensures ctx.writeSucceeds ==>
      r.audit == s.audit + [AuditEntry(tenantId, userId, action, entityType, entityId, ClientIp(ctx.origin), ctx.now)]
    ensures !ctx.writeSucceeds ==> r.audit == s.audit
  {
    if ctx.writeSucceeds then
      s.(audit := s.audit + [AuditEntry(tenantId, userId, action, entityType, entityId, ClientIp(ctx.origin), ctx.now)])
    else s
  }

  /** The log `after` an action, given the log `before` it: the action's
      entry appended at the end when the write succeeds, `before` itself
      when it fails. */
  predicate Logged(before: seq<AuditEntry>, after: seq<AuditEntry>, tenantId: Option<Id>, userId: Option<Id>,
                   action: string, entityType: string, entityId: Id, ctx: Ctx)
  {
    if ctx.writeSucceeds then
      after == before + [AuditEntry(tenantId, userId, action, entityType, entityId, ClientIp(ctx.origin), ctx.now)]
    else after == before
  }

  /** The log only grows at its end, by at most one entry, and an entry
      carrying the given tenant, user, action and entity is there exactly
      when the write succeeded. */
  lemma LogAppendsAtMostOne(s: State, tenantId: Option<Id>, userId: Option<Id>, action: string,
                            entityType: string, entityId: Id, ctx: Ctx)
    ensures var r := Log(s, tenantId, userId, action, entityType, entityId, ctx);
      && r.audit[..|s.audit|] == s.audit
      && |r.audit| == |s.audit| + (if ctx.writeSucceeds then 1 else 0)
      && (ctx.writeSucceeds ==>
            var e := r.audit[|s.audit|];
            e.tenantId == tenantId && e.userId == userId && e.action == action
            && e.entityType == entityType && e.entityId == entityId)
  {
  }
}
