/** The tenant handlers: read with usage statistics, update (super_admin any
    column, tenant_admin the name of its own tenant only) and the
    super_admin-only listing. */
module TenantController {
  import opened Common
  import opened Store
  import opened Audit
  import opened Paging
  import T = TenantModel
  import U = UserModel

  datatype Stats = Stats(totalUsers: nat, totalProjects: nat, totalTasks: nat)

  datatype TenantView = TenantView(tenant: T.Tenant, stats: Stats)

  /** `getTenant`: the authorization test comes before the lookup, so an
      unknown id is a 403 for a caller of another tenant. */
  function GetTenant(s: State, c: Claims, tid: Id): (r: Step<TenantView>)
    ensures r.state == s
    ensures !Reaches(c, tid) ==> r.reply == Err(403, "Unauthorized")
    ensures Reaches(c, tid) && tid !in s.tenants ==> r.reply == Err(404, "Tenant not found")
    ensures Reaches(c, tid) && tid in s.tenants ==> r.reply.Ok?
    ensures r.reply.Ok? ==>
      && r.reply.code == 200
      && Reaches(c, tid) && tid in s.tenants
      && r.reply.data.tenant == s.tenants[tid]
      && r.reply.data.stats.totalUsers == |UsersOf(s.users, tid)|
      && r.reply.data.stats.totalProjects == |ProjectsOf(s.projects, tid)|
      && r.reply.data.stats.totalTasks == |TasksOf(s.tasks, tid)|
  {
    if !Reaches(c, tid) then Step(Err(403, "Unauthorized"), s)
    else if tid !in s.tenants then Step(Err(404, "Tenant not found"), s)
    else
      var stats := Stats(|UsersOf(s.users, tid)|, |ProjectsOf(s.projects, tid)|, |TasksOf(s.tasks, tid)|);
      Step(Ok(200, TenantView(s.tenants[tid], stats)), s)
  }

  /** `updateTenant`. A tenant_admin body with any key besides `name` is
      refused whole, whereas a super_admin body is applied as given. */
  function UpdateTenant(s: State, c: Claims, tid: Id, p: T.TenantPatch, ctx: Ctx): (r: Step<T.Tenant>)
    ensures r.reply.Err? ==> r.state == s
    ensures c.role == U.RegularUser ==> r.reply == Err(403, "Unauthorized")
    ensures c.role == U.TenantAdmin && c.tenantId != Some(tid) ==> r.reply == Err(403, "Unauthorized")
    ensures (c.role == U.SuperAdmin || (c.role == U.TenantAdmin && c.tenantId == Some(tid))) && tid !in s.tenants ==>
      r.reply == Err(404, "Tenant not found")
    ensures c.role == U.TenantAdmin && c.tenantId == Some(tid) && tid in s.tenants && !T.OnlyName(p) ==>
      r.reply == Err(403, "Tenant admin can only update name")
    ensures (c.role == U.SuperAdmin || (c.role == U.TenantAdmin && c.tenantId == Some(tid) && T.OnlyName(p)))
            && tid in s.tenants ==>
      var t' := T.Apply(s.tenants[tid], p);
      (t'.Some? && forall o :: o in s.tenants && o != tid ==> s.tenants[o].subdomain != t'.value.subdomain) ==>
        r.reply == Ok(200, t'.value)
    ensures r.reply.Ok? ==>
      && r.reply.code == 200
      && tid in s.tenants
      && (c.role == U.SuperAdmin || (c.role == U.TenantAdmin && c.tenantId == Some(tid) && T.OnlyName(p)))
      && T.Apply(s.tenants[tid], p) == Some(r.reply.data)
      && r.state.tenants == s.tenants[tid := r.reply.data]
      && (c.role == U.TenantAdmin ==> r.reply.data == s.tenants[tid].(name := r.reply.data.name))
      && r.state.users == s.users && r.state.projects == s.projects && r.state.tasks == s.tasks
      && Logged(s.audit, r.state.audit, Some(tid), Some(c.userId), "UPDATE_TENANT", "tenant", tid, ctx)
  {
    if c.role != U.SuperAdmin && c.role != U.TenantAdmin then Step(Err(403, "Unauthorized"), s)
    else if c.role == U.TenantAdmin && c.tenantId != Some(tid) then Step(Err(403, "Unauthorized"), s)
    else if tid !in s.tenants then Step(Err(404, "Tenant not found"), s)
    else if c.role == U.TenantAdmin && !T.OnlyName(p) then Step(Err(403, "Tenant admin can only update name"), s)
    else
      match T.Apply(s.tenants[tid], p)
      case None => Step(Err(500, InternalError), s)
      case Some(t') =>
        // The UNIQUE constraint on `subdomain`.
        if exists o :: o in s.tenants && o != tid && s.tenants[o].subdomain == t'.subdomain then
          Step(Err(500, InternalError), s)
        else
          Step(Ok(200, t'), Log(s.(tenants := s.tenants[tid := t']), Some(tid), Some(c.userId), "UPDATE_TENANT", "tenant", tid, ctx))
  }

  /** The query string of `GET /tenants`. */
  datatype TenantQuery = TenantQuery(
    status: Field<string>, subscriptionPlan: Field<string>, page: Option<int>, limit: Option<int>)

  datatype TenantUsage = TenantUsage(totalUsers: nat, totalProjects: nat)

  datatype TenantListing = TenantListing(tenants: set<Id>, usage: map<Id, TenantUsage>, pagination: Pagination, total: nat)

  /** `listTenants`: super_admin only, filtered by status and plan. */
  function ListTenants(s: State, c: Claims, q: TenantQuery): (r: Step<TenantListing>)
    ensures r.state == s
    ensures var page := if q.page.Some? then q.page.value else 1;
            var limit := if q.limit.Some? then q.limit.value else 10;
            && c.role == U.SuperAdmin
            && (Truthy(q.status) ==> T.ParseStatus(q.status.value).Some?)
            && (Truthy(q.subscriptionPlan) ==> T.ParsePlan(q.subscriptionPlan.value).Some?)
            && limit >= 0 && (page - 1) * limit >= 0
            ==> r.reply.Ok?
    ensures c.role != U.SuperAdmin ==> r.reply == Err(403, "Unauthorized")
    ensures r.reply.Ok? ==>
      var l := r.reply.data;
      && c.role == U.SuperAdmin
      && l.total == |l.tenants|
      && (forall t :: t in l.tenants <==>
            t in s.tenants
            && (Truthy(q.status) ==> T.StatusName(s.tenants[t].status) == q.status.value)
            && (Truthy(q.subscriptionPlan) ==> T.PlanName(s.tenants[t].plan) == q.subscriptionPlan.value))
      && l.usage.Keys == l.tenants
      && (forall t :: t in l.usage ==>
            l.usage[t].totalUsers == |UsersOf(s.users, t)| && l.usage[t].totalProjects == |ProjectsOf(s.projects, t)|)
      && l.pagination.offset == ((if q.page.Some? then q.page.value else 1) - 1) * (if q.limit.Some? then q.limit.value else 10)
      && (l.pagination.limit > 0 ==> l.pagination.totalPages == Some(CeilDiv(l.total, l.pagination.limit)))
  {
    if c.role != U.SuperAdmin then Step(Err(403, "Unauthorized"), s)
    else
      var page := if q.page.Some? then q.page.value else 1;
      var limit := if q.limit.Some? then q.limit.value else 10;
      var status := if Truthy(q.status) then T.ParseStatus(q.status.value) else None;
      var plan := if Truthy(q.subscriptionPlan) then T.ParsePlan(q.subscriptionPlan.value) else None;
      if (Truthy(q.status) && status.None?) || (Truthy(q.subscriptionPlan) && plan.None?) then
        Step(Err(500, InternalError), s)
      else
        var matches := set t | t in s.tenants
                               && (Truthy(q.status) ==> T.StatusName(s.tenants[t].status) == q.status.value)
                               && (Truthy(q.subscriptionPlan) ==> T.PlanName(s.tenants[t].plan) == q.subscriptionPlan.value);
        match Paginate(|matches|, page, limit)
        case None => Step(Err(500, InternalError), s)
        case Some(pg) =>
          var usage := map t | t in matches :: TenantUsage(|UsersOf(s.users, t)|, |ProjectsOf(s.projects, t)|);
          Step(Ok(200, TenantListing(matches, usage, pg, |matches|)), s)
  }

  // ---- Integrity and isolation

  lemma UpdateTenantKeepsValid(s: State, c: Claims, tid: Id, p: T.TenantPatch, ctx: Ctx)
    requires Valid(s)
    ensures Valid(UpdateTenant(s, c, tid, p, ctx).state)
  {
  }

  /** A tenant_admin changes its own tenant's row and nothing else. */
  lemma UpdateTenantConfined(s: State, c: Claims, tid: Id, p: T.TenantPatch, ctx: Ctx)
    requires WellFormedClaims(c) && c.role != U.SuperAdmin
    ensures ConfinedTo(s, UpdateTenant(s, c, tid, p, ctx).state, c.tenantId.value)
  {
  }
}
