/** The `Tenant` table: status and plan enumerations, column defaults, and the
    validation Sequelize applies when a row is created or updated. */
module TenantModel {
  import opened Common

  datatype TenantStatus = Active | Suspended | Trial

  datatype Plan = Free | Pro | Enterprise

  function StatusName(st: TenantStatus): string {
    match st
    case Active => "active"
    case Suspended => "suspended"
    case Trial => "trial"
  }

  function PlanName(p: Plan): string {
    match p
    case Free => "free"
    case Pro => "pro"
    case Enterprise => "enterprise"
  }

  /** ENUM('active', 'suspended', 'trial'): a string is accepted exactly when
      it is the name of a status, and then it reads back as that status. */
  function ParseStatus(s: string): (r: Option<TenantStatus>)
    ensures r.Some? ==> StatusName(r.value) == s
    ensures r.None? ==> forall st :: StatusName(st) != s
  {
    if s == "active" then Some(Active)
    else if s == "suspended" then Some(Suspended)
    else if s == "trial" then Some(Trial)
    else None
  }

  /** ENUM('free', 'pro', 'enterprise'). */
  function ParsePlan(s: string): (r: Option<Plan>)
    ensures r.Some? ==> PlanName(r.value) == s
    ensures r.None? ==> forall p :: PlanName(p) != s
  {
    if s == "free" then Some(Free)
    else if s == "pro" then Some(Pro)
    else if s == "enterprise" then Some(Enterprise)
    else None
  }

  /** A stored tenant row (its id is the key it is stored under). */
  datatype Tenant = Tenant(
    name: string,
    subdomain: string,
    status: TenantStatus,
    plan: Plan,
    maxUsers: int,
    maxProjects: int)

  const DefaultMaxUsers := 5
  const DefaultMaxProjects := 3

  /** `Tenant.create(attrs)`: `name` and `subdomain` must not be null, an
      ENUM value must be one of its names, and every omitted attribute takes
      its column default (active, free, 5 users, 3 projects). */
  function Build(name: Field<string>, subdomain: Field<string>, status: Option<string>,
                 plan: Option<string>, maxUsers: Option<int>, maxProjects: Option<int>): (r: Option<Tenant>)
    ensures r.Some? <==>
      && name.Val? && subdomain.Val?
      && (status.Some? ==> ParseStatus(status.value).Some?)
      && (plan.Some? ==> ParsePlan(plan.value).Some?)
    ensures r.Some? ==> r.value.name == name.value && r.value.subdomain == subdomain.value
    ensures r.Some? && status.None? ==> r.value.status == Active
    ensures r.Some? && status.Some? ==> StatusName(r.value.status) == status.value
    ensures r.Some? && plan.None? ==> r.value.plan == Free
    ensures r.Some? && plan.Some? ==> PlanName(r.value.plan) == plan.value
    ensures r.Some? ==> r.value.maxUsers == (if maxUsers.Some? then maxUsers.value else DefaultMaxUsers)
    ensures r.Some? ==> r.value.maxProjects == (if maxProjects.Some? then maxProjects.value else DefaultMaxProjects)
  {
    if name.Val? && subdomain.Val? then
      var st := if status.Some? then ParseStatus(status.value) else Some(Active);
      var pl := if plan.Some? then ParsePlan(plan.value) else Some(Free);
      if st.Some? && pl.Some? then
        Some(Tenant(name.value, subdomain.value, st.value, pl.value,
                    if maxUsers.Some? then maxUsers.value else DefaultMaxUsers,
                    if maxProjects.Some? then maxProjects.value else DefaultMaxProjects))
      else None
    else None
  }

  /** The keys a `PUT /tenants/:id` body may carry. `otherKeys` counts the
      keys that name no column of the table. */
  datatype TenantPatch = TenantPatch(
    name: Field<string>,
    subdomain: Field<string>,
    status: Option<string>,
    plan: Option<string>,
    maxUsers: Option<int>,
    maxProjects: Option<int>,
    otherKeys: nat)

  /** True when the body has no key other than `name`. */
  predicate OnlyName(p: TenantPatch) {
    p.subdomain.Absent? && p.status.None? && p.plan.None?
    && p.maxUsers.None? && p.maxProjects.None? && p.otherKeys == 0
  }

  /** `tenant.update(body)` before the database sees it: supplied columns are
      written, null is refused for the non-null columns, ENUM values are
      checked, and keys naming no column are ignored. */
  function Apply(t: Tenant, p: TenantPatch): (r: Option<Tenant>)
    ensures r.Some? <==>
      && !p.name.Null? && !p.subdomain.Null?
      && (p.status.Some? ==> ParseStatus(p.status.value).Some?)
      && (p.plan.Some? ==> ParsePlan(p.plan.value).Some?)
    ensures r.Some? ==> r.value.name == (if p.name.Val? then p.name.value else t.name)
    ensures r.Some? ==> r.value.subdomain == (if p.subdomain.Val? then p.subdomain.value else t.subdomain)
    ensures r.Some? ==> (if p.status.Some? then StatusName(r.value.status) == p.status.value else r.value.status == t.status)
    ensures r.Some? ==> (if p.plan.Some? then PlanName(r.value.plan) == p.plan.value else r.value.plan == t.plan)
    ensures r.Some? ==> r.value.maxUsers == (if p.maxUsers.Some? then p.maxUsers.value else t.maxUsers)
    ensures r.Some? ==> r.value.maxProjects == (if p.maxProjects.Some? then p.maxProjects.value else t.maxProjects)
    ensures r.Some? && OnlyName(p) ==> r.value == t.(name := r.value.name)
  {
    if p.name.Null? || p.subdomain.Null? then None
    else
      var st := if p.status.Some? then ParseStatus(p.status.value) else Some(t.status);
      var pl := if p.plan.Some? then ParsePlan(p.plan.value) else Some(t.plan);
      if st.None? || pl.None? then None
      else
        Some(Tenant(
          if p.name.Val? then p.name.value else t.name,
          if p.subdomain.Val? then p.subdomain.value else t.subdomain,
          st.value, pl.value,
          if p.maxUsers.Some? then p.maxUsers.value else t.maxUsers,
          if p.maxProjects.Some? then p.maxProjects.value else t.maxProjects))
  }
}
