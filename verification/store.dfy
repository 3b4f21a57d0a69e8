/** The persistent store as the handlers see it: one id-keyed map per table
    plus the audit log, the caller's claims, the associations and cascade
    rules of the model index, and the integrity constraints the schema and
    the handlers are meant to keep. */
module Store {
  import opened Common
  import T = TenantModel
  import U = UserModel
  import P = ProjectModel
  import K = TaskModel
  import A = AuditLogModel

  datatype State = State(
    tenants: map<Id, T.Tenant>,
    users: map<Id, U.User>,
    projects: map<Id, P.Project>,
    tasks: map<Id, K.Task>,
    audit: seq<A.AuditEntry>)

  /** The signed claim set a bearer token carries, trusted as given. */
  datatype Claims = Claims(userId: Id, tenantId: Option<Id>, role: U.Role)

  /** The shape of every claim set login issues: the tenant is null exactly
      for a super_admin. */
  predicate WellFormedClaims(c: Claims) {
    c.tenantId.None? <==> c.role == U.SuperAdmin
  }

  /** The claims still describe their user: a user row under that id, if
      any, is in the claims' tenant. */
  predicate Bound(s: State, c: Claims) {
    c.userId in s.users ==> s.users[c.userId].tenantId == c.tenantId
  }

  /** A handler's reply together with the store it leaves behind. */
  datatype Step<+R> = Step(reply: Reply<R>, state: State)

  /** The tenant gate most handlers write as
      `x.tenant_id !== req.user.tenantId && req.user.role !== 'super_admin'`
      (negated): the caller is in the row's tenant or is a super_admin. */
  predicate Reaches(c: Claims, tenant: Id) {
    c.tenantId == Some(tenant) || c.role == U.SuperAdmin
  }

  // ---- Per-tenant row sets (the `count({ where: { tenant_id } })` queries)

  function UsersOf(users: map<Id, U.User>, t: Id): set<Id> {
    set u | u in users && users[u].tenantId == Some(t)
  }

  function ProjectsOf(projects: map<Id, P.Project>, t: Id): set<Id> {
    set p | p in projects && projects[p].tenantId == t
  }

  function TasksOf(tasks: map<Id, K.Task>, t: Id): set<Id> {
    set k | k in tasks && tasks[k].tenantId == t
  }

  function TasksOfProject(tasks: map<Id, K.Task>, p: Id): set<Id> {
    set k | k in tasks && tasks[k].projectId == p
  }

  /** Inserting a row under a fresh key adds one to its own tenant's count
      and leaves every other tenant's count alone. */
  lemma {:induction false} UserInsertCount(users: map<Id, U.User>, id: Id, u: U.User, t: Id)
    requires id !in users
    ensures |UsersOf(users[id := u], t)| == |UsersOf(users, t)| + (if u.tenantId == Some(t) then 1 else 0)
  {
    if u.tenantId == Some(t) {
      assert UsersOf(users[id := u], t) == UsersOf(users, t) + {id};
    } else {
      assert UsersOf(users[id := u], t) == UsersOf(users, t);
    }
  }

  lemma {:induction false} ProjectInsertCount(projects: map<Id, P.Project>, id: Id, p: P.Project, t: Id)
    requires id !in projects
    ensures |ProjectsOf(projects[id := p], t)| == |ProjectsOf(projects, t)| + (if p.tenantId == t then 1 else 0)
  {
    if p.tenantId == t {
      assert ProjectsOf(projects[id := p], t) == ProjectsOf(projects, t) + {id};
    } else {
      assert ProjectsOf(projects[id := p], t) == ProjectsOf(projects, t);
    }
  }

  // ---- `findOne` lookups on non-key columns. With no ORDER BY the database
  // may return any matching row, so these pick an arbitrary match.

  ghost function TenantWithSubdomain(s: State, sub: string): (r: Option<Id>)
    ensures r.Some? ==> r.value in s.tenants && s.tenants[r.value].subdomain == sub
    ensures r.None? ==> forall t :: t in s.tenants ==> s.tenants[t].subdomain != sub
  {
    if exists t :: t in s.tenants && s.tenants[t].subdomain == sub then
      var t :| t in s.tenants && s.tenants[t].subdomain == sub;
      Some(t)
    else None
  }

  ghost function UserInTenant(s: State, email: string, t: Id): (r: Option<Id>)
    ensures r.Some? ==> r.value in s.users && s.users[r.value].email == email && s.users[r.value].tenantId == Some(t)
    ensures r.None? ==> forall u :: u in s.users && s.users[u].email == email ==> s.users[u].tenantId != Some(t)
  {
    if exists u :: u in s.users && s.users[u].email == email && s.users[u].tenantId == Some(t) then
      var u :| u in s.users && s.users[u].email == email && s.users[u].tenantId == Some(t);
      Some(u)
    else None
  }

  ghost function SuperAdminWithEmail(s: State, email: string): (r: Option<Id>)
    ensures r.Some? ==> r.value in s.users && s.users[r.value].email == email && s.users[r.value].role == U.SuperAdmin
    ensures r.None? ==> forall u :: u in s.users && s.users[u].email == email ==> s.users[u].role != U.SuperAdmin
  {
    if exists u :: u in s.users && s.users[u].email == email && s.users[u].role == U.SuperAdmin then
      var u :| u in s.users && s.users[u].email == email && s.users[u].role == U.SuperAdmin;
      Some(u)
    else None
  }

  predicate SubdomainTaken(s: State, sub: string) {
    exists t :: t in s.tenants && s.tenants[t].subdomain == sub
  }

  predicate EmailTakenIn(s: State, email: string, t: Id) {
    exists u :: u in s.users && s.users[u].email == email && s.users[u].tenantId == Some(t)
  }

  // ---- Cascade rules of the associations

  /** Destroying a project: `Project.hasMany(Task, { onDelete: CASCADE })`
      removes exactly that project's tasks and no other row. */
  function RemoveProject(s: State, pid: Id): (r: State)
    ensures r.projects.Keys == s.projects.Keys - {pid}
    ensures forall p :: p in r.projects ==> r.projects[p] == s.projects[p]
    ensures forall k :: k in r.tasks <==> k in s.tasks && s.tasks[k].projectId != pid
    ensures forall k :: k in r.tasks ==> r.tasks[k] == s.tasks[k]
    ensures r.tenants == s.tenants && r.users == s.users && r.audit == s.audit
  {
    s.(projects := s.projects - {pid},
       tasks := map k | k in s.tasks && s.tasks[k].projectId != pid :: s.tasks[k])
  }

  /** The audit log after the rows some of its entries name were deleted:
      `AuditLog.belongsTo(User)` and `AuditLog.belongsTo(Tenant)` declare no
      ON DELETE action, and Sequelize's default for these nullable keys is
      SET NULL. Entries are neither removed nor reordered. */
  function ForgetInLog(log: seq<A.AuditEntry>, goneTenant: Id -> bool, goneUser: Id -> bool): (r: seq<A.AuditEntry>)
    ensures |r| == |log|
    ensures forall i :: 0 <= i < |log| ==>
      && r[i].action == log[i].action && r[i].entityType == log[i].entityType
      && r[i].entityId == log[i].entityId && r[i].ipAddress == log[i].ipAddress
      && r[i].createdAt == log[i].createdAt
      && r[i].tenantId == (if log[i].tenantId.Some? && goneTenant(log[i].tenantId.value) then None else log[i].tenantId)
      && r[i].userId == (if log[i].userId.Some? && goneUser(log[i].userId.value) then None else log[i].userId)
  {
    seq(|log|, i requires 0 <= i < |log| =>
      log[i].(tenantId := if log[i].tenantId.Some? && goneTenant(log[i].tenantId.value) then None else log[i].tenantId,
              userId := if log[i].userId.Some? && goneUser(log[i].userId.value) then None else log[i].userId))
  }

  /** Destroying a user: `User.hasMany(Task, { foreignKey: "assigned_to" })`
      on a nullable column defaults to ON DELETE SET NULL, so the user's
      assignments are cleared and the tasks stay; likewise the `user_id` of
      the audit entries the user made. */
  function RemoveUser(s: State, uid: Id): (r: State)
    ensures r.users == s.users - {uid}
    ensures r.tasks.Keys == s.tasks.Keys
    ensures forall k :: k in r.tasks ==>
      r.tasks[k] == (if s.tasks[k].assignedTo == Some(uid) then s.tasks[k].(assignedTo := None) else s.tasks[k])
    ensures r.tenants == s.tenants && r.projects == s.projects
    ensures |r.audit| == |s.audit|
    ensures forall i :: 0 <= i < |s.audit| ==>
      r.audit[i] == (if s.audit[i].userId == Some(uid) then s.audit[i].(userId := None) else s.audit[i])
  {
    s.(users := s.users - {uid},
       tasks := map k | k in s.tasks ::
         if s.tasks[k].assignedTo == Some(uid) then s.tasks[k].(assignedTo := None) else s.tasks[k],
       audit := ForgetInLog(s.audit, _ => false, x => x == uid))
  }

  lemma {:induction false} RemoveUserKeepsValid(s: State, uid: Id)
    requires Valid(s)
    ensures Valid(RemoveUser(s, uid))
  {
    var r := RemoveUser(s, uid);
    forall k | k in r.tasks && r.tasks[k].assignedTo.Some?
      ensures r.tasks[k].assignedTo.value in r.users
      ensures r.users[r.tasks[k].assignedTo.value].tenantId == Some(r.tasks[k].tenantId)
    {
      assert s.tasks[k].assignedTo == r.tasks[k].assignedTo;
    }
    assert AssigneesInTenant(r);
    assert TasksFollowProjects(r);
  }

  /** Destroying a tenant: its users, its projects and its tasks cascade, and
      so do the tasks of its projects through the project cascade. A
      surviving task assigned to a removed user keeps its row with the
      assignee cleared, the SET NULL of `RemoveUser`. */
  function RemoveTenant(s: State, tid: Id): (r: State)
    ensures r.tenants.Keys == s.tenants.Keys - {tid}
    ensures forall u :: u in r.users <==> u in s.users && s.users[u].tenantId != Some(tid)
    ensures forall p :: p in r.projects <==> p in s.projects && s.projects[p].tenantId != tid
    ensures forall k :: k in r.tasks <==>
      && k in s.tasks
      && s.tasks[k].tenantId != tid
      && !(s.tasks[k].projectId in s.projects && s.projects[s.tasks[k].projectId].tenantId == tid)
    ensures forall t :: t in r.tenants ==> r.tenants[t] == s.tenants[t]
    ensures forall u :: u in r.users ==> r.users[u] == s.users[u]
    ensures forall p :: p in r.projects ==> r.projects[p] == s.projects[p]
    ensures forall k :: k in r.tasks ==>
      r.tasks[k] == (if s.tasks[k].assignedTo.Some? && s.tasks[k].assignedTo.value in s.users
                        && s.tasks[k].assignedTo.value !in r.users
                     then s.tasks[k].(assignedTo := None) else s.tasks[k])
    ensures |r.audit| == |s.audit|
    ensures forall i :: 0 <= i < |s.audit| ==>
      && r.audit[i].action == s.audit[i].action && r.audit[i].entityId == s.audit[i].entityId
      && r.audit[i].tenantId == (if s.audit[i].tenantId == Some(tid) then None else s.audit[i].tenantId)
      && r.audit[i].userId ==
           (if s.audit[i].userId.Some? && s.audit[i].userId.value in s.users && s.audit[i].userId.value !in r.users
            then None else s.audit[i].userId)
  {
    var projects := map p | p in s.projects && s.projects[p].tenantId != tid :: s.projects[p];
    var users := map u | u in s.users && s.users[u].tenantId != Some(tid) :: s.users[u];
    s.(tenants := s.tenants - {tid},
       users := users,
       projects := projects,
       tasks := map k | k in s.tasks && s.tasks[k].tenantId != tid
                       && (s.tasks[k].projectId in projects || s.tasks[k].projectId !in s.projects) ::
                         if s.tasks[k].assignedTo.Some? && s.tasks[k].assignedTo.value in s.users
                            && s.tasks[k].assignedTo.value !in users
                         then s.tasks[k].(assignedTo := None) else s.tasks[k],
       audit := ForgetInLog(s.audit, x => x == tid, x => x in s.users && x !in users))
  }

  // ---- Tenant isolation

  /** Going from `s` to `s'` touched no row outside tenant `t`: every tenant
      other than `t`, and every user, project and task of another tenant (or
      of none), is present in `s'` exactly when it was in `s`, unchanged. */
  predicate ConfinedTo(s: State, s': State, t: Id) {
    && (forall x :: x in s.tenants && x != t ==> x in s'.tenants && s'.tenants[x] == s.tenants[x])
    && (forall x :: x in s'.tenants && x != t ==> x in s.tenants)
    && (forall u :: u in s.users && s.users[u].tenantId != Some(t) ==> u in s'.users && s'.users[u] == s.users[u])
    && (forall u :: u in s'.users && s'.users[u].tenantId != Some(t) ==> u in s.users && s.users[u] == s'.users[u])
    && (forall p :: p in s.projects && s.projects[p].tenantId != t ==> p in s'.projects && s'.projects[p] == s.projects[p])
    && (forall p :: p in s'.projects && s'.projects[p].tenantId != t ==> p in s.projects && s.projects[p] == s'.projects[p])
    && (forall k :: k in s.tasks && s.tasks[k].tenantId != t ==> k in s'.tasks && s'.tasks[k] == s.tasks[k])
    && (forall k :: k in s'.tasks && s'.tasks[k].tenantId != t ==> k in s.tasks && s.tasks[k] == s'.tasks[k])
  }

  /** The tables, without the audit log. */
  predicate SameData(s: State, s': State) {
    s'.tenants == s.tenants && s'.users == s.users && s'.projects == s.projects && s'.tasks == s.tasks
  }

  /** A step that writes no table is confined to any tenant. */
  lemma SameDataIsConfined(s: State, s': State, t: Id)
    requires SameData(s, s')
    ensures ConfinedTo(s, s', t)
  {
  }

  // ---- Integrity constraints

  /** `subdomain` is UNIQUE across all tenants. */
  predicate SubdomainsUnique(s: State) {
    forall a, b :: a in s.tenants && b in s.tenants && a != b ==> s.tenants[a].subdomain != s.tenants[b].subdomain
  }

  /** Foreign keys `tenant_id` of users and projects. */
  predicate OwnersExist(s: State) {
    && (forall u :: u in s.users && s.users[u].tenantId.Some? ==> s.users[u].tenantId.value in s.tenants)
    && (forall p :: p in s.projects ==> s.projects[p].tenantId in s.tenants)
  }

  /** A task belongs to an existing project and its `tenant_id` is a copy of
      that project's tenant. */
  predicate TasksFollowProjects(s: State) {
    forall k :: k in s.tasks ==>
      s.tasks[k].projectId in s.projects && s.projects[s.tasks[k].projectId].tenantId == s.tasks[k].tenantId
  }

  /** Foreign key `assigned_to`: an assignee is an existing user, and one of
      the task's own tenant. */
  predicate AssigneesInTenant(s: State) {
    forall k :: k in s.tasks && s.tasks[k].assignedTo.Some? ==>
      && s.tasks[k].assignedTo.value in s.users
      && s.users[s.tasks[k].assignedTo.value].tenantId == Some(s.tasks[k].tenantId)
  }

  /** `tenant_id` is null exactly for the tenant-independent super_admin. */
  predicate RolesFitTenancy(s: State) {
    forall u :: u in s.users ==> (s.users[u].role == U.SuperAdmin <==> s.users[u].tenantId.None?)
  }

  /** No email appears twice within one tenant. */
  predicate EmailsUniquePerTenant(s: State) {
    forall a, b ::
      (a in s.users && b in s.users && a != b && s.users[a].tenantId.Some? && s.users[a].tenantId == s.users[b].tenantId)
      ==> s.users[a].email != s.users[b].email
  }

  predicate Valid(s: State) {
    && SubdomainsUnique(s)
    && OwnersExist(s)
    && TasksFollowProjects(s)
    && AssigneesInTenant(s)
    && EmailsUniquePerTenant(s)
    && RolesFitTenancy(s)
  }

  /** The constraints are about the tables only, not the audit log. */
  lemma SameDataKeepsValid(s: State, s': State)
    requires Valid(s) && SameData(s, s')
    ensures Valid(s')
  {
  }

  lemma RemoveProjectKeepsValid(s: State, pid: Id)
    requires Valid(s)
    ensures Valid(RemoveProject(s, pid))
  {
  }

  lemma {:induction false} RemoveTenantKeepsValid(s: State, tid: Id)
    requires Valid(s)
    ensures Valid(RemoveTenant(s, tid))
  {
    var r := RemoveTenant(s, tid);
    // In a valid store a surviving task's assignee is a user of the task's
    // own tenant, so the cascade removes none of them.
    forall k | k in r.tasks
      ensures r.tasks[k] == s.tasks[k]
    {
      if s.tasks[k].assignedTo.Some? {
        assert s.users[s.tasks[k].assignedTo.value].tenantId == Some(s.tasks[k].tenantId);
      }
    }
    assert TasksFollowProjects(r);
    assert AssigneesInTenant(r);
  }
}
