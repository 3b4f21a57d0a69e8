/** The project handlers: create (tenant gate and project quota), list
    (tenant scope, status filter, pagination), get, update and delete (the
    tenant gate, then the tenant_admin-or-creator gate). */
module ProjectController {
  import opened Common
  import opened Store
  import opened Audit
  import opened Paging
  import U = UserModel
  import P = ProjectModel
  import K = TaskModel

  /** The body of `POST /projects`. */
  datatype ProjectInput = ProjectInput(name: Field<string>, description: Field<string>, status: Field<string>)

  const NoTenantMessage := "Super Admin cannot create projects directly via this API"
  const ProjectLimitMessage := "Project limit reached"

  /** `createProject`. The tenant comes from the claims, never from the
      body; the quota is checked against the current count before the row
      is built. */
  function CreateProject(s: State, c: Claims, input: ProjectInput, newId: Id, ctx: Ctx): (r: Step<Id>)
    ensures r.reply.Err? ==> r.state == s
    ensures c.tenantId.None? ==> r.reply == Err(403, NoTenantMessage)
    ensures c.tenantId.Some? && c.tenantId.value in s.tenants
            && |ProjectsOf(s.projects, c.tenantId.value)| >= s.tenants[c.tenantId.value].maxProjects
            ==> r.reply == Err(403, ProjectLimitMessage)
    ensures c.tenantId.Some? && c.tenantId.value in s.tenants
            && |ProjectsOf(s.projects, c.tenantId.value)| < s.tenants[c.tenantId.value].maxProjects
            && input.name.Val? && P.ParseStatus(OrElse(input.status, "active")).Some?
            && newId !in s.projects && c.userId in s.users ==>
      r.reply == Ok(201, newId)
    ensures r.reply.Ok? ==>
      && r.reply == Ok(201, newId)
      && c.tenantId.Some? && c.tenantId.value in s.tenants
      && newId !in s.projects && newId in r.state.projects
      && r.state.projects == s.projects[newId := r.state.projects[newId]]
      && r.state.projects[newId].tenantId == c.tenantId.value
      && r.state.projects[newId].createdBy == c.userId
      && P.StatusName(r.state.projects[newId].status) == OrElse(input.status, "active")
      && input.name.Val? && r.state.projects[newId].name == input.name.value
      && r.state.projects[newId].description == (if input.description.Val? then Some(input.description.value) else None)
      && P.Build(c.tenantId.value, c.userId, input.name, input.description, Some(OrElse(input.status, "active")))
         == Some(r.state.projects[newId])
      && r.state.tenants == s.tenants && r.state.users == s.users && r.state.tasks == s.tasks
      && Logged(s.audit, r.state.audit, c.tenantId, Some(c.userId), "CREATE_PROJECT", "project", newId, ctx)
  {
    if c.tenantId.None? then Step(Err(403, NoTenantMessage), s)
    else
      var t := c.tenantId.value;
      // `tenant.max_projects` on a missing tenant throws.
      if t !in s.tenants then Step(Err(500, InternalError), s)
      else if |ProjectsOf(s.projects, t)| >= s.tenants[t].maxProjects then Step(Err(403, ProjectLimitMessage), s)
      else
        var built := P.Build(t, c.userId, input.name, input.description, Some(OrElse(input.status, "active")));
        // Validation, a primary-key clash or the `created_by` foreign key.
        if built.None? || newId in s.projects || c.userId !in s.users then Step(Err(500, InternalError), s)
        else
          var s1 := s.(projects := s.projects[newId := built.value]);
          Step(Ok(201, newId), Log(s1, Some(t), Some(c.userId), "CREATE_PROJECT", "project", newId, ctx))
  }

  /** After a successful create the caller's tenant holds one project more,
      and still no more than its ceiling. */
  lemma {:induction false} CreateProjectRespectsQuota(s: State, c: Claims, input: ProjectInput, newId: Id, ctx: Ctx)
    requires CreateProject(s, c, input, newId, ctx).reply.Ok?
    ensures var r := CreateProject(s, c, input, newId, ctx); var t := c.tenantId.value;
      && |ProjectsOf(r.state.projects, t)| == |ProjectsOf(s.projects, t)| + 1
      && |ProjectsOf(r.state.projects, t)| <= s.tenants[t].maxProjects
  {
    var r := CreateProject(s, c, input, newId, ctx);
    ProjectInsertCount(s.projects, newId, r.state.projects[newId], c.tenantId.value);
  }

  /** The query string of `GET /projects` (the name search is not modelled). */
  datatype ProjectQuery = ProjectQuery(status: Field<string>, page: Option<int>, limit: Option<int>)

  datatype TaskTally = TaskTally(taskCount: nat, completedTaskCount: nat)

  /** The matching projects, each with its task counts, the total and the
      pagination block. */
  datatype ProjectListing = ProjectListing(
    projects: set<Id>, tallies: map<Id, TaskTally>, total: nat, pagination: Pagination)

  /** The listing scope: a super_admin without a tenant sees every tenant,
      anyone else only rows whose tenant equals the claims' tenant. */
  predicate InListScope(c: Claims, p: P.Project) {
    (c.role == U.SuperAdmin && c.tenantId.None?) || c.tenantId == Some(p.tenantId)
  }

  function Tally(s: State, p: Id): TaskTally {
    TaskTally(|TasksOfProject(s.tasks, p)|,
              |set k | k in s.tasks && s.tasks[k].projectId == p && s.tasks[k].status == K.Completed|)
  }

  /** `listProjects`. */
  function ListProjects(s: State, c: Claims, q: ProjectQuery): (r: Step<ProjectListing>)
    ensures r.state == s
    ensures var page := if q.page.Some? then q.page.value else 1;
            var limit := if q.limit.Some? then q.limit.value else 20;
            (Truthy(q.status) ==> P.ParseStatus(q.status.value).Some?) && limit >= 0 && (page - 1) * limit >= 0 ==>
      r.reply.Ok?
    ensures r.reply.Ok? ==>
      var l := r.reply.data;
      && r.reply.code == 200
      && l.total == |l.projects|
      && (forall p :: p in l.projects <==>
            p in s.projects && InListScope(c, s.projects[p])
            && (Truthy(q.status) ==> P.StatusName(s.projects[p].status) == q.status.value))
      && l.tallies.Keys == l.projects
      && (forall p :: p in l.tallies ==>
            && l.tallies[p].taskCount == |TasksOfProject(s.tasks, p)|
            && l.tallies[p].completedTaskCount
               == |set k | k in s.tasks && s.tasks[k].projectId == p && s.tasks[k].status == K.Completed|)
      && l.pagination.offset == ((if q.page.Some? then q.page.value else 1) - 1) * (if q.limit.Some? then q.limit.value else 20)
      && (l.pagination.limit > 0 ==> l.pagination.totalPages == Some(CeilDiv(l.total, l.pagination.limit)))
    ensures r.reply.Err? ==> r.reply.code == 500
  {
    var filter := if Truthy(q.status) then P.ParseStatus(q.status.value) else None;
    // A status outside the ENUM makes PostgreSQL reject the query.
    if Truthy(q.status) && filter.None? then Step(Err(500, InternalError), s)
    else
      var page := if q.page.Some? then q.page.value else 1;
      var limit := if q.limit.Some? then q.limit.value else 20;
      var matches := set p | p in s.projects && InListScope(c, s.projects[p])
                             && (filter.Some? ==> s.projects[p].status == filter.value);
      match Paginate(|matches|, page, limit)
      case None => Step(Err(500, InternalError), s)
      case Some(pg) =>
        Step(Ok(200, ProjectListing(matches, map p | p in matches :: Tally(s, p), |matches|, pg)), s)
  }

  /** The ownership gate of update and delete:
      tenant_admin, the project's creator, or super_admin. */
  predicate MayModify(c: Claims, p: P.Project) {
    c.role == U.TenantAdmin || c.userId == p.createdBy || c.role == U.SuperAdmin
  }

  /** `updateProject`, as written: a cross-tenant project is reported as 404,
      and the body is applied to the row with no field filtering, so its
      `tenant_id` and `created_by` columns are writable too. */
  function UpdateProject(s: State, c: Claims, pid: Id, patch: P.ProjectPatch, ctx: Ctx): (r: Step<P.Project>)
    ensures r.reply.Err? ==> r.state == s
    ensures pid !in s.projects ==> r.reply == Err(404, "Project not found")
    ensures pid in s.projects && !Reaches(c, s.projects[pid].tenantId) ==>
      r.reply == Err(404, "Project belongs to different tenant")
    ensures pid in s.projects && Reaches(c, s.projects[pid].tenantId) && !MayModify(c, s.projects[pid]) ==>
      r.reply == Err(403, "Unauthorized")
    ensures pid in s.projects && Reaches(c, s.projects[pid].tenantId) && MayModify(c, s.projects[pid]) ==>
      var p' := P.Apply(s.projects[pid], patch);
      (&& p'.Some?
       && (p'.value.tenantId != s.projects[pid].tenantId ==> p'.value.tenantId in s.tenants)
       && (p'.value.createdBy != s.projects[pid].createdBy ==> p'.value.createdBy in s.users))
      ==> r.reply == Ok(200, p'.value)
    ensures r.reply.Ok? ==>
      && r.reply.code == 200
      && pid in s.projects && Reaches(c, s.projects[pid].tenantId) && MayModify(c, s.projects[pid])
      && P.Apply(s.projects[pid], patch) == Some(r.reply.data)
      && r.state.projects == s.projects[pid := r.reply.data]
      && (r.reply.data.tenantId != s.projects[pid].tenantId ==> r.reply.data.tenantId in s.tenants)
      && (r.reply.data.createdBy != s.projects[pid].createdBy ==> r.reply.data.createdBy in s.users)
      && r.state.tenants == s.tenants && r.state.users == s.users && r.state.tasks == s.tasks
      && Logged(s.audit, r.state.audit, Some(r.reply.data.tenantId), Some(c.userId), "UPDATE_PROJECT", "project", pid, ctx)
  {
    if pid !in s.projects then Step(Err(404, "Project not found"), s)
    else
      var p := s.projects[pid];
      if !Reaches(c, p.tenantId) then Step(Err(404, "Project belongs to different tenant"), s)
      else if !MayModify(c, p) then Step(Err(403, "Unauthorized"), s)
      else
        match P.Apply(p, patch)
        case None => Step(Err(500, InternalError), s)
        case Some(p') =>
          // Foreign keys of `tenant_id` and `created_by`: Sequelize writes
          // only the changed columns, and PostgreSQL checks a key only when
          // its column changes.
          if (p'.tenantId != p.tenantId && p'.tenantId !in s.tenants)
             || (p'.createdBy != p.createdBy && p'.createdBy !in s.users) then
            Step(Err(500, InternalError), s)
          else
            var s1 := s.(projects := s.projects[pid := p']);
            // The audit row takes `project.tenant_id` after the update.
            Step(Ok(200, p'), Log(s1, Some(p'.tenantId), Some(c.userId), "UPDATE_PROJECT", "project", pid, ctx))
  }

  /** `updateProject` as the project's invariants require: the body may set
      name, description and status only, so `tenant_id` stays immutable and
      `created_by` keeps naming the creator. */
  function UpdateProjectIntended(s: State, c: Claims, pid: Id, patch: P.ProjectPatch, ctx: Ctx): (r: Step<P.Project>)
    ensures r.reply.Err? ==> r.state == s
    ensures pid !in s.projects ==> r.reply == Err(404, "Project not found")
    ensures pid in s.projects && !Reaches(c, s.projects[pid].tenantId) ==>
      r.reply == Err(404, "Project belongs to different tenant")
    ensures pid in s.projects && Reaches(c, s.projects[pid].tenantId) && !MayModify(c, s.projects[pid]) ==>
      r.reply == Err(403, "Unauthorized")
    ensures pid in s.projects && Reaches(c, s.projects[pid].tenantId) && MayModify(c, s.projects[pid])
            && !patch.name.Null? && (patch.status.Some? ==> P.ParseStatus(patch.status.value).Some?) ==>
      r.reply.Ok?
    ensures r.reply.Ok? ==>
      && pid in s.projects && Reaches(c, s.projects[pid].tenantId) && MayModify(c, s.projects[pid])
      && P.Apply(s.projects[pid], patch.(tenantId := Absent, createdBy := Absent)) == Some(r.reply.data)
      && (if patch.status.Some? then P.StatusName(r.reply.data.status) == patch.status.value
          else r.reply.data.status == s.projects[pid].status)
      && r.reply.data.tenantId == s.projects[pid].tenantId
      && r.reply.data.createdBy == s.projects[pid].createdBy
      && r.reply.data.name == (if patch.name.Val? then patch.name.value else s.projects[pid].name)
      && r.reply.data.description == Nullable(s.projects[pid].description, patch.description)
      && r.state.projects == s.projects[pid := r.reply.data]
      && r.state.tenants == s.tenants && r.state.users == s.users && r.state.tasks == s.tasks
      && Logged(s.audit, r.state.audit, Some(s.projects[pid].tenantId), Some(c.userId), "UPDATE_PROJECT", "project", pid, ctx)
  {
    UpdateProject(s, c, pid, patch.(tenantId := Absent, createdBy := Absent), ctx)
  }

  /** `deleteProject`: the same two gates as update, then the row and, by
      cascade, its tasks are destroyed. */
  function DeleteProject(s: State, c: Claims, pid: Id, ctx: Ctx): (r: Step<()>)
    ensures r.reply.Err? ==> r.state == s
    ensures pid !in s.projects ==> r.reply == Err(404, "Project not found")
    ensures pid in s.projects && !Reaches(c, s.projects[pid].tenantId) ==> r.reply == Err(404, "Unauthorized")
    ensures pid in s.projects && Reaches(c, s.projects[pid].tenantId) && !MayModify(c, s.projects[pid]) ==>
      r.reply == Err(403, "Unauthorized")
    ensures pid in s.projects && Reaches(c, s.projects[pid].tenantId) && MayModify(c, s.projects[pid]) ==>
      r.reply == Ok(200, ())
    ensures r.reply.Ok? ==>
      && r.reply.code == 200
      && pid in s.projects && Reaches(c, s.projects[pid].tenantId) && MayModify(c, s.projects[pid])
      && r.state.projects.Keys == s.projects.Keys - {pid}
      && (forall p :: p in r.state.projects ==> r.state.projects[p] == s.projects[p])
      && (forall k :: k in r.state.tasks <==> k in s.tasks && s.tasks[k].projectId != pid)
      && (forall k :: k in r.state.tasks ==> r.state.tasks[k] == s.tasks[k])
      && r.state.tenants == s.tenants && r.state.users == s.users
      && Logged(s.audit, r.state.audit, Some(s.projects[pid].tenantId), Some(c.userId), "DELETE_PROJECT", "project", pid, ctx)
  {
    if pid !in s.projects then Step(Err(404, "Project not found"), s)
    else
      var p := s.projects[pid];
      if !Reaches(c, p.tenantId) then Step(Err(404, "Unauthorized"), s)
      else if !MayModify(c, p) then Step(Err(403, "Unauthorized"), s)
      else
        Step(Ok(200, ()), Log(RemoveProject(s, pid), Some(p.tenantId), Some(c.userId), "DELETE_PROJECT", "project", pid, ctx))
  }

  /** `getProject`: unlike update and delete, a project of another tenant is
      reported as 403. */
  function GetProject(s: State, c: Claims, pid: Id): (r: Step<P.Project>)
    ensures r.state == s
    ensures pid !in s.projects ==> r.reply == Err(404, "Project not found")
    ensures pid in s.projects && !Reaches(c, s.projects[pid].tenantId) ==> r.reply == Err(403, "Unauthorized")
    ensures pid in s.projects && Reaches(c, s.projects[pid].tenantId) ==> r.reply == Ok(200, s.projects[pid])
  {
    if pid !in s.projects then Step(Err(404, "Project not found"), s)
    else if !Reaches(c, s.projects[pid].tenantId) then Step(Err(403, "Unauthorized"), s)
    else Step(Ok(200, s.projects[pid]), s)
  }

  // ---- Integrity and isolation

  lemma CreateProjectKeepsValid(s: State, c: Claims, input: ProjectInput, newId: Id, ctx: Ctx)
    requires Valid(s)
    ensures Valid(CreateProject(s, c, input, newId, ctx).state)
  {
  }

  lemma UpdateProjectIntendedKeepsValid(s: State, c: Claims, pid: Id, patch: P.ProjectPatch, ctx: Ctx)
    requires Valid(s)
    ensures Valid(UpdateProjectIntended(s, c, pid, patch, ctx).state)
  {
  }

  lemma DeleteProjectKeepsValid(s: State, c: Claims, pid: Id, ctx: Ctx)
    requires Valid(s)
    ensures Valid(DeleteProject(s, c, pid, ctx).state)
  {
    RemoveProjectKeepsValid(s, pid);
  }

  /** A caller bound to one tenant creates, changes and deletes projects
      (and, by cascade, tasks) of that tenant only. */
  lemma CreateProjectConfined(s: State, c: Claims, input: ProjectInput, newId: Id, ctx: Ctx)
    requires WellFormedClaims(c) && c.role != U.SuperAdmin
    ensures ConfinedTo(s, CreateProject(s, c, input, newId, ctx).state, c.tenantId.value)
  {
  }

  lemma UpdateProjectIntendedConfined(s: State, c: Claims, pid: Id, patch: P.ProjectPatch, ctx: Ctx)
    requires WellFormedClaims(c) && c.role != U.SuperAdmin
    ensures ConfinedTo(s, UpdateProjectIntended(s, c, pid, patch, ctx).state, c.tenantId.value)
  {
  }

  lemma DeleteProjectConfined(s: State, c: Claims, pid: Id, ctx: Ctx)
    requires Valid(s)
    requires WellFormedClaims(c) && c.role != U.SuperAdmin
    ensures ConfinedTo(s, DeleteProject(s, c, pid, ctx).state, c.tenantId.value)
  {
  }
}
