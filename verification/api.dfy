/** The authenticated routes as one state machine: a request, the caller's
    claims and the store go in; a status and the next store come out. The
    routes are dispatched to the corrected update handlers, and the
    theorems below hold for every request. */
module Api {
  import opened Common
  import opened Store
  import opened Audit
  import T = TenantModel
  import U = UserModel
  import P = ProjectModel
  import PC = ProjectController
  import KC = TaskController
  import UC = UserController
  import TC = TenantController
  import AC = AuthController

  datatype Request =
    | PostProject(project: PC.ProjectInput)
    | GetProjects(projectQuery: PC.ProjectQuery)
    | GetProject(projectId: Id)
    | PutProject(projectId: Id, projectPatch: P.ProjectPatch)
    | DeleteProject(projectId: Id)
    | PostTask(projectId: Id, task: KC.TaskInput)
    | GetTasks(projectId: Id, taskQuery: KC.TaskQuery)
    | PatchTaskStatus(taskId: Id, status: Option<string>)
    | PutTask(taskId: Id, taskBody: KC.TaskBody)
    | DeleteTask(taskId: Id)
    | PostUser(tenantId: Id, user: UC.UserInput)
    | GetUsers(tenantId: Id, userQuery: UC.UserQuery)
    | PutUser(userId: Id, userPatch: UC.UserPatch)
    | DeleteUser(userId: Id)
    | GetTenant(tenantId: Id)
    | PutTenant(tenantId: Id, tenantPatch: T.TenantPatch)
    | GetTenants(tenantQuery: TC.TenantQuery)
    | PostLogout

  /** What a request may draw on besides the store: the password hasher, the
      UUID the database would generate, and the audit context. */
  datatype Env = Env(hash: UC.Hasher, newId: Id, ctx: Ctx)

  datatype Outcome = Outcome(ok: bool, status: int, state: State)

  function Close<R>(r: Step<R>): (o: Outcome)
    ensures o.ok == r.reply.Ok? && o.status == r.reply.code && o.state == r.state
  {
    Outcome(r.reply.Ok?, r.reply.code, r.state)
  }

  /** Requests that only read. */
  predicate ReadOnly(req: Request) {
    req.GetProjects? || req.GetProject? || req.GetTasks? || req.GetUsers? || req.GetTenant? || req.GetTenants?
  }

  function Handle(s: State, c: Claims, req: Request, env: Env): (o: Outcome)
    ensures !o.ok ==> o.state == s
    ensures ReadOnly(req) ==> o.state == s
  {
    match req
    case PostProject(i) => Close(PC.CreateProject(s, c, i, env.newId, env.ctx))
    case GetProjects(q) => Close(PC.ListProjects(s, c, q))
    case GetProject(pid) => Close(PC.GetProject(s, c, pid))
    case PutProject(pid, patch) => Close(PC.UpdateProjectIntended(s, c, pid, patch, env.ctx))
    case DeleteProject(pid) => Close(PC.DeleteProject(s, c, pid, env.ctx))
    case PostTask(pid, i) => Close(KC.CreateTask(s, c, pid, i, env.newId, env.ctx))
    case GetTasks(pid, q) => Close(KC.ListTasks(s, c, pid, q))
    case PatchTaskStatus(tid, st) => Close(KC.UpdateTaskStatus(s, c, tid, st))
    case PutTask(tid, b) => Close(KC.UpdateTaskIntended(s, c, tid, b, env.ctx))
    case DeleteTask(tid) => Close(KC.DeleteTask(s, c, tid, env.ctx))
    case PostUser(tid, i) => Close(UC.AddUserIntended(s, c, tid, i, env.hash, env.newId, env.ctx))
    case GetUsers(tid, q) => Close(UC.ListUsers(s, c, tid, q))
    case PutUser(uid, patch) => Close(UC.UpdateUserIntended(s, c, uid, patch, env.ctx))
    case DeleteUser(uid) => Close(UC.DeleteUser(s, c, uid, env.ctx))
    case GetTenant(tid) => Close(TC.GetTenant(s, c, tid))
    case PutTenant(tid, patch) => Close(TC.UpdateTenant(s, c, tid, patch, env.ctx))
    case GetTenants(q) => Close(TC.ListTenants(s, c, q))
    case PostLogout => Close(AC.Logout(s, Some(c), env.ctx))
  }

  /** Every request keeps the store's integrity constraints. */
  lemma {:induction false} HandleKeepsValid(s: State, c: Claims, req: Request, env: Env)
    requires Valid(s) && WellFormedClaims(c)
    ensures Valid(Handle(s, c, req, env).state)
  {
    var s' := Handle(s, c, req, env).state;
    match req
    case PostProject(i) =>
      assert s' == PC.CreateProject(s, c, i, env.newId, env.ctx).state;
      PC.CreateProjectKeepsValid(s, c, i, env.newId, env.ctx);
    case PutProject(pid, patch) =>
      assert s' == PC.UpdateProjectIntended(s, c, pid, patch, env.ctx).state;
      PC.UpdateProjectIntendedKeepsValid(s, c, pid, patch, env.ctx);
    case DeleteProject(pid) =>
      assert s' == PC.DeleteProject(s, c, pid, env.ctx).state;
      PC.DeleteProjectKeepsValid(s, c, pid, env.ctx);
    case PostTask(pid, i) =>
      assert s' == KC.CreateTask(s, c, pid, i, env.newId, env.ctx).state;
      KC.CreateTaskKeepsValid(s, c, pid, i, env.newId, env.ctx);
    case PatchTaskStatus(tid, st) =>
      assert s' == KC.UpdateTaskStatus(s, c, tid, st).state;
      KC.UpdateTaskStatusKeepsValid(s, c, tid, st);
    case PutTask(tid, b) =>
      assert s' == KC.UpdateTaskIntended(s, c, tid, b, env.ctx).state;
      KC.UpdateTaskIntendedKeepsValid(s, c, tid, b, env.ctx);
    case DeleteTask(tid) =>
      assert s' == KC.DeleteTask(s, c, tid, env.ctx).state;
      KC.DeleteTaskKeepsValid(s, c, tid, env.ctx);
    case PostUser(tid, i) =>
      assert s' == UC.AddUserIntended(s, c, tid, i, env.hash, env.newId, env.ctx).state;
      UC.AddUserIntendedKeepsValid(s, c, tid, i, env.hash, env.newId, env.ctx);
    case PutUser(uid, patch) =>
      assert s' == UC.UpdateUserIntended(s, c, uid, patch, env.ctx).state;
      UC.UpdateUserIntendedKeepsValid(s, c, uid, patch, env.ctx);
    case DeleteUser(uid) =>
      assert s' == UC.DeleteUser(s, c, uid, env.ctx).state;
      UC.DeleteUserKeepsValid(s, c, uid, env.ctx);
    case PutTenant(tid, patch) =>
      assert s' == TC.UpdateTenant(s, c, tid, patch, env.ctx).state;
      TC.UpdateTenantKeepsValid(s, c, tid, patch, env.ctx);
    case PostLogout =>
      assert SameData(s, s');
      SameDataKeepsValid(s, s');
    case _ =>
      assert ReadOnly(req);
  }

  /** A caller who is not a super_admin changes rows of its own tenant only. */
  lemma {:induction false} HandleIsConfined(s: State, c: Claims, req: Request, env: Env)
    requires Valid(s) && WellFormedClaims(c) && Bound(s, c) && c.role != U.SuperAdmin
    ensures ConfinedTo(s, Handle(s, c, req, env).state, c.tenantId.value)
  {
    var t := c.tenantId.value;
    var s' := Handle(s, c, req, env).state;
    match req
    case PostProject(i) =>
      assert s' == PC.CreateProject(s, c, i, env.newId, env.ctx).state;
      PC.CreateProjectConfined(s, c, i, env.newId, env.ctx);
    case PutProject(pid, patch) =>
      assert s' == PC.UpdateProjectIntended(s, c, pid, patch, env.ctx).state;
      PC.UpdateProjectIntendedConfined(s, c, pid, patch, env.ctx);
    case DeleteProject(pid) =>
      assert s' == PC.DeleteProject(s, c, pid, env.ctx).state;
      PC.DeleteProjectConfined(s, c, pid, env.ctx);
    case PostTask(pid, i) =>
      assert s' == KC.CreateTask(s, c, pid, i, env.newId, env.ctx).state;
      KC.CreateTaskConfined(s, c, pid, i, env.newId, env.ctx);
    case PatchTaskStatus(tid, st) =>
      assert s' == KC.UpdateTaskStatus(s, c, tid, st).state;
      KC.UpdateTaskStatusConfined(s, c, tid, st);
    case PutTask(tid, b) =>
      assert s' == KC.UpdateTaskIntended(s, c, tid, b, env.ctx).state;
      KC.UpdateTaskIntendedConfined(s, c, tid, b, env.ctx);
    case DeleteTask(tid) =>
      assert s' == KC.DeleteTask(s, c, tid, env.ctx).state;
      KC.DeleteTaskConfined(s, c, tid, env.ctx);
    case PostUser(tid, i) =>
      assert s' == UC.AddUserIntended(s, c, tid, i, env.hash, env.newId, env.ctx).state;
      UC.AddUserIntendedConfined(s, c, tid, i, env.hash, env.newId, env.ctx);
    case PutUser(uid, patch) =>
      assert s' == UC.UpdateUserIntended(s, c, uid, patch, env.ctx).state;
      UC.UpdateUserIntendedConfined(s, c, uid, patch, env.ctx);
    case DeleteUser(uid) =>
      assert s' == UC.DeleteUser(s, c, uid, env.ctx).state;
      UC.DeleteUserConfined(s, c, uid, env.ctx);
    case PutTenant(tid, patch) =>
      assert s' == TC.UpdateTenant(s, c, tid, patch, env.ctx).state;
      TC.UpdateTenantConfined(s, c, tid, patch, env.ctx);
    case PostLogout =>
      assert SameData(s, s');
      SameDataIsConfined(s, s', t);
    case _ =>
      assert ReadOnly(req);
      SameDataIsConfined(s, s', t);
  }

  /** The audit log only grows at its end, by at most one entry. Every
      request but a user deletion keeps the earlier entries as they were; a
      user deletion clears the `user_id` of the entries naming the deleted
      user (ON DELETE SET NULL) and touches nothing else in them. */
  lemma HandleAppendsAtMostOne(s: State, c: Claims, req: Request, env: Env)
    ensures var o := Handle(s, c, req, env);
      && |s.audit| <= |o.state.audit| <= |s.audit| + 1
      && (!req.DeleteUser? ==> o.state.audit[..|s.audit|] == s.audit)
      && (forall i :: 0 <= i < |s.audit| ==>
            || o.state.audit[i] == s.audit[i]
            || (&& s.audit[i].userId.Some? && s.audit[i].userId.value !in o.state.users
                && o.state.audit[i] == s.audit[i].(userId := None)))
  {
    var o := Handle(s, c, req, env);
    if req.DeleteUser? {
      var uid := req.userId;
      var r := UC.DeleteUser(s, c, uid, env.ctx);
      if r.reply.Ok? {
        var s1 := RemoveUser(s, uid);
        assert o.state.audit[..|s.audit|] == s1.audit;
        forall i | 0 <= i < |s.audit|
          ensures || o.state.audit[i] == s.audit[i]
                  || (&& s.audit[i].userId.Some? && s.audit[i].userId.value !in o.state.users
                      && o.state.audit[i] == s.audit[i].(userId := None))
        {
          assert o.state.audit[i] == s1.audit[i];
        }
      }
    }
  }

  /** A failing audit write changes nothing the caller can see: the status
      and the tables are those of a request whose write succeeded. */
  lemma HandleIgnoresAuditFailure(s: State, c: Claims, req: Request, env: Env)
    ensures var o := Handle(s, c, req, env);
      var o' := Handle(s, c, req, env.(ctx := env.ctx.(writeSucceeds := !env.ctx.writeSucceeds)));
      o.ok == o'.ok && o.status == o'.status && SameData(o.state, o'.state)
  {
  }

  /** What a caller who is not a super_admin can read is confined to its own
      tenant: the project, task and user listings, a single project, and the
      tenant view; the tenant listing is refused outright. */
  lemma ReadsStayInTenant(s: State, c: Claims, pid: Id, tid: Id, pq: PC.ProjectQuery, kq: KC.TaskQuery,
                          uq: UC.UserQuery, tq: TC.TenantQuery)
    requires Valid(s) && WellFormedClaims(c) && c.role != U.SuperAdmin
    ensures var t := c.tenantId.value;
      && (var r := PC.ListProjects(s, c, pq);
          r.reply.Ok? ==> forall p :: p in r.reply.data.projects ==> p in s.projects && s.projects[p].tenantId == t)
      && (var r := PC.GetProject(s, c, pid); r.reply.Ok? ==> r.reply.data.tenantId == t)
      && (var r := KC.ListTasks(s, c, pid, kq);
          r.reply.Ok? ==> forall k :: k in r.reply.data.tasks ==> k in s.tasks && s.tasks[k].tenantId == t)
      && (var r := UC.ListUsers(s, c, tid, uq);
          r.reply.Ok? ==> forall u :: u in r.reply.data.users ==> u in s.users && s.users[u].tenantId == Some(t))
      && (var r := TC.GetTenant(s, c, tid); r.reply.Ok? ==> tid == t)
      && TC.ListTenants(s, c, tq).reply.Err?
  {
  }
}
