/** Concrete inputs on which the handlers as written break the store's
    integrity constraints or tenant isolation. Each one is refused, or has
    no such effect, under the corrected handler of the same module. */
module Findings {
  import opened Common
  import opened Store
  import opened Audit
  import T = TenantModel
  import U = UserModel
  import P = ProjectModel
  import K = TaskModel
  import PC = ProjectController
  import KC = TaskController
  import UC = UserController

  /** Two tenants; `u` is the tenant_admin of `a` and created project `p`,
      which holds the unassigned task `k`; `w` is a user of `b`. */
  function Sample(): State {
    State(
      map["a" := T.Tenant("A", "a", T.Active, T.Free, 5, 3), "b" := T.Tenant("B", "b", T.Active, T.Free, 5, 3)],
      map["u" := U.User(Some("a"), "u@a", "U", "h", U.TenantAdmin, true),
          "w" := U.User(Some("b"), "w@b", "W", "h", U.RegularUser, true)],
      map["p" := P.Project("a", "P", None, P.Active, "u")],
      map["k" := K.Task("p", "a", "K", None, K.Todo, K.Medium, None, None)],
      [])
  }

  lemma {:induction false} SampleIsValid()
    ensures Valid(Sample())
  {
    var s := Sample();
    assert s.tenants.Keys == {"a", "b"};
    assert s.users.Keys == {"u", "w"};
    assert s.tenants["a"].subdomain != s.tenants["b"].subdomain;
    assert s.users["u"].tenantId != s.users["w"].tenantId;
    assert SubdomainsUnique(s);
    assert OwnersExist(s);
    assert TasksFollowProjects(s);
    assert AssigneesInTenant(s);
    assert EmailsUniquePerTenant(s);
    assert RolesFitTenancy(s);
  }

  const Admin := Claims("u", Some("a"), U.TenantAdmin)
  const Quiet := Ctx(None, 0, true)

  /** `updateProject` applies `tenant_id` from the body: the tenant_admin of
      `a` moves project `p` into tenant `b`, leaving its task behind in `a`. */
  lemma UpdateProjectMovesProject()
    ensures var s := Sample();
      var r := PC.UpdateProject(s, Admin, "p", P.ProjectPatch(Absent, Absent, None, Val("b"), Absent), Quiet);
      && Valid(s) && WellFormedClaims(Admin) && Bound(s, Admin)
      && r.reply.Ok? && r.state.projects["p"].tenantId == "b"
      && !ConfinedTo(s, r.state, "a")
      && !TasksFollowProjects(r.state)
  {
    SampleIsValid();
    var s := Sample();
    var r := PC.UpdateProject(s, Admin, "p", P.ProjectPatch(Absent, Absent, None, Val("b"), Absent), Quiet);
    assert r.state.tasks["k"].tenantId == "a";
  }

  /** The same request under the corrected handler leaves the project in `a`. */
  lemma UpdateProjectIntendedKeepsTenant()
    ensures var s := Sample();
      var r := PC.UpdateProjectIntended(s, Admin, "p", P.ProjectPatch(Absent, Absent, None, Val("b"), Absent), Quiet);
      r.reply.Ok? && r.state.projects["p"].tenantId == "a" && Valid(r.state)
  {
    SampleIsValid();
    PC.UpdateProjectIntendedKeepsValid(Sample(), Admin, "p", P.ProjectPatch(Absent, Absent, None, Val("b"), Absent), Quiet);
  }

  /** A `PUT /tasks/:id` body whose keys are all absent except the ones given. */
  function Body(assignedToColumn: Field<string>, tenantId: Field<string>): KC.TaskBody {
    KC.TaskBody(Absent, Absent, None, None, Absent, assignedToColumn, Absent, Absent, Absent, tenantId)
  }

  /** `updateTask` passes a raw `assigned_to` key through unchecked: task `k`
      of tenant `a` gets assigned to `w`, a user of tenant `b`. */
  lemma UpdateTaskAssignsAcrossTenants()
    ensures var s := Sample();
      var r := KC.UpdateTask(s, Admin, "k", Body(Val("w"), Absent), Quiet);
      && r.reply.Ok? && r.state.tasks["k"].assignedTo == Some("w")
      && !AssigneesInTenant(r.state)
  {
    var s := Sample();
    var r := KC.UpdateTask(s, Admin, "k", Body(Val("w"), Absent), Quiet);
    assert r.state.users["w"].tenantId == Some("b");
  }

  /** `updateTask` applies `tenant_id` from the body: task `k` moves into
      tenant `b` while its project stays in `a`. */
  lemma UpdateTaskMovesTask()
    ensures var s := Sample();
      var r := KC.UpdateTask(s, Admin, "k", Body(Absent, Val("b")), Quiet);
      && r.reply.Ok? && r.state.tasks["k"].tenantId == "b"
      && !ConfinedTo(s, r.state, "a")
      && !TasksFollowProjects(r.state)
  {
    var s := Sample();
    var r := KC.UpdateTask(s, Admin, "k", Body(Absent, Val("b")), Quiet);
    assert r.state.projects["p"].tenantId == "a";
  }

  /** Under the corrected handler both bodies leave task `k` as it was. */
  lemma UpdateTaskIntendedIgnoresRawKeys()
    ensures var s := Sample();
      && KC.UpdateTaskIntended(s, Admin, "k", Body(Val("w"), Absent), Quiet).state.tasks["k"] == s.tasks["k"]
      && KC.UpdateTaskIntended(s, Admin, "k", Body(Absent, Val("b")), Quiet).state.tasks["k"] == s.tasks["k"]
  {
  }

  const AnyHash: UC.Hasher := (f: Field<string>) => Some("h")

  /** `addUser` takes the role from the body: the tenant_admin of `a` creates
      a super_admin that still belongs to `a`. */
  lemma AddUserMintsSuperAdmin()
    ensures var s := Sample();
      var r := UC.AddUser(s, Admin, "a", UC.UserInput(Val("x@a"), Val("pw"), Val("X"), Val("super_admin")), AnyHash, "x", Quiet);
      && r.reply.Ok? && r.state.users["x"].role == U.SuperAdmin && r.state.users["x"].tenantId == Some("a")
      && !RolesFitTenancy(r.state)
  {
    var s := Sample();
    var r := UC.AddUser(s, Admin, "a", UC.UserInput(Val("x@a"), Val("pw"), Val("X"), Val("super_admin")), AnyHash, "x", Quiet);
    assert s.users.Keys == {"u", "w"};
    assert UsersOf(s.users, "a") == {"u"};
    assert s.users["u"].email != "x@a";
    assert !EmailTakenIn(s, "x@a", "a");
    assert "x" !in s.users;
  }

  /** `updateUser` lets the tenant_admin of `a` promote itself to super_admin. */
  lemma UpdateUserPromotesToSuperAdmin()
    ensures var s := Sample();
      var r := UC.UpdateUser(s, Admin, "u", UC.UserPatch(Absent, Some("super_admin"), None, Absent, Absent, Absent), Quiet);
      && r.reply.Ok? && r.state.users["u"].role == U.SuperAdmin
      && !RolesFitTenancy(r.state)
  {
  }
}
