# Multi-tenant project and task backend — a Dafny model

This project models the request handlers of a multi-tenant project/task
management backend. Organisations ("tenants") register with a first
`tenant_admin`. Users with the roles `super_admin`, `tenant_admin` and `user`
then manage projects that hold tasks. Every handler is a pure function of
the store, the caller's claims and the request. It returns a reply (an HTTP
status with a payload or an error message) and the next store:
`(State, Claims, Request) -> (status, State')`.

The store (`Store.State`) holds one id-keyed map per table (tenants, users,
projects, tasks) plus the audit log, which requests append to. The model
follows the source's own gate order for every handler: each `404`, `403`, `409`, `400`
and `500` branch, its message, the quota checks, the column defaults and ENUM
validation of the Sequelize models, and the cascades of the model index. On
top of that it proves these properties:

- every error reply leaves the store unchanged, and read-only requests never change it;
- a successful create respects the tenant's `max_users` / `max_projects` ceiling;
- registration inserts the tenant and its admin together or not at all;
- the integrity constraints (`Store.Valid`) are kept by every request of `Api.Handle`, the dispatcher that routes `PUT /projects/:id`, `PUT /tasks/:id`, `POST /tenants/:id/users` and `PUT /users/:id` to the corrected handlers (under the handlers as written the constraints break, see "## Findings"):
  - unique subdomains;
  - owners exist;
  - a task follows its project's tenant;
  - assignees are users of the task's tenant;
  - emails are unique per tenant;
  - `tenant_id` is null exactly for `super_admin`;
- tenant isolation, for the same dispatcher: a caller who is not a `super_admin` changes rows of its own tenant only (`Store.ConfinedTo`) and reads rows of its own tenant only;
- login issues claims whose tenant is null exactly for a `super_admin`, bound to the authenticated user, and it gives the same reply for an unknown email and for a wrong password;
- every successful mutating handler appends exactly its own entry (action, tenant, user, entity) when the audit write succeeds, and leaves the log as it was when the write fails;
- the audit log only grows at its end, by at most one entry per request; earlier entries change only when a user deletion clears their `user_id`; a failed audit write changes no reply and no table;
- every listing reports `totalPages = Math.ceil(total / limit)` for a positive limit, and that count is exactly the number of non-empty pages.

Modules: one per model file (`TenantModel`, `UserModel`, `ProjectModel`,
`TaskModel`, `AuditLogModel`), one for the audit utility (`Audit`) and one
per controller (`AuthController`, `ProjectController`, `TaskController`,
`UserController`, `TenantController`). Five more have no source file of
their own: `Common` (ids, optional values, JSON body members, replies),
`Store` (tables, claims, the cascades of the model index, constraints),
`Paging` (the pagination arithmetic the listings share), `Api` (the routes
as one dispatcher, and the whole-system theorems) and `Findings` (concrete
inputs that break the constraints under the handlers as written).

Collaborators outside the model are parameters:
- the password hasher (`Field<string> -> Option<string>`, None when hashing throws);
- the password comparison (`(string, string) -> bool`);
- the UUID the database generates for a new row;
- the audit context (`Audit.Ctx`: the request origin, the clock, and whether the audit insert succeeds).

`findOne` on non-key columns returns an arbitrary matching row (there is no
ORDER BY). It is modelled with ghost lookups, so `AuthController.Login` is a
ghost function.

## Model

| member | source | states |
|---|---|---|
| TenantModel.ParseStatus | backend/src/models/tenant.model.js:19-22 | a status string is accepted exactly when it names a status, and reads back as that name |
| TenantModel.ParsePlan | backend/src/models/tenant.model.js:23-26 | a plan string is accepted exactly when it names a plan, and reads back as that name |
| TenantModel.Build | backend/src/models/tenant.model.js:10-34 | creation succeeds iff name and subdomain are non-null and the ENUM values are valid; omitted columns take the defaults active, free, 5 users, 3 projects |
| TenantModel.Apply | backend/src/controllers/tenant.controller.js:61 | an update writes exactly the supplied columns, refuses null on non-null columns and invalid ENUM values, and a name-only body changes only the name |
| UserModel.ParseRole | backend/src/models/User.js:30-33 | a role string is accepted exactly when it names a role, and reads back as that name |
| UserModel.Build | backend/src/models/User.js:10-37 | creation succeeds iff email and full name are non-null and the role is valid; the role defaults to `user` and the account to active |
| ProjectModel.ParseStatus | backend/src/models/project.model.js:25-28 | a project status is accepted exactly when it names one, and reads back as that name |
| ProjectModel.Build | backend/src/models/project.model.js:12-33 | creation succeeds iff the name is non-null and the status valid; the status defaults to active and the description to null |
| ProjectModel.Apply | backend/src/controllers/project.controller.js:115 | an update writes every supplied column, including `tenant_id` and `created_by`, and fails on null for non-null columns |
| TaskModel.ParseStatus | backend/src/models/task.model.js:31-34 | a task status is accepted exactly when it names one, and reads back as that name |
| TaskModel.ParsePriority | backend/src/models/task.model.js:35-38 | a priority is accepted exactly when it names one, and reads back as that name |
| TaskModel.Build | backend/src/models/task.model.js:12-46 | creation succeeds iff the title is non-null and the ENUM values are valid; status defaults to todo, priority to medium |
| TaskModel.SetNullableRef | backend/src/models/task.model.js:39-43 | a nullable reference column is kept when absent, cleared by null, set by a non-empty id, and refuses "" |
| TaskModel.Apply | backend/src/controllers/task.controller.js:134 | an update writes every supplied column, including `project_id`, `tenant_id` and `assigned_to` |
| Store.UserInsertCount | backend/src/controllers/user.controller.js:20-23 | inserting a user under a fresh id raises its own tenant's user count by one and no other tenant's |
| Store.ProjectInsertCount | backend/src/controllers/project.controller.js:18-21 | inserting a project under a fresh id raises its own tenant's project count by one and no other tenant's |
| Store.TenantWithSubdomain | backend/src/controllers/auth.controller.js:90 | the lookup returns a tenant with that subdomain, or none exists |
| Store.UserInTenant | backend/src/controllers/auth.controller.js:96 | the lookup returns a user with that email in that tenant, or none exists |
| Store.SuperAdminWithEmail | backend/src/controllers/auth.controller.js:113 | the lookup returns a super_admin with that email, or none exists |
| Store.RemoveProject | backend/src/models/index.js:42 | destroying a project removes exactly it and its tasks |
| Store.RemoveUser | backend/src/models/index.js:50-57 | destroying a user removes exactly that user, clears the assignee of its tasks (keeping the tasks) and the `user_id` of its audit entries (keeping the entries) |
| Store.RemoveTenant | backend/src/models/index.js:30-57 | destroying a tenant removes its users, projects, tasks and the tasks of its projects; every other row stays, except that a surviving task assigned to a removed user has its assignee cleared; audit entries stay, with the deleted tenant and users cleared |
| Store.RemoveProjectKeepsValid | backend/src/models/index.js:42-43 | the project cascade keeps every integrity constraint |
| Store.RemoveUserKeepsValid | backend/src/models/index.js:50-51 | the user deletion with its assignee cascade keeps every integrity constraint |
| Store.RemoveTenantKeepsValid | backend/src/models/index.js:30-47 | the tenant cascade keeps every integrity constraint |
| Audit.ClientIp | backend/src/utils/audit.util.js:5 | the IP is the forwarded-for header when truthy, else the socket address, and null without a request |
| Audit.Log | backend/src/utils/audit.util.js:3-19 | a successful write appends exactly one entry with the given fields; a failed write changes nothing; tables are never touched |
| Audit.LogAppendsAtMostOne | backend/src/utils/audit.util.js:7-18 | the log keeps its prefix and grows by one exactly when the write succeeds |
| Paging.CeilDiv | backend/src/controllers/project.controller.js:89 | `Math.ceil(n / d)` is the least q with q * d >= n |
| Paging.Paginate | backend/src/controllers/project.controller.js:63-90 | a negative limit or offset is an error; otherwise offset is (page-1)*limit, and totalPages is null for limit 0 and the ceiling otherwise |
| Paging.RowsOnPage | backend/src/controllers/project.controller.js:69-70 | a LIMIT/OFFSET window returns at most `limit` rows and some rows exactly when offset < count |
| Paging.PagesCoverRows | backend/src/controllers/project.controller.js:63-89 | page p (from 1) has rows exactly when p <= totalPages |
| AuthController.RegisterTenant | backend/src/controllers/auth.controller.js:7-76 | missing fields give 400, a taken subdomain 409; success inserts the active free tenant (5 users, 3 projects) and its active tenant_admin; every error leaves the store unchanged; a complete body with a free subdomain, a successful hash and fresh ids gives 201; the admin's password_hash is the digest of `adminPassword`; success appends the REGISTER_TENANT entry under the new tenant and admin when the audit write succeeds |
| AuthController.RegisterTenantIsAtomic | backend/src/controllers/auth.controller.js:8-56 | the tenant and its admin are added together or not at all |
| AuthController.RegisterTenantKeepsValid | backend/src/controllers/auth.controller.js:17-54 | registration keeps every integrity constraint |
| AuthController.ResolveTenant | backend/src/controllers/auth.controller.js:86-91 | a truthy tenant id wins over the subdomain; the result is a tenant matching the selector, or none exists |
| AuthController.Candidate | backend/src/controllers/auth.controller.js:96-115 | the candidate is the user with that email in the tenant if any, else a super_admin with that email, else none exists |
| AuthController.Login | backend/src/controllers/auth.controller.js:78-154 | 400 on a missing field, 404 on an unknown tenant, 403 on an inactive tenant; then 401 "Invalid credentials" both without a candidate account and on a wrong password, and 403 "Account suspended" only once the password matched; success happens exactly when the tenant is active, the password matches and the account is active, and issues claims with a null tenant exactly for a super_admin; success appends the LOGIN entry under the resolved tenant and the user when the audit write succeeds |
| AuthController.LoginIssuesBoundClaims | backend/src/controllers/auth.controller.js:124-131 | issued claims are well formed and name their user's own tenant |
| AuthController.UnknownUserAndWrongPasswordLookAlike | backend/src/controllers/auth.controller.js:117-120 | an unknown email and a wrong password produce the identical reply |
| AuthController.Logout | backend/src/controllers/auth.controller.js:172-179 | logout always succeeds, changes no table, and with claims appends exactly the LOGOUT entry under the claims' tenant and user when the audit write succeeds |
| ProjectController.CreateProject | backend/src/controllers/project.controller.js:6-37 | a caller without a tenant gets 403, a full quota 403; below the quota, a named project with a valid status and a fresh id gives 201; success adds one project of the caller's tenant, created by the caller, with the given non-null name, the given description (else null) and `status \|\| 'active'`, and appends the CREATE_PROJECT entry when the audit write succeeds |
| ProjectController.CreateProjectRespectsQuota | backend/src/controllers/project.controller.js:18-21 | after a successful create the tenant holds one project more and at most `max_projects` |
| ProjectController.ListProjects | backend/src/controllers/project.controller.js:40-97 | the listing is exactly the projects in the caller's scope matching the status filter; each carries its count of tasks and of completed tasks; totalPages is the ceiling of total over limit; a valid filter with a non-negative limit and offset gives 200 |
| ProjectController.UpdateProject | backend/src/controllers/project.controller.js:100-121 | 404 missing, 404 cross-tenant, 403 neither admin nor creator; the body is applied unfiltered, and a changed `tenant_id` or `created_by` must name an existing row; a body that passes validation and those keys gives 200 with the updated row; success appends the UPDATE_PROJECT entry under the project's tenant after the update when the audit write succeeds |
| ProjectController.UpdateProjectIntended | backend/src/controllers/project.controller.js:100-121 | the same gates; the row written is the body applied without `tenant_id` and `created_by` (name, description, status), so tenant and creator never change; a valid body gives 200; success appends the UPDATE_PROJECT entry under the project's unchanged tenant when the audit write succeeds |
| ProjectController.DeleteProject | backend/src/controllers/project.controller.js:124-143 | the same gates (cross-tenant 404); a permitted caller always succeeds; success removes the project and its tasks, leaves every other project and task as it was, and appends the DELETE_PROJECT entry when the audit write succeeds |
| ProjectController.GetProject | backend/src/controllers/project.controller.js:146-163 | 404 missing, 403 cross-tenant, otherwise 200 with the stored row; nothing changes |
| ProjectController.CreateProjectKeepsValid | backend/src/controllers/project.controller.js:23-29 | creating a project keeps every integrity constraint |
| ProjectController.UpdateProjectIntendedKeepsValid | backend/src/controllers/project.controller.js:115 | the corrected update keeps every integrity constraint |
| ProjectController.DeleteProjectKeepsValid | backend/src/controllers/project.controller.js:137 | deleting a project keeps every integrity constraint |
| ProjectController.CreateProjectConfined | backend/src/controllers/project.controller.js:8-31 | a non-super_admin creates projects of its own tenant only |
| ProjectController.UpdateProjectIntendedConfined | backend/src/controllers/project.controller.js:107-115 | a non-super_admin updates projects of its own tenant only |
| ProjectController.DeleteProjectConfined | backend/src/controllers/project.controller.js:130-137 | a non-super_admin deletes projects and tasks of its own tenant only |
| TaskController.CreateTask | backend/src/controllers/task.controller.js:6-42 | 404, 403 cross-tenant, 400 foreign assignee; the new task copies the project's tenant, is todo, and has priority `priority \|\| 'medium'`; a titled task with a valid priority, an acceptable assignee and a fresh id gives 201; success stores the given non-null title, description and due date, and appends the CREATE_TASK entry when the audit write succeeds |
| TaskController.ListTasks | backend/src/controllers/task.controller.js:45-84 | the listing is exactly the project's tasks matching every truthy filter; totalPages is the ceiling of total over limit; a reachable project with valid filters, limit and offset gives 200 |
| TaskController.UpdateTaskStatus | backend/src/controllers/task.controller.js:87-104 | 404, 403; a valid or missing status on a reachable task gives 200; only the status changes, and no audit entry is written |
| TaskController.Columns | backend/src/controllers/task.controller.js:117-132 | `assignedTo` and `dueDate` are mapped onto their columns, else the raw column keys pass through |
| TaskController.UpdateTask | backend/src/controllers/task.controller.js:107-141 | 404, 403, 400 on a foreign `assignedTo`; every other key is applied as given; a body that passes validation and the changed foreign keys gives 200 with the updated row; success appends the UPDATE_TASK entry under the task's tenant after the update when the audit write succeeds |
| TaskController.UpdateTaskIntended | backend/src/controllers/task.controller.js:107-141 | the same gates, but the task keeps its project and tenant, and its assignee changes only through the checked key; title, description, status, priority and due date are written as the body gives them, and a valid body gives 200; success appends the UPDATE_TASK entry under the task's unchanged tenant when the audit write succeeds |
| TaskController.DeleteTask | backend/src/controllers/task.controller.js:145-159 | 404, 403 cross-tenant, otherwise 200; success removes exactly that task and appends the DELETE_TASK entry when the audit write succeeds |
| TaskController.CreateTaskKeepsValid | backend/src/controllers/task.controller.js:18-34 | creating a task keeps every integrity constraint |
| TaskController.UpdateTaskStatusKeepsValid | backend/src/controllers/task.controller.js:99 | a status update keeps every integrity constraint |
| TaskController.UpdateTaskIntendedKeepsValid | backend/src/controllers/task.controller.js:118-134 | the corrected update keeps every integrity constraint |
| TaskController.DeleteTaskKeepsValid | backend/src/controllers/task.controller.js:153 | deleting a task keeps every integrity constraint |
| TaskController.CreateTaskConfined | backend/src/controllers/task.controller.js:14-34 | a non-super_admin creates tasks of its own tenant only |
| TaskController.UpdateTaskStatusConfined | backend/src/controllers/task.controller.js:95-99 | a non-super_admin changes tasks of its own tenant only |
| TaskController.UpdateTaskIntendedConfined | backend/src/controllers/task.controller.js:113-134 | a non-super_admin changes tasks of its own tenant only |
| TaskController.DeleteTaskConfined | backend/src/controllers/task.controller.js:151-153 | a non-super_admin deletes tasks of its own tenant only |
| UserController.AddUser | backend/src/controllers/user.controller.js:7-45 | 403 unless tenant_admin of that tenant, 404, 403 at the user quota, 409 on a duplicate email in the tenant; below the quota, with a fresh email, a valid role, a successful hash and a fresh id, the add gives 201; success adds one active user of that tenant with the given email, full name, role `role \|\| 'user'` and the digest of the password as password_hash, and appends the CREATE_USER entry when the audit write succeeds |
| UserController.AddUserRespectsQuota | backend/src/controllers/user.controller.js:19-23 | after a successful add the tenant holds one user more and at most `max_users` |
| UserController.AddUserIntended | backend/src/controllers/user.controller.js:13-37 | as `addUser`, but a request for role super_admin is refused and no super_admin is ever created |
| UserController.ListUsers | backend/src/controllers/user.controller.js:48-88 | 403 outside the tenant unless super_admin; the listing is exactly the tenant's users with the requested role; totalPages is the ceiling of total over limit; valid queries in scope give 200 |
| UserController.ApplyFiltered | backend/src/controllers/user.controller.js:105-115 | only `fullName` is written, plus `role` and `is_active` for an admin; tenant, email and digest never change |
| UserController.UpdateUser | backend/src/controllers/user.controller.js:91-123 | 404, 403 unless self or tenant_admin of the user's tenant; an allowed caller with a valid body gets 200; success writes the filtered fields only and appends the UPDATE_USER entry under the user's tenant when the audit write succeeds |
| UserController.UpdateUserIntended | backend/src/controllers/user.controller.js:99-115 | as `updateUser`, but an admin cannot set role super_admin |
| UserController.DeleteUser | backend/src/controllers/user.controller.js:126-149 | 404, 403 unless tenant_admin of the user's tenant, 403 on oneself, otherwise 200; success removes the user, clears its assignments and the `user_id` of its audit entries, and leaves every other task and entry as it was; the DELETE_USER entry is appended after that when the audit write succeeds |
| UserController.AddUserIntendedKeepsValid | backend/src/controllers/user.controller.js:26-37 | the corrected add keeps every integrity constraint |
| UserController.UpdateUserIntendedKeepsValid | backend/src/controllers/user.controller.js:105-115 | the corrected update keeps every integrity constraint for well-formed claims |
| UserController.DeleteUserKeepsValid | backend/src/controllers/user.controller.js:140 | deleting a user keeps every integrity constraint |
| UserController.AddUserIntendedConfined | backend/src/controllers/user.controller.js:13-14 | a tenant_admin adds users to its own tenant only |
| UserController.UpdateUserIntendedConfined | backend/src/controllers/user.controller.js:99-103 | a non-super_admin changes users of its own tenant only |
| UserController.DeleteUserConfined | backend/src/controllers/user.controller.js:132-140 | a non-super_admin deletes users, and clears assignments, of its own tenant only |
| TenantController.GetTenant | backend/src/controllers/tenant.controller.js:5-29 | 403 before 404, otherwise 200; the stats are the tenant's user, project and task counts |
| TenantController.UpdateTenant | backend/src/controllers/tenant.controller.js:32-68 | 403 for a plain user or a foreign tenant_admin, 404, 403 on a tenant_admin body beyond `name`; an allowed update that validates and keeps subdomains unique gives 200; a tenant_admin changes only the name; success appends the UPDATE_TENANT entry when the audit write succeeds |
| TenantController.ListTenants | backend/src/controllers/tenant.controller.js:71-116 | super_admin only, and a super_admin's valid query gives 200; exactly the tenants matching the filters, each with its usage; totalPages is the ceiling of total over limit |
| TenantController.UpdateTenantKeepsValid | backend/src/controllers/tenant.controller.js:61 | a tenant update keeps every integrity constraint, subdomain uniqueness included |
| TenantController.UpdateTenantConfined | backend/src/controllers/tenant.controller.js:42-61 | a tenant_admin changes its own tenant's row only |
| Api.Handle | backend/src/app.js:12-16 | every error reply leaves the store unchanged, and read-only routes never change it (four routes go to the corrected handlers) |
| Api.HandleKeepsValid | backend/src/app.js:12-16 | every authenticated request, with four routes dispatched to the corrected handlers, keeps every integrity constraint |
| Api.HandleIsConfined | backend/src/app.js:12-16 | every request of a non-super_admin, with four routes dispatched to the corrected handlers, changes rows of its own tenant only |
| Api.HandleAppendsAtMostOne | backend/src/utils/audit.util.js:3-19 | every request adds at most one audit entry at the end; earlier entries are kept, except that a user deletion clears the deleted user's id from them |
| Api.HandleIgnoresAuditFailure | backend/src/utils/audit.util.js:15-18 | a failed audit write changes no reply and no table |
| Api.ReadsStayInTenant | backend/src/controllers/project.controller.js:42-60 | a non-super_admin reads only projects, tasks, users and the tenant row of its own tenant, and cannot list tenants |
| Findings.UpdateProjectMovesProject | backend/src/controllers/project.controller.js:115 | a tenant_admin moves its project into another tenant, breaking isolation and the task/project tenant link |
| Findings.UpdateProjectIntendedKeepsTenant | backend/src/controllers/project.controller.js:115 | under the corrected update the same request leaves the project in its tenant |
| Findings.UpdateTaskAssignsAcrossTenants | backend/src/controllers/task.controller.js:117-134 | a raw `assigned_to` key assigns a task to another tenant's user |
| Findings.UpdateTaskMovesTask | backend/src/controllers/task.controller.js:134 | a raw `tenant_id` key moves a task away from its project's tenant |
| Findings.UpdateTaskIntendedIgnoresRawKeys | backend/src/controllers/task.controller.js:117-134 | under the corrected update both requests leave the task unchanged |
| Findings.AddUserMintsSuperAdmin | backend/src/controllers/user.controller.js:30-37 | a tenant_admin creates a super_admin bound to its tenant |
| Findings.UpdateUserPromotesToSuperAdmin | backend/src/controllers/user.controller.js:106-115 | a tenant_admin promotes itself to super_admin |

## Left out

- The signed token: claims are trusted as given. Token signing, verification and expiry are not modelled; the authentication middleware is not part of this model.
- `getMe`: a read with no effect and no authorization rule beyond the token.
- The `search` filters (`iLike` on name, title or email) of the list handlers.
- Result ordering (`created_at DESC`). Listings return the set of matching rows, the total and the pagination block; the rows of a single page are not modelled, though `Paging.RowsOnPage` models their count.
- Query strings that do not parse as integers, and `page`/`limit` given as non-integers.
- Malformed UUIDs in path parameters or bodies: PostgreSQL would refuse them with a 500; the model treats any non-empty string as an id.
- The `isEmail` validator on `User.email`: every string is accepted.
- Explicit `null` for the ENUM and integer columns that have defaults (status, priority, plan, max_users, max_projects). Patches to those columns are `Option`, not `Field`.
- The effect of the `created_by` foreign key when a user who created projects is deleted. The ON DELETE action of that key depends on how the schema was created, which is not part of this model; `UserController.DeleteUser` keeps such projects as they are.
- The exact ON DELETE action of `tasks.assigned_to`: no action is declared in the model index, so `Store.RemoveUser` takes Sequelize's default for a nullable key (SET NULL) and clears the assignee. A schema created by other means could instead refuse the delete; that path is not modelled.
- The audit log's own foreign keys at insert time: an entry naming a tenant or user that no longer exists makes the insert fail. That failure is one of the failed writes `Audit.Ctx.writeSucceeds` stands for; the model does not tie it to the tables. On deletion the model takes the default SET NULL for `audit_logs.user_id` and `audit_logs.tenant_id` (`Store.RemoveUser`, `Store.RemoveTenant`), as for `tasks.assigned_to`.
- Success messages of the replies; the payload is modelled, the message text is not.
- Concurrency: handlers run one at a time. The time between the count and the insert of a quota check is not modelled.
- `TaskController.UpdateTaskStatus`: a body without `status` is modelled as writing nothing. Sequelize drops `undefined` attributes, and the timestamp refresh is not modelled.
- Timestamps (`created_at`, `updated_at`) other than the audit entry's clock value.
- Api.Handle: routes `PUT /projects/:id`, `PUT /tasks/:id`, `POST /tenants/:id/users` and `PUT /users/:id` to the corrected handlers (`ProjectController.UpdateProjectIntended`, `TaskController.UpdateTaskIntended`, `UserController.AddUserIntended`, `UserController.UpdateUserIntended`), not to the handlers the routes mount. The handlers as written are modelled in their modules, and `Findings` exercises them. Registration and login are unauthenticated and have their own lemmas.
- Api.HandleKeepsValid: holds for the corrected dispatcher only. For the handlers as mounted it is false: `Findings.UpdateProjectMovesProject`, `Findings.UpdateTaskAssignsAcrossTenants` and `Findings.UpdateTaskMovesTask` each reach a state outside `Store.Valid`, and `Findings.AddUserMintsSuperAdmin` and `Findings.UpdateUserPromotesToSuperAdmin` break `Store.RolesFitTenancy`.
- Api.HandleIsConfined: holds for the corrected dispatcher only. For the handlers as mounted, `Findings.UpdateProjectMovesProject` and `Findings.UpdateTaskMovesTask` write a row into another tenant.
- TaskModel.Build: `due_date` is a DATEONLY column, and PostgreSQL refuses a string it cannot read as a date, so the insert fails with a 500. The model stores any string, because PostgreSQL's date input syntax is not modelled.
- TaskModel.Apply: the same `due_date` gap on update. An unreadable date string is written instead of failing with a 500.
- UserController.ApplyFiltered: an explicit `null` for `role` or `is_active`. Neither column is declared `allowNull: false`, so an admin's `{"role": null}` or `{"is_active": null}` would store NULL. The patch types `Option<string>` and `Option<bool>` cannot express that null, and a user row always has a role and an active flag.

## Findings

| source | as written | input that shows it | evidently intended | confidence | as-written member | corrected member |
|---|---|---|---|---|---|---|
| backend/src/controllers/project.controller.js:115 | `project.update(req.body)` applies every column of the body, `tenant_id` and `created_by` included | the tenant_admin of tenant `a` sends `PUT /projects/p` with `{ "tenant_id": "b" }`: project `p` moves into tenant `b` while its tasks keep `tenant_id` `a` | a project's tenant is immutable; only name, description and status are written | medium (not executed) | Findings.UpdateProjectMovesProject | ProjectController.UpdateProjectIntended |
| backend/src/controllers/task.controller.js:117-134 | only the camel-case `assignedTo` key is checked; a raw `assigned_to` key reaches `task.update` unchecked | `PUT /tasks/k` with `{ "assigned_to": "w" }` where `w` is a user of another tenant: the task is assigned to `w` | the assignee always belongs to the task's tenant | medium (not executed) | Findings.UpdateTaskAssignsAcrossTenants | TaskController.UpdateTaskIntended |
| backend/src/controllers/task.controller.js:134 | the raw `tenant_id` and `project_id` keys of the body are applied | `PUT /tasks/k` with `{ "tenant_id": "b" }`: the task leaves its project's tenant and becomes visible to tenant `b` | a task stays in its project and its project's tenant | medium (not executed) | Findings.UpdateTaskMovesTask | TaskController.UpdateTaskIntended |
| backend/src/controllers/user.controller.js:30-37 | the new user's role is `role \|\| 'user'`, taken from the body | a tenant_admin sends `POST /tenants/a/users` with `"role": "super_admin"`: a super_admin bound to tenant `a` is created, and its login yields claims with a null tenant that every tenant gate accepts | a tenant_admin creates `tenant_admin` or `user` accounts only | medium (not executed) | Findings.AddUserMintsSuperAdmin | UserController.AddUserIntended |
| backend/src/controllers/user.controller.js:106-115 | an admin's filtered update keeps any `role` value | a tenant_admin sends `PUT /users/<own id>` with `{ "role": "super_admin" }` | a tenant_admin sets roles within its tenant only | medium (not executed) | Findings.UpdateUserPromotesToSuperAdmin | UserController.UpdateUserIntended |
