/** The task handlers. Every one first loads its row (404), then applies the
    tenant gate with 403; create and update check that an assignee belongs
    to the task's tenant (400). */
module TaskController {
  import opened Common
  import opened Store
  import opened Audit
  import opened Paging
  import U = UserModel
  import P = ProjectModel
  import K = TaskModel

  /** The body of `POST /projects/:projectId/tasks`. */
  datatype TaskInput = TaskInput(
    title: Field<string>,
    description: Field<string>,
    assignedTo: Field<string>,
    priority: Field<string>,
    dueDate: Field<string>)

  /** The assignee check: the named user exists and belongs to `tenant`. */
  predicate AssigneeOk(s: State, u: Id, tenant: Id) {
    u in s.users && s.users[u].tenantId == Some(tenant)
  }

  /** `createTask`. The new task copies its project's tenant, always starts
      as todo, and has priority `priority || 'medium'`. */
  function CreateTask(s: State, c: Claims, pid: Id, input: TaskInput, newId: Id, ctx: Ctx): (r: Step<Id>)
    ensures r.reply.Err? ==> r.state == s
    ensures pid !in s.projects ==> r.reply == Err(404, "Project not found")
    ensures pid in s.projects && !Reaches(c, s.projects[pid].tenantId) ==> r.reply == Err(403, "Unauthorized")
    ensures pid in s.projects && Reaches(c, s.projects[pid].tenantId) && Truthy(input.assignedTo)
            && !AssigneeOk(s, IdOf(input.assignedTo), s.projects[pid].tenantId) ==>
      r.reply == Err(400, "Assigned user does not belong to this tenant")
    ensures pid in s.projects && Reaches(c, s.projects[pid].tenantId)
            && (Truthy(input.assignedTo) ==> AssigneeOk(s, IdOf(input.assignedTo), s.projects[pid].tenantId))
            && input.title.Val? && K.ParsePriority(OrElse(input.priority, "medium")).Some? && newId !in s.tasks ==>
      r.reply == Ok(201, newId)
    ensures r.reply.Ok? ==>
      && r.reply == Ok(201, newId)
      && pid in s.projects && Reaches(c, s.projects[pid].tenantId)
      && newId !in s.tasks && newId in r.state.tasks
      && r.state.tasks == s.tasks[newId := r.state.tasks[newId]]
      && var t := r.state.tasks[newId];
      && t.projectId == pid
      && t.tenantId == s.projects[pid].tenantId
      && t.status == K.Todo
      && K.PriorityName(t.priority) == OrElse(input.priority, "medium")
      && t.assignedTo == (if Truthy(input.assignedTo) then Some(IdOf(input.assignedTo)) else None)
      && (t.assignedTo.Some? ==> AssigneeOk(s, t.assignedTo.value, t.tenantId))
      && input.title.Val? && t.title == input.title.value
      && t.description == Nullable(None, input.description)
      && t.dueDate == Nullable(None, input.dueDate)
      && K.Build(pid, s.projects[pid].tenantId, input.title, input.description, Some("todo"),
                 Some(OrElse(input.priority, "medium")), t.assignedTo, input.dueDate) == Some(t)
      && r.state.tenants == s.tenants && r.state.users == s.users && r.state.projects == s.projects
      && Logged(s.audit, r.state.audit, Some(s.projects[pid].tenantId), Some(c.userId), "CREATE_TASK", "task", newId, ctx)
  {
    if pid !in s.projects then Step(Err(404, "Project not found"), s)
    else
      var p := s.projects[pid];
      if !Reaches(c, p.tenantId) then Step(Err(403, "Unauthorized"), s)
      else if Truthy(input.assignedTo) && !AssigneeOk(s, IdOf(input.assignedTo), p.tenantId) then
        Step(Err(400, "Assigned user does not belong to this tenant"), s)
      else
        var assignee := if Truthy(input.assignedTo) then Some(IdOf(input.assignedTo)) else None;
        var built := K.Build(pid, p.tenantId, input.title, input.description, Some("todo"),
                             Some(OrElse(input.priority, "medium")), assignee, input.dueDate);
        if built.None? || newId in s.tasks then Step(Err(500, InternalError), s)
        else
          var s1 := s.(tasks := s.tasks[newId := built.value]);
          Step(Ok(201, newId), Log(s1, Some(p.tenantId), Some(c.userId), "CREATE_TASK", "task", newId, ctx))
  }

  /** The query string of `GET /projects/:projectId/tasks` (the title search
      is not modelled). */
  datatype TaskQuery = TaskQuery(
    status: Field<string>, assignedTo: Field<string>, priority: Field<string>,
    page: Option<int>, limit: Option<int>)

  datatype TaskListing = TaskListing(tasks: set<Id>, total: nat, pagination: Pagination)

  /** `listTasks`: the same gates as create, then the project's tasks
      filtered by every truthy filter. */
  function ListTasks(s: State, c: Claims, pid: Id, q: TaskQuery): (r: Step<TaskListing>)
    ensures r.state == s
    ensures var page := if q.page.Some? then q.page.value else 1;
            var limit := if q.limit.Some? then q.limit.value else 50;
            && pid in s.projects && Reaches(c, s.projects[pid].tenantId)
            && (Truthy(q.status) ==> K.ParseStatus(q.status.value).Some?)
            && (Truthy(q.priority) ==> K.ParsePriority(q.priority.value).Some?)
            && limit >= 0 && (page - 1) * limit >= 0
            ==> r.reply.Ok?
    ensures pid !in s.projects ==> r.reply == Err(404, "Project not found")
    ensures pid in s.projects && !Reaches(c, s.projects[pid].tenantId) ==> r.reply == Err(403, "Unauthorized")
    ensures r.reply.Ok? ==>
      var l := r.reply.data;
      && pid in s.projects && Reaches(c, s.projects[pid].tenantId)
      && l.total == |l.tasks|
      && (forall k :: k in l.tasks <==>
            && k in s.tasks && s.tasks[k].projectId == pid
            && (Truthy(q.status) ==> K.StatusName(s.tasks[k].status) == q.status.value)
            && (Truthy(q.assignedTo) ==> s.tasks[k].assignedTo == Some(IdOf(q.assignedTo)))
            && (Truthy(q.priority) ==> K.PriorityName(s.tasks[k].priority) == q.priority.value))
      && l.pagination.offset == ((if q.page.Some? then q.page.value else 1) - 1) * (if q.limit.Some? then q.limit.value else 50)
      && (l.pagination.limit > 0 ==> l.pagination.totalPages == Some(CeilDiv(l.total, l.pagination.limit)))
  {
    if pid !in s.projects then Step(Err(404, "Project not found"), s)
    else if !Reaches(c, s.projects[pid].tenantId) then Step(Err(403, "Unauthorized"), s)
    else
      var status := if Truthy(q.status) then K.ParseStatus(q.status.value) else None;
      var priority := if Truthy(q.priority) then K.ParsePriority(q.priority.value) else None;
      if (Truthy(q.status) && status.None?) || (Truthy(q.priority) && priority.None?) then
        Step(Err(500, InternalError), s)
      else
        var page := if q.page.Some? then q.page.value else 1;
        var limit := if q.limit.Some? then q.limit.value else 50;
        var matches := set k | k in s.tasks && s.tasks[k].projectId == pid
                               && (status.Some? ==> s.tasks[k].status == status.value)
                               && (Truthy(q.assignedTo) ==> s.tasks[k].assignedTo == Some(IdOf(q.assignedTo)))
                               && (priority.Some? ==> s.tasks[k].priority == priority.value);
        match Paginate(|matches|, page, limit)
        case None => Step(Err(500, InternalError), s)
        case Some(pg) => Step(Ok(200, TaskListing(matches, |matches|, pg)), s)
  }

  /** `updateTaskStatus`: writes the status column and nothing else, and
      writes no audit entry. */
  function UpdateTaskStatus(s: State, c: Claims, tid: Id, status: Option<string>): (r: Step<K.Task>)
    ensures r.state.audit == s.audit
    ensures r.reply.Err? ==> r.state == s
    ensures tid !in s.tasks ==> r.reply == Err(404, "Task not found")
    ensures tid in s.tasks && !Reaches(c, s.tasks[tid].tenantId) ==> r.reply == Err(403, "Unauthorized")
    ensures tid in s.tasks && Reaches(c, s.tasks[tid].tenantId) && (status.Some? ==> K.ParseStatus(status.value).Some?) ==>
      r.reply.Ok?
    ensures r.reply.Ok? ==>
      && tid in s.tasks && Reaches(c, s.tasks[tid].tenantId)
      && r.reply == Ok(200, s.tasks[tid].(status := r.reply.data.status))
      && (status.Some? ==> K.StatusName(r.reply.data.status) == status.value)
      && r.state == s.(tasks := s.tasks[tid := r.reply.data])
  {
    if tid !in s.tasks then Step(Err(404, "Task not found"), s)
    else
      var t := s.tasks[tid];
      if !Reaches(c, t.tenantId) then Step(Err(403, "Unauthorized"), s)
      else
        var st := if status.Some? then K.ParseStatus(status.value) else Some(t.status);
        if st.None? then Step(Err(500, InternalError), s)
        else
          var t' := t.(status := st.value);
          Step(Ok(200, t'), s.(tasks := s.tasks[tid := t']))
  }

  /** The body of `PUT /tasks/:taskId`: the camel-case `assignedTo` and
      `dueDate` the handler maps, and every column key a client may send
      directly, which reaches the update as given. */
  datatype TaskBody = TaskBody(
    title: Field<string>,
    description: Field<string>,
    status: Option<string>,
    priority: Option<string>,
    assignedTo: Field<string>,
    assignedToColumn: Field<string>,
    dueDate: Field<string>,
    dueDateColumn: Field<string>,
    projectId: Field<string>,
    tenantId: Field<string>)

  /** What the handler passes to `task.update`: a truthy `assignedTo` (already
      checked) or an explicit null replaces `assigned_to`; otherwise the raw
      `assigned_to` key goes through. A null or truthy `dueDate` replaces
      `due_date`; otherwise the raw `due_date` key goes through. */
  function Columns(b: TaskBody): (cols: K.TaskColumns)
    ensures Truthy(b.assignedTo) ==> cols.assignedTo == b.assignedTo
    ensures b.assignedTo.Null? ==> cols.assignedTo.Null?
    ensures !Truthy(b.assignedTo) && !b.assignedTo.Null? ==> cols.assignedTo == b.assignedToColumn
    ensures b.dueDate.Null? ==> cols.dueDate.Null?
    ensures Truthy(b.dueDate) ==> cols.dueDate == b.dueDate
    ensures !Truthy(b.dueDate) && !b.dueDate.Null? ==> cols.dueDate == b.dueDateColumn
    ensures cols.title == b.title && cols.description == b.description && cols.status == b.status
    ensures cols.priority == b.priority && cols.projectId == b.projectId && cols.tenantId == b.tenantId
  {
    K.TaskColumns(
      b.title, b.description, b.status, b.priority,
      if Truthy(b.assignedTo) then b.assignedTo else if b.assignedTo.Null? then Null else b.assignedToColumn,
      if b.dueDate.Null? then Null else if Truthy(b.dueDate) then b.dueDate else b.dueDateColumn,
      b.projectId, b.tenantId)
  }

  /** The foreign keys of the columns the update changes: Sequelize writes
      only changed columns, and PostgreSQL checks a key only when its column
      changes. */
  predicate ReferencesExist(s: State, t: K.Task, t': K.Task) {
    && (t'.projectId != t.projectId ==> t'.projectId in s.projects)
    && (t'.tenantId != t.tenantId ==> t'.tenantId in s.tenants)
    && (t'.assignedTo.Some? && t'.assignedTo != t.assignedTo ==> t'.assignedTo.value in s.users)
  }

  /** `updateTask`, as written. Only the `assignedTo` key is checked against
      the task's tenant; every other key of the body is applied as given. */
  function UpdateTask(s: State, c: Claims, tid: Id, b: TaskBody, ctx: Ctx): (r: Step<K.Task>)
    ensures r.reply.Err? ==> r.state == s
    ensures tid !in s.tasks ==> r.reply == Err(404, "Task not found")
    ensures tid in s.tasks && !Reaches(c, s.tasks[tid].tenantId) ==> r.reply == Err(403, "Unauthorized")
    ensures tid in s.tasks && Reaches(c, s.tasks[tid].tenantId) && Truthy(b.assignedTo)
            && !AssigneeOk(s, IdOf(b.assignedTo), s.tasks[tid].tenantId) ==>
      r.reply == Err(400, "Assigned user mismatch")
    ensures tid in s.tasks && Reaches(c, s.tasks[tid].tenantId)
            && (Truthy(b.assignedTo) ==> AssigneeOk(s, IdOf(b.assignedTo), s.tasks[tid].tenantId)) ==>
      var t' := K.Apply(s.tasks[tid], Columns(b));
      t'.Some? && ReferencesExist(s, s.tasks[tid], t'.value) ==> r.reply == Ok(200, t'.value)
    ensures r.reply.Ok? ==>
      && r.reply.code == 200
      && tid in s.tasks && Reaches(c, s.tasks[tid].tenantId)
      && K.Apply(s.tasks[tid], Columns(b)) == Some(r.reply.data)
      && ReferencesExist(s, s.tasks[tid], r.reply.data)
      && (Truthy(b.assignedTo) ==> r.reply.data.assignedTo == Some(IdOf(b.assignedTo)))
      && (b.assignedTo.Null? ==> r.reply.data.assignedTo.None?)
      && r.state.tasks == s.tasks[tid := r.reply.data]
      && r.state.tenants == s.tenants && r.state.users == s.users && r.state.projects == s.projects
      && Logged(s.audit, r.state.audit, Some(r.reply.data.tenantId), Some(c.userId), "UPDATE_TASK", "task", tid, ctx)
  {
    if tid !in s.tasks then Step(Err(404, "Task not found"), s)
    else
      var t := s.tasks[tid];
      if !Reaches(c, t.tenantId) then Step(Err(403, "Unauthorized"), s)
      else if Truthy(b.assignedTo) && !AssigneeOk(s, IdOf(b.assignedTo), t.tenantId) then
        Step(Err(400, "Assigned user mismatch"), s)
      else
        match K.Apply(t, Columns(b))
        case None => Step(Err(500, InternalError), s)
        case Some(t') =>
          if !ReferencesExist(s, t, t') then Step(Err(500, InternalError), s)
          else
            var s1 := s.(tasks := s.tasks[tid := t']);
            // The audit row takes `task.tenant_id` after the update.
            Step(Ok(200, t'), Log(s1, Some(t'.tenantId), Some(c.userId), "UPDATE_TASK", "task", tid, ctx))
  }

  /** `updateTask` as the task invariants require: the only way to change the
      assignee is the checked `assignedTo` key, and `project_id` and
      `tenant_id` are not writable, so the task stays in its project and its
      tenant. */
  function UpdateTaskIntended(s: State, c: Claims, tid: Id, b: TaskBody, ctx: Ctx): (r: Step<K.Task>)
    ensures r.reply.Err? ==> r.state == s
    ensures tid !in s.tasks ==> r.reply == Err(404, "Task not found")
    ensures tid in s.tasks && !Reaches(c, s.tasks[tid].tenantId) ==> r.reply == Err(403, "Unauthorized")
    ensures tid in s.tasks && Reaches(c, s.tasks[tid].tenantId) && Truthy(b.assignedTo)
            && !AssigneeOk(s, IdOf(b.assignedTo), s.tasks[tid].tenantId) ==>
      r.reply == Err(400, "Assigned user mismatch")
    ensures tid in s.tasks && Reaches(c, s.tasks[tid].tenantId)
            && (Truthy(b.assignedTo) ==> AssigneeOk(s, IdOf(b.assignedTo), s.tasks[tid].tenantId))
            && !b.title.Null?
            && (b.status.Some? ==> K.ParseStatus(b.status.value).Some?)
            && (b.priority.Some? ==> K.ParsePriority(b.priority.value).Some?) ==>
      r.reply.Ok?
    ensures r.reply.Ok? ==>
      && tid in s.tasks && Reaches(c, s.tasks[tid].tenantId)
      && K.Apply(s.tasks[tid], Columns(b.(assignedToColumn := Absent, projectId := Absent, tenantId := Absent)))
         == Some(r.reply.data)
      && r.reply.data.title == (if b.title.Val? then b.title.value else s.tasks[tid].title)
      && r.reply.data.dueDate == (if b.dueDate.Null? then None else if Truthy(b.dueDate) then Some(b.dueDate.value)
                                  else Nullable(s.tasks[tid].dueDate, b.dueDateColumn))
      && r.reply.data.projectId == s.tasks[tid].projectId
      && r.reply.data.tenantId == s.tasks[tid].tenantId
      && r.reply.data.assignedTo == (if Truthy(b.assignedTo) then Some(IdOf(b.assignedTo))
                                     else if b.assignedTo.Null? then None
                                     else s.tasks[tid].assignedTo)
      && r.state.tasks == s.tasks[tid := r.reply.data]
      && r.state.tenants == s.tenants && r.state.users == s.users && r.state.projects == s.projects
      && Logged(s.audit, r.state.audit, Some(s.tasks[tid].tenantId), Some(c.userId), "UPDATE_TASK", "task", tid, ctx)
  {
    UpdateTask(s, c, tid, b.(assignedToColumn := Absent, projectId := Absent, tenantId := Absent), ctx)
  }

  /** `deleteTask`. */
  function DeleteTask(s: State, c: Claims, tid: Id, ctx: Ctx): (r: Step<()>)
    ensures r.reply.Err? ==> r.state == s
    ensures tid !in s.tasks ==> r.reply == Err(404, "Task not found")
    ensures tid in s.tasks && !Reaches(c, s.tasks[tid].tenantId) ==> r.reply == Err(403, "Unauthorized")
    ensures tid in s.tasks && Reaches(c, s.tasks[tid].tenantId) ==> r.reply == Ok(200, ())
    ensures r.reply.Ok? ==>
      && r.reply.code == 200
      && tid in s.tasks && Reaches(c, s.tasks[tid].tenantId)
      && r.state.tasks == s.tasks - {tid}
      && r.state.tenants == s.tenants && r.state.users == s.users && r.state.projects == s.projects
      && Logged(s.audit, r.state.audit, Some(s.tasks[tid].tenantId), Some(c.userId), "DELETE_TASK", "task", tid, ctx)
  {
    if tid !in s.tasks then Step(Err(404, "Task not found"), s)
    else
      var t := s.tasks[tid];
      if !Reaches(c, t.tenantId) then Step(Err(403, "Unauthorized"), s)
      else
        Step(Ok(200, ()), Log(s.(tasks := s.tasks - {tid}), Some(t.tenantId), Some(c.userId), "DELETE_TASK", "task", tid, ctx))
  }

  // ---- Integrity and isolation

  lemma CreateTaskKeepsValid(s: State, c: Claims, pid: Id, input: TaskInput, newId: Id, ctx: Ctx)
    requires Valid(s)
    ensures Valid(CreateTask(s, c, pid, input, newId, ctx).state)
  {
  }

  lemma UpdateTaskStatusKeepsValid(s: State, c: Claims, tid: Id, status: Option<string>)
    requires Valid(s)
    ensures Valid(UpdateTaskStatus(s, c, tid, status).state)
  {
  }

  lemma UpdateTaskIntendedKeepsValid(s: State, c: Claims, tid: Id, b: TaskBody, ctx: Ctx)
    requires Valid(s)
    ensures Valid(UpdateTaskIntended(s, c, tid, b, ctx).state)
  {
  }

  lemma DeleteTaskKeepsValid(s: State, c: Claims, tid: Id, ctx: Ctx)
    requires Valid(s)
    ensures Valid(DeleteTask(s, c, tid, ctx).state)
  {
  }

  /** A caller bound to one tenant creates, changes and deletes tasks of that
      tenant only. */
  lemma CreateTaskConfined(s: State, c: Claims, pid: Id, input: TaskInput, newId: Id, ctx: Ctx)
    requires WellFormedClaims(c) && c.role != U.SuperAdmin
    ensures ConfinedTo(s, CreateTask(s, c, pid, input, newId, ctx).state, c.tenantId.value)
  {
  }

  lemma UpdateTaskStatusConfined(s: State, c: Claims, tid: Id, status: Option<string>)
    requires WellFormedClaims(c) && c.role != U.SuperAdmin
    ensures ConfinedTo(s, UpdateTaskStatus(s, c, tid, status).state, c.tenantId.value)
  {
  }

  lemma UpdateTaskIntendedConfined(s: State, c: Claims, tid: Id, b: TaskBody, ctx: Ctx)
    requires WellFormedClaims(c) && c.role != U.SuperAdmin
    ensures ConfinedTo(s, UpdateTaskIntended(s, c, tid, b, ctx).state, c.tenantId.value)
  {
  }

  lemma DeleteTaskConfined(s: State, c: Claims, tid: Id, ctx: Ctx)
    requires WellFormedClaims(c) && c.role != U.SuperAdmin
    ensures ConfinedTo(s, DeleteTask(s, c, tid, ctx).state, c.tenantId.value)
  {
  }
}
