/** The `Task` table: status and priority enumerations with their defaults,
    the nullable assignee, and Sequelize's handling of an update body. */
module TaskModel {
  import opened Common

  datatype TaskStatus = Todo | InProgress | Completed

  datatype Priority = Low | Medium | High

  function StatusName(st: TaskStatus): string {
    match st
    case Todo => "todo"
    case InProgress => "in_progress"
    case Completed => "completed"
  }

  function PriorityName(p: Priority): string {
    match p
    case Low => "low"
    case Medium => "medium"
    case High => "high"
  }

  /** ENUM('todo', 'in_progress', 'completed'). */
  function ParseStatus(s: string): (r: Option<TaskStatus>)
    ensures r.Some? ==> StatusName(r.value) == s
    ensures r.None? ==> forall st :: StatusName(st) != s
  {
    if s == "todo" then Some(Todo)
    else if s == "in_progress" then Some(InProgress)
    else if s == "completed" then Some(Completed)
    else None
  }

  /** ENUM('low', 'medium', 'high'). */
  function ParsePriority(s: string): (r: Option<Priority>)
    ensures r.Some? ==> PriorityName(r.value) == s
    ensures r.None? ==> forall p :: PriorityName(p) != s
  {
    if s == "low" then Some(Low)
    else if s == "medium" then Some(Medium)
    else if s == "high" then Some(High)
    else None
  }

  /** A stored task row. `tenantId` copies the owning project's tenant;
      `assignedTo` and `dueDate` may be null. */
  datatype Task = Task(
    projectId: Id,
    tenantId: Id,
    title: string,
    description: Option<string>,
    status: TaskStatus,
    priority: Priority,
    assignedTo: Option<Id>,
    dueDate: Option<string>)

  /** `Task.create(attrs)`: `title` must not be null, ENUM values must be
      names, an omitted status is todo and an omitted priority is medium. */
  function Build(projectId: Id, tenantId: Id, title: Field<string>, description: Field<string>,
                 status: Option<string>, priority: Option<string>, assignedTo: Option<Id>,
                 dueDate: Field<string>): (r: Option<Task>)
    ensures r.Some? <==>
      && title.Val?
      && (status.Some? ==> ParseStatus(status.value).Some?)
      && (priority.Some? ==> ParsePriority(priority.value).Some?)
    ensures r.Some? ==>
      && r.value.projectId == projectId
      && r.value.tenantId == tenantId
      && r.value.title == title.value
      && r.value.description == Nullable(None, description)
      && r.value.assignedTo == assignedTo
      && r.value.dueDate == Nullable(None, dueDate)
    ensures r.Some? && status.None? ==> r.value.status == Todo
    ensures r.Some? && status.Some? ==> StatusName(r.value.status) == status.value
    ensures r.Some? && priority.None? ==> r.value.priority == Medium
    ensures r.Some? && priority.Some? ==> PriorityName(r.value.priority) == priority.value
  {
    if title.Val? then
      var st := if status.Some? then ParseStatus(status.value) else Some(Todo);
      var pr := if priority.Some? then ParsePriority(priority.value) else Some(Medium);
      if st.Some? && pr.Some? then
        Some(Task(projectId, tenantId, title.value, Nullable(None, description), st.value, pr.value,
                  assignedTo, Nullable(None, dueDate)))
      else None
    else None
  }

  /** The column keys that reach `task.update(...)` once the handler has
      mapped `assignedTo` and `dueDate` onto `assigned_to` and `due_date`. */
  datatype TaskColumns = TaskColumns(
    title: Field<string>,
    description: Field<string>,
    status: Option<string>,
    priority: Option<string>,
    assignedTo: Field<string>,
    dueDate: Field<string>,
    projectId: Field<string>,
    tenantId: Field<string>)

  /** A nullable reference column: null clears it, "" is not a UUID. */
  function SetNullableRef(current: Option<Id>, f: Field<string>): (r: Option<Option<Id>>)
    ensures f.Absent? ==> r == Some(current)
    ensures f.Null? ==> r == Some(None)
    ensures f.Val? ==> (r.Some? <==> f.value != "")
    ensures Truthy(f) ==> r == Some(Some(IdOf(f)))
  {
    match f
    case Absent => Some(current)
    case Null => Some(None)
    case Val(v) => if v != "" then Some(Some(IdOf(f))) else None
  }

  /** `task.update(columns)` before foreign keys are checked: every supplied
      column is written. */
  function Apply(t: Task, c: TaskColumns): (r: Option<Task>)
    ensures r.Some? <==>
      && !c.title.Null?
      && (c.status.Some? ==> ParseStatus(c.status.value).Some?)
      && (c.priority.Some? ==> ParsePriority(c.priority.value).Some?)
      && (c.assignedTo.Val? ==> c.assignedTo.value != "")
      && (!c.projectId.Absent? ==> Truthy(c.projectId))
      && (!c.tenantId.Absent? ==> Truthy(c.tenantId))
    ensures r.Some? ==> r.value.title == (if c.title.Val? then c.title.value else t.title)
    ensures r.Some? ==> r.value.description == Nullable(t.description, c.description)
    ensures r.Some? ==>
      (if c.status.Some? then StatusName(r.value.status) == c.status.value else r.value.status == t.status)
    ensures r.Some? ==>
      (if c.priority.Some? then PriorityName(r.value.priority) == c.priority.value else r.value.priority == t.priority)
    ensures r.Some? && c.assignedTo.Absent? ==> r.value.assignedTo == t.assignedTo
    ensures r.Some? && c.assignedTo.Null? ==> r.value.assignedTo.None?
    ensures r.Some? && c.assignedTo.Val? ==> r.value.assignedTo == Some(c.assignedTo.value)
    ensures r.Some? ==> r.value.dueDate == Nullable(t.dueDate, c.dueDate)
    ensures r.Some? ==> r.value.projectId == (if c.projectId.Val? then c.projectId.value else t.projectId)
    ensures r.Some? ==> r.value.tenantId == (if c.tenantId.Val? then c.tenantId.value else t.tenantId)
  {
    var st := if c.status.Some? then ParseStatus(c.status.value) else Some(t.status);
    var pr := if c.priority.Some? then ParsePriority(c.priority.value) else Some(t.priority);
    var assignee := SetNullableRef(t.assignedTo, c.assignedTo);
    var project := SetRef(t.projectId, c.projectId);
    var tenant := SetRef(t.tenantId, c.tenantId);
    if c.title.Null? || st.None? || pr.None? || assignee.None? || project.None? || tenant.None? then None
    else
      Some(Task(project.value, tenant.value,
                if c.title.Val? then c.title.value else t.title,
                Nullable(t.description, c.description),
                st.value, pr.value, assignee.value,
                Nullable(t.dueDate, c.dueDate)))
  }
}
