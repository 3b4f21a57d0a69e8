/** The `Project` table: status enumeration and defaults, the non-null tenant
    and creator references, and Sequelize's handling of an update body. */
module ProjectModel {
  import opened Common

  datatype ProjectStatus = Active | Archived | Completed

  function StatusName(st: ProjectStatus): string {
    match st
    case Active => "active"
    case Archived => "archived"
    case Completed => "completed"
  }

  /** ENUM('active', 'archived', 'completed'). */
  function ParseStatus(s: string): (r: Option<ProjectStatus>)
    ensures r.Some? ==> StatusName(r.value) == s
    ensures r.None? ==> forall st :: StatusName(st) != s
  {
    if s == "active" then Some(Active)
    else if s == "archived" then Some(Archived)
    else if s == "completed" then Some(Completed)
    else None
  }

  /** A stored project row; `tenantId`, `name` and `createdBy` are non-null. */
  datatype Project = Project(
    tenantId: Id,
    name: string,
    description: Option<string>,
    status: ProjectStatus,
    createdBy: Id)

  /** `Project.create(attrs)`: `name` must not be null, a status must be one
      of the ENUM names, an omitted status defaults to active and an omitted
      description is null. */
  function Build(tenantId: Id, createdBy: Id, name: Field<string>, description: Field<string>,
                 status: Option<string>): (r: Option<Project>)
    ensures r.Some? <==> name.Val? && (status.Some? ==> ParseStatus(status.value).Some?)
    ensures r.Some? ==>
      && r.value.tenantId == tenantId
      && r.value.createdBy == createdBy
      && r.value.name == name.value
      && r.value.description == (if description.Val? then Some(description.value) else None)
    ensures r.Some? && status.None? ==> r.value.status == Active
    ensures r.Some? && status.Some? ==> StatusName(r.value.status) == status.value
  {
    if name.Val? then
      var st := if status.Some? then ParseStatus(status.value) else Some(Active);
      if st.Some? then
        Some(Project(tenantId, name.value, if description.Val? then Some(description.value) else None,
                     st.value, createdBy))
      else None
    else None
  }

  /** The column keys a `PUT /projects/:id` body may carry. */
  datatype ProjectPatch = ProjectPatch(
    name: Field<string>,
    description: Field<string>,
    status: Option<string>,
    tenantId: Field<string>,
    createdBy: Field<string>)

  /** `project.update(body)` before foreign keys are checked: every supplied
      column is written, without filtering any of them. */
  function Apply(p: Project, patch: ProjectPatch): (r: Option<Project>)
    ensures r.Some? <==>
      && !patch.name.Null?
      && (patch.status.Some? ==> ParseStatus(patch.status.value).Some?)
      && (!patch.tenantId.Absent? ==> Truthy(patch.tenantId))
      && (!patch.createdBy.Absent? ==> Truthy(patch.createdBy))
    ensures r.Some? ==> r.value.name == (if patch.name.Val? then patch.name.value else p.name)
    ensures r.Some? ==> r.value.description == Nullable(p.description, patch.description)
    ensures r.Some? ==>
      (if patch.status.Some? then StatusName(r.value.status) == patch.status.value else r.value.status == p.status)
    ensures r.Some? ==> r.value.tenantId == (if patch.tenantId.Val? then patch.tenantId.value else p.tenantId)
    ensures r.Some? ==> r.value.createdBy == (if patch.createdBy.Val? then patch.createdBy.value else p.createdBy)
  {
    var st := if patch.status.Some? then ParseStatus(patch.status.value) else Some(p.status);
    var tenant := SetRef(p.tenantId, patch.tenantId);
    var creator := SetRef(p.createdBy, patch.createdBy);
    if patch.name.Null? || st.None? || tenant.None? || creator.None? then None
    else
      Some(Project(
        tenant.value,
        if patch.name.Val? then patch.name.value else p.name,
        Nullable(p.description, patch.description),
        st.value,
        creator.value))
  }
}
