/** The user handlers: add (tenant_admin of the target tenant, user quota
    before the duplicate-email check), list, update (self or tenant_admin,
    with silent field filtering) and delete (tenant_admin, never oneself). */
module UserController {
  import opened Common
  import opened Store
  import opened Audit
  import opened Paging
  import U = UserModel

  /** The body of `POST /tenants/:tenantId/users`. */
  datatype UserInput = UserInput(
    email: Field<string>, password: Field<string>, fullName: Field<string>, role: Field<string>)

  /** The password utility: the digest of a password, or None when hashing
      throws. */
  type Hasher = Field<string> -> Option<string>

  const SubscriptionLimitMessage := "Subscription limit reached"

  /** `addUser`. */
  function AddUser(s: State, c: Claims, tid: Id, input: UserInput, hash: Hasher, newId: Id, ctx: Ctx): (r: Step<Id>)
    ensures r.reply.Err? ==> r.state == s
    ensures (c.role != U.TenantAdmin || c.tenantId != Some(tid)) ==> r.reply == Err(403, "Unauthorized")
    ensures c.role == U.TenantAdmin && c.tenantId == Some(tid) && tid !in s.tenants ==>
      r.reply == Err(404, "Tenant not found")
    ensures c.role == U.TenantAdmin && c.tenantId == Some(tid) && tid in s.tenants
            && |UsersOf(s.users, tid)| >= s.tenants[tid].maxUsers ==>
      r.reply == Err(403, SubscriptionLimitMessage)
    ensures c.role == U.TenantAdmin && c.tenantId == Some(tid) && tid in s.tenants
            && |UsersOf(s.users, tid)| < s.tenants[tid].maxUsers
            && input.email.Val? && EmailTakenIn(s, input.email.value, tid) ==>
      r.reply == Err(409, "Email already exists in this tenant")
    ensures c.role == U.TenantAdmin && c.tenantId == Some(tid) && tid in s.tenants
            && |UsersOf(s.users, tid)| < s.tenants[tid].maxUsers
            && input.email.Val? && !EmailTakenIn(s, input.email.value, tid)
            && input.fullName.Val? && U.ParseRole(OrElse(input.role, "user")).Some?
            && hash(input.password).Some? && newId !in s.users ==>
      r.reply == Ok(201, newId)
    ensures r.reply.Ok? ==>
      && r.reply == Ok(201, newId)
      && c.role == U.TenantAdmin && c.tenantId == Some(tid) && tid in s.tenants
      && newId !in s.users && newId in r.state.users
      && r.state.users == s.users[newId := r.state.users[newId]]
      && var u := r.state.users[newId];
      && u.tenantId == Some(tid)
      && input.email.Val? && u.email == input.email.value
      && !EmailTakenIn(s, u.email, tid)
      && U.RoleName(u.role) == OrElse(input.role, "user")
      && u.isActive
      && input.fullName.Val? && u.fullName == input.fullName.value
      && hash(input.password).Some? && u.passwordHash == hash(input.password).value
      && U.Build(Some(tid), input.email, input.fullName, hash(input.password).value,
                 Some(OrElse(input.role, "user")), Some(true)) == Some(u)
      && r.state.tenants == s.tenants && r.state.projects == s.projects && r.state.tasks == s.tasks
      && Logged(s.audit, r.state.audit, Some(tid), Some(c.userId), "CREATE_USER", "user", newId, ctx)
  {
    if c.role != U.TenantAdmin then Step(Err(403, "Unauthorized"), s)
    else if c.tenantId != Some(tid) then Step(Err(403, "Unauthorized"), s)
    else if tid !in s.tenants then Step(Err(404, "Tenant not found"), s)
    else if |UsersOf(s.users, tid)| >= s.tenants[tid].maxUsers then Step(Err(403, SubscriptionLimitMessage), s)
    // An undefined email in the `where` throws; a null one matches nothing
    // and then breaks the non-null constraint: a 500 either way.
    else if !input.email.Val? then Step(Err(500, InternalError), s)
    else if EmailTakenIn(s, input.email.value, tid) then Step(Err(409, "Email already exists in this tenant"), s)
    else
      match hash(input.password)
      case None => Step(Err(500, InternalError), s)
      case Some(digest) =>
        var built := U.Build(Some(tid), input.email, input.fullName, digest, Some(OrElse(input.role, "user")), Some(true));
        if built.None? || newId in s.users then Step(Err(500, InternalError), s)
        else
          var s1 := s.(users := s.users[newId := built.value]);
          Step(Ok(201, newId), Log(s1, Some(tid), Some(c.userId), "CREATE_USER", "user", newId, ctx))
  }

  /** After a successful add the tenant holds one user more, and still no
      more than its ceiling. */
  lemma {:induction false} AddUserRespectsQuota(s: State, c: Claims, tid: Id, input: UserInput, hash: Hasher, newId: Id, ctx: Ctx)
    requires AddUser(s, c, tid, input, hash, newId, ctx).reply.Ok?
    ensures var r := AddUser(s, c, tid, input, hash, newId, ctx);
      && |UsersOf(r.state.users, tid)| == |UsersOf(s.users, tid)| + 1
      && |UsersOf(r.state.users, tid)| <= s.tenants[tid].maxUsers
  {
    var r := AddUser(s, c, tid, input, hash, newId, ctx);
    UserInsertCount(s.users, newId, r.state.users[newId], tid);
  }

  /** `addUser` as the role model requires: a tenant_admin cannot mint a
      super_admin, the tenant-independent role every tenant gate lets
      through; any other request behaves as `addUser`. */
  function AddUserIntended(s: State, c: Claims, tid: Id, input: UserInput, hash: Hasher, newId: Id, ctx: Ctx): (r: Step<Id>)
    ensures r.reply.Err? ==> r.state == s
    ensures OrElse(input.role, "user") == U.RoleName(U.SuperAdmin) ==> r.reply == Err(403, "Unauthorized")
    ensures OrElse(input.role, "user") != U.RoleName(U.SuperAdmin) ==> r == AddUser(s, c, tid, input, hash, newId, ctx)
    ensures r.reply.Ok? ==> r.state.users[newId].role != U.SuperAdmin
  {
    if OrElse(input.role, "user") == U.RoleName(U.SuperAdmin) then Step(Err(403, "Unauthorized"), s)
    else AddUser(s, c, tid, input, hash, newId, ctx)
  }

  /** The query string of `GET /tenants/:tenantId/users` (the name and email
      search is not modelled). */
  datatype UserQuery = UserQuery(role: Field<string>, page: Option<int>, limit: Option<int>)

  datatype UserListing = UserListing(users: set<Id>, total: nat, pagination: Pagination)

  /** `listUsers`: a caller of that tenant or a super_admin; the tenant's
      existence is not checked. */
  function ListUsers(s: State, c: Claims, tid: Id, q: UserQuery): (r: Step<UserListing>)
    ensures r.state == s
    ensures var page := if q.page.Some? then q.page.value else 1;
            var limit := if q.limit.Some? then q.limit.value else 50;
            Reaches(c, tid) && (Truthy(q.role) ==> U.ParseRole(q.role.value).Some?)
            && limit >= 0 && (page - 1) * limit >= 0 ==>
      r.reply.Ok?
    ensures !Reaches(c, tid) ==> r.reply == Err(403, "Unauthorized")
    ensures r.reply.Ok? ==>
      var l := r.reply.data;
      && Reaches(c, tid)
      && l.total == |l.users|
      && (forall u :: u in l.users <==>
            u in s.users && s.users[u].tenantId == Some(tid)
            && (Truthy(q.role) ==> U.RoleName(s.users[u].role) == q.role.value))
      && l.pagination.offset == ((if q.page.Some? then q.page.value else 1) - 1) * (if q.limit.Some? then q.limit.value else 50)
      && (l.pagination.limit > 0 ==> l.pagination.totalPages == Some(CeilDiv(l.total, l.pagination.limit)))
  {
    if !Reaches(c, tid) then Step(Err(403, "Unauthorized"), s)
    else
      var role := if Truthy(q.role) then U.ParseRole(q.role.value) else None;
      if Truthy(q.role) && role.None? then Step(Err(500, InternalError), s)
      else
        var page := if q.page.Some? then q.page.value else 1;
        var limit := if q.limit.Some? then q.limit.value else 50;
        var matches := set u | u in s.users && s.users[u].tenantId == Some(tid)
                               && (role.Some? ==> s.users[u].role == role.value);
        match Paginate(|matches|, page, limit)
        case None => Step(Err(500, InternalError), s)
        case Some(pg) => Step(Ok(200, UserListing(matches, |matches|, pg)), s)
  }

  /** The body of `PUT /users/:userId`: the keys the handler may keep, and
      the other columns a client could send, which it drops. */
  datatype UserPatch = UserPatch(
    fullName: Field<string>,
    role: Option<string>,
    isActive: Option<bool>,
    email: Field<string>,
    passwordHash: Field<string>,
    tenantId: Field<string>)

  /** `isAdmin` of the handler: a tenant_admin whose claims tenant equals the
      target's `tenant_id`. */
  predicate AdminOf(c: Claims, target: U.User) {
    c.role == U.TenantAdmin && c.tenantId == target.tenantId
  }

  /** `userToUpdate.update(filteredUpdates)`: `fullName` always, `role` and
      `is_active` only for an admin; every other key is ignored. */
  function ApplyFiltered(u: U.User, p: UserPatch, isAdmin: bool): (r: Option<U.User>)
    ensures r.Some? <==> !p.fullName.Null? && (isAdmin && p.role.Some? ==> U.ParseRole(p.role.value).Some?)
    ensures r.Some? ==>
      && r.value.tenantId == u.tenantId && r.value.email == u.email && r.value.passwordHash == u.passwordHash
      && r.value.fullName == (if p.fullName.Val? then p.fullName.value else u.fullName)
      && (if isAdmin && p.role.Some? then U.RoleName(r.value.role) == p.role.value else r.value.role == u.role)
      && r.value.isActive == (if isAdmin && p.isActive.Some? then p.isActive.value else u.isActive)
  {
    var role := if isAdmin && p.role.Some? then U.ParseRole(p.role.value) else Some(u.role);
    if p.fullName.Null? || role.None? then None
    else
      Some(u.(fullName := if p.fullName.Val? then p.fullName.value else u.fullName,
              role := role.value,
              isActive := if isAdmin && p.isActive.Some? then p.isActive.value else u.isActive))
  }

  /** `updateUser`. */
  function UpdateUser(s: State, c: Claims, uid: Id, p: UserPatch, ctx: Ctx): (r: Step<U.User>)
    ensures r.reply.Err? ==> r.state == s
    ensures uid !in s.users ==> r.reply == Err(404, "User not found")
    ensures uid in s.users && c.userId != uid && !AdminOf(c, s.users[uid]) ==> r.reply == Err(403, "Unauthorized")
    ensures uid in s.users && (c.userId == uid || AdminOf(c, s.users[uid])) && !p.fullName.Null?
            && (AdminOf(c, s.users[uid]) && p.role.Some? ==> U.ParseRole(p.role.value).Some?) ==>
      r.reply.Ok?
    ensures r.reply.Ok? ==>
      && r.reply.code == 200
      && uid in s.users && (c.userId == uid || AdminOf(c, s.users[uid]))
      && ApplyFiltered(s.users[uid], p, AdminOf(c, s.users[uid])) == Some(r.reply.data)
      && r.state.users == s.users[uid := r.reply.data]
      && r.state.tenants == s.tenants && r.state.projects == s.projects && r.state.tasks == s.tasks
      && Logged(s.audit, r.state.audit, s.users[uid].tenantId, Some(c.userId), "UPDATE_USER", "user", uid, ctx)
  {
    if uid !in s.users then Step(Err(404, "User not found"), s)
    else
      var u := s.users[uid];
      var isAdmin := AdminOf(c, u);
      if c.userId != uid && !isAdmin then Step(Err(403, "Unauthorized"), s)
      else
        match ApplyFiltered(u, p, isAdmin)
        case None => Step(Err(500, InternalError), s)
        case Some(u') =>
          Step(Ok(200, u'), Log(s.(users := s.users[uid := u']), u.tenantId, Some(c.userId), "UPDATE_USER", "user", uid, ctx))
  }

  /** `updateUser` as the role model requires: a tenant_admin may set the
      role of a user of its tenant to `tenant_admin` or `user`, never to
      `super_admin`. */
  function UpdateUserIntended(s: State, c: Claims, uid: Id, p: UserPatch, ctx: Ctx): (r: Step<U.User>)
    ensures r.reply.Err? ==> r.state == s
    ensures uid in s.users && AdminOf(c, s.users[uid]) && p.role == Some(U.RoleName(U.SuperAdmin)) ==>
      r.reply == Err(403, "Unauthorized")
    ensures !(uid in s.users && AdminOf(c, s.users[uid]) && p.role == Some(U.RoleName(U.SuperAdmin))) ==>
      r == UpdateUser(s, c, uid, p, ctx)
    ensures r.reply.Ok? ==> r.reply.data.role == s.users[uid].role || r.reply.data.role != U.SuperAdmin
  {
    if uid in s.users && AdminOf(c, s.users[uid]) && p.role == Some(U.RoleName(U.SuperAdmin)) then
      Step(Err(403, "Unauthorized"), s)
    else UpdateUser(s, c, uid, p, ctx)
  }

  /** `deleteUser`. */
  function DeleteUser(s: State, c: Claims, uid: Id, ctx: Ctx): (r: Step<()>)
    ensures r.reply.Err? ==> r.state == s
    ensures uid !in s.users ==> r.reply == Err(404, "User not found")
    ensures uid in s.users && !AdminOf(c, s.users[uid]) ==> r.reply == Err(403, "Unauthorized")
    ensures uid in s.users && AdminOf(c, s.users[uid]) && c.userId == uid ==> r.reply == Err(403, "Cannot delete yourself")
    ensures uid in s.users && AdminOf(c, s.users[uid]) && c.userId != uid ==> r.reply == Ok(200, ())
    ensures r.reply.Ok? ==>
      && r.reply.code == 200
      && uid in s.users && AdminOf(c, s.users[uid]) && c.userId != uid
      && r.state.users == s.users - {uid}
      && r.state.tenants == s.tenants && r.state.projects == s.projects
      && r.state.tasks.Keys == s.tasks.Keys
      && (forall k :: k in r.state.tasks ==> r.state.tasks[k].assignedTo != Some(uid))
      && (forall k :: k in s.tasks ==>
            r.state.tasks[k] == (if s.tasks[k].assignedTo == Some(uid) then s.tasks[k].(assignedTo := None) else s.tasks[k]))
      && |s.audit| <= |r.state.audit|
      && (forall i :: 0 <= i < |s.audit| ==> r.state.audit[i].userId != Some(uid))
      && (forall i :: 0 <= i < |s.audit| ==>
            r.state.audit[i] == (if s.audit[i].userId == Some(uid) then s.audit[i].(userId := None) else s.audit[i]))
      && Logged(RemoveUser(s, uid).audit, r.state.audit, s.users[uid].tenantId, Some(c.userId), "DELETE_USER", "user", uid, ctx)
  {
    if uid !in s.users then Step(Err(404, "User not found"), s)
    else
      var u := s.users[uid];
      if !AdminOf(c, u) then Step(Err(403, "Unauthorized"), s)
      else if c.userId == uid then Step(Err(403, "Cannot delete yourself"), s)
      else
        Step(Ok(200, ()), Log(RemoveUser(s, uid), u.tenantId, Some(c.userId), "DELETE_USER", "user", uid, ctx))
  }

  // ---- Integrity and isolation

  lemma AddUserIntendedKeepsValid(s: State, c: Claims, tid: Id, input: UserInput, hash: Hasher, newId: Id, ctx: Ctx)
    requires Valid(s)
    ensures Valid(AddUserIntended(s, c, tid, input, hash, newId, ctx).state)
  {
  }

  lemma UpdateUserIntendedKeepsValid(s: State, c: Claims, uid: Id, p: UserPatch, ctx: Ctx)
    requires Valid(s) && WellFormedClaims(c)
    ensures Valid(UpdateUserIntended(s, c, uid, p, ctx).state)
  {
  }

  lemma DeleteUserKeepsValid(s: State, c: Claims, uid: Id, ctx: Ctx)
    requires Valid(s)
    ensures Valid(DeleteUser(s, c, uid, ctx).state)
  {
    RemoveUserKeepsValid(s, uid);
  }

  /** A tenant_admin adds, changes and deletes users of its own tenant only;
      a user changing itself changes a row of its own tenant. */
  lemma AddUserIntendedConfined(s: State, c: Claims, tid: Id, input: UserInput, hash: Hasher, newId: Id, ctx: Ctx)
    requires WellFormedClaims(c) && c.role != U.SuperAdmin
    ensures ConfinedTo(s, AddUserIntended(s, c, tid, input, hash, newId, ctx).state, c.tenantId.value)
  {
  }

  lemma UpdateUserIntendedConfined(s: State, c: Claims, uid: Id, p: UserPatch, ctx: Ctx)
    requires WellFormedClaims(c) && c.role != U.SuperAdmin && Bound(s, c)
    ensures ConfinedTo(s, UpdateUserIntended(s, c, uid, p, ctx).state, c.tenantId.value)
  {
  }

  lemma DeleteUserConfined(s: State, c: Claims, uid: Id, ctx: Ctx)
    requires Valid(s)
    requires WellFormedClaims(c) && c.role != U.SuperAdmin
    ensures ConfinedTo(s, DeleteUser(s, c, uid, ctx).state, c.tenantId.value)
  {
  }
}
