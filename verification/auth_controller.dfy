/** Registration of a tenant with its first tenant_admin, login (tenant
    resolution, credential check, claims construction) and logout. Password
    hashing and verification are collaborators passed in as functions; the
    signed token is represented by the claims it carries. */
module AuthController {
  import opened Common
  import opened Store
  import opened Audit
  import T = TenantModel
  import U = UserModel

  /** The body of `POST /auth/register-tenant`. */
  datatype RegisterInput = RegisterInput(
    tenantName: Field<string>,
    subdomain: Field<string>,
    adminEmail: Field<string>,
    adminPassword: Field<string>,
    adminFullName: Field<string>)

  datatype Registration = Registration(tenantId: Id, subdomain: string, adminUserId: Id, adminRole: U.Role)

  predicate AllPresent(i: RegisterInput) {
    Truthy(i.tenantName) && Truthy(i.subdomain) && Truthy(i.adminEmail)
    && Truthy(i.adminPassword) && Truthy(i.adminFullName)
  }

  /** `registerTenant`. Both inserts run in one transaction: a failure of
      either rolls both back. `tenantId` and `adminId` are the UUIDs the
      database generates. */
  function RegisterTenant(s: State, i: RegisterInput, hash: Field<string> -> Option<string>,
                          tenantId: Id, adminId: Id, ctx: Ctx): (r: Step<Registration>)
    ensures r.reply.Err? ==> r.state == s
    ensures !AllPresent(i) ==> r.reply == Err(400, "Missing required fields")
    ensures AllPresent(i) && SubdomainTaken(s, i.subdomain.value) ==> r.reply == Err(409, "Subdomain already exists")
    ensures AllPresent(i) && !SubdomainTaken(s, i.subdomain.value) && hash(i.adminPassword).Some?
            && tenantId !in s.tenants && adminId !in s.users ==>
      r.reply == Ok(201, Registration(tenantId, i.subdomain.value, adminId, U.TenantAdmin))
    ensures r.reply.Ok? ==>
      && r.reply.code == 201
      && r.reply.data == Registration(tenantId, i.subdomain.value, adminId, U.TenantAdmin)
      && AllPresent(i) && !SubdomainTaken(s, i.subdomain.value)
      && tenantId !in s.tenants && adminId !in s.users
      && r.state.tenants == s.tenants[tenantId := T.Tenant(i.tenantName.value, i.subdomain.value, T.Active, T.Free, 5, 3)]
      && adminId in r.state.users
      && r.state.users == s.users[adminId := r.state.users[adminId]]
      && var admin := r.state.users[adminId];
      && admin.tenantId == Some(tenantId) && admin.role == U.TenantAdmin && admin.isActive
      && admin.email == i.adminEmail.value && admin.fullName == i.adminFullName.value
      && hash(i.adminPassword).Some? && admin.passwordHash == hash(i.adminPassword).value
      && r.state.projects == s.projects && r.state.tasks == s.tasks
      && Logged(s.audit, r.state.audit, Some(tenantId), Some(adminId), "REGISTER_TENANT", "tenant", tenantId, ctx)
  {
    if !AllPresent(i) then Step(Err(400, "Missing required fields"), s)
    else if SubdomainTaken(s, i.subdomain.value) then Step(Err(409, "Subdomain already exists"), s)
    else
      var tenant := T.Build(i.tenantName, i.subdomain, Some("active"), Some("free"), Some(5), Some(3));
      var digest := hash(i.adminPassword);
      // A primary-key clash or a failing hash rolls the transaction back.
      if tenant.None? || tenantId in s.tenants || digest.None? then Step(Err(500, InternalError), s)
      else
        var admin := U.Build(Some(tenantId), i.adminEmail, i.adminFullName, digest.value, Some("tenant_admin"), Some(true));
        if admin.None? || adminId in s.users then Step(Err(500, InternalError), s)
        else
          var s1 := s.(tenants := s.tenants[tenantId := tenant.value], users := s.users[adminId := admin.value]);
          Step(Ok(201, Registration(tenantId, i.subdomain.value, adminId, U.TenantAdmin)),
               Log(s1, Some(tenantId), Some(adminId), "REGISTER_TENANT", "tenant", tenantId, ctx))
  }

  /** Registration adds the tenant and its admin together or not at all. */
  lemma RegisterTenantIsAtomic(s: State, i: RegisterInput, hash: Field<string> -> Option<string>,
                               tenantId: Id, adminId: Id, ctx: Ctx)
    ensures var r := RegisterTenant(s, i, hash, tenantId, adminId, ctx);
      (|r.state.tenants| == |s.tenants| + 1 && |r.state.users| == |s.users| + 1)
      || (r.state.tenants == s.tenants && r.state.users == s.users)
  {
  }

  /** A registration keeps every integrity constraint of the store. */
  lemma {:induction false} RegisterTenantKeepsValid(s: State, i: RegisterInput, hash: Field<string> -> Option<string>,
                                                    tenantId: Id, adminId: Id, ctx: Ctx)
    requires Valid(s)
    ensures Valid(RegisterTenant(s, i, hash, tenantId, adminId, ctx).state)
  {
    var r := RegisterTenant(s, i, hash, tenantId, adminId, ctx);
    if r.reply.Ok? {
      var s' := r.state;
      assert forall u :: u in s.users && s.users[u].tenantId.Some? ==> s.users[u].tenantId.value != tenantId;
      assert SubdomainsUnique(s');
      assert OwnersExist(s');
      assert EmailsUniquePerTenant(s');
    }
  }

  /** The body of `POST /auth/login`. */
  datatype LoginInput = LoginInput(
    email: Field<string>, password: Field<string>, tenantSubdomain: Field<string>, tenantId: Field<string>)

  /** The reply of a successful login; `claims` stand for the signed token. */
  datatype Session = Session(claims: Claims, userTenantId: Option<Id>, expiresIn: int)

  const TokenLifetime := 86400
  const InvalidCredentials := "Invalid credentials"

  /** The tenant named by the login body: `tenantId` when truthy, otherwise
      the subdomain. */
  ghost function ResolveTenant(s: State, i: LoginInput): (r: Option<Id>)
    requires Truthy(i.tenantSubdomain) || Truthy(i.tenantId)
    ensures r.Some? ==> r.value in s.tenants
    ensures Truthy(i.tenantId) ==> (r.Some? <==> i.tenantId.value in s.tenants) && (r.Some? ==> r.value == i.tenantId.value)
    ensures !Truthy(i.tenantId) && r.Some? ==> s.tenants[r.value].subdomain == i.tenantSubdomain.value
    ensures !Truthy(i.tenantId) && r.None? ==> !SubdomainTaken(s, i.tenantSubdomain.value)
  {
    if Truthy(i.tenantId) then
      if IdOf(i.tenantId) in s.tenants then Some(IdOf(i.tenantId)) else None
    else TenantWithSubdomain(s, i.tenantSubdomain.value)
  }

  /** The account login authenticates: the user with that email inside the
      resolved tenant, else a super_admin with that email. */
  ghost function Candidate(s: State, email: string, t: Id): (r: Option<Id>)
    ensures r.Some? ==> r.value in s.users && s.users[r.value].email == email
    ensures r.Some? ==> s.users[r.value].tenantId == Some(t) || s.users[r.value].role == U.SuperAdmin
    ensures UserInTenant(s, email, t).Some? ==> r == UserInTenant(s, email, t)
    ensures r.None? ==> forall u :: u in s.users && s.users[u].email == email ==>
      s.users[u].tenantId != Some(t) && s.users[u].role != U.SuperAdmin
  {
    match UserInTenant(s, email, t)
    case Some(u) => Some(u)
    case None => SuperAdminWithEmail(s, email)
  }

  predicate LoginFieldsPresent(i: LoginInput) {
    Truthy(i.email) && Truthy(i.password) && (Truthy(i.tenantSubdomain) || Truthy(i.tenantId))
  }

  /** The login passed its first three gates: every field is present and
      the selected tenant exists and is active. */
  ghost predicate ActiveTenantResolved(s: State, i: LoginInput) {
    LoginFieldsPresent(i) && ResolveTenant(s, i).Some? && s.tenants[ResolveTenant(s, i).value].status == T.Active
  }

  /** `login`. The tenant is resolved and must be active before any user is
      looked up; an unknown user and a wrong password give the same reply;
      a suspended account is reported only after the password matched. */
  ghost function Login(s: State, i: LoginInput, verify: (string, string) -> bool, ctx: Ctx): (r: Step<Session>)
    ensures r.reply.Err? ==> r.state == s
    ensures !LoginFieldsPresent(i) ==>
      r.reply == Err(400, "Email, password, and tenant (subdomain or ID) are required")
    ensures LoginFieldsPresent(i) && ResolveTenant(s, i).None? ==> r.reply == Err(404, "Tenant not found")
    ensures LoginFieldsPresent(i) && ResolveTenant(s, i).Some? && s.tenants[ResolveTenant(s, i).value].status != T.Active ==>
      r.reply == Err(403, "Tenant is not active")
    ensures r.reply.Err? && r.reply.code == 401 ==> r.reply.message == InvalidCredentials
    ensures ActiveTenantResolved(s, i) && Candidate(s, i.email.value, ResolveTenant(s, i).value).None? ==>
      r.reply == Err(401, InvalidCredentials)
    ensures ActiveTenantResolved(s, i) ==>
      var u := Candidate(s, i.email.value, ResolveTenant(s, i).value);
      u.Some? && !verify(i.password.value, s.users[u.value].passwordHash) ==> r.reply == Err(401, InvalidCredentials)
    ensures ActiveTenantResolved(s, i) ==>
      var u := Candidate(s, i.email.value, ResolveTenant(s, i).value);
      u.Some? && verify(i.password.value, s.users[u.value].passwordHash) && !s.users[u.value].isActive ==>
        r.reply == Err(403, "Account suspended")
    ensures ActiveTenantResolved(s, i) ==>
      var u := Candidate(s, i.email.value, ResolveTenant(s, i).value);
      u.Some? && verify(i.password.value, s.users[u.value].passwordHash) && s.users[u.value].isActive ==>
        r.reply.Ok? && r.reply.data.claims.userId == u.value
    ensures r.reply.Ok? ==>
      && LoginFieldsPresent(i)
      && var t := ResolveTenant(s, i).value;
      && s.tenants[t].status == T.Active
      && var c := r.reply.data.claims;
      && c.userId in s.users
      && var u := s.users[c.userId];
      && u.email == i.email.value
      && verify(i.password.value, u.passwordHash)
      && u.isActive
      && c.role == u.role
      && (c.tenantId.None? <==> c.role == U.SuperAdmin)
      && (c.role != U.SuperAdmin ==> c.tenantId == Some(t) && u.tenantId == Some(t))
      && r.reply.data.userTenantId == u.tenantId
      && r.reply.data.expiresIn == TokenLifetime
      && r.state.tenants == s.tenants && r.state.users == s.users
      && r.state.projects == s.projects && r.state.tasks == s.tasks
      && Logged(s.audit, r.state.audit, Some(t), Some(c.userId), "LOGIN", "user", c.userId, ctx)
  {
    if !LoginFieldsPresent(i) then
      Step(Err(400, "Email, password, and tenant (subdomain or ID) are required"), s)
    else
      match ResolveTenant(s, i)
      case None => Step(Err(404, "Tenant not found"), s)
      case Some(t) =>
        if s.tenants[t].status != T.Active then Step(Err(403, "Tenant is not active"), s)
        else
          match Candidate(s, i.email.value, t)
          case None => Step(Err(401, InvalidCredentials), s)
          case Some(uid) =>
            var u := s.users[uid];
            if !verify(i.password.value, u.passwordHash) then Step(Err(401, InvalidCredentials), s)
            else if !u.isActive then Step(Err(403, "Account suspended"), s)
            else
              var claims := Claims(uid, if u.role == U.SuperAdmin then None else Some(t), u.role);
              Step(Ok(200, Session(claims, u.tenantId, TokenLifetime)),
                   Log(s, Some(t), Some(uid), "LOGIN", "user", uid, ctx))
  }

  /** The claims login issues are well formed and describe their user, in
      the store the login leaves behind. */
  lemma LoginIssuesBoundClaims(s: State, i: LoginInput, verify: (string, string) -> bool, ctx: Ctx)
    requires Valid(s)
    ensures var r := Login(s, i, verify, ctx);
      r.reply.Ok? ==> WellFormedClaims(r.reply.data.claims) && Bound(r.state, r.reply.data.claims) && Valid(r.state)
  {
  }

  /** Whether the email is unknown or the password wrong, the caller gets the
      very same reply. */
  lemma UnknownUserAndWrongPasswordLookAlike(s: State, i: LoginInput, verify: (string, string) -> bool, ctx: Ctx,
                                             i': LoginInput, ctx': Ctx)
    requires ActiveTenantResolved(s, i)
    requires Candidate(s, i.email.value, ResolveTenant(s, i).value).None?
    requires ActiveTenantResolved(s, i')
    requires var c := Candidate(s, i'.email.value, ResolveTenant(s, i').value);
      c.Some? && !verify(i'.password.value, s.users[c.value].passwordHash)
    ensures Login(s, i, verify, ctx).reply == Login(s, i', verify, ctx').reply
  {
  }

  /** `logout`: stateless; its only effect is the audit write, scoped to the
      claims' tenant (null for a super_admin). */
  function Logout(s: State, c: Option<Claims>, ctx: Ctx): (r: Step<()>)
    ensures r.reply == Ok(200, ())
    ensures r.state.tenants == s.tenants && r.state.users == s.users
    ensures r.state.projects == s.projects && r.state.tasks == s.tasks
    ensures c.None? ==> r.state == s
    ensures c.Some? ==>
      Logged(s.audit, r.state.audit, c.value.tenantId, Some(c.value.userId), "LOGOUT", "user", c.value.userId, ctx)
  {
    match c
    case None => Step(Ok(200, ()), s)
    case Some(cl) => Step(Ok(200, ()), Log(s, cl.tenantId, Some(cl.userId), "LOGOUT", "user", cl.userId, ctx))
  }
}
