/** The `User` table: the role enumeration, the nullable tenant reference of a
    tenant-independent super_admin, and the column defaults. */
module UserModel {
  import opened Common

  datatype Role = SuperAdmin | TenantAdmin | RegularUser

  function RoleName(r: Role): string {
    match r
    case SuperAdmin => "super_admin"
    case TenantAdmin => "tenant_admin"
    case RegularUser => "user"
  }

  /** ENUM('super_admin', 'tenant_admin', 'user'). */
  function ParseRole(s: string): (r: Option<Role>)
    ensures r.Some? ==> RoleName(r.value) == s
    ensures r.None? ==> forall role :: RoleName(role) != s
  {
    if s == "super_admin" then Some(SuperAdmin)
    else if s == "tenant_admin" then Some(TenantAdmin)
    else if s == "user" then Some(RegularUser)
    else None
  }

  /** A stored user row. `tenantId` is None for a tenant-independent account;
      `email` carries no uniqueness constraint of its own. */
  datatype User = User(
    tenantId: Option<Id>,
    email: string,
    fullName: string,
    passwordHash: string,
    role: Role,
    isActive: bool)

  /** `User.create(attrs)`: `email` and `fullName` must not be null (the
      digest is always supplied), a role must be one of the ENUM names, and
      omitted attributes default to role `user` and an active account. */
  function Build(tenantId: Option<Id>, email: Field<string>, fullName: Field<string>,
                 passwordHash: string, role: Option<string>, isActive: Option<bool>): (r: Option<User>)
    ensures r.Some? <==>
      email.Val? && fullName.Val? && (role.Some? ==> ParseRole(role.value).Some?)
    ensures r.Some? ==>
      && r.value.tenantId == tenantId
      && r.value.email == email.value
      && r.value.fullName == fullName.value
      && r.value.passwordHash == passwordHash
    ensures r.Some? && role.None? ==> r.value.role == RegularUser
    ensures r.Some? && role.Some? ==> RoleName(r.value.role) == role.value
    ensures r.Some? ==> r.value.isActive == (isActive.None? || isActive.value)
  {
    if email.Val? && fullName.Val? then
      var rl := if role.Some? then ParseRole(role.value) else Some(RegularUser);
      if rl.Some? then
        Some(User(tenantId, email.value, fullName.value, passwordHash, rl.value,
                  if isActive.Some? then isActive.value else true))
      else None
    else None
  }
}
