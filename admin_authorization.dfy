/** The guard run before every admin endpoint: only administrative roles pass,
 *  and only a super admin may work in a tenant other than the token's. */
module AdminAuthorization {
  import opened Common
  import opened UserRole
  import opened JwtTenantExtractor

  /** Let the call proceed, deny it, or fail with the extractor's exception. */
  datatype Outcome = Proceed | Denied(message: string) | Failed(message: string)

  /** checkAdminAuthorization. The tenant id is read from the token before the
   *  role is compared with SUPER_ADMIN, so an administrator's token without a
   *  usable tenant claim fails whatever the role. contextTenant is the tenant
   *  the request is bound to, when there is one. */
  function CheckAdminAuthorization(isJwt: bool, jwt: Jwt, roleClaim: Option<string>,
                                   contextTenant: Option<Uuid>, parse: string -> Option<Uuid>): (r: Outcome)
    ensures !isJwt ==> r == Proceed
    ensures isJwt ==> (r == Proceed <==>
      FromString(roleClaim).Some? && IsAdmin(FromString(roleClaim).value) &&
      ExtractTenantId(jwt, parse).Success? &&
      (FromString(roleClaim).value == SuperAdmin || contextTenant.None? ||
       contextTenant == Some(ExtractTenantId(jwt, parse).value)))
    ensures r.Failed? <==> (isJwt && FromString(roleClaim).Some? && IsAdmin(FromString(roleClaim).value) &&
      ExtractTenantId(jwt, parse).Failure?)
  {
    if !isJwt then Proceed
    else
      match FromString(roleClaim)
      case None => Denied("User role not found in token")
      case Some(role) =>
        if !IsAdmin(role) then Denied("Admin access required. User role: " + Name(role))
        else
          match ExtractTenantId(jwt, parse)
          case Failure(e) => Failed(e)
          case Success(tokenTenant) =>
            if role == SuperAdmin then Proceed
            else if contextTenant.Some? && tokenTenant != contextTenant.value then
              Denied("Access denied to tenant: " + contextTenant.value)
            else Proceed
  }

  /** A tenant admin or staff member bound to another tenant is denied. */
  lemma TenantStaffConfinedToOwnTenant(jwt: Jwt, roleClaim: Option<string>, contextTenant: Option<Uuid>,
                                       parse: string -> Option<Uuid>)
    requires FromString(roleClaim) == Some(TenantAdmin) || FromString(roleClaim) == Some(Staff)
    requires ExtractTenantId(jwt, parse).Success?
    requires contextTenant.Some? && contextTenant.value != ExtractTenantId(jwt, parse).value
    ensures CheckAdminAuthorization(true, jwt, roleClaim, contextTenant, parse).Denied?
  {
  }
}
