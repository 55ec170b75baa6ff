/** Reading the tenant and the user out of a decoded JWT. */
module JwtTenantExtractor {
  import opened Common

  /** The parts of a decoded token the extractor reads: its string claims and
   *  its subject. */
  datatype Jwt = Jwt(claims: map<string, string>, subject: Option<string>)

  const TenantIdClaim: string := "tenant_id"
  const OrgIdClaim: string := "org_id"
  const OrganizationClaim: string := "organization"

  /** The tenant claims, in the order they are tried. */
  const TenantClaims: seq<string> := [TenantIdClaim, OrgIdClaim, OrganizationClaim]

  /** getClaimAsString: the claim's text, or null when the claim is absent. */
  function Claim(jwt: Jwt, name: string): Option<string>
  {
    if name in jwt.claims then Some(jwt.claims[name]) else None
  }

  /** Reference definition of the precedence: the value of the first of the
   *  named claims that is present. */
  function FirstPresent(jwt: Jwt, names: seq<string>): (r: Option<string>)
    ensures r.Some? <==> exists i :: 0 <= i < |names| && names[i] in jwt.claims
    ensures r.Some? ==> exists i :: 0 <= i < |names| && names[i] in jwt.claims && r.value == jwt.claims[names[i]]
  {
    if names == [] then None
    else if names[0] in jwt.claims then Some(jwt.claims[names[0]])
    else
      var rest := FirstPresent(jwt, names[1..]);
      assert forall i :: 1 <= i < |names| ==> names[i] == names[1..][i - 1];
      rest
  }

  /** extractTenantId: tenant_id, else org_id, else organization. The first
   *  claim present is parsed (UUID.fromString, passed in as parse); a malformed
   *  value fails without falling back to a later claim, and a token with none of
   *  the claims fails too. */
  function ExtractTenantId(jwt: Jwt, parse: string -> Option<Uuid>): (r: Result<Uuid>)
    ensures r.Success? <==> FirstPresent(jwt, TenantClaims).Some? && parse(FirstPresent(jwt, TenantClaims).value).Some?
    ensures r.Success? ==> parse(FirstPresent(jwt, TenantClaims).value) == Some(r.value)
  {
    FirstPresentTenantClaims(jwt);
    match Claim(jwt, TenantIdClaim)
    case Some(s) => ParseClaim(s, TenantIdClaim, parse)
    case None =>
      match Claim(jwt, OrgIdClaim)
      case Some(s) => ParseClaim(s, OrgIdClaim, parse)
      case None =>
        match Claim(jwt, OrganizationClaim)
        case Some(s) => ParseClaim(s, OrganizationClaim, parse)
        case None =>
          Failure("JWT token must contain a valid tenant identifier in one of: "
            + TenantIdClaim + ", " + OrgIdClaim + ", " + OrganizationClaim)
  }

  /** The precedence unrolled over the three tenant claims. */
  lemma FirstPresentTenantClaims(jwt: Jwt)
    ensures FirstPresent(jwt, TenantClaims) ==
      if TenantIdClaim in jwt.claims then Some(jwt.claims[TenantIdClaim])
      else if OrgIdClaim in jwt.claims then Some(jwt.claims[OrgIdClaim])
      else if OrganizationClaim in jwt.claims then Some(jwt.claims[OrganizationClaim])
      else None
  {
    var two := [OrgIdClaim, OrganizationClaim];
    var one := [OrganizationClaim];
    assert TenantClaims[0] == TenantIdClaim && TenantClaims[1..] == two;
    assert two[0] == OrgIdClaim && two[1..] == one;
    assert one[0] == OrganizationClaim && one[1..] == [];
    assert FirstPresent(jwt, one) ==
      if OrganizationClaim in jwt.claims then Some(jwt.claims[OrganizationClaim]) else None;
    assert FirstPresent(jwt, two) ==
      if OrgIdClaim in jwt.claims then Some(jwt.claims[OrgIdClaim]) else FirstPresent(jwt, one);
  }

  /** parseUuid: the parsed id, or a failure naming the claim. */
  function ParseClaim(text: string, claimName: string, parse: string -> Option<Uuid>): (r: Result<Uuid>)
    ensures r.Success? <==> parse(text).Some?
    ensures r.Success? ==> parse(text) == Some(r.value)
  {
    match parse(text)
    case Some(id) => Success(id)
    case None => Failure("Invalid UUID format in JWT claim '" + claimName + "': " + text)
  }

  /** A malformed tenant_id fails even when a later claim holds a valid id. */
  lemma NoFallbackOnMalformedClaim(jwt: Jwt, parse: string -> Option<Uuid>)
    requires TenantIdClaim in jwt.claims && parse(jwt.claims[TenantIdClaim]).None?
    ensures ExtractTenantId(jwt, parse).Failure?
  {
  }

  /** extractUserId: the subject when it is present and non-empty, else the
   *  user_id claim (which may be absent). */
  function ExtractUserId(jwt: Jwt): (r: Option<string>)
    ensures jwt.subject.Some? && jwt.subject.value != "" ==> r == jwt.subject
    ensures (jwt.subject.None? || jwt.subject.value == "") ==> (r.Some? <==> "user_id" in jwt.claims)
    ensures r.Some? && r != jwt.subject ==> "user_id" in jwt.claims && r.value == jwt.claims["user_id"]
  {
    match jwt.subject
    case Some(sub) =>
      if sub != "" then Some(sub) else Claim(jwt, "user_id")
    case None => Claim(jwt, "user_id")
  }

  /** hasTenantClaim: some tenant claim is present. */
  predicate HasTenantClaim(jwt: Jwt)
  {
    Claim(jwt, TenantIdClaim).Some? || Claim(jwt, OrgIdClaim).Some? || Claim(jwt, OrganizationClaim).Some?
  }

  /** hasTenantClaim agrees with the precedence: some claim is present exactly
   *  when extractTenantId has a value to parse, so a token without one fails. */
  lemma HasTenantClaimIffPresent(jwt: Jwt, parse: string -> Option<Uuid>)
    ensures HasTenantClaim(jwt) <==> FirstPresent(jwt, TenantClaims).Some?
    ensures !HasTenantClaim(jwt) ==> ExtractTenantId(jwt, parse).Failure?
  {
    if HasTenantClaim(jwt) {
      if TenantIdClaim in jwt.claims { assert TenantClaims[0] in jwt.claims; }
      else if OrgIdClaim in jwt.claims { assert TenantClaims[1] in jwt.claims; }
      else { assert TenantClaims[2] in jwt.claims; }
    }
  }
}
