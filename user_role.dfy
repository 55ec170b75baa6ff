/** The four roles a token may carry, and their parsing from the role claim. */
module UserRole {
  import opened Common

  datatype Role = SuperAdmin | TenantAdmin | Staff | Customer

  /** The enum constant's name, as valueOf expects it. */
  function Name(role: Role): string
  {
    match role
    case SuperAdmin => "SUPER_ADMIN"
    case TenantAdmin => "TENANT_ADMIN"
    case Staff => "STAFF"
    case Customer => "CUSTOMER"
  }

  /** The three administrative roles; they are exactly the non-customer roles. */
  predicate IsAdmin(role: Role)
    ensures IsAdmin(role) <==> role != Customer
  {
    role == SuperAdmin || role == TenantAdmin || role == Staff
  }

  predicate IsCustomer(role: Role)
    ensures IsCustomer(role) <==> !IsAdmin(role)
  {
    role == Customer
  }

  /** fromString: null gives null; otherwise the upper-cased text must be a
   *  constant's name, and an unknown name gives null. */
  function FromString(text: Option<string>): (r: Option<Role>)
    ensures text.None? ==> r.None?
    ensures r.Some? ==> text.Some? && Name(r.value) == Upper(text.value)
    ensures text.Some? && r.None? ==> forall role :: Name(role) != Upper(text.value)
  {
    match text
    case None => None
    case Some(s) =>
      var u := Upper(s);
      if u == "SUPER_ADMIN" then Some(SuperAdmin)
      else if u == "TENANT_ADMIN" then Some(TenantAdmin)
      else if u == "STAFF" then Some(Staff)
      else if u == "CUSTOMER" then Some(Customer)
      else None
  }

  /** Every role's name parses back to that role. */
  lemma FromStringName(role: Role)
    ensures FromString(Some(Name(role))) == Some(role)
  {
    var n := Name(role);
    assert Upper(n) == n by {
      assert forall i :: 0 <= i < |n| ==> UpperChar(n[i]) == n[i];
    }
  }

  /** Parsing ignores the case of the ASCII letters. */
  lemma {:induction false} FromStringIgnoresCase(s: string)
    ensures FromString(Some(Lower(s))) == FromString(Some(s))
  {
    UpperOfLower(s);
  }
}
