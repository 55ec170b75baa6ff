/** The guard run before every customer-facing endpoint: a customer may only
 *  reach their own data, an administrator may reach anyone's. */
module CustomerAuthorization {
  import opened Common
  import opened UserRole

  /** What the aspect does: let the call proceed, or deny it with a message. */
  datatype Outcome = Proceed | Denied(message: string)

  /** checkCustomerAuthorization. isJwt says whether the caller authenticated
   *  with a JWT; roleClaim and tokenCustomerId are what the extractor reads from
   *  the token's role and customer_id claims. */
  function CheckCustomerAuthorization(isJwt: bool, roleClaim: Option<string>,
                                      tokenCustomerId: Option<Uuid>, customerId: Uuid): (r: Outcome)
    ensures !isJwt ==> r == Proceed
    ensures isJwt ==> (r == Proceed <==>
      FromString(roleClaim).Some? &&
      (IsAdmin(FromString(roleClaim).value) || tokenCustomerId == Some(customerId)))
  {
    if !isJwt then Proceed
    else
      match FromString(roleClaim)
      case None => Denied("User role not found in token")
      case Some(role) =>
        if IsAdmin(role) then Proceed
        else if IsCustomer(role) then
          match tokenCustomerId
          case None => Denied("Customer ID not found in token")
          case Some(c) =>
            if c != customerId then Denied("Access denied: You can only access your own data")
            else Proceed
        else Denied("Invalid role for customer endpoint: " + Name(role))
  }

  /** A customer token reaches another customer's data never. */
  lemma CustomerConfinedToOwnData(roleClaim: Option<string>, tokenCustomerId: Option<Uuid>, customerId: Uuid)
    requires FromString(roleClaim) == Some(Customer)
    requires tokenCustomerId != Some(customerId)
    ensures CheckCustomerAuthorization(true, roleClaim, tokenCustomerId, customerId).Denied?
  {
  }
}
