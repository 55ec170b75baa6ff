/** MockEntitlementAdapter: the in-memory stand-in for the entitlement
 *  provider. It keeps one status per (customer, product) pair, under the
 *  key "<customerId>:<productId>". */
module MockEntitlement {
  import opened Common
  import opened Calendar

  datatype EntitlementStatus = Active | Suspended | Revoked | Expired | Pending | Failed

  /** The fields of a request the adapter reads; any of them may be null. */
  datatype EntitlementRequest = EntitlementRequest(
    customerId: Option<Uuid>,
    productId: Option<string>,
    planId: Option<string>,
    periodStart: Option<Instant>,
    periodEnd: Option<Instant>)

  /** The provider data of a success, as far as it depends on the request
   *  (the clock readings are left out). */
  datatype ProviderData = NoData | Data(action: string, customerId: Uuid, productId: string)

  datatype EntitlementResult = EntitlementResult(
    success: bool,
    externalEntitlementRef: Option<string>,
    status: EntitlementStatus,
    errorCode: Option<string>,
    errorMessage: Option<string>,
    providerData: ProviderData)

  /** EntitlementResult.failure: no reference, status FAILED, empty data. */
  function FailedResult(code: string, message: string): EntitlementResult
  {
    EntitlementResult(false, None, EntitlementStatus.Failed, Some(code), Some(message), NoData)
  }

  /** String concatenation writes a null product id as "null". */
  function ProductText(productId: Option<string>): string
  {
    if productId.Some? then productId.value else "null"
  }

  /** generateEntitlementKey: customerId + ":" + productId. A null customer
   *  id throws, which is the None case. */
  function EntitlementKey(customerId: Option<Uuid>, productId: Option<string>): (r: Option<string>)
    ensures r.Some? <==> customerId.Some?
  {
    if customerId.None? then None else Some(customerId.value + ":" + ProductText(productId))
  }

  /** Keys tell pairs apart as long as customer ids hold no colon (UUID text
   *  never does); only a null product id and the product id "null" share
   *  a key. */
  lemma KeysIdentifyPairs(c1: Uuid, p1: Option<string>, c2: Uuid, p2: Option<string>)
    requires ':' !in c1 && ':' !in c2
    ensures EntitlementKey(Some(c1), p1) == EntitlementKey(Some(c2), p2)
            <==> c1 == c2 && ProductText(p1) == ProductText(p2)
  {
    if EntitlementKey(Some(c1), p1) == EntitlementKey(Some(c2), p2) {
      SeparatorCut(c1, ProductText(p1), c2, ProductText(p2), ':');
    }
  }

  /** One update of the status map, shared by grant, suspend and revoke:
   *  the key is computed (a null customer id fails here, before any
   *  write), the key is set to `target`, and the provider data is then
   *  built, which fails, after the write, when a value it needs is null
   *  (`complete` false). */
  function Update(m: map<string, EntitlementStatus>, req: EntitlementRequest, target: EntitlementStatus,
                  action: string, refPrefix: string, errorCode: string, errorPrefix: string, complete: bool,
                  randomUuid: string, detail: string): (r: (EntitlementResult, map<string, EntitlementStatus>))
    requires |randomUuid| >= 8 && (complete ==> req.productId.Some?)
    ensures r.0.success <==> req.customerId.Some? && complete
    ensures req.customerId.None? ==> r.1 == m
    ensures req.customerId.Some? ==> r.1 == m[EntitlementKey(req.customerId, req.productId).value := target]
    ensures !r.0.success ==> r.0 == FailedResult(errorCode, errorPrefix + detail)
    ensures r.0.success ==> r.0.status == target && r.0.externalEntitlementRef == Some(refPrefix + randomUuid[..8])
  {
    var key := EntitlementKey(req.customerId, req.productId);
    if key.None? then (FailedResult(errorCode, errorPrefix + detail), m)
    else
      var m1 := m[key.value := target];
      if !complete then (FailedResult(errorCode, errorPrefix + detail), m1)
      else (EntitlementResult(true, Some(refPrefix + randomUuid[..8]), target, None, None,
                              Data(action, req.customerId.value, req.productId.value)), m1)
  }

  /** grantEntitlements: the grant data names the product, the plan and
   *  both period ends. */
  function Grant(m: map<string, EntitlementStatus>, req: EntitlementRequest, randomUuid: string, detail: string)
    : (r: (EntitlementResult, map<string, EntitlementStatus>))
    requires |randomUuid| >= 8
    ensures r.0.success <==> req.customerId.Some? && req.productId.Some? && req.planId.Some?
                             && req.periodStart.Some? && req.periodEnd.Some?
    ensures !r.0.success ==> r.0.errorCode == Some("mock_grant_error")
  {
    Update(m, req, Active, "GRANT", "mock_entitlement_", "mock_grant_error", "Mock entitlement grant failed: ",
           req.productId.Some? && req.planId.Some? && req.periodStart.Some? && req.periodEnd.Some?,
           randomUuid, detail)
  }

  /** suspendEntitlements: the data names the product. */
  function Suspend(m: map<string, EntitlementStatus>, req: EntitlementRequest, randomUuid: string, detail: string)
    : (r: (EntitlementResult, map<string, EntitlementStatus>))
    requires |randomUuid| >= 8
    ensures r.0.success <==> req.customerId.Some? && req.productId.Some?
    ensures !r.0.success ==> r.0.errorCode == Some("mock_suspend_error")
  {
    Update(m, req, Suspended, "SUSPEND", "mock_suspend_", "mock_suspend_error", "Mock entitlement suspend failed: ",
           req.productId.Some?, randomUuid, detail)
  }

  /** revokeEntitlements: the data names the product. */
  function Revoke(m: map<string, EntitlementStatus>, req: EntitlementRequest, randomUuid: string, detail: string)
    : (r: (EntitlementResult, map<string, EntitlementStatus>))
    requires |randomUuid| >= 8
    ensures r.0.success <==> req.customerId.Some? && req.productId.Some?
    ensures !r.0.success ==> r.0.errorCode == Some("mock_revoke_error")
  {
    Update(m, req, Revoked, "REVOKE", "mock_revoke_", "mock_revoke_error", "Mock entitlement revoke failed: ",
           req.productId.Some?, randomUuid, detail)
  }

  /** getEntitlementStatus: PENDING for a pair never seen. */
  function StatusOf(m: map<string, EntitlementStatus>, customerId: Uuid, productId: Option<string>): (r: EntitlementStatus)
    ensures r != Pending ==> customerId + ":" + ProductText(productId) in m
  {
    var key := customerId + ":" + ProductText(productId);
    if key in m then m[key] else Pending
  }

  // ---------------------------------------------------------------- properties

  /** Whatever the outcome, an operation with a customer id leaves its pair
   *  in the operation's status (a grant that fails on a missing plan id
   *  still activates), and every pair with another key reads as before. */
  lemma UpdateSetsOnlyItsPair(m: map<string, EntitlementStatus>, req: EntitlementRequest, target: EntitlementStatus,
                              action: string, refPrefix: string, errorCode: string, errorPrefix: string,
                              complete: bool, randomUuid: string, detail: string, c: Uuid, p: Option<string>)
    requires |randomUuid| >= 8 && req.customerId.Some? && (complete ==> req.productId.Some?)
    ensures var m1 := Update(m, req, target, action, refPrefix, errorCode, errorPrefix, complete, randomUuid, detail).1;
            StatusOf(m1, req.customerId.value, req.productId) == target
            && (EntitlementKey(Some(c), p) != EntitlementKey(req.customerId, req.productId) ==>
                  StatusOf(m1, c, p) == StatusOf(m, c, p))
  {
  }

  /** Grant, suspend and revoke leave their pair ACTIVE, SUSPENDED and
   *  REVOKED respectively. */
  lemma OperationsSetTheirStatus(m: map<string, EntitlementStatus>, req: EntitlementRequest, randomUuid: string,
                                 detail: string)
    requires |randomUuid| >= 8 && req.customerId.Some?
    ensures StatusOf(Grant(m, req, randomUuid, detail).1, req.customerId.value, req.productId) == Active
    ensures StatusOf(Suspend(m, req, randomUuid, detail).1, req.customerId.value, req.productId) == Suspended
    ensures StatusOf(Revoke(m, req, randomUuid, detail).1, req.customerId.value, req.productId) == Revoked
  {
    UpdateSetsOnlyItsPair(m, req, Active, "GRANT", "mock_entitlement_", "mock_grant_error",
                          "Mock entitlement grant failed: ",
                          req.productId.Some? && req.planId.Some? && req.periodStart.Some? && req.periodEnd.Some?,
                          randomUuid, detail, req.customerId.value, req.productId);
    UpdateSetsOnlyItsPair(m, req, Suspended, "SUSPEND", "mock_suspend_", "mock_suspend_error",
                          "Mock entitlement suspend failed: ", req.productId.Some?, randomUuid, detail,
                          req.customerId.value, req.productId);
    UpdateSetsOnlyItsPair(m, req, Revoked, "REVOKE", "mock_revoke_", "mock_revoke_error",
                          "Mock entitlement revoke failed: ", req.productId.Some?, randomUuid, detail,
                          req.customerId.value, req.productId);
  }

  /** A request without a customer id changes nothing. */
  lemma NoCustomerNoChange(m: map<string, EntitlementStatus>, req: EntitlementRequest, randomUuid: string,
                           detail: string)
    requires |randomUuid| >= 8 && req.customerId.None?
    ensures Grant(m, req, randomUuid, detail).1 == m && Suspend(m, req, randomUuid, detail).1 == m
            && Revoke(m, req, randomUuid, detail).1 == m
  {
  }

  /** Revocation is not final in the mock: a later grant activates the pair
   *  again. */
  lemma GrantAfterRevoke(m: map<string, EntitlementStatus>, req: EntitlementRequest, u1: string, u2: string,
                         detail: string)
    requires |u1| >= 8 && |u2| >= 8 && req.customerId.Some?
    ensures var m1 := Revoke(m, req, u1, detail).1;
            StatusOf(m1, req.customerId.value, req.productId) == Revoked
            && StatusOf(Grant(m1, req, u2, detail).1, req.customerId.value, req.productId) == Active
  {
    OperationsSetTheirStatus(m, req, u1, detail);
    OperationsSetTheirStatus(Revoke(m, req, u1, detail).1, req, u2, detail);
  }

  // ---------------------------------------------------------------- the adapter

  class Adapter {
    var entitlementStatuses: map<string, EntitlementStatus>

    constructor()
      ensures entitlementStatuses == map[]
    {
      entitlementStatuses := map[];
    }

    /** The steps the three operations share: key, write, provider data. */
    method Apply(req: EntitlementRequest, target: EntitlementStatus, action: string, refPrefix: string,
                 errorCode: string, errorPrefix: string, complete: bool, randomUuid: string, detail: string)
      returns (r: EntitlementResult)
      requires |randomUuid| >= 8 && (complete ==> req.productId.Some?)
      modifies this
      ensures (r, entitlementStatuses) == Update(old(entitlementStatuses), req, target, action, refPrefix,
                                                 errorCode, errorPrefix, complete, randomUuid, detail)
    {
      if req.customerId.None? {
        return FailedResult(errorCode, errorPrefix + detail);
      }
      var key := req.customerId.value + ":" + ProductText(req.productId);
      var reference := refPrefix + randomUuid[..8];
      entitlementStatuses := entitlementStatuses[key := target];
      if !complete {
        return FailedResult(errorCode, errorPrefix + detail);
      }
      r := EntitlementResult(true, Some(reference), target, None, None,
                             Data(action, req.customerId.value, req.productId.value));
    }

    method GrantEntitlements(req: EntitlementRequest, randomUuid: string, detail: string)
      returns (r: EntitlementResult)
      requires |randomUuid| >= 8
      modifies this
      ensures (r, entitlementStatuses) == Grant(old(entitlementStatuses), req, randomUuid, detail)
    {
      r := Apply(req, Active, "GRANT", "mock_entitlement_", "mock_grant_error", "Mock entitlement grant failed: ",
                 req.productId.Some? && req.planId.Some? && req.periodStart.Some? && req.periodEnd.Some?,
                 randomUuid, detail);
    }

    method SuspendEntitlements(req: EntitlementRequest, randomUuid: string, detail: string)
      returns (r: EntitlementResult)
      requires |randomUuid| >= 8
      modifies this
      ensures (r, entitlementStatuses) == Suspend(old(entitlementStatuses), req, randomUuid, detail)
    {
      r := Apply(req, Suspended, "SUSPEND", "mock_suspend_", "mock_suspend_error",
                 "Mock entitlement suspend failed: ", req.productId.Some?, randomUuid, detail);
    }

    method RevokeEntitlements(req: EntitlementRequest, randomUuid: string, detail: string)
      returns (r: EntitlementResult)
      requires |randomUuid| >= 8
      modifies this
      ensures (r, entitlementStatuses) == Revoke(old(entitlementStatuses), req, randomUuid, detail)
    {
      r := Apply(req, Revoked, "REVOKE", "mock_revoke_", "mock_revoke_error",
                 "Mock entitlement revoke failed: ", req.productId.Some?, randomUuid, detail);
    }
  }
}
