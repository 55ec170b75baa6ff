/** SubscriptionManagementController: the customer-facing endpoints over
 *  the subscription management service. GET shows a subscription's
 *  management view; PUT names an operation (PAUSE, RESUME, CANCEL or
 *  MODIFY, in any case), calls the service for it and answers 200 with a
 *  summary when the service says yes, 400 when it says no or when the
 *  operation is unknown. A service that throws is answered 500 by the
 *  global exception handler, with its transaction rolled back. */
module SubscriptionManagementController {
  import opened Common
  import opened Records
  import opened SubscriptionStore
  import opened SubscriptionManagement

  /** SubscriptionUpdateRequest; the JSON shipping address is kept as text. */
  datatype UpdateRequest = UpdateRequest(
    customerId: Uuid,
    operation: string,
    reason: Option<string>,
    cancellationType: Option<string>,
    newPlanId: Option<Uuid>,
    newQuantity: Option<int>,
    shippingAddress: Option<string>,
    paymentMethodRef: Option<string>)

  /** The replies, without their request ids and timestamps. */
  datatype Reply =
    | Rejected(message: string)                         // 400, success = false
    | Done(message: string, data: map<string, string>)  // 200, success = true
    | Thrown                                            // 500, from the global handler
    | NotFound                                          // 404, empty body
    | Shown(details: ManagementDetails)                 // 200, success = true

  function HttpStatus(r: Reply): int
  {
    match r
    case Rejected(_) => 400
    case Done(_, _) => 200
    case Thrown => 500
    case NotFound => 404
    case Shown(_) => 200
  }

  /** The `success` flag of the body. */
  predicate Succeeded(r: Reply)
  {
    r.Done? || r.Shown?
  }

  // ---------------------------------------------------------------- operations

  datatype Operation = PauseOp | ResumeOp | CancelOp | ModifyOp

  /** The switch on the upper-cased operation name. */
  function ParseOperation(op: string): (r: Option<Operation>)
    ensures r == Some(PauseOp) <==> Upper(op) == "PAUSE"
    ensures r == Some(ResumeOp) <==> Upper(op) == "RESUME"
    ensures r == Some(CancelOp) <==> Upper(op) == "CANCEL"
    ensures r == Some(ModifyOp) <==> Upper(op) == "MODIFY"
  {
    var u := Upper(op);
    if u == "PAUSE" then Some(PauseOp)
    else if u == "RESUME" then Some(ResumeOp)
    else if u == "CANCEL" then Some(CancelOp)
    else if u == "MODIFY" then Some(ModifyOp)
    else None
  }

  /** A cancellation is immediate when its type is "immediate" in any case;
   *  a missing type means the end of the period. */
  predicate Immediate(cancellationType: Option<string>)
  {
    cancellationType.Some? && EqualsIgnoreCase(cancellationType.value, "immediate")
  }

  /** The case of the operation and of the cancellation type does not
   *  matter: a lower-cased request is dispatched as the original. */
  lemma {:induction false} CaseDoesNotMatter(op: string, cancellationType: string)
    ensures ParseOperation(Lower(op)) == ParseOperation(op)
    ensures Immediate(Some(Lower(cancellationType))) == Immediate(Some(cancellationType))
  {
    UpperOfLower(op);
    UpperOfLower(cancellationType);
  }

  // ---------------------------------------------------------------- reply data

  /** A subscription status as the reply spells it. */
  function StatusText(s: SubscriptionStatus): string
  {
    match s
    case Active => "ACTIVE"
    case Trialing => "TRIALING"
    case Paused => "PAUSED"
    case Canceled => "CANCELED"
    case OtherStatus(name) => name
  }

  function PauseData(sid: Uuid): map<string, string>
  {
    map["subscriptionId" := sid, "status" := "PAUSED", "operation" := "PAUSE"]
  }

  function ResumeData(sid: Uuid): map<string, string>
  {
    map["subscriptionId" := sid, "status" := "ACTIVE", "operation" := "RESUME"]
  }

  function ModifyData(sid: Uuid): map<string, string>
  {
    map["subscriptionId" := sid, "operation" := "MODIFY"]
  }

  function CancellationTypeText(immediate: bool): string
  {
    if immediate then "IMMEDIATE" else "END_OF_PERIOD"
  }

  /** The data of a cancellation as written: CANCELED when immediate, and
   *  ACTIVE otherwise, whatever the subscription's status was. */
  function CancelDataAsWritten(sid: Uuid, immediate: bool): map<string, string>
  {
    map["subscriptionId" := sid, "status" := if immediate then "CANCELED" else "ACTIVE",
        "operation" := "CANCEL", "cancellationType" := CancellationTypeText(immediate)]
  }

  /** The data of a cancellation, reporting the status the subscription is
   *  left in: CANCELED when immediate, its earlier status otherwise. */
  function CancelData(sid: Uuid, immediate: bool, before: SubscriptionStatus): map<string, string>
  {
    map["subscriptionId" := sid, "status" := if immediate then "CANCELED" else StatusText(before),
        "operation" := "CANCEL", "cancellationType" := CancellationTypeText(immediate)]
  }

  /** The reply to a service answer: 200 with the data on true, 400 with the
   *  failure message on false. */
  function Answer(ok: bool, done: string, failed: string, data: map<string, string>): (r: Reply)
    ensures r.Done? <==> ok
    ensures ok ==> r == Done(done, data)
    ensures !ok ==> r == Rejected(failed)
  {
    if ok then Done(done, data) else Rejected(failed)
  }

  // ---------------------------------------------------------------- the endpoints

  /** getSubscription */
  function GetSubscription(t: Tables, tenantId: Uuid, sid: Uuid, customerId: Uuid): (r: Reply)
    ensures HttpStatus(r) == 404 <==> Details(t, tenantId, sid, customerId).None?
    ensures r.Shown? ==> Succeeded(r) && r.details.subscriptionId == sid
  {
    var d := Details(t, tenantId, sid, customerId);
    if d.None? then NotFound else Shown(d.value)
  }

  /** The reply to an unknown operation. */
  function InvalidOperation(op: string): Reply
  {
    Rejected("Invalid operation: " + op + ". Supported: PAUSE, RESUME, CANCEL, MODIFY")
  }

  /** A reply reports the status the subscription is left in, when it
   *  reports one. */
  predicate ReportsStoredStatus(t: Tables, call: Call, sid: Uuid, customerId: Uuid, r: (Reply, Tables))
  {
    r.0.Done? && "status" in r.0.data ==>
      var k := FindOwned(t.subscriptions, sid, call.tenantId, customerId);
      k.Some? && k.value < |r.1.subscriptions| && r.0.data["status"] == StatusText(r.1.subscriptions[k.value].status)
  }

  /** The PAUSE case. */
  function PauseReply(t: Tables, call: Call, sid: Uuid, req: UpdateRequest): (r: (Reply, Tables))
    ensures var p := Pause(t, call, sid, req.customerId, req.reason);
            r.1 == p.1 && (r.0.Done? <==> p.0) && (!r.0.Done? ==> r.0.Rejected? && r.1 == t)
    ensures ReportsStoredStatus(t, call, sid, req.customerId, r)
  {
    var p := Pause(t, call, sid, req.customerId, req.reason);
    (Answer(p.0, "Subscription paused successfully", "Failed to pause subscription", PauseData(sid)), p.1)
  }

  /** The RESUME case; a throwing service is answered 500. */
  function ResumeReply(t: Tables, call: Call, sid: Uuid, req: UpdateRequest): (r: (Reply, Tables))
    ensures var p := Resume(t, call, sid, req.customerId);
            (r.0.Thrown? <==> p.Failure?) && (p.Success? ==> r.1 == p.value.1 && (r.0.Done? <==> p.value.0))
            && (!r.0.Done? ==> r.1 == t)
    ensures ReportsStoredStatus(t, call, sid, req.customerId, r)
  {
    var p := Resume(t, call, sid, req.customerId);
    if p.Failure? then (Thrown, t)
    else (Answer(p.value.0, "Subscription resumed successfully", "Failed to resume subscription", ResumeData(sid)), p.value.1)
  }

  /** The CANCEL case, immediate when the cancellation type says so. */
  function CancelReply(t: Tables, call: Call, sid: Uuid, req: UpdateRequest): (r: (Reply, Tables))
    ensures var p := Cancel(t, call, sid, req.customerId, Immediate(req.cancellationType), req.reason);
            r.1 == p.1 && (r.0.Done? <==> p.0) && (!r.0.Done? ==> r.0.Rejected? && r.1 == t)
    ensures r.0.Done? ==> "cancellationType" in r.0.data
                          && r.0.data["cancellationType"] == CancellationTypeText(Immediate(req.cancellationType))
    ensures ReportsStoredStatus(t, call, sid, req.customerId, r)
  {
    var immediate := Immediate(req.cancellationType);
    var k := FindOwned(t.subscriptions, sid, call.tenantId, req.customerId);
    var p := Cancel(t, call, sid, req.customerId, immediate, req.reason);
    var before := if k.Some? then t.subscriptions[k.value].status else Active;
    if p.0 then
      CancelLeavesStatus(t, call, sid, req.customerId, immediate, req.reason);
      (Done("Subscription cancelled successfully", CancelData(sid, immediate, before)), p.1)
    else (Rejected("Failed to cancel subscription"), p.1)
  }

  /** A cancellation that goes through leaves the subscription CANCELED
   *  when immediate, in its earlier status otherwise. */
  lemma CancelLeavesStatus(t: Tables, call: Call, sid: Uuid, customerId: Uuid, immediate: bool, reason: Option<string>)
    requires Cancel(t, call, sid, customerId, immediate, reason).0
    ensures var k := FindOwned(t.subscriptions, sid, call.tenantId, customerId);
            var t1 := Cancel(t, call, sid, customerId, immediate, reason).1;
            k.Some? && k.value < |t1.subscriptions|
            && t1.subscriptions[k.value].status == if immediate then Canceled else t.subscriptions[k.value].status
  {
    var k := FindOwned(t.subscriptions, sid, call.tenantId, customerId);
    var e := CancelEffects(t, call, k.value, sid, immediate, reason);
    assert e.subscriptions[k.value] == CancelledRow(t.subscriptions[k.value], call.now, immediate, reason);
  }

  /** The MODIFY case; a throwing service is answered 500. */
  function ModifyReply(t: Tables, call: Call, sid: Uuid, req: UpdateRequest): (r: (Reply, Tables))
    ensures var p := Modify(t, call, sid, req.customerId, req.newPlanId, req.newQuantity, req.shippingAddress,
                            req.paymentMethodRef);
            (r.0.Thrown? <==> p.Failure?) && (p.Success? ==> r.1 == p.value.1 && (r.0.Done? <==> p.value.0))
            && (!r.0.Done? ==> r.1 == t)
    ensures r.0.Done? ==> "status" !in r.0.data
  {
    var p := Modify(t, call, sid, req.customerId, req.newPlanId, req.newQuantity, req.shippingAddress, req.paymentMethodRef);
    if p.Failure? then (Thrown, t)
    else (Answer(p.value.0, "Subscription modified successfully", "Failed to modify subscription", ModifyData(sid)), p.value.1)
  }

  /** updateSubscription: an unknown operation is 400 and writes nothing; a
   *  known one is the service's answer, with nothing written unless it is
   *  200, and the status a 200 reports is the one stored. */
  function UpdateSubscription(t: Tables, call: Call, sid: Uuid, req: UpdateRequest): (r: (Reply, Tables))
    ensures ParseOperation(req.operation).None? ==> r == (InvalidOperation(req.operation), t)
    ensures r.0.Rejected? || r.0.Done? || r.0.Thrown?
    ensures !r.0.Done? ==> r.1 == t
    ensures Succeeded(r.0) <==> HttpStatus(r.0) == 200
    ensures ReportsStoredStatus(t, call, sid, req.customerId, r)
  {
    match ParseOperation(req.operation)
    case None => (InvalidOperation(req.operation), t)
    case Some(PauseOp) => PauseReply(t, call, sid, req)
    case Some(ResumeOp) => ResumeReply(t, call, sid, req)
    case Some(CancelOp) => CancelReply(t, call, sid, req)
    case Some(ModifyOp) => ModifyReply(t, call, sid, req)
  }

  /** As written, an end-of-period cancellation of a PAUSED subscription
   *  reports ACTIVE while the subscription stays PAUSED. */
  lemma PausedCancelReportsActiveAsWritten(t: Tables, call: Call, sid: Uuid, req: UpdateRequest)
    requires Upper(req.operation) == "CANCEL" && !Immediate(req.cancellationType)
    requires FindOwned(t.subscriptions, sid, call.tenantId, req.customerId).Some?
    requires t.subscriptions[FindOwned(t.subscriptions, sid, call.tenantId, req.customerId).value].status == Paused
    ensures var k := FindOwned(t.subscriptions, sid, call.tenantId, req.customerId).value;
            var p := Cancel(t, call, sid, req.customerId, false, req.reason);
            p.0 && p.1.subscriptions[k].status == Paused
            && CancelDataAsWritten(sid, false)["status"] == "ACTIVE"
            && StatusText(p.1.subscriptions[k].status) != CancelDataAsWritten(sid, false)["status"]
  {
    var k := FindOwned(t.subscriptions, sid, call.tenantId, req.customerId).value;
    var e := CancelEffects(t, call, k, sid, false, req.reason);
    assert e.subscriptions[k].status == Paused;
    assert "PAUSED"[0] != "ACTIVE"[0];
  }
}
