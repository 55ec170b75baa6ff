/** SubscriptionManagementService: a customer's modify, cancel, pause and
 *  resume of their own subscription, and the management view with its
 *  capability flags. Each operation answers false, changing nothing, when
 *  the subscription is not the customer's in the tenant or its status does
 *  not allow the step; an exception inside it (a null it dereferences, a
 *  renewal upsert that throws) rolls the whole transaction back. */
module SubscriptionManagement {
  import opened Common
  import opened Calendar
  import opened Records
  import opened Tasks
  import opened ScheduledTasks
  import opened SubscriptionHistory
  import opened SubscriptionStore
  import Jsonb

  /** What every call carries besides its arguments: the tenant from the
   *  request context, the clock, and the ids a new history row and a new
   *  renewal task would take. */
  datatype Call = Call(tenantId: Uuid, now: Instant, historyId: Uuid, taskId: Uuid)

  /** The history row's context: performed by the customer, with no user id. */
  function CustomerContext(call: Call, sid: Uuid): RecordContext
  {
    RecordContext(call.historyId, call.tenantId, sid, None, Some("CUSTOMER"), call.now)
  }

  /** The statuses from which a subscription may be modified or cancelled. */
  predicate Manageable(s: SubscriptionStatus)
  {
    s == Active || s == Paused
  }

  // ---------------------------------------------------------------- task cancellation

  /** The payload names the subscription: what the payload filter is for. */
  predicate NamesSubscription(p: Payload, sid: Uuid)
  {
    p.Json? && "subscriptionId" in p.fields && p.fields["subscriptionId"] == sid
  }

  /** The payload filter as written: the jsonb text must contain
   *  `"subscriptionId":"<id>"`, with no space after the colon. */
  predicate LikeSubscriptionAsWritten(p: Payload, sid: Uuid)
  {
    p.Json? && Contains(Jsonb.Render(p.fields), "\"subscriptionId\":\"" + sid + "\"")
  }

  /** In jsonb text a colon followed by a double quote ends a string and is
   *  followed by ":", "," or "}", while the pattern as written puts the id
   *  there; so it matches no payload, whatever its keys and values, for an
   *  id that does not start with one of those (a UUID starts with a hex
   *  digit). */
  lemma LikeAsWrittenNeverMatches(p: Payload, sid: Uuid)
    requires |sid| > 0 ==> !Jsonb.Closer(sid[0])
    ensures !LikeSubscriptionAsWritten(p, sid)
  {
    if p.Json? {
      var pattern := "\"subscriptionId\":\"" + sid + "\"";
      assert pattern[16] == ':' && pattern[17] == '"' && !Jsonb.Closer(pattern[18]);
      Jsonb.RenderCloses(p.fields);
      Jsonb.ClosesLacksPattern(Jsonb.Render(p.fields), pattern, 16);
    }
  }

  /** The product renewal task the scheduler writes for a subscription, with
   *  its scheduledAt timestamp text, is missed by the pattern as written and
   *  found by the corrected filter. */
  lemma ProductRenewalMissedAsWritten(sid: Uuid, productId: string, planId: Uuid, scheduledAt: string)
    requires |sid| > 0 ==> !Jsonb.Closer(sid[0])
    ensures var p := Json(PayloadOf(ProductRenewal(sid, productId, planId))["scheduledAt" := scheduledAt]);
            !LikeSubscriptionAsWritten(p, sid) && NamesSubscription(p, sid)
  {
    var p := Json(PayloadOf(ProductRenewal(sid, productId, planId))["scheduledAt" := scheduledAt]);
    LikeAsWrittenNeverMatches(p, sid);
  }

  /** A live (READY or CLAIMED) task of the tenant. */
  predicate Live(t: Task, tenantId: Uuid)
  {
    t.tenantId == tenantId && (t.status == Ready || t.status == Claimed)
  }

  /** The tasks a cancellation fails: the renewal task by its key, and the
   *  subscription's product renewals. */
  predicate CancelledByCancel(t: Task, tenantId: Uuid, sid: Uuid)
  {
    Live(t, tenantId)
    && (t.taskKey == TaskKey(tenantId, Renewal(sid))
        || (t.taskType == ProductRenewalType && NamesSubscription(t.payload, sid)))
  }

  /** The tasks a pause fails: the subscription's product renewals only. */
  predicate CancelledByPause(t: Task, tenantId: Uuid, sid: Uuid)
  {
    Live(t, tenantId) && t.taskType == ProductRenewalType && NamesSubscription(t.payload, sid)
  }

  /** The tasks a cancellation fails as written: the renewal task by its
   *  key, and product renewals whose jsonb text matches the LIKE pattern. */
  predicate CancelledByCancelAsWritten(t: Task, tenantId: Uuid, sid: Uuid)
  {
    Live(t, tenantId)
    && (t.taskKey == TaskKey(tenantId, Renewal(sid))
        || (t.taskType == ProductRenewalType && LikeSubscriptionAsWritten(t.payload, sid)))
  }

  /** As written, a cancellation fails only the renewal task found by its
   *  key: the LIKE pattern finds no product renewal. */
  lemma CancelAsWrittenFailsRenewalOnly(t: Task, tenantId: Uuid, sid: Uuid)
    requires |sid| > 0 ==> !Jsonb.Closer(sid[0])
    ensures CancelledByCancelAsWritten(t, tenantId, sid) <==> Live(t, tenantId) && t.taskKey == TaskKey(tenantId, Renewal(sid))
  {
    LikeAsWrittenNeverMatches(t.payload, sid);
  }

  /** The tasks a pause fails as written: product renewals whose jsonb text
   *  matches the LIKE pattern. */
  predicate CancelledByPauseAsWritten(t: Task, tenantId: Uuid, sid: Uuid)
  {
    Live(t, tenantId) && t.taskType == ProductRenewalType && LikeSubscriptionAsWritten(t.payload, sid)
  }

  function FailedBy(t: Task, now: Instant, error: string): Task
  {
    t.(status := Failed, completedAt := Some(now), lastError := Some(error))
  }

  // ---------------------------------------------------------------- modify

  /** The attribute names a modification may write. */
  const ModifyKeys: set<string> := {"modifiedAt", "modifiedBy", "previousPlanId", "newPlanId", "newQuantity",
                                    "paymentMethodUpdated", "shippingAddressUpdated"}

  /** The custom attributes a modification writes on top of the stored ones. */
  function ModifiedAttrs(attrs: map<string, AttrValue>, now: Instant, currentPlanId: Uuid, newPlanId: Option<Uuid>,
                         newQuantity: Option<int>, newShippingAddress: Option<string>,
                         newPaymentMethodRef: Option<string>): (r: map<string, AttrValue>)
    ensures forall k :: k in attrs ==> k in r
    ensures forall k :: k in attrs && k !in ModifyKeys ==> r[k] == attrs[k]
    ensures forall k :: k in r && k !in attrs ==> k in ModifyKeys
    ensures "modifiedAt" in r && r["modifiedAt"] == Time(now)
    ensures "modifiedBy" in r && r["modifiedBy"] == Text("customer")
    ensures newPlanId.Some? ==> "previousPlanId" in r && r["previousPlanId"] == Text(currentPlanId)
                                && "newPlanId" in r && r["newPlanId"] == Text(newPlanId.value)
    ensures newQuantity.Some? ==> "newQuantity" in r && r["newQuantity"] == Number(newQuantity.value)
    ensures newPaymentMethodRef.Some? ==> "paymentMethodUpdated" in r && r["paymentMethodUpdated"] == Flag(true)
    ensures newShippingAddress.Some? ==> "shippingAddressUpdated" in r && r["shippingAddressUpdated"] == Flag(true)
  {
    var a := attrs["modifiedAt" := Time(now)]["modifiedBy" := Text("customer")];
    var a := if newPlanId.Some? then a["previousPlanId" := Text(currentPlanId)]["newPlanId" := Text(newPlanId.value)] else a;
    var a := if newQuantity.Some? then a["newQuantity" := Number(newQuantity.value)] else a;
    var a := if newPaymentMethodRef.Some? then a["paymentMethodUpdated" := Flag(true)] else a;
    if newShippingAddress.Some? then a["shippingAddressUpdated" := Flag(true)] else a
  }

  /** The renewal a modification schedules: the stored next renewal, or one
   *  month after the period end (after now when there is none). */
  function ModifiedRenewal(s: Subscription, now: Instant): (r: Instant)
    ensures s.nextRenewalAt.Some? ==> r == s.nextRenewalAt.value
    ensures s.nextRenewalAt.None? && s.currentPeriodEnd.Some? ==> r == PlusMonths(s.currentPeriodEnd.value, 1)
    ensures s.nextRenewalAt.None? && s.currentPeriodEnd.None? ==> r == PlusMonths(now, 1)
  {
    if s.nextRenewalAt.Some? then s.nextRenewalAt.value
    else if s.currentPeriodEnd.Some? then PlusMonths(s.currentPeriodEnd.value, 1)
    else PlusMonths(now, 1)
  }

  /** The subscription row after a modification: a field given as null is
   *  left as it was. */
  function ModifiedRow(s: Subscription, now: Instant, newPlanId: Option<Uuid>, newQuantity: Option<int>,
                       newShippingAddress: Option<string>, newPaymentMethodRef: Option<string>): (r: Subscription)
    ensures r.planId == (if newPlanId.Some? then newPlanId.value else s.planId)
    ensures r.paymentMethodRef == (if newPaymentMethodRef.Some? then newPaymentMethodRef else s.paymentMethodRef)
    ensures r.shippingAddress == (if newShippingAddress.Some? then newShippingAddress else s.shippingAddress)
    ensures r.nextRenewalAt == Some(ModifiedRenewal(s, now))
    ensures r.updatedAt == now
    ensures r.(planId := s.planId, paymentMethodRef := s.paymentMethodRef, shippingAddress := s.shippingAddress,
               nextRenewalAt := s.nextRenewalAt, updatedAt := s.updatedAt, customAttrs := s.customAttrs) == s
  {
    s.(customAttrs := ModifiedAttrs(s.customAttrs, now, s.planId, newPlanId, newQuantity, newShippingAddress, newPaymentMethodRef),
       updatedAt := now,
       planId := if newPlanId.Some? then newPlanId.value else s.planId,
       paymentMethodRef := if newPaymentMethodRef.Some? then newPaymentMethodRef else s.paymentMethodRef,
       shippingAddress := if newShippingAddress.Some? then newShippingAddress else s.shippingAddress,
       nextRenewalAt := Some(ModifiedRenewal(s, now)))
  }

  predicate ItemOf(i: SubscriptionItem, tenantId: Uuid, sid: Uuid)
  {
    i.tenantId == tenantId && i.subscriptionId == sid
  }

  /** The subscription's items after a modification: the new plan and the
   *  new quantity, each when given. */
  function ModifiedItems(items: seq<SubscriptionItem>, tenantId: Uuid, sid: Uuid,
                         newPlanId: Option<Uuid>, newQuantity: Option<int>): (r: seq<SubscriptionItem>)
    ensures |r| == |items|
    ensures forall i :: 0 <= i < |items| && !ItemOf(items[i], tenantId, sid) ==> r[i] == items[i]
    ensures forall i :: 0 <= i < |items| && ItemOf(items[i], tenantId, sid) ==>
              r[i] == items[i].(planId := if newPlanId.Some? then newPlanId.value else items[i].planId,
                                quantity := if newQuantity.Some? then newQuantity.value else items[i].quantity)
  {
    MapWhere(items, (i: SubscriptionItem) => ItemOf(i, tenantId, sid),
             (i: SubscriptionItem) => i.(planId := if newPlanId.Some? then newPlanId.value else i.planId,
                                         quantity := if newQuantity.Some? then newQuantity.value else i.quantity))
  }

  /** The guards of modifySubscription: the customer's subscription, ACTIVE
   *  or PAUSED, not set to cancel at the period end, and a new plan, when
   *  given, of the tenant. */
  predicate ModifyAllowed(t: Tables, tenantId: Uuid, sid: Uuid, customerId: Uuid, newPlanId: Option<Uuid>)
  {
    var k := FindOwned(t.subscriptions, sid, tenantId, customerId);
    k.Some? && Manageable(t.subscriptions[k.value].status)
    && t.subscriptions[k.value].cancelAtPeriodEnd != Some(true)
    && (newPlanId.Some? ==> PlanIn(t.plans, newPlanId.value, tenantId))
  }

  /** modifySubscription. */
  function Modify(t: Tables, call: Call, sid: Uuid, customerId: Uuid, newPlanId: Option<Uuid>, newQuantity: Option<int>,
                  newShippingAddress: Option<string>, newPaymentMethodRef: Option<string>): (r: Result<(bool, Tables)>)
    ensures !ModifyAllowed(t, call.tenantId, sid, customerId, newPlanId) ==> r == Success((false, t))
    ensures ModifyAllowed(t, call.tenantId, sid, customerId, newPlanId) ==>
              var k := FindOwned(t.subscriptions, sid, call.tenantId, customerId).value;
              var s := t.subscriptions[k];
              var u := UpsertRenewal(t.tasks, call.tenantId, sid, ModifiedRenewal(s, call.now), call.taskId);
              (r.Success? <==> u.Success?)
              && (r.Success? ==>
                    r.value.0
                    && r.value.1 == t.(subscriptions := t.subscriptions[k := ModifiedRow(s, call.now, newPlanId, newQuantity,
                                                                                        newShippingAddress, newPaymentMethodRef)],
                                       items := ModifiedItems(t.items, call.tenantId, sid, newPlanId, newQuantity),
                                       tasks := u.value))
  {
    if !ModifyAllowed(t, call.tenantId, sid, customerId, newPlanId) then Success((false, t))
    else
      var k := FindOwned(t.subscriptions, sid, call.tenantId, customerId).value;
      var s := t.subscriptions[k];
      var u := UpsertRenewal(t.tasks, call.tenantId, sid, ModifiedRenewal(s, call.now), call.taskId);
      if u.Failure? then Failure("Failed to modify subscription")
      else
        Success((true, t.(subscriptions := t.subscriptions[k := ModifiedRow(s, call.now, newPlanId, newQuantity,
                                                                            newShippingAddress, newPaymentMethodRef)],
                          items := ModifiedItems(t.items, call.tenantId, sid, newPlanId, newQuantity),
                          tasks := u.value)))
  }

  // ---------------------------------------------------------------- cancel

  /** The attribute names a cancellation writes. */
  const CancelKeys: set<string> := {"cancellationRequestedAt", "cancellationReason", "cancellationType", "cancelledBy"}

  /** The custom attributes a cancellation writes on top of the stored ones. */
  function CancelAttrs(attrs: map<string, AttrValue>, now: Instant, immediate: bool, reason: Option<string>): (r: map<string, AttrValue>)
    ensures forall k :: k in attrs ==> k in r
    ensures forall k :: k in attrs && k !in CancelKeys ==> r[k] == attrs[k]
    ensures r.Keys == attrs.Keys + CancelKeys
    ensures r["cancellationRequestedAt"] == Time(now) && r["cancelledBy"] == Text("customer")
    ensures r["cancellationType"] == Text(if immediate then "IMMEDIATE" else "END_OF_PERIOD")
    ensures r["cancellationReason"] == (if reason.Some? then Text(reason.value) else Null)
  {
    attrs["cancellationRequestedAt" := Time(now)]
         ["cancellationReason" := if reason.Some? then Text(reason.value) else Null]
         ["cancellationType" := Text(if immediate then "IMMEDIATE" else "END_OF_PERIOD")]
         ["cancelledBy" := Text("customer")]
  }

  /** The subscription row after a cancellation: CANCELED at once, or left
   *  in its status and marked to cancel at the period end; either way no
   *  next renewal. */
  function CancelledRow(s: Subscription, now: Instant, immediate: bool, reason: Option<string>): (r: Subscription)
    ensures immediate ==> r.status == Canceled && r.cancelAtPeriodEnd == Some(false) && r.canceledAt == Some(now)
    ensures !immediate ==> r.status == s.status && r.cancelAtPeriodEnd == Some(true) && r.canceledAt.None?
    ensures r.nextRenewalAt.None? && r.cancellationReason == reason && r.updatedAt == now
    ensures r.currentPeriodEnd == s.currentPeriodEnd && r.planId == s.planId && r.id == s.id
            && r.tenantId == s.tenantId && r.customerId == s.customerId
  {
    var common := s.(cancellationReason := reason, nextRenewalAt := None,
                     customAttrs := CancelAttrs(s.customAttrs, now, immediate, reason), updatedAt := now);
    if immediate then common.(status := Canceled, cancelAtPeriodEnd := Some(false), canceledAt := Some(now))
    else common.(cancelAtPeriodEnd := Some(true), canceledAt := None)
  }

  /** The tables after a permitted cancellation, apart from the history:
   *  the subscription's live renewal tasks failed, and its row cancelled. */
  function CancelEffects(t: Tables, call: Call, k: nat, sid: Uuid, immediate: bool, reason: Option<string>): (r: Tables)
    requires k < |t.subscriptions|
    ensures r.subscriptions == t.subscriptions[k := CancelledRow(t.subscriptions[k], call.now, immediate, reason)]
    ensures |r.tasks| == |t.tasks|
    ensures forall i :: 0 <= i < |t.tasks| ==>
              r.tasks[i] == if CancelledByCancel(t.tasks[i], call.tenantId, sid)
                            then FailedBy(t.tasks[i], call.now, "Subscription cancelled by customer") else t.tasks[i]
    ensures r.(subscriptions := t.subscriptions, tasks := t.tasks) == t
  {
    t.(tasks := MapWhere(t.tasks, (x: Task) => CancelledByCancel(x, call.tenantId, sid),
                            (x: Task) => FailedBy(x, call.now, "Subscription cancelled by customer")),
       subscriptions := t.subscriptions[k := CancelledRow(t.subscriptions[k], call.now, immediate, reason)])
  }

  /** The same with the product renewals found as written. */
  function CancelEffectsAsWritten(t: Tables, call: Call, k: nat, sid: Uuid, immediate: bool, reason: Option<string>): (r: Tables)
    requires k < |t.subscriptions|
    ensures r.subscriptions == t.subscriptions[k := CancelledRow(t.subscriptions[k], call.now, immediate, reason)]
    ensures |r.tasks| == |t.tasks|
    ensures forall i :: 0 <= i < |t.tasks| ==>
              r.tasks[i] == if CancelledByCancelAsWritten(t.tasks[i], call.tenantId, sid)
                            then FailedBy(t.tasks[i], call.now, "Subscription cancelled by customer") else t.tasks[i]
    ensures r.(subscriptions := t.subscriptions, tasks := t.tasks) == t
  {
    t.(tasks := MapWhere(t.tasks, (x: Task) => CancelledByCancelAsWritten(x, call.tenantId, sid),
                            (x: Task) => FailedBy(x, call.now, "Subscription cancelled by customer")),
       subscriptions := t.subscriptions[k := CancelledRow(t.subscriptions[k], call.now, immediate, reason)])
  }

  /** cancelSubscription as written: the history call builds its metadata
   *  with `Map.of("reason", reason)`, which throws on a null reason after
   *  the updates, so the whole cancellation is rolled back. */
  function CancelAsWritten(t: Tables, call: Call, sid: Uuid, customerId: Uuid, immediate: bool,
                           reason: Option<string>): (r: Result<(bool, Tables)>)
    ensures r.Failure? <==> FindOwned(t.subscriptions, sid, call.tenantId, customerId).Some?
                            && Manageable(t.subscriptions[FindOwned(t.subscriptions, sid, call.tenantId, customerId).value].status)
                            && reason.None?
  {
    var k := FindOwned(t.subscriptions, sid, call.tenantId, customerId);
    if k.None? || !Manageable(t.subscriptions[k.value].status) then Success((false, t))
    else
      var e := CancelEffectsAsWritten(t, call, k.value, sid, immediate, reason);
      match RecordCancellation(e.history, CustomerContext(call, sid), reason)
      case Failure(_) => Failure("Failed to cancel subscription")
      case Success(h) => Success((true, e.(history := h)))
  }

  /** A cancellation without a reason, of a subscription that may be
   *  cancelled, throws as written. */
  lemma CancelWithoutReasonThrows(t: Tables, call: Call, sid: Uuid, customerId: Uuid, immediate: bool)
    requires FindOwned(t.subscriptions, sid, call.tenantId, customerId).Some?
    requires Manageable(t.subscriptions[FindOwned(t.subscriptions, sid, call.tenantId, customerId).value].status)
    ensures CancelAsWritten(t, call, sid, customerId, immediate, None).Failure?
  {
  }

  /** The history row of a cancellation: {reason} when there is one, no
   *  metadata otherwise. */
  function RecordCancellationOrNone(rows: seq<HistoryEntry>, ctx: RecordContext, reason: Option<string>): (r: seq<HistoryEntry>)
    ensures reason.Some? ==> Success(r) == RecordCancellation(rows, ctx, reason)
    ensures reason.None? ==> Recorded(rows, r, ctx, "CANCELED", None, Some("Subscription canceled"))
  {
    if reason.Some? then RecordAction(rows, ctx, "CANCELED", Some([("reason", reason.value)]), Some("Subscription canceled"))
    else RecordAction(rows, ctx, "CANCELED", None, Some("Subscription canceled"))
  }

  /** cancelSubscription, with a missing reason recorded as no metadata: it
   *  succeeds exactly when the subscription is the customer's and ACTIVE or
   *  PAUSED. */
  function Cancel(t: Tables, call: Call, sid: Uuid, customerId: Uuid, immediate: bool, reason: Option<string>): (r: (bool, Tables))
    ensures var k := FindOwned(t.subscriptions, sid, call.tenantId, customerId);
            (r.0 <==> k.Some? && Manageable(t.subscriptions[k.value].status))
            && (!r.0 ==> r.1 == t)
            && (r.0 ==> var e := CancelEffects(t, call, k.value, sid, immediate, reason);
                        r.1 == e.(history := RecordCancellationOrNone(t.history, CustomerContext(call, sid), reason)))
    ensures reason.Some? ==> var w := CancelAsWritten(t, call, sid, customerId, immediate, reason);
                             w.Success? && w.value.0 == r.0 && w.value.1.(tasks := r.1.tasks) == r.1
  {
    var k := FindOwned(t.subscriptions, sid, call.tenantId, customerId);
    if k.None? || !Manageable(t.subscriptions[k.value].status) then (false, t)
    else
      var e := CancelEffects(t, call, k.value, sid, immediate, reason);
      (true, e.(history := RecordCancellationOrNone(e.history, CustomerContext(call, sid), reason)))
  }

  // ---------------------------------------------------------------- pause and resume

  /** The subscription row after a pause: PAUSED, no next renewal, and the
   *  custom attributes replaced by the pause's. */
  function PausedRow(s: Subscription, now: Instant, reason: string): (r: Subscription)
    ensures r.status == Paused && r.nextRenewalAt.None? && r.updatedAt == now
    ensures r.customAttrs == map["pausedAt" := Time(now), "pauseReason" := Text(reason), "pausedBy" := Text("customer")]
    ensures r.currentPeriodEnd == s.currentPeriodEnd && r.cancelAtPeriodEnd == s.cancelAtPeriodEnd
            && r.id == s.id && r.tenantId == s.tenantId && r.customerId == s.customerId
  {
    s.(status := Paused, nextRenewalAt := None, updatedAt := now,
       customAttrs := map["pausedAt" := Time(now), "pauseReason" := Text(reason), "pausedBy" := Text("customer")])
  }

  /** The reason a pause records: the one given, else the default. */
  function PauseReason(reason: Option<string>): string
  {
    if reason.Some? then reason.value else "Customer requested pause"
  }

  /** pauseSubscription: only an ACTIVE subscription of the customer is
   *  paused; its live product renewals are failed. */
  function Pause(t: Tables, call: Call, sid: Uuid, customerId: Uuid, reason: Option<string>): (r: (bool, Tables))
    ensures var k := FindOwned(t.subscriptions, sid, call.tenantId, customerId);
            (r.0 <==> k.Some? && t.subscriptions[k.value].status == Active)
            && (!r.0 ==> r.1 == t)
            && (r.0 ==> r.1.subscriptions == t.subscriptions[k.value := PausedRow(t.subscriptions[k.value], call.now, PauseReason(reason))]
                        && r.1.history == RecordPause(t.history, CustomerContext(call, sid), Some(PauseReason(reason))).value
                        && r.1.plans == t.plans && r.1.customers == t.customers && r.1.items == t.items
                        && |r.1.tasks| == |t.tasks|
                        && forall i :: 0 <= i < |t.tasks| ==>
                             r.1.tasks[i] == if CancelledByPause(t.tasks[i], call.tenantId, sid)
                                             then FailedBy(t.tasks[i], call.now, "Subscription paused by customer") else t.tasks[i])
  {
    var k := FindOwned(t.subscriptions, sid, call.tenantId, customerId);
    if k.None? || t.subscriptions[k.value].status != Active then (false, t)
    else
      var why := PauseReason(reason);
      (true, t.(tasks := MapWhere(t.tasks, (x: Task) => CancelledByPause(x, call.tenantId, sid),
                                     (x: Task) => FailedBy(x, call.now, "Subscription paused by customer")),
                subscriptions := t.subscriptions[k.value := PausedRow(t.subscriptions[k.value], call.now, why)],
                history := RecordPause(t.history, CustomerContext(call, sid), Some(why)).value))
  }

  /** pauseSubscription as written, with the product renewals found by the
   *  LIKE pattern. */
  function PauseAsWritten(t: Tables, call: Call, sid: Uuid, customerId: Uuid, reason: Option<string>): (r: (bool, Tables))
    ensures var k := FindOwned(t.subscriptions, sid, call.tenantId, customerId);
            (r.0 <==> k.Some? && t.subscriptions[k.value].status == Active)
            && (!r.0 ==> r.1 == t)
            && |r.1.tasks| == |t.tasks|
            && (r.0 ==> forall i :: 0 <= i < |t.tasks| ==>
                          r.1.tasks[i] == if CancelledByPauseAsWritten(t.tasks[i], call.tenantId, sid)
                                          then FailedBy(t.tasks[i], call.now, "Subscription paused by customer") else t.tasks[i])
    ensures var w := Pause(t, call, sid, customerId, reason); r.0 == w.0 && r.1.(tasks := w.1.tasks) == w.1
  {
    var k := FindOwned(t.subscriptions, sid, call.tenantId, customerId);
    if k.None? || t.subscriptions[k.value].status != Active then (false, t)
    else
      var why := PauseReason(reason);
      (true, t.(tasks := MapWhere(t.tasks, (x: Task) => CancelledByPauseAsWritten(x, call.tenantId, sid),
                                     (x: Task) => FailedBy(x, call.now, "Subscription paused by customer")),
                subscriptions := t.subscriptions[k.value := PausedRow(t.subscriptions[k.value], call.now, why)],
                history := RecordPause(t.history, CustomerContext(call, sid), Some(why)).value))
  }

  /** As written, a pause fails no task at all. */
  lemma PauseAsWrittenKeepsTasks(t: Tables, call: Call, sid: Uuid, customerId: Uuid, reason: Option<string>)
    requires |sid| > 0 ==> !Jsonb.Closer(sid[0])
    ensures PauseAsWritten(t, call, sid, customerId, reason).1.tasks == t.tasks
  {
    var r := PauseAsWritten(t, call, sid, customerId, reason);
    if r.0 {
      forall i | 0 <= i < |t.tasks| ensures r.1.tasks[i] == t.tasks[i] {
        LikeAsWrittenNeverMatches(t.tasks[i].payload, sid);
      }
    }
  }

  /** As written, a successful cancellation fails only the renewal task
   *  found by its key; the product renewals stay live. */
  lemma CancelAsWrittenKeepsProductRenewals(t: Tables, call: Call, sid: Uuid, customerId: Uuid, immediate: bool,
                                            reason: Option<string>, i: nat)
    requires |sid| > 0 ==> !Jsonb.Closer(sid[0])
    requires CancelAsWritten(t, call, sid, customerId, immediate, reason).Success?
    requires CancelAsWritten(t, call, sid, customerId, immediate, reason).value.0
    requires i < |t.tasks| && t.tasks[i].taskKey != TaskKey(call.tenantId, Renewal(sid))
    ensures var r := CancelAsWritten(t, call, sid, customerId, immediate, reason).value.1;
            i < |r.tasks| && r.tasks[i] == t.tasks[i]
  {
    CancelAsWrittenFailsRenewalOnly(t.tasks[i], call.tenantId, sid);
  }

  /** The subscription row after a resume: ACTIVE, renewing one month after
   *  the current period's end. */
  function ResumedRow(s: Subscription, now: Instant): (r: Subscription)
    requires s.currentPeriodEnd.Some?
    ensures r.status == Active && r.nextRenewalAt == Some(PlusMonths(s.currentPeriodEnd.value, 1)) && r.updatedAt == now
    ensures r.customAttrs == map["resumedAt" := Time(now), "resumedBy" := Text("customer")]
    ensures r.currentPeriodEnd == s.currentPeriodEnd && r.cancelAtPeriodEnd == s.cancelAtPeriodEnd
            && r.id == s.id && r.tenantId == s.tenantId && r.customerId == s.customerId
  {
    s.(status := Active, nextRenewalAt := Some(PlusMonths(s.currentPeriodEnd.value, 1)), updatedAt := now,
       customAttrs := map["resumedAt" := Time(now), "resumedBy" := Text("customer")])
  }

  /** resumeSubscription: only a PAUSED subscription of the customer is
   *  resumed, and its renewal task rescheduled; a missing period end (the
   *  `plusMonths` on null) or a failing upsert throws. */
  function Resume(t: Tables, call: Call, sid: Uuid, customerId: Uuid): (r: Result<(bool, Tables)>)
    ensures var k := FindOwned(t.subscriptions, sid, call.tenantId, customerId);
            (k.None? || t.subscriptions[k.value].status != Paused ==> r == Success((false, t)))
            && (k.Some? && t.subscriptions[k.value].status == Paused ==>
                  var s := t.subscriptions[k.value];
                  (s.currentPeriodEnd.None? ==> r.Failure?)
                  && (s.currentPeriodEnd.Some? ==>
                        var u := UpsertRenewal(t.tasks, call.tenantId, sid, PlusMonths(s.currentPeriodEnd.value, 1), call.taskId);
                        (r.Success? <==> u.Success?)
                        && (r.Success? ==>
                              r.value.0
                              && r.value.1 == t.(subscriptions := t.subscriptions[k.value := ResumedRow(s, call.now)],
                                                 tasks := u.value,
                                                 history := RecordResume(t.history, CustomerContext(call, sid))))))
  {
    var k := FindOwned(t.subscriptions, sid, call.tenantId, customerId);
    if k.None? || t.subscriptions[k.value].status != Paused then Success((false, t))
    else
      var s := t.subscriptions[k.value];
      if s.currentPeriodEnd.None? then Failure("Failed to resume subscription")
      else
        var u := UpsertRenewal(t.tasks, call.tenantId, sid, PlusMonths(s.currentPeriodEnd.value, 1), call.taskId);
        if u.Failure? then Failure("Failed to resume subscription")
        else
          Success((true, t.(subscriptions := t.subscriptions[k.value := ResumedRow(s, call.now)],
                            tasks := u.value,
                            history := RecordResume(t.history, CustomerContext(call, sid)))))
  }

  // ---------------------------------------------------------------- management details

  datatype ManagementDetails = ManagementDetails(
    subscriptionId: Uuid,
    status: SubscriptionStatus,
    currentPeriodStart: Instant,
    currentPeriodEnd: Instant,
    nextRenewalAt: Option<Instant>,
    cancelAtPeriodEnd: Option<bool>,
    cancelledAt: Option<Instant>,
    createdAt: Instant,
    updatedAt: Instant,
    canPause: bool,
    canResume: bool,
    canCancel: bool,
    managementHistory: Option<map<string, AttrValue>>)

  /** getSubscriptionManagementDetails: empty when the subscription is not
   *  the customer's, or when its period end is null (the toString throws
   *  and the error is swallowed); the custom attributes are shown when
   *  there are any. */
  function Details(t: Tables, tenantId: Uuid, sid: Uuid, customerId: Uuid): (r: Option<ManagementDetails>)
    ensures var k := FindOwned(t.subscriptions, sid, tenantId, customerId);
            r.Some? <==> k.Some? && t.subscriptions[k.value].currentPeriodEnd.Some?
    ensures r.Some? ==> var s := t.subscriptions[FindOwned(t.subscriptions, sid, tenantId, customerId).value];
                        r.value.status == s.status
                        && (r.value.canPause <==> s.status == Active)
                        && (r.value.canResume <==> s.status == Paused)
                        && (r.value.canCancel <==> Manageable(s.status))
                        && (r.value.managementHistory.Some? <==> s.customAttrs != map[])
  {
    var k := FindOwned(t.subscriptions, sid, tenantId, customerId);
    if k.None? || t.subscriptions[k.value].currentPeriodEnd.None? then None
    else
      var s := t.subscriptions[k.value];
      Some(ManagementDetails(sid, s.status, s.currentPeriodStart, s.currentPeriodEnd.value, s.nextRenewalAt,
                             s.cancelAtPeriodEnd, s.canceledAt, s.createdAt, s.updatedAt,
                             s.status == Active, s.status == Paused, Manageable(s.status),
                             if s.customAttrs == map[] then None else Some(s.customAttrs)))
  }

  // ---------------------------------------------------------------- properties across operations

  /** The capability flags tell the truth: when the view is shown, pause
   *  and cancel go through exactly when it says so, and so does resume
   *  unless its renewal upsert throws. */
  lemma CapabilitiesMatchOperations(t: Tables, call: Call, sid: Uuid, customerId: Uuid, reason: Option<string>, immediate: bool)
    requires Details(t, call.tenantId, sid, customerId).Some?
    ensures var d := Details(t, call.tenantId, sid, customerId).value;
            (d.canPause <==> Pause(t, call, sid, customerId, reason).0)
            && (d.canCancel <==> Cancel(t, call, sid, customerId, immediate, reason).0)
            && (d.canResume <==> Resume(t, call, sid, customerId) != Success((false, t)))
  {
    var k := FindOwned(t.subscriptions, sid, call.tenantId, customerId).value;
    var s := t.subscriptions[k];
    if s.status == Paused {
      var u := UpsertRenewal(t.tasks, call.tenantId, sid, PlusMonths(s.currentPeriodEnd.value, 1), call.taskId);
      if u.Success? {
        assert Resume(t, call, sid, customerId).value.1.subscriptions[k].status == Active;
      }
    }
  }

  /** Once a subscription is set to cancel at the period end, modifying it
   *  answers false and changes nothing. */
  lemma EndOfPeriodCancelBlocksModify(t: Tables, call: Call, sid: Uuid, customerId: Uuid, reason: Option<string>,
                                      call2: Call, newPlanId: Option<Uuid>, newQuantity: Option<int>,
                                      newShippingAddress: Option<string>, newPaymentMethodRef: Option<string>)
    requires Cancel(t, call, sid, customerId, false, reason).0
    requires call2.tenantId == call.tenantId
    ensures var t1 := Cancel(t, call, sid, customerId, false, reason).1;
            Modify(t1, call2, sid, customerId, newPlanId, newQuantity, newShippingAddress, newPaymentMethodRef)
              == Success((false, t1))
  {
    var k := FindOwned(t.subscriptions, sid, call.tenantId, customerId).value;
    var t1 := Cancel(t, call, sid, customerId, false, reason).1;
    FindSubscriptionUpdated(t.subscriptions, k, CancelledRow(t.subscriptions[k], call.now, false, reason), sid);
    assert t1.subscriptions[k].cancelAtPeriodEnd == Some(true);
  }

  /** An immediate cancellation is final: the subscription can then be
   *  neither modified, paused, resumed nor cancelled again. */
  lemma ImmediateCancelIsFinal(t: Tables, call: Call, sid: Uuid, customerId: Uuid, reason: Option<string>,
                               call2: Call, reason2: Option<string>, immediate2: bool, newPlanId: Option<Uuid>)
    requires Cancel(t, call, sid, customerId, true, reason).0
    requires call2.tenantId == call.tenantId
    ensures var t1 := Cancel(t, call, sid, customerId, true, reason).1;
            Modify(t1, call2, sid, customerId, newPlanId, None, None, None) == Success((false, t1))
            && Pause(t1, call2, sid, customerId, reason2) == (false, t1)
            && Resume(t1, call2, sid, customerId) == Success((false, t1))
            && Cancel(t1, call2, sid, customerId, immediate2, reason2) == (false, t1)
  {
    var k := FindOwned(t.subscriptions, sid, call.tenantId, customerId).value;
    var t1 := Cancel(t, call, sid, customerId, true, reason).1;
    FindSubscriptionUpdated(t.subscriptions, k, CancelledRow(t.subscriptions[k], call.now, true, reason), sid);
    assert FindOwned(t1.subscriptions, sid, call2.tenantId, customerId) == Some(k);
    CanceledIsFinal(t1, call2, sid, customerId, reason2, immediate2, newPlanId);
  }

  /** A CANCELED subscription, or one the customer does not own, can be
   *  neither modified, paused, resumed nor cancelled: each call answers
   *  false and writes nothing. */
  lemma CanceledIsFinal(t: Tables, call: Call, sid: Uuid, customerId: Uuid, reason: Option<string>,
                        immediate: bool, newPlanId: Option<Uuid>)
    requires var k := FindOwned(t.subscriptions, sid, call.tenantId, customerId);
             k.None? || t.subscriptions[k.value].status == Canceled
    ensures Modify(t, call, sid, customerId, newPlanId, None, None, None) == Success((false, t))
    ensures Pause(t, call, sid, customerId, reason) == (false, t)
    ensures Resume(t, call, sid, customerId) == Success((false, t))
    ensures Cancel(t, call, sid, customerId, immediate, reason) == (false, t)
  {
  }

  /** Pausing and then resuming brings the subscription back to ACTIVE with
   *  a renewal one month after its period end; a second pause in between
   *  answers false. */
  lemma PauseThenResume(t: Tables, call: Call, sid: Uuid, customerId: Uuid, reason: Option<string>,
                        call2: Call, reason2: Option<string>)
    requires Pause(t, call, sid, customerId, reason).0
    requires call2.tenantId == call.tenantId
    ensures var t1 := Pause(t, call, sid, customerId, reason).1;
            var k := FindOwned(t.subscriptions, sid, call.tenantId, customerId).value;
            Pause(t1, call2, sid, customerId, reason2) == (false, t1)
            && (t.subscriptions[k].currentPeriodEnd.Some? ==>
                  var r := Resume(t1, call2, sid, customerId);
                  r.Success? ==> r.value.0 && r.value.1.subscriptions[k].status == Active
                                 && r.value.1.subscriptions[k].nextRenewalAt
                                    == Some(PlusMonths(t.subscriptions[k].currentPeriodEnd.value, 1)))
  {
    var k := FindOwned(t.subscriptions, sid, call.tenantId, customerId).value;
    FindSubscriptionUpdated(t.subscriptions, k, PausedRow(t.subscriptions[k], call.now, PauseReason(reason)), sid);
  }

  /** Replacing the found row by one with the same id, tenant and customer
   *  leaves every lookup where it was. */
  lemma FindSubscriptionUpdated(subs: seq<Subscription>, k: nat, s: Subscription, sid: Uuid)
    requires k < |subs| && s.id == subs[k].id
    ensures FindSubscription(subs[k := s], sid) == FindSubscription(subs, sid)
  {
    FindSubscriptionSameIds(subs, subs[k := s], sid);
  }

  /** Two tables whose rows agree on ids find a subscription at the same
   *  position. */
  lemma {:induction false} FindSubscriptionSameIds(a: seq<Subscription>, b: seq<Subscription>, sid: Uuid)
    requires |a| == |b|
    requires forall i :: 0 <= i < |a| ==> a[i].id == b[i].id
    ensures FindSubscription(a, sid) == FindSubscription(b, sid)
  {
    if a != [] && a[|a| - 1].id != sid {
      FindSubscriptionSameIds(a[..|a| - 1], b[..|b| - 1], sid);
    }
  }

  // ---------------------------------------------------------------- the service over the store

  /** modifySubscription on the store: the guards read the rows, then the
   *  subscription, its items and its renewal task are written; a throwing
   *  upsert leaves every table as it was. */
  method ModifySubscription(store: Store, call: Call, sid: Uuid, customerId: Uuid, newPlanId: Option<Uuid>,
                            newQuantity: Option<int>, newShippingAddress: Option<string>,
                            newPaymentMethodRef: Option<string>) returns (r: Result<bool>)
    modifies store
    ensures var m := Modify(old(store.Contents()), call, sid, customerId, newPlanId, newQuantity, newShippingAddress, newPaymentMethodRef);
            (r.Success? <==> m.Success?)
            && (m.Success? ==> r.value == m.value.0 && store.Contents() == m.value.1)
            && (m.Failure? ==> store.Contents() == old(store.Contents()))
  {
    if !ModifyAllowed(store.Contents(), call.tenantId, sid, customerId, newPlanId) {
      return Success(false);
    }
    var k := FindOwned(store.subscriptions, sid, call.tenantId, customerId).value;
    var s := store.subscriptions[k];
    var next := ModifiedRenewal(s, call.now);
    var u := UpsertRenewal(store.tasks, call.tenantId, sid, next, call.taskId);
    if u.Failure? {
      return Failure("Failed to modify subscription");
    }
    var t := store.Contents();
    var t1 := t.(subscriptions := t.subscriptions[k := ModifiedRow(s, call.now, newPlanId, newQuantity,
                                                                  newShippingAddress, newPaymentMethodRef)],
                 items := ModifiedItems(t.items, call.tenantId, sid, newPlanId, newQuantity),
                 tasks := u.value);
    assert Modify(t, call, sid, customerId, newPlanId, newQuantity, newShippingAddress, newPaymentMethodRef)
           == Success((true, t1));
    store.Commit(t1);
    r := Success(true);
  }

  /** cancelSubscription on the store, with a missing reason recorded as no
   *  metadata. */
  method CancelSubscription(store: Store, call: Call, sid: Uuid, customerId: Uuid, immediate: bool,
                            reason: Option<string>) returns (cancelled: bool)
    modifies store
    ensures (cancelled, store.Contents()) == Cancel(old(store.Contents()), call, sid, customerId, immediate, reason)
  {
    var k := FindOwned(store.subscriptions, sid, call.tenantId, customerId);
    if k.None? || !Manageable(store.subscriptions[k.value].status) {
      return false;
    }
    store.tasks := MapWhere(store.tasks, (x: Task) => CancelledByCancel(x, call.tenantId, sid),
                               (x: Task) => FailedBy(x, call.now, "Subscription cancelled by customer"));
    store.subscriptions := store.subscriptions[k.value := CancelledRow(store.subscriptions[k.value], call.now, immediate, reason)];
    store.history := RecordCancellationOrNone(store.history, CustomerContext(call, sid), reason);
    cancelled := true;
  }

  /** pauseSubscription on the store. */
  method PauseSubscription(store: Store, call: Call, sid: Uuid, customerId: Uuid, reason: Option<string>)
    returns (paused: bool)
    modifies store
    ensures (paused, store.Contents()) == Pause(old(store.Contents()), call, sid, customerId, reason)
  {
    var k := FindOwned(store.subscriptions, sid, call.tenantId, customerId);
    if k.None? || store.subscriptions[k.value].status != Active {
      return false;
    }
    var why := PauseReason(reason);
    store.tasks := MapWhere(store.tasks, (x: Task) => CancelledByPause(x, call.tenantId, sid),
                               (x: Task) => FailedBy(x, call.now, "Subscription paused by customer"));
    store.subscriptions := store.subscriptions[k.value := PausedRow(store.subscriptions[k.value], call.now, why)];
    store.history := RecordPause(store.history, CustomerContext(call, sid), Some(why)).value;
    paused := true;
  }

  /** resumeSubscription on the store: a missing period end or a throwing
   *  upsert leaves every table as it was. */
  method ResumeSubscription(store: Store, call: Call, sid: Uuid, customerId: Uuid) returns (r: Result<bool>)
    modifies store
    ensures var m := Resume(old(store.Contents()), call, sid, customerId);
            (r.Success? <==> m.Success?)
            && (m.Success? ==> r.value == m.value.0 && store.Contents() == m.value.1)
            && (m.Failure? ==> store.Contents() == old(store.Contents()))
  {
    var k := FindOwned(store.subscriptions, sid, call.tenantId, customerId);
    if k.None? || store.subscriptions[k.value].status != Paused {
      return Success(false);
    }
    var s := store.subscriptions[k.value];
    if s.currentPeriodEnd.None? {
      return Failure("Failed to resume subscription");
    }
    var u := UpsertRenewal(store.tasks, call.tenantId, sid, PlusMonths(s.currentPeriodEnd.value, 1), call.taskId);
    if u.Failure? {
      return Failure("Failed to resume subscription");
    }
    store.subscriptions := store.subscriptions[k.value := ResumedRow(s, call.now)];
    store.tasks := u.value;
    store.history := RecordResume(store.history, CustomerContext(call, sid));
    r := Success(true);
  }
}
