/** BillingTaskHandlerImpl: what the scheduled task processor calls for PRODUCT_RENEWAL
 *  and CHARGE_PAYMENT tasks. A product renewal generates the period's
 *  invoice and then moves the subscription's next renewal one billing
 *  interval on; a payment answers the payment service's verdict. The payment
 *  service is not part of this model: its outcome is a parameter, a Failure
 *  standing for an exception. */
module BillingTaskHandler {
  import opened Common
  import opened Calendar
  import opened Records
  import opened InvoiceGeneration
  import Tasks

  /** The interval count calculateNextRenewalDate uses: a missing or
   *  non-positive count is one. */
  function EffectiveCount(count: Option<int>): (n: int)
    ensures n >= 1
    ensures count.Some? && count.value > 0 ==> n == count.value
  {
    if count.None? || count.value <= 0 then 1 else count.value
  }

  /** calculateNextRenewalDate: the upper-cased interval name picks the
   *  unit, QUARTERLY being three months, and any other name falls back to
   *  monthly. Whenever the count is missing or positive and the name is a
   *  known one, it is the same instant as the invoice's period end. */
  function NextRenewalDate(current: Instant, interval: string, count: Option<int>): (r: Instant)
    ensures StandardInterval(Upper(interval)).Some? ==>
              r == AddIntervals(current, StandardInterval(Upper(interval)).value, EffectiveCount(count))
    ensures StandardInterval(Upper(interval)).None? ==> r == PlusMonths(current, EffectiveCount(count))
    ensures (count.None? || count.value > 0) && StandardInterval(Upper(interval)).Some? ==>
              CalculatePeriodEnd(current, Some(interval), count) == Success(r)
  {
    var n := EffectiveCount(count);
    var u := Upper(interval);
    if u == "DAILY" then PlusDays(current, n)
    else if u == "WEEKLY" then PlusWeeks(current, n)
    else if u == "MONTHLY" then PlusMonths(current, n)
    else if u == "QUARTERLY" then PlusMonths(current, 3 * n)
    else if u == "YEARLY" then PlusYears(current, n)
    else PlusMonths(current, n)
  }

  /** The instant the next renewal is counted from: nextRenewalAt, else the
   *  current period's end. */
  function RenewalBase(sub: Subscription): Option<Instant>
  {
    if sub.nextRenewalAt.Some? then sub.nextRenewalAt else sub.currentPeriodEnd
  }

  /** The subscription row after updateSubscriptionRenewalDate, when the
   *  update goes through. */
  function Renewed(sub: Subscription, plan: Plan, now: Instant): Subscription
    requires RenewalBase(sub).Some? && plan.billingInterval.Some?
  {
    sub.(nextRenewalAt := Some(NextRenewalDate(RenewalBase(sub).value, plan.billingInterval.value,
                                               plan.billingIntervalCount)),
         updatedAt := now)
  }

  /** Whether updateSubscriptionRenewalDate writes: the subscription and the
   *  plan exist (by id alone, in any tenant), the subscription has a next
   *  renewal or a period end to count from, and the plan has an interval.
   *  Otherwise the handler returns early or swallows the exception. */
  predicate RenewalUpdates(subs: seq<Subscription>, plans: seq<Plan>, sid: Uuid, planId: Uuid)
  {
    FindSubscription(subs, sid).Some? && FindPlanById(plans, planId).Some?
    && RenewalBase(subs[FindSubscription(subs, sid).value]).Some?
    && FindPlanById(plans, planId).value.billingInterval.Some?
  }

  /** updateSubscriptionRenewalDate: the fetched row, with its next renewal
   *  moved on, is written back by primary key; when the update does not go
   *  through the table is unchanged. */
  function UpdateSubscriptionRenewalDate(subs: seq<Subscription>, plans: seq<Plan>, sid: Uuid, planId: Uuid,
                                         now: Instant): (r: seq<Subscription>)
    ensures |r| == |subs|
    ensures !RenewalUpdates(subs, plans, sid, planId) ==> r == subs
    ensures RenewalUpdates(subs, plans, sid, planId) ==>
              var sub := subs[FindSubscription(subs, sid).value];
              var plan := FindPlanById(plans, planId).value;
              forall i :: 0 <= i < |subs| ==>
                r[i] == if subs[i].id == sid then Renewed(sub, plan, now) else subs[i]
  {
    if !RenewalUpdates(subs, plans, sid, planId) then subs
    else
      var updated := Renewed(subs[FindSubscription(subs, sid).value], FindPlanById(plans, planId).value, now);
      seq(|subs|, i requires 0 <= i < |subs| => if subs[i].id == sid then updated else subs[i])
  }

  /** processProductRenewal: true exactly when the invoice generation went
   *  through; then the renewal date is moved on as well. When generation
   *  throws, the handler catches it, answers false and writes nothing; the
   *  exception has still left the @Transactional generation, which marks
   *  the transaction it joined rollback-only (see
   *  `TaskHandlers.ProductRenewalAborts`). */
  function ProcessProductRenewal(db: Database, tenantId: Uuid, sid: Uuid, productId: Option<string>, planId: Uuid,
                                 now: Instant, ids: NewIds, millis: nat): (r: (bool, Database))
    ensures var g := GenerateInvoiceForProductRenewal(db, tenantId, sid, productId, planId, now, ids, millis);
            (r.0 <==> g.Success?)
            && (!r.0 ==> r.1 == db)
            && (r.0 ==> r.1 == g.value.1.(subscriptions := UpdateSubscriptionRenewalDate(db.subscriptions, db.plans, sid, planId, now)))
    ensures Tasks.Extends(db.tasks, r.1.tasks)
  {
    var g := GenerateInvoiceForProductRenewal(db, tenantId, sid, productId, planId, now, ids, millis);
    if g.Failure? then (false, db)
    else
      var db' := g.value.1;
      (true, db'.(subscriptions := UpdateSubscriptionRenewalDate(db'.subscriptions, db'.plans, sid, planId, now)))
  }

  /** processChargePayment: the payment service's verdict, false when it
   *  throws. */
  function ProcessChargePayment(payment: Result<bool>): (r: bool)
    ensures r <==> payment == Success(true)
  {
    match payment
    case Success(ok) => ok
    case Failure(_) => false
  }

  /** The renewal date update finds the same row afterwards. */
  lemma {:induction false} UpdateKeepsLookup(subs: seq<Subscription>, plans: seq<Plan>, sid: Uuid, planId: Uuid, now: Instant)
    ensures var r := UpdateSubscriptionRenewalDate(subs, plans, sid, planId, now);
            FindSubscription(r, sid) == FindSubscription(subs, sid)
            && (FindSubscription(subs, sid).Some? ==>
                  r[FindSubscription(subs, sid).value].tenantId == subs[FindSubscription(subs, sid).value].tenantId
                  && r[FindSubscription(subs, sid).value].currentPeriodStart
                     == subs[FindSubscription(subs, sid).value].currentPeriodStart)
  {
    var r := UpdateSubscriptionRenewalDate(subs, plans, sid, planId, now);
    if RenewalUpdates(subs, plans, sid, planId) {
      FindSubscriptionSameIds(subs, r, sid);
    }
  }

  /** Two tables whose rows agree on ids, row for row, find a subscription
   *  at the same position. */
  lemma {:induction false} FindSubscriptionSameIds(a: seq<Subscription>, b: seq<Subscription>, sid: Uuid)
    requires |a| == |b|
    requires forall i :: 0 <= i < |a| ==> a[i].id == b[i].id
    ensures FindSubscription(a, sid) == FindSubscription(b, sid)
  {
    if a != [] && a[|a| - 1].id != sid {
      FindSubscriptionSameIds(a[..|a| - 1], b[..|b| - 1], sid);
    }
  }

  /** Running a product renewal again after it went through: no second
   *  invoice, line or payment task is written, but the next renewal is moved
   *  on once more, from where the first run left it. */
  lemma {:induction false} RenewalRetryAdvancesAgain(db: Database, tenantId: Uuid, sid: Uuid, productId: Option<string>,
                                                     planId: Uuid, now: Instant, ids: NewIds, millis: nat,
                                                     now2: Instant, ids2: NewIds, millis2: nat)
    requires ProcessProductRenewal(db, tenantId, sid, productId, planId, now, ids, millis).0
    ensures var first := ProcessProductRenewal(db, tenantId, sid, productId, planId, now, ids, millis).1;
            var second := ProcessProductRenewal(first, tenantId, sid, productId, planId, now2, ids2, millis2);
            second.0
            && second.1.invoices == first.invoices && second.1.invoiceLines == first.invoiceLines
            && second.1.tasks == first.tasks
            && second.1.subscriptions == UpdateSubscriptionRenewalDate(first.subscriptions, first.plans, sid, planId, now2)
  {
    var g := GenerateInvoiceForProductRenewal(db, tenantId, sid, productId, planId, now, ids, millis).value;
    var first := ProcessProductRenewal(db, tenantId, sid, productId, planId, now, ids, millis).1;
    UpdateKeepsLookup(g.1.subscriptions, g.1.plans, sid, planId, now);
    var b := RenewalBasis(g.1, tenantId, sid, planId).value;
    assert RenewalBasis(first, tenantId, sid, planId).Success?;
    var b' := RenewalBasis(first, tenantId, sid, planId).value;
    assert b'.sub.currentPeriodStart == b.sub.currentPeriodStart && b'.periodEnd == b.periodEnd;
    assert b == RenewalBasis(db, tenantId, sid, planId).value;
    assert PeriodInvoices(first.invoices, sid, b'.sub.currentPeriodStart, b'.periodEnd)
        == PeriodInvoices(g.1.invoices, sid, b.sub.currentPeriodStart, b.periodEnd);
    assert GenerateInvoiceForProductRenewal(first, tenantId, sid, productId, planId, now2, ids2, millis2)
        == Success((g.0, first));
  }
}
