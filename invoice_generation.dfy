/** InvoiceGenerationService: the invoice a product renewal produces. The
 *  subscription, its item for the plan and the plan are looked up, the
 *  billing period is computed, and unless an invoice for that period exists
 *  already, an OPEN invoice with one line and a payment task is written.
 *  The whole call is one transaction: when any step throws, nothing is
 *  written. The random ids and the millisecond clock are parameters. */
module InvoiceGeneration {
  import opened Common
  import opened Calendar
  import opened Records
  import opened Tasks
  import ScheduledTasks

  /** calculatePeriodEnd: the interval name is upper-cased and must be one
   *  of DAILY, WEEKLY, MONTHLY, QUARTERLY or YEARLY, a missing count is one;
   *  a missing name throws (toUpperCase on null) and so does any other
   *  name. */
  function CalculatePeriodEnd(start: Instant, interval: Option<string>, count: Option<int>): (r: Result<Instant>)
    ensures r.Success? <==> interval.Some? && StandardInterval(Upper(interval.value)).Some?
    ensures r.Success? ==>
              r.value == AddIntervals(start, StandardInterval(Upper(interval.value)).value,
                                      if count.Some? then count.value else 1)
  {
    match interval
    case None => Failure("billing interval is null")
    case Some(name) =>
      var n := if count.Some? then count.value else 1;
      var u := Upper(name);
      if u == "DAILY" then Success(PlusDays(start, n))
      else if u == "WEEKLY" then Success(PlusWeeks(start, n))
      else if u == "MONTHLY" then Success(PlusMonths(start, n))
      else if u == "QUARTERLY" then Success(PlusMonths(start, 3 * n))
      else if u == "YEARLY" then Success(PlusYears(start, n))
      else Failure("Unsupported billing interval: " + name)
  }

  /** generateInvoiceNumber: "INV-", the first eight characters of the
   *  tenant id upper-cased, "-", and the clock's milliseconds modulo one
   *  million in decimal. */
  function InvoiceNumber(tenantId: Uuid, millis: nat): (r: string)
    requires |tenantId| >= 8
    ensures |r| >= 14 && r[..4] == "INV-" && r[4..12] == Upper(tenantId[..8]) && r[12] == '-'
    ensures forall i :: 13 <= i < |r| ==> '0' <= r[i] <= '9'
    ensures DigitsValue(r[13..]) == millis % 1000000
  {
    var digits := DecimalText(millis % 1000000);
    DigitsValueOfDecimal(millis % 1000000);
    var r := "INV-" + Upper(tenantId[..8]) + "-" + digits;
    assert r[13..] == digits;
    r
  }

  /** generateLineItemDescription: "<product> - <plan> (<interval>)" with
   *  the item configuration's productName, or "Product" when it has none;
   *  "<plan> (<interval>)" when the configuration cannot be read. The
   *  interval is lower-cased; a plan without one throws. */
  function LineItemDescription(plan: Plan, item: SubscriptionItem): (r: Result<string>)
    ensures r.Success? <==> plan.billingInterval.Some?
    ensures r.Success? && item.itemConfig.Malformed? ==>
              r.value == plan.name + " (" + Lower(plan.billingInterval.value) + ")"
    ensures r.Success? && item.itemConfig.Json? ==>
              var suffix := plan.name + " (" + Lower(plan.billingInterval.value) + ")";
              var product := if "productName" in item.itemConfig.fields then item.itemConfig.fields["productName"] else "Product";
              r.value == product + " - " + suffix
  {
    match plan.billingInterval
    case None => Failure("billing interval is null")
    case Some(interval) =>
      var suffix := plan.name + " (" + Lower(interval) + ")";
      match item.itemConfig
      case Malformed => Success(suffix)
      case Json(fields) =>
        var product := if "productName" in fields then fields["productName"] else "Product";
        Success(product + " - " + suffix)
  }

  predicate RenewalItem(sid: Uuid, tenantId: Uuid, planId: Uuid, item: SubscriptionItem)
  {
    item.subscriptionId == sid && item.tenantId == tenantId && item.planId == planId
  }

  /** The items of the subscription for the plan, in the tenant. */
  function RenewalItems(items: seq<SubscriptionItem>, sid: Uuid, tenantId: Uuid, planId: Uuid): seq<SubscriptionItem>
  {
    Filter(items, item => RenewalItem(sid, tenantId, planId, item))
  }

  predicate ForPeriod(sid: Uuid, start: Instant, end: Instant, inv: Invoice)
  {
    inv.subscriptionId == sid && inv.periodStart == start && inv.periodEnd == end
  }

  /** findExistingInvoice's query: the invoices of the subscription with
   *  this period, in any tenant. */
  function PeriodInvoices(invoices: seq<Invoice>, sid: Uuid, start: Instant, end: Instant): seq<Invoice>
  {
    Filter(invoices, inv => ForPeriod(sid, start, end, inv))
  }

  /** What the invoice is built from: the subscription, its first item for
   *  the plan, the plan and the period's end. */
  datatype Basis = Basis(sub: Subscription, item: SubscriptionItem, plan: Plan, periodEnd: Instant)

  /** Steps 1 to 4: the subscription must exist in the tenant, have an item
   *  for the plan, the plan must exist in the tenant, and its interval must
   *  give a period end. Only the subscriptions, items and plans are read. */
  function RenewalBasis(db: Database, tenantId: Uuid, sid: Uuid, planId: Uuid): (r: Result<Basis>)
    ensures r.Success? <==>
              FindSubscription(db.subscriptions, sid).Some?
              && db.subscriptions[FindSubscription(db.subscriptions, sid).value].tenantId == tenantId
              && RenewalItems(db.items, sid, tenantId, planId) != []
              && FindPlanById(db.plans, planId).Some?
              && FindPlanById(db.plans, planId).value.tenantId == tenantId
              && CalculatePeriodEnd(db.subscriptions[FindSubscription(db.subscriptions, sid).value].currentPeriodStart,
                                    FindPlanById(db.plans, planId).value.billingInterval,
                                    FindPlanById(db.plans, planId).value.billingIntervalCount).Success?
    ensures r.Success? ==>
              r.value.sub in db.subscriptions && r.value.sub.id == sid && r.value.sub.tenantId == tenantId
              && r.value.item == RenewalItems(db.items, sid, tenantId, planId)[0]
              && r.value.plan.id == planId && r.value.plan.tenantId == tenantId
              && r.value.plan.billingInterval.Some?
  {
    var si := FindSubscription(db.subscriptions, sid);
    if si.None? || db.subscriptions[si.value].tenantId != tenantId then Failure("Subscription not found: " + sid)
    else
      var sub := db.subscriptions[si.value];
      var items := RenewalItems(db.items, sid, tenantId, planId);
      if items == [] then Failure("Subscription item not found for product")
      else
        var plan := FindPlanById(db.plans, planId);
        if plan.None? || plan.value.tenantId != tenantId then Failure("Plan not found: " + planId)
        else
          var end := CalculatePeriodEnd(sub.currentPeriodStart, plan.value.billingInterval, plan.value.billingIntervalCount);
          if end.Failure? then Failure(end.error)
          else Success(Basis(sub, items[0], plan.value, end.value))
  }

  /** The random ids a call draws: invoice, invoice line and payment task. */
  datatype NewIds = NewIds(invoiceId: Uuid, lineId: Uuid, taskId: Uuid)

  predicate InvoiceIdTaken(invoices: seq<Invoice>, id: Uuid)
  {
    exists i :: 0 <= i < |invoices| && invoices[i].id == id
  }

  predicate LineIdTaken(lines: seq<InvoiceLine>, id: Uuid)
  {
    exists i :: 0 <= i < |lines| && lines[i].id == id
  }

  /** The invoice as it stands after the totals update: OPEN, due thirty
   *  days from now, subtotal and total equal to the line's total, no tax,
   *  and the renewal metadata. */
  function RenewalInvoice(tenantId: Uuid, sid: Uuid, productId: string, planId: Uuid, b: Basis,
                          now: Instant, invoiceId: Uuid, number: string): Invoice
  {
    var total := b.item.quantity * b.item.unitPriceCents;
    Invoice(invoiceId, tenantId, sid, b.sub.customerId, number, "OPEN",
            b.sub.currentPeriodStart, b.periodEnd, total, 0, total, b.item.currency,
            PlusDays(now, 30),
            map["renewalType" := "PRODUCT_RENEWAL", "productId" := productId, "planId" := planId],
            now, now)
  }

  /** Steps 6 to 11, when no invoice for the period exists. A tenant id too
   *  short for the invoice number, a null product id (Map.of refuses it), a
   *  taken invoice or line id, a missing interval or a clash of the payment
   *  task throw, and nothing is written. */
  function CreateInvoice(db: Database, tenantId: Uuid, sid: Uuid, productId: Option<string>, planId: Uuid,
                         b: Basis, now: Instant, ids: NewIds, millis: nat): (r: Result<(Uuid, Database)>)
    ensures r.Success? <==>
              |tenantId| >= 8 && productId.Some? && !InvoiceIdTaken(db.invoices, ids.invoiceId)
              && b.plan.billingInterval.Some? && !LineIdTaken(db.invoiceLines, ids.lineId)
              && Insert(db.tasks, ScheduledTasks.ScheduledTask(ids.taskId, tenantId, ScheduledTasks.Payment(ids.invoiceId), now)).Success?
    ensures r.Success? ==>
              var db' := r.value.1;
              var total := b.item.quantity * b.item.unitPriceCents;
              r.value.0 == ids.invoiceId
              && |db'.invoices| == |db.invoices| + 1 && db'.invoices[..|db.invoices|] == db.invoices
              && db'.invoices[|db.invoices|].id == ids.invoiceId
              && db'.invoices[|db.invoices|].status == "OPEN"
              && db'.invoices[|db.invoices|].subtotalCents == total
              && db'.invoices[|db.invoices|].totalCents == total
              && db'.invoices[|db.invoices|].taxCents == 0
              && db'.invoices[|db.invoices|].dueDate == PlusDays(now, 30)
              && ForPeriod(sid, b.sub.currentPeriodStart, b.periodEnd, db'.invoices[|db.invoices|])
              && |db'.invoiceLines| == |db.invoiceLines| + 1 && db'.invoiceLines[..|db.invoiceLines|] == db.invoiceLines
              && db'.invoiceLines[|db.invoiceLines|].invoiceId == ids.invoiceId
              && db'.invoiceLines[|db.invoiceLines|].totalCents == total
              && db'.tasks == Insert(db.tasks, ScheduledTasks.ScheduledTask(ids.taskId, tenantId, ScheduledTasks.Payment(ids.invoiceId), now)).value
              && db'.(invoices := db.invoices, invoiceLines := db.invoiceLines, tasks := db.tasks) == db
  {
    if |tenantId| < 8 then Failure("begin 0, end 8, length " + IntText(|tenantId|))
    else if productId.None? then Failure("Map.of: null value")
    else if InvoiceIdTaken(db.invoices, ids.invoiceId) then Failure("Invoice creation failed")
    else
      var desc := LineItemDescription(b.plan, b.item);
      if desc.Failure? then Failure(desc.error)
      else if LineIdTaken(db.invoiceLines, ids.lineId) then Failure("Invoice line creation failed")
      else
        var tasks := Insert(db.tasks, ScheduledTasks.ScheduledTask(ids.taskId, tenantId, ScheduledTasks.Payment(ids.invoiceId), now));
        if tasks.Failure? then Failure("Payment scheduling failed")
        else
          var invoice := RenewalInvoice(tenantId, sid, productId.value, planId, b, now, ids.invoiceId, InvoiceNumber(tenantId, millis));
          var line := InvoiceLine(ids.lineId, tenantId, ids.invoiceId, desc.value, b.item.quantity,
                                  b.item.unitPriceCents, b.item.quantity * b.item.unitPriceCents,
                                  b.item.currency, b.sub.currentPeriodStart, b.periodEnd);
          Success((ids.invoiceId, db.(invoices := db.invoices + [invoice],
                                      invoiceLines := db.invoiceLines + [line],
                                      tasks := tasks.value)))
  }

  /** generateInvoiceForProductRenewal. When exactly one invoice for the
   *  period exists, its id is answered and nothing is written; when more
   *  than one exists, fetchOne throws. */
  function GenerateInvoiceForProductRenewal(db: Database, tenantId: Uuid, sid: Uuid, productId: Option<string>,
                                            planId: Uuid, now: Instant, ids: NewIds, millis: nat): (r: Result<(Uuid, Database)>)
    ensures RenewalBasis(db, tenantId, sid, planId).Failure? ==> r.Failure?
    ensures r.Success? ==> r.value.1.subscriptions == db.subscriptions && r.value.1.items == db.items
                           && r.value.1.plans == db.plans && r.value.1.deliveries == db.deliveries
                           && r.value.1.entitlements == db.entitlements
    ensures r.Success? ==>
              var b := RenewalBasis(db, tenantId, sid, planId).value;
              var period := PeriodInvoices(r.value.1.invoices, sid, b.sub.currentPeriodStart, b.periodEnd);
              |period| == 1 && period[0].id == r.value.0
    ensures r.Success? ==> Extends(db.tasks, r.value.1.tasks)
  {
    var basis := RenewalBasis(db, tenantId, sid, planId);
    if basis.Failure? then Failure(basis.error)
    else
      var b := basis.value;
      var existing := PeriodInvoices(db.invoices, sid, b.sub.currentPeriodStart, b.periodEnd);
      if |existing| > 1 then Failure("Query returned more than one row")
      else if |existing| == 1 then Success((existing[0].id, db))
      else
        var r := CreateInvoice(db, tenantId, sid, productId, planId, b, now, ids, millis);
        if r.Success? then
          var inv := r.value.1.invoices[|db.invoices|];
          FilterSnoc(db.invoices, inv, inv => ForPeriod(sid, b.sub.currentPeriodStart, b.periodEnd, inv));
          assert r.value.1.invoices == db.invoices + [inv];
          r
        else r
  }

  /** Idempotence: once a renewal has produced its invoice, running it
   *  again for the same subscription and plan, with any fresh ids and any
   *  clock, answers the same invoice id and writes nothing. */
  lemma {:induction false} GenerateAgainIsIdempotent(db: Database, tenantId: Uuid, sid: Uuid, productId: Option<string>,
                                  planId: Uuid, now: Instant, ids: NewIds, millis: nat,
                                  now2: Instant, ids2: NewIds, millis2: nat)
    requires GenerateInvoiceForProductRenewal(db, tenantId, sid, productId, planId, now, ids, millis).Success?
    ensures var first := GenerateInvoiceForProductRenewal(db, tenantId, sid, productId, planId, now, ids, millis).value;
            GenerateInvoiceForProductRenewal(first.1, tenantId, sid, productId, planId, now2, ids2, millis2)
              == Success((first.0, first.1))
  {
    var first := GenerateInvoiceForProductRenewal(db, tenantId, sid, productId, planId, now, ids, millis).value;
    var db' := first.1;
    BasisReadsSubscriptionsItemsPlans(db, db', tenantId, sid, planId);
    GenerateFindsOne(db', tenantId, sid, productId, planId, now2, ids2, millis2, first.0);
  }

  /** The basis is read from the subscriptions, the items and the plans. */
  lemma BasisReadsSubscriptionsItemsPlans(db: Database, db': Database, tenantId: Uuid, sid: Uuid, planId: Uuid)
    requires db'.subscriptions == db.subscriptions && db'.items == db.items && db'.plans == db.plans
    ensures RenewalBasis(db', tenantId, sid, planId) == RenewalBasis(db, tenantId, sid, planId)
  {
  }

  /** With exactly one invoice for the period, the renewal answers its id
   *  and writes nothing. */
  lemma GenerateFindsOne(db: Database, tenantId: Uuid, sid: Uuid, productId: Option<string>,
                         planId: Uuid, now: Instant, ids: NewIds, millis: nat, invoiceId: Uuid)
    requires RenewalBasis(db, tenantId, sid, planId).Success?
    requires var b := RenewalBasis(db, tenantId, sid, planId).value;
             var period := PeriodInvoices(db.invoices, sid, b.sub.currentPeriodStart, b.periodEnd);
             |period| == 1 && period[0].id == invoiceId
    ensures GenerateInvoiceForProductRenewal(db, tenantId, sid, productId, planId, now, ids, millis) == Success((invoiceId, db))
  {
  }

  /** A renewal that finds no invoice for its period and succeeds adds
   *  exactly one OPEN invoice whose totals are the item's quantity times
   *  its unit price, one line for it, and one CHARGE_PAYMENT task due now. */
  lemma {:induction false} NewInvoiceTotals(db: Database, tenantId: Uuid, sid: Uuid, productId: Option<string>,
                                            planId: Uuid, now: Instant, ids: NewIds, millis: nat)
    requires RenewalBasis(db, tenantId, sid, planId).Success?
    requires var b := RenewalBasis(db, tenantId, sid, planId).value;
             PeriodInvoices(db.invoices, sid, b.sub.currentPeriodStart, b.periodEnd) == []
    requires GenerateInvoiceForProductRenewal(db, tenantId, sid, productId, planId, now, ids, millis).Success?
    ensures var b := RenewalBasis(db, tenantId, sid, planId).value;
            var r := GenerateInvoiceForProductRenewal(db, tenantId, sid, productId, planId, now, ids, millis).value;
            var total := b.item.quantity * b.item.unitPriceCents;
            r.0 == ids.invoiceId
            && |r.1.invoices| == |db.invoices| + 1
            && r.1.invoices[|db.invoices|].status == "OPEN"
            && r.1.invoices[|db.invoices|].subtotalCents == total
            && r.1.invoices[|db.invoices|].totalCents == total
            && |r.1.invoiceLines| == |db.invoiceLines| + 1
            && r.1.invoiceLines[|db.invoiceLines|].totalCents == total
            && |r.1.tasks| == |db.tasks| + 1
            && r.1.tasks[|db.tasks|].taskType == ChargePaymentType
            && r.1.tasks[|db.tasks|].dueAt == now
  {
    var b := RenewalBasis(db, tenantId, sid, planId).value;
    var c := CreateInvoice(db, tenantId, sid, productId, planId, b, now, ids, millis);
    assert GenerateInvoiceForProductRenewal(db, tenantId, sid, productId, planId, now, ids, millis) == c;
    PaymentTaskRow(db.tasks, ids.taskId, tenantId, ids.invoiceId, now);
  }

  /** The payment task the invoice schedules is the one new row, a
   *  CHARGE_PAYMENT task due at once. */
  lemma PaymentTaskRow(tasks: seq<Task>, taskId: Uuid, tenantId: Uuid, invoiceId: Uuid, now: Instant)
    requires Insert(tasks, ScheduledTasks.ScheduledTask(taskId, tenantId, ScheduledTasks.Payment(invoiceId), now)).Success?
    ensures var rows := Insert(tasks, ScheduledTasks.ScheduledTask(taskId, tenantId, ScheduledTasks.Payment(invoiceId), now)).value;
            |rows| == |tasks| + 1 && rows[|tasks|].taskType == ChargePaymentType && rows[|tasks|].dueAt == now
  {
  }
}
