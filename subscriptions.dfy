/** SubscriptionsService: creating a subscription for a tenant. The plan must
 *  exist in the tenant and be ACTIVE; the customer is found by email (or,
 *  without an email, by external id) and updated, or created; the first
 *  period runs one billing interval from the start date; the subscription,
 *  its product items, its history and its scheduled tasks are written in
 *  one transaction, so any exception leaves every table as it was. The
 *  random ids, the clock and the caller's role are parameters. */
module Subscriptions {
  import opened Common
  import opened Calendar
  import opened Records
  import opened Tasks
  import opened ScheduledTasks
  import opened SubscriptionHistory
  import opened SubscriptionStore
  import opened ProductItems
  import PlanValidation
  import InvoiceGeneration
  import UserRole

  // ---------------------------------------------------------------- pure helpers

  /** calculatePeriodEnd: one billing interval after start (QUARTERLY being
   *  three months); the plan's interval count is not consulted. A null
   *  interval (toUpperCase on null) or an unknown one throws. */
  function PeriodEnd(start: Instant, interval: Option<string>): (r: Result<Instant>)
    ensures r == InvoiceGeneration.CalculatePeriodEnd(start, interval, Some(1))
  {
    match interval
    case None => Failure("billing interval is null")
    case Some(name) =>
      var u := Upper(name);
      if u == "DAILY" then Success(PlusDays(start, 1))
      else if u == "WEEKLY" then Success(PlusWeeks(start, 1))
      else if u == "MONTHLY" then Success(PlusMonths(start, 1))
      else if u == "QUARTERLY" then Success(PlusMonths(start, 3))
      else if u == "YEARLY" then Success(PlusYears(start, 1))
      else Failure("Unsupported billing interval: " + name)
  }

  /** determinePerformedByType: the history's actor kind for the caller's
   *  role text, matched exactly. */
  function PerformedByType(role: Option<string>): (r: string)
    ensures r == "ADMIN" || r == "CUSTOMER" || r == "SYSTEM"
    ensures r == "CUSTOMER" <==> role == Some("CUSTOMER")
    ensures r == "ADMIN" <==> role == Some("SUPER_ADMIN") || role == Some("TENANT_ADMIN") || role == Some("STAFF")
  {
    match role
    case None => "SYSTEM"
    case Some(name) =>
      if name == "CUSTOMER" then "CUSTOMER"
      else if name == "SUPER_ADMIN" || name == "TENANT_ADMIN" || name == "STAFF" then "ADMIN"
      else "SYSTEM"
  }

  /** Every role's own name is classified as its kind: the administrative
   *  roles as ADMIN and the customer role as CUSTOMER. */
  lemma PerformedByTypeOfRole(role: UserRole.Role)
    ensures PerformedByType(Some(UserRole.Name(role))) == if UserRole.IsAdmin(role) then "ADMIN" else "CUSTOMER"
  {
  }

  /** validateAndGetPlan: the plan with this id in the tenant, which must be
   *  ACTIVE. */
  function ValidateAndGetPlan(plans: seq<Plan>, planId: Uuid, tenantId: Uuid): (r: Result<Plan>)
    ensures !PlanIn(plans, planId, tenantId) ==> r == Failure("Plan not found: " + planId)
    ensures r.Success? ==> r.value in plans && r.value.id == planId && r.value.tenantId == tenantId
                           && r.value.status == PlanActive
    ensures PlanIn(plans, planId, tenantId) && FindPlan(plans, planId, tenantId).value.status != PlanActive
            ==> r == Failure("Plan is not active: " + planId)
  {
    match FindPlan(plans, planId, tenantId)
    case None => Failure("Plan not found: " + planId)
    case Some(plan) => if plan.status != PlanActive then Failure("Plan is not active: " + planId) else Success(plan)
  }

  // ---------------------------------------------------------------- customer upsert

  /** The customer fields of a creation request. */
  datatype CustomerRequest = CustomerRequest(
    email: Option<string>,
    externalCustomerId: Option<string>,
    firstName: Option<string>,
    lastName: Option<string>,
    phone: Option<string>)

  /** The lookup upsertCustomer runs: by email when there is one, else by
   *  external id; with neither it does not look. */
  predicate MatchesRequest(c: Customer, req: CustomerRequest, tenantId: Uuid)
  {
    c.tenantId == tenantId
    && if req.email.Some? then c.email == req.email
       else req.externalCustomerId.Some? && c.externalCustomerId == req.externalCustomerId
  }

  /** The positions of the customers the lookup returns, in table order. */
  function MatchPositions(cs: seq<Customer>, req: CustomerRequest, tenantId: Uuid): (r: seq<nat>)
    ensures forall i :: 0 <= i < |r| ==> r[i] < |cs| && MatchesRequest(cs[r[i]], req, tenantId)
    ensures forall j :: 0 <= j < |cs| && MatchesRequest(cs[j], req, tenantId) ==> j in r
    decreases |cs|
  {
    if cs == [] then []
    else
      var last := |cs| - 1;
      var r := MatchPositions(cs[..last], req, tenantId);
      assert forall j :: 0 <= j < last ==> cs[..last][j] == cs[j];
      r + (if MatchesRequest(cs[last], req, tenantId) then [last] else [])
  }

  /** Tables whose rows match the lookup at the same places give the same
   *  positions. */
  lemma {:induction false} MatchPositionsAgree(a: seq<Customer>, b: seq<Customer>, req: CustomerRequest, tenantId: Uuid)
    requires |a| == |b|
    requires forall i :: 0 <= i < |a| ==> (MatchesRequest(a[i], req, tenantId) <==> MatchesRequest(b[i], req, tenantId))
    ensures MatchPositions(a, req, tenantId) == MatchPositions(b, req, tenantId)
    decreases |a|
  {
    if a != [] {
      MatchPositionsAgree(a[..|a| - 1], b[..|b| - 1], req, tenantId);
    }
  }

  /** The row a new customer gets: ACTIVE and REGISTERED. */
  function NewCustomer(id: Uuid, tenantId: Uuid, req: CustomerRequest): Customer
  {
    Customer(id, tenantId, req.email, req.externalCustomerId, req.firstName, req.lastName, req.phone,
             "ACTIVE", Some("REGISTERED"))
  }

  predicate HasCustomerId(cs: seq<Customer>, id: Uuid)
  {
    exists i :: 0 <= i < |cs| && cs[i].id == id
  }

  /** upsertCustomer: a customer the lookup finds gets the request's names
   *  and phone (a null overwrites too); otherwise a new customer is
   *  inserted. A lookup that returns more than one row throws, and so does
   *  an insert whose id is taken. */
  function UpsertCustomer(cs: seq<Customer>, req: CustomerRequest, tenantId: Uuid, newId: Uuid): (r: Result<(Customer, seq<Customer>)>)
    ensures var p := MatchPositions(cs, req, tenantId);
            var looks := req.email.Some? || req.externalCustomerId.Some?;
            (r.Failure? <==> (looks && |p| > 1) || ((!looks || |p| == 0) && HasCustomerId(cs, newId)))
            && (r.Success? && looks && |p| == 1 ==>
                  r.value.1 == cs[p[0] := r.value.0]
                  && r.value.0 == cs[p[0]].(firstName := req.firstName, lastName := req.lastName, phone := req.phone))
            && (r.Success? && (!looks || |p| == 0) ==>
                  r.value.1 == cs + [r.value.0] && r.value.0 == NewCustomer(newId, tenantId, req))
    ensures r.Success? ==> r.value.0.tenantId == tenantId && r.value.0 in r.value.1
                           && r.value.0.firstName == req.firstName && r.value.0.lastName == req.lastName
  {
    var p := MatchPositions(cs, req, tenantId);
    var looks := req.email.Some? || req.externalCustomerId.Some?;
    if looks && |p| > 1 then Failure("Query returned more than one customer")
    else if looks && |p| == 1 then
      var c := cs[p[0]].(firstName := req.firstName, lastName := req.lastName, phone := req.phone);
      var updated := cs[p[0] := c];
      assert updated[p[0]] == c;
      Success((c, updated))
    else if HasCustomerId(cs, newId) then Failure("duplicate key value violates unique constraint")
    else
      var c := NewCustomer(newId, tenantId, req);
      Success((c, cs + [c]))
  }

  /** Upserting the same customer again, when the request names an email or
   *  an external id, finds the one customer the first upsert left and
   *  changes nothing. */
  lemma UpsertCustomerIdempotent(cs: seq<Customer>, req: CustomerRequest, tenantId: Uuid, newId: Uuid, newId2: Uuid)
    requires req.email.Some? || req.externalCustomerId.Some?
    requires UpsertCustomer(cs, req, tenantId, newId).Success?
    ensures var (c, cs1) := UpsertCustomer(cs, req, tenantId, newId).value;
            UpsertCustomer(cs1, req, tenantId, newId2) == Success((c, cs1))
  {
    var p := MatchPositions(cs, req, tenantId);
    var (c, cs1) := UpsertCustomer(cs, req, tenantId, newId).value;
    if |p| == 1 {
      assert MatchPositions(cs1, req, tenantId) == p by {
        MatchPositionsAgree(cs, cs1, req, tenantId);
      }
      assert cs1[p[0]] == c;
      assert c.(firstName := req.firstName, lastName := req.lastName, phone := req.phone) == c;
      UpdateSame(cs1, p[0], c);
    } else {
      assert MatchPositions(cs1, req, tenantId) == [|cs|] by {
        InsertedIsFound(cs, req, tenantId, c, cs1);
      }
      assert cs1[|cs|] == c;
      UpdateSame(cs1, |cs|, c);
    }
  }

  /** After an insert the lookup finds exactly the new row. */
  lemma InsertedIsFound(cs: seq<Customer>, req: CustomerRequest, tenantId: Uuid, c: Customer, cs1: seq<Customer>)
    requires req.email.Some? || req.externalCustomerId.Some?
    requires MatchPositions(cs, req, tenantId) == []
    requires cs1 == cs + [c] && c == NewCustomer(c.id, tenantId, req)
    ensures MatchPositions(cs1, req, tenantId) == [|cs|]
  {
    assert cs1[..|cs|] == cs;
  }

  // ---------------------------------------------------------------- the request

  /** CreateSubscriptionRequest: the plan, the customer, the payment method,
   *  the trial, the start date override, the shipping address and the
   *  products of an e-commerce subscription. */
  datatype CreateRequest = CreateRequest(
    planId: Uuid,
    customer: CustomerRequest,
    paymentMethodRef: Option<string>,
    trialStart: Option<Instant>,
    trialEnd: Option<Instant>,
    startDate: Option<Instant>,
    shippingAddress: Option<string>,
    products: Option<seq<ProductItem>>)

  /** hasProducts: a non-empty product list makes the subscription an
   *  e-commerce one. */
  predicate HasProducts(req: CreateRequest)
  {
    req.products.Some? && |req.products.value| > 0
  }

  function Products(req: CreateRequest): seq<ProductItem>
  {
    if req.products.Some? then req.products.value else []
  }

  /** The caller: the tenant, the clock, the user and the user's role. */
  datatype Caller = Caller(tenantId: Uuid, now: Instant, userId: Option<Uuid>, role: Option<string>)

  /** The random ids a creation draws: for the subscription, a new customer,
   *  the two history rows, the trial-end and renewal tasks, and, per
   *  product, an item, a placeholder plan and a product renewal task. */
  datatype FreshIds = FreshIds(
    subscriptionId: Uuid,
    customerId: Uuid,
    creationHistoryId: Uuid,
    productsHistoryId: Uuid,
    trialTaskId: Uuid,
    renewalTaskId: Uuid,
    itemId: nat -> Uuid,
    itemPlanId: nat -> Uuid,
    productTaskId: nat -> Uuid)

  /** The plan snapshot is built with Map.of, which throws on a null value:
   *  the simple snapshot holds the base price, interval count and plan
   *  type; the e-commerce one the interval count. */
  predicate SnapshotComplete(plan: Plan, ecommerce: bool)
  {
    plan.billingIntervalCount.Some?
    && (!ecommerce ==> plan.basePriceCents.Some? && plan.planType.Some?)
  }

  /** The subscription row a creation inserts. */
  function NewSubscriptionRow(caller: Caller, req: CreateRequest, planId: Uuid, customerId: Uuid, sid: Uuid,
                              start: Instant, end: Instant): (r: Subscription)
    ensures r.status == (if req.trialStart.Some? then Trialing else Active)
    ensures r.currentPeriodStart == start && r.currentPeriodEnd == Some(end)
    ensures r.nextRenewalAt == Some(if req.trialEnd.Some? then req.trialEnd.value else end)
    ensures r.cancelAtPeriodEnd == Some(false) && r.canceledAt.None?
    ensures r.id == sid && r.tenantId == caller.tenantId && r.customerId == customerId && r.planId == planId
  {
    Subscription(sid, caller.tenantId, customerId, planId,
                 if req.trialStart.Some? then Trialing else Active,
                 start, Some(end),
                 Some(if req.trialEnd.Some? then req.trialEnd.value else end),
                 Some(false), None, None, req.paymentMethodRef, req.shippingAddress,
                 req.trialStart, req.trialEnd, map[], caller.now, caller.now)
  }

  // ---------------------------------------------------------------- product items

  predicate HasItemId(items: seq<SubscriptionItem>, id: Uuid)
  {
    exists i :: 0 <= i < |items| && items[i].id == id
  }

  /** The item createSubscriptionItems writes for a product: its item
   *  configuration is built with Map.of (a null product id or name throws),
   *  and its quantity, price and currency fill NOT NULL columns. */
  function ItemRow(sid: Uuid, tenantId: Uuid, p: ProductItem, id: Uuid, planId: Uuid): (r: Result<SubscriptionItem>)
    ensures r.Success? <==> p.productId.Some? && p.productName.Some? && p.quantity.Some?
                            && p.unitPriceCents.Some? && p.currency.Some?
    ensures r.Success? ==> r.value.id == id && r.value.subscriptionId == sid && r.value.tenantId == tenantId
                           && r.value.planId == planId && r.value.quantity == p.quantity.value
                           && r.value.unitPriceCents == p.unitPriceCents.value && r.value.currency == p.currency.value
  {
    if p.productId.None? || p.productName.None? then Failure("NullPointerException")
    else if p.quantity.None? || p.unitPriceCents.None? || p.currency.None? then Failure("null value violates not-null constraint")
    else
      Success(SubscriptionItem(id, tenantId, sid, planId, p.quantity.value, p.unitPriceCents.value, p.currency.value,
                               Json(map["productId" := p.productId.value, "productName" := p.productName.value,
                                        "type" := "PRODUCT"])))
  }

  /** The items of products[from..] appended one by one; a product that
   *  cannot be written, or an item id already taken, throws. */
  function InsertItems(items: seq<SubscriptionItem>, sid: Uuid, tenantId: Uuid, products: seq<ProductItem>,
                       itemId: nat -> Uuid, planIdOf: nat -> Uuid, from: nat): (r: Result<seq<SubscriptionItem>>)
    requires from <= |products|
    ensures r.Success? ==> |r.value| == |items| + |products| - from && r.value[..|items|] == items
    ensures r.Success? ==> forall j :: from <= j < |products| ==>
              ItemRow(sid, tenantId, products[j], itemId(j), planIdOf(j)) == Success(r.value[|items| + j - from])
    decreases |products| - from
  {
    if from == |products| then Success(items)
    else
      var row := ItemRow(sid, tenantId, products[from], itemId(from), planIdOf(from));
      if row.Failure? then Failure(row.error)
      else if HasItemId(items, row.value.id) then Failure("duplicate key value violates unique constraint")
      else
        var r := InsertItems(items + [row.value], sid, tenantId, products, itemId, planIdOf, from + 1);
        if r.Success? then
          assert r.value[..|items|] == (r.value[..|items| + 1])[..|items|];
          r
        else r
  }

  /** The items as written: each gets a fresh random plan id as a
   *  placeholder. */
  function ItemsAsWritten(items: seq<SubscriptionItem>, sid: Uuid, tenantId: Uuid, products: seq<ProductItem>,
                          ids: FreshIds): Result<seq<SubscriptionItem>>
  {
    InsertItems(items, sid, tenantId, products, ids.itemId, ids.itemPlanId, 0)
  }

  /** The items with the subscription's plan, as the product renewal's
   *  invoice generation looks them up. */
  function Items(items: seq<SubscriptionItem>, sid: Uuid, tenantId: Uuid, products: seq<ProductItem>,
                 ids: FreshIds, planId: Uuid): Result<seq<SubscriptionItem>>
  {
    InsertItems(items, sid, tenantId, products, ids.itemId, (_: nat) => planId, 0)
  }

  /** As written, when no placeholder happens to equal the plan's id, the
   *  product renewal's item lookup (subscription, tenant, plan) finds no
   *  item of the new subscription, so its invoice generation throws. */
  lemma ItemsAsWrittenAreUnfindable(items: seq<SubscriptionItem>, sid: Uuid, tenantId: Uuid,
                                    products: seq<ProductItem>, ids: FreshIds, planId: Uuid)
    requires forall i :: 0 <= i < |items| ==> items[i].subscriptionId != sid
    requires forall j: nat :: j < |products| ==> ids.itemPlanId(j) != planId
    requires ItemsAsWritten(items, sid, tenantId, products, ids).Success?
    ensures InvoiceGeneration.RenewalItems(ItemsAsWritten(items, sid, tenantId, products, ids).value, sid, tenantId, planId) == []
  {
    var r := ItemsAsWritten(items, sid, tenantId, products, ids).value;
    forall i | 0 <= i < |r| ensures !InvoiceGeneration.RenewalItem(sid, tenantId, planId, r[i]) {
      if i < |items| {
        assert r[i] == r[..|items|][i];
      } else {
        var j := i - |items|;
        assert ItemRow(sid, tenantId, products[j], ids.itemId(j), ids.itemPlanId(j)) == Success(r[i]);
      }
    }
    FilterNone(r, (item: SubscriptionItem) => InvoiceGeneration.RenewalItem(sid, tenantId, planId, item));
  }

  lemma {:induction false} FilterNone<T>(xs: seq<T>, p: T -> bool)
    requires forall i :: 0 <= i < |xs| ==> !p(xs[i])
    ensures Filter(xs, p) == []
  {
    if xs != [] {
      FilterNone(xs[1..], p);
    }
  }

  /** With the plan's id, every product's item is among those the product
   *  renewal finds. */
  lemma ItemsAreFindable(items: seq<SubscriptionItem>, sid: Uuid, tenantId: Uuid,
                         products: seq<ProductItem>, ids: FreshIds, planId: Uuid)
    requires Items(items, sid, tenantId, products, ids, planId).Success?
    ensures var r := Items(items, sid, tenantId, products, ids, planId).value;
            |r| == |items| + |products|
            && forall i :: |items| <= i < |r| ==> r[i] in InvoiceGeneration.RenewalItems(r, sid, tenantId, planId)
  {
    var r := Items(items, sid, tenantId, products, ids, planId).value;
    forall i | |items| <= i < |r| ensures r[i] in InvoiceGeneration.RenewalItems(r, sid, tenantId, planId) {
      var j := i - |items|;
      assert ItemRow(sid, tenantId, products[j], ids.itemId(j), planId) == Success(r[i]);
    }
  }

  // ---------------------------------------------------------------- tasks

  /** The rows scheduleProductRenewal writes, one per product, due at the
   *  end of the first period; a null product id throws. */
  function ProductRenewalTasks(tenantId: Uuid, sid: Uuid, products: seq<ProductItem>, planId: Uuid, dueAt: Instant,
                               taskId: nat -> Uuid): (r: Option<seq<Task>>)
    ensures r.Some? <==> forall j :: 0 <= j < |products| ==> products[j].productId.Some?
    ensures r.Some? ==> |r.value| == |products|
    ensures r.Some? ==> forall j :: 0 <= j < |products| ==>
              r.value[j] == ScheduledTask(taskId(j), tenantId, ProductRenewal(sid, products[j].productId.value, planId), dueAt)
  {
    if exists j :: 0 <= j < |products| && products[j].productId.None? then None
    else
      Some(seq(|products|, j requires 0 <= j < |products| =>
                 ScheduledTask(taskId(j), tenantId, ProductRenewal(sid, products[j].productId.value, planId), dueAt)))
  }

  /** The rows inserted one after the other; an id or key already taken
   *  throws. */
  function InsertAll(tasks: seq<Task>, news: seq<Task>): (r: Result<seq<Task>>)
    ensures r.Success? ==> r.value == tasks + news && Extends(tasks, r.value)
    decreases |news|
  {
    if news == [] then Success(tasks)
    else
      var ins := Insert(tasks, news[0]);
      if ins.Failure? then Failure(ins.error)
      else
        var r := InsertAll(ins.value, news[1..]);
        if r.Success? then
          ExtendsTrans(tasks, ins.value, r.value);
          assert tasks + news == tasks + [news[0]] + news[1..];
          r
        else r
  }

  /** The product renewals of an e-commerce subscription. */
  function InsertProductRenewals(tasks: seq<Task>, tenantId: Uuid, sid: Uuid, products: seq<ProductItem>,
                                 planId: Uuid, dueAt: Instant, taskId: nat -> Uuid): (r: Result<seq<Task>>)
    ensures r.Success? ==> ProductRenewalTasks(tenantId, sid, products, planId, dueAt, taskId).Some?
                           && r.value == tasks + ProductRenewalTasks(tenantId, sid, products, planId, dueAt, taskId).value
                           && Extends(tasks, r.value)
  {
    match ProductRenewalTasks(tenantId, sid, products, planId, dueAt, taskId)
    case None => Failure("NullPointerException")
    case Some(news) => InsertAll(tasks, news)
  }

  lemma ExtendsTrans(a: seq<Task>, b: seq<Task>, c: seq<Task>)
    requires Extends(a, b) && Extends(b, c)
    ensures Extends(a, c)
  {
    assert c[..|a|] == c[..|b|][..|a|];
    forall j | |a| <= j < |c| ensures !HasId(a, c[j].id) {
      if j < |b| {
        assert c[j] == c[..|b|][j];
      } else {
        forall i | 0 <= i < |a| ensures a[i].id != c[j].id {
          assert b[i] == b[..|a|][i];
          assert !(0 <= i < |b| && b[i].id == c[j].id);
        }
      }
    }
  }

  /** The trial-end task, inserted when the request has a trial end. */
  function TrialTask(tasks: seq<Task>, tenantId: Uuid, sid: Uuid, req: CreateRequest, ids: FreshIds): (r: Result<seq<Task>>)
    ensures req.trialEnd.None? ==> r == Success(tasks)
    ensures req.trialEnd.Some? ==> r == Insert(tasks, ScheduledTask(ids.trialTaskId, tenantId, TrialEnd(sid), req.trialEnd.value))
    ensures r.Success? ==> Extends(tasks, r.value)
  {
    if req.trialEnd.Some? then Insert(tasks, ScheduledTask(ids.trialTaskId, tenantId, TrialEnd(sid), req.trialEnd.value))
    else Success(tasks)
  }

  /** The renewals: one product renewal per product for an e-commerce
   *  subscription, due at the end of the first period; the renewal upsert
   *  at the next renewal for a simple one. */
  function RenewalTasks(tasks: seq<Task>, tenantId: Uuid, sid: Uuid, req: CreateRequest, planId: Uuid,
                        end: Instant, ids: FreshIds): (r: Result<seq<Task>>)
    ensures HasProducts(req) ==> r == InsertProductRenewals(tasks, tenantId, sid, Products(req), planId, end, ids.productTaskId)
    ensures !HasProducts(req) ==>
              r == UpsertRenewal(tasks, tenantId, sid, if req.trialEnd.Some? then req.trialEnd.value else end, ids.renewalTaskId)
  {
    if HasProducts(req) then InsertProductRenewals(tasks, tenantId, sid, Products(req), planId, end, ids.productTaskId)
    else UpsertRenewal(tasks, tenantId, sid, if req.trialEnd.Some? then req.trialEnd.value else end, ids.renewalTaskId)
  }

  /** The tasks a creation schedules: the trial-end task, then the renewals. */
  function CreationTasks(tasks: seq<Task>, tenantId: Uuid, sid: Uuid, req: CreateRequest, planId: Uuid,
                         end: Instant, ids: FreshIds): (r: Result<seq<Task>>)
    ensures r.Success? <==> TrialTask(tasks, tenantId, sid, req, ids).Success?
                            && RenewalTasks(TrialTask(tasks, tenantId, sid, req, ids).value, tenantId, sid, req, planId, end, ids).Success?
    ensures r.Success? ==> r == RenewalTasks(TrialTask(tasks, tenantId, sid, req, ids).value, tenantId, sid, req, planId, end, ids)
  {
    var withTrial := TrialTask(tasks, tenantId, sid, req, ids);
    if withTrial.Failure? then withTrial
    else RenewalTasks(withTrial.value, tenantId, sid, req, planId, end, ids)
  }

  // ---------------------------------------------------------------- createSubscription

  /** The subscription createSubscription inserts, from the plan, the
   *  customer and the dates: the period starts at the start date (now when
   *  none is given) and ends one interval later. */
  datatype Created = Created(plan: Plan, customer: Customer, customers: seq<Customer>, row: Subscription)

  /** Steps 1 to 4: the plan, the products against its category, the
   *  customer, the period, the snapshot and the subscription row. */
  function Prepare(t: Tables, caller: Caller, req: CreateRequest, ids: FreshIds): (r: Result<Created>)
    ensures r.Success? ==> ValidateAndGetPlan(t.plans, req.planId, caller.tenantId).Success?
                           && r.value.plan == ValidateAndGetPlan(t.plans, req.planId, caller.tenantId).value
    ensures r.Success? ==>
              var start := if req.startDate.Some? then req.startDate.value else caller.now;
              PeriodEnd(start, r.value.plan.billingInterval).Success?
              && r.value.row == NewSubscriptionRow(caller, req, r.value.plan.id, r.value.customer.id, ids.subscriptionId,
                                                   start, PeriodEnd(start, r.value.plan.billingInterval).value)
              && UpsertCustomer(t.customers, req.customer, caller.tenantId, ids.customerId)
                 == Success((r.value.customer, r.value.customers))
    ensures !PlanIn(t.plans, req.planId, caller.tenantId) ==> r.Failure?
    ensures HasProducts(req) && r.Success? ==>
              PlanValidation.ValidateSubscriptionRequest(r.value.plan, true, |Products(req)|).valid
  {
    var plan := ValidateAndGetPlan(t.plans, req.planId, caller.tenantId);
    if plan.Failure? then Failure(plan.error)
    else if HasProducts(req) && !PlanValidation.ValidateSubscriptionRequest(plan.value, true, |Products(req)|).valid then
      Failure("Product validation failed")
    else
      var up := UpsertCustomer(t.customers, req.customer, caller.tenantId, ids.customerId);
      if up.Failure? then Failure(up.error)
      else
        var start := if req.startDate.Some? then req.startDate.value else caller.now;
        var end := PeriodEnd(start, plan.value.billingInterval);
        if end.Failure? then Failure(end.error)
        else if !SnapshotComplete(plan.value, HasProducts(req)) then Failure("Failed to create plan snapshot")
        else
          Success(Created(plan.value, up.value.0, up.value.1,
                          NewSubscriptionRow(caller, req, plan.value.id, up.value.0.id, ids.subscriptionId, start, end.value)))
  }

  function HistoryContext(caller: Caller, sid: Uuid, id: Uuid): RecordContext
  {
    RecordContext(id, caller.tenantId, sid, caller.userId, Some(PerformedByType(caller.role)), caller.now)
  }

  /** createSubscription: the new subscription's id and the tables after the
   *  transaction. */
  function Create(t: Tables, caller: Caller, req: CreateRequest, ids: FreshIds): (r: Result<(Uuid, Tables)>)
    ensures !PlanIn(t.plans, req.planId, caller.tenantId) ==> r.Failure?
    ensures r.Success? ==> Prepare(t, caller, req, ids).Success? && r.value.0 == ids.subscriptionId
    ensures r.Success? ==>
              var c := Prepare(t, caller, req, ids).value;
              var sid := ids.subscriptionId;
              var end := c.row.currentPeriodEnd.value;
              FindSubscription(t.subscriptions, sid).None?
              && r.value.1.plans == t.plans
              && r.value.1.customers == c.customers
              && r.value.1.subscriptions == t.subscriptions + [c.row]
              && (HasProducts(req) ==> Items(t.items, sid, caller.tenantId, Products(req), ids, c.plan.id)
                                       == Success(r.value.1.items))
              && (!HasProducts(req) ==> r.value.1.items == t.items)
              && CreationTasks(t.tasks, caller.tenantId, sid, req, c.plan.id, end, ids) == Success(r.value.1.tasks)
    ensures r.Success? ==>
              var sid := ids.subscriptionId;
              var created := RecordCreation(t.history, HistoryContext(caller, sid, ids.creationHistoryId));
              r.value.1.history
                == if HasProducts(req)
                   then RecordProductsUpdate(created, HistoryContext(caller, sid, ids.productsHistoryId), |Products(req)|)
                   else created
  {
    var prep := Prepare(t, caller, req, ids);
    if prep.Failure? then Failure(prep.error)
    else
      var c := prep.value;
      var sid := ids.subscriptionId;
      if FindSubscription(t.subscriptions, sid).Some? then Failure("duplicate key value violates unique constraint")
      else
        var history := RecordCreation(t.history, HistoryContext(caller, sid, ids.creationHistoryId));
        var items := if HasProducts(req) then Items(t.items, sid, caller.tenantId, Products(req), ids, c.plan.id)
                     else Success(t.items);
        if items.Failure? then Failure(items.error)
        else
          var history := if HasProducts(req)
                         then RecordProductsUpdate(history, HistoryContext(caller, sid, ids.productsHistoryId), |Products(req)|)
                         else history;
          var tasks := CreationTasks(t.tasks, caller.tenantId, sid, req, c.plan.id, c.row.currentPeriodEnd.value, ids);
          if tasks.Failure? then Failure(tasks.error)
          else
            Success((sid, Tables(t.plans, c.customers, t.subscriptions + [c.row], items.value, tasks.value, history)))
  }

  /** A created subscription is TRIALING exactly when a trial start was
   *  given, renews at the trial end or else at the end of its first period,
   *  and is not set to cancel. */
  lemma CreatedSubscriptionState(t: Tables, caller: Caller, req: CreateRequest, ids: FreshIds)
    requires Create(t, caller, req, ids).Success?
    ensures var t1 := Create(t, caller, req, ids).value.1;
            var s := t1.subscriptions[|t.subscriptions|];
            var start := if req.startDate.Some? then req.startDate.value else caller.now;
            var plan := FindPlan(t.plans, req.planId, caller.tenantId).value;
            |t1.subscriptions| == |t.subscriptions| + 1
            && s.id == ids.subscriptionId && s.planId == req.planId
            && (s.status == Trialing <==> req.trialStart.Some?)
            && (s.status == Active <==> req.trialStart.None?)
            && PeriodEnd(start, plan.billingInterval).Success?
            && s.currentPeriodEnd == Some(PeriodEnd(start, plan.billingInterval).value)
            && s.nextRenewalAt == Some(if req.trialEnd.Some? then req.trialEnd.value else s.currentPeriodEnd.value)
            && s.cancelAtPeriodEnd == Some(false)
            && FindSubscription(t1.subscriptions, ids.subscriptionId) == Some(|t.subscriptions|)
  {
  }

  /** A successful renewal upsert leaves a READY row of the renewal key due
   *  at the given date. */
  lemma UpsertRenewalSchedules(rows: seq<Task>, tenantId: Uuid, sid: Uuid, dueAt: Instant, newId: Uuid)
    requires UpsertRenewal(rows, tenantId, sid, dueAt, newId).Success?
    ensures var r := UpsertRenewal(rows, tenantId, sid, dueAt, newId).value;
            exists i :: 0 <= i < |r| && KeyIs(r[i], tenantId, TaskKey(tenantId, Renewal(sid)))
                        && r[i].dueAt == dueAt && r[i].status == Ready
  {
    var r := UpsertRenewal(rows, tenantId, sid, dueAt, newId).value;
    var key := TaskKey(tenantId, Renewal(sid));
    if HasKey(rows, tenantId, key) {
      var i :| 0 <= i < |rows| && KeyIs(rows[i], tenantId, key);
      assert KeyIs(r[i], tenantId, key) && r[i].dueAt == dueAt && r[i].status == Ready;
    } else {
      assert KeyIs(r[|rows|], tenantId, key) && r[|rows|].dueAt == dueAt && r[|rows|].status == Ready;
    }
  }

  /** A simple subscription's renewal task is scheduled at its next renewal,
   *  ready to run. */
  lemma SimpleSubscriptionRenewalScheduled(t: Tables, caller: Caller, req: CreateRequest, ids: FreshIds)
    requires Create(t, caller, req, ids).Success? && !HasProducts(req)
    ensures var t1 := Create(t, caller, req, ids).value.1;
            var s := t1.subscriptions[|t.subscriptions|];
            exists i :: 0 <= i < |t1.tasks| && KeyIs(t1.tasks[i], caller.tenantId, TaskKey(caller.tenantId, Renewal(s.id)))
                        && t1.tasks[i].dueAt == s.nextRenewalAt.value && t1.tasks[i].status == Ready
  {
    var t1 := Create(t, caller, req, ids).value.1;
    var c := Prepare(t, caller, req, ids).value;
    var sid := ids.subscriptionId;
    var end := c.row.currentPeriodEnd.value;
    var withTrial := TrialTask(t.tasks, caller.tenantId, sid, req, ids).value;
    var next := if req.trialEnd.Some? then req.trialEnd.value else end;
    assert t1.subscriptions[|t.subscriptions|] == c.row;
    assert c.row.nextRenewalAt == Some(next);
    assert t1.tasks == UpsertRenewal(withTrial, caller.tenantId, sid, next, ids.renewalTaskId).value;
    UpsertRenewalSchedules(withTrial, caller.tenantId, sid, next, ids.renewalTaskId);
  }

  /** An e-commerce subscription gets one product renewal task per product,
   *  due at the end of its first period, after the trial task if any (the
   *  rows themselves are those ProductRenewalTasks describes). */
  lemma ProductRenewalsScheduled(t: Tables, caller: Caller, req: CreateRequest, ids: FreshIds)
    requires Create(t, caller, req, ids).Success? && HasProducts(req)
    ensures var t1 := Create(t, caller, req, ids).value.1;
            var s := t1.subscriptions[|t.subscriptions|];
            var first := |t.tasks| + (if req.trialEnd.Some? then 1 else 0);
            var news := ProductRenewalTasks(caller.tenantId, s.id, Products(req), s.planId, s.currentPeriodEnd.value, ids.productTaskId);
            first <= |t1.tasks| && news.Some? && t1.tasks[first..] == news.value
  {
    var t1 := Create(t, caller, req, ids).value.1;
    var c := Prepare(t, caller, req, ids).value;
    var sid := ids.subscriptionId;
    var end := c.row.currentPeriodEnd.value;
    var withTrial := TrialTask(t.tasks, caller.tenantId, sid, req, ids).value;
    assert |withTrial| == |t.tasks| + (if req.trialEnd.Some? then 1 else 0);
    assert t1.subscriptions[|t.subscriptions|] == c.row;
    assert c.row.planId == c.plan.id;
    var news := ProductRenewalTasks(caller.tenantId, sid, Products(req), c.plan.id, end, ids.productTaskId).value;
    assert t1.tasks == InsertProductRenewals(withTrial, caller.tenantId, sid, Products(req), c.plan.id, end, ids.productTaskId).value;
    assert t1.tasks == withTrial + news;
    assert t1.tasks[|withTrial|..] == news;
  }

  // ---------------------------------------------------------------- the service over the store

  /** createSubscription on the store: every write is computed first and
   *  the tables are assigned only once nothing can throw any more. */
  method CreateSubscription(store: Store, caller: Caller, req: CreateRequest, ids: FreshIds) returns (r: Result<Uuid>)
    modifies store
    ensures var c := Create(old(store.Contents()), caller, req, ids);
            (r.Success? <==> c.Success?)
            && (c.Success? ==> r.value == c.value.0 && store.Contents() == c.value.1)
            && (c.Failure? ==> store.Contents() == old(store.Contents()))
  {
    var prep := Prepare(store.Contents(), caller, req, ids);
    if prep.Failure? {
      return Failure(prep.error);
    }
    var c := prep.value;
    var sid := ids.subscriptionId;
    if FindSubscription(store.subscriptions, sid).Some? {
      return Failure("duplicate key value violates unique constraint");
    }
    var history := RecordCreation(store.history, HistoryContext(caller, sid, ids.creationHistoryId));
    var items := store.items;
    if HasProducts(req) {
      var made := CreateItems(store.items, sid, caller.tenantId, Products(req), ids, c.plan.id);
      if made.Failure? {
        return Failure(made.error);
      }
      items := made.value;
      history := RecordProductsUpdate(history, HistoryContext(caller, sid, ids.productsHistoryId), |Products(req)|);
    }
    var tasks := CreationTasks(store.tasks, caller.tenantId, sid, req, c.plan.id, c.row.currentPeriodEnd.value, ids);
    if tasks.Failure? {
      return Failure(tasks.error);
    }
    var t1 := Tables(store.plans, c.customers, store.subscriptions + [c.row], items, tasks.value, history);
    assert Create(store.Contents(), caller, req, ids) == Success((sid, t1));
    store.Commit(t1);
    r := Success(sid);
  }

  /** createSubscriptionItems: one item per product, in order; any failure
   *  is reported as the item creation failing. */
  method CreateItems(items: seq<SubscriptionItem>, sid: Uuid, tenantId: Uuid, products: seq<ProductItem>,
                     ids: FreshIds, planId: Uuid) returns (r: Result<seq<SubscriptionItem>>)
    ensures r.Success? <==> Items(items, sid, tenantId, products, ids, planId).Success?
    ensures r.Success? ==> r.value == Items(items, sid, tenantId, products, ids, planId).value
    ensures r.Failure? ==> r.error == "Failed to create subscription item"
  {
    var rows := items;
    var i := 0;
    while i < |products|
      invariant 0 <= i <= |products|
      invariant InsertItems(rows, sid, tenantId, products, ids.itemId, (_: nat) => planId, i)
                == Items(items, sid, tenantId, products, ids, planId)
    {
      var row := ItemRow(sid, tenantId, products[i], ids.itemId(i), planId);
      if row.Failure? || HasItemId(rows, row.value.id) {
        return Failure("Failed to create subscription item");
      }
      rows := rows + [row.value];
      i := i + 1;
    }
    return Success(rows);
  }
}
