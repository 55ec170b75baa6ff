/** EcommerceSubscriptionService: a subscription made of products, each on a
 *  plan of its own. Every plan a product names must exist in the tenant and
 *  be ACTIVE; the customer is found by email and updated, or created; the
 *  subscription is ACTIVE for one month from the trial start (else the
 *  start date, else now) and has no next renewal of its own; each product
 *  gets an item on its plan and a product renewal task one interval of that
 *  plan after the period start; a trial end gets its task. The whole call is
 *  one transaction, so any exception leaves every table as it was. The
 *  random ids and the clock are parameters. */
module EcommerceSubscriptions {
  import opened Common
  import opened Calendar
  import opened Records
  import opened Tasks
  import opened ScheduledTasks
  import opened SubscriptionStore
  import opened ProductItems
  import InvoiceGeneration

  // ---------------------------------------------------------------- period end

  /** The interval names calculatePeriodEnd accepts once upper-cased: the
   *  standard five and their legacy short forms. */
  const AcceptedIntervals: set<string> :=
    {"DAILY", "WEEKLY", "MONTHLY", "QUARTERLY", "YEARLY", "DAY", "WEEK", "MONTH", "QUARTER", "YEAR"}

  /** The standard name a legacy short form stands for. */
  function StandardName(u: string): string
  {
    if u == "DAY" then "DAILY"
    else if u == "WEEK" then "WEEKLY"
    else if u == "MONTH" then "MONTHLY"
    else if u == "QUARTER" then "QUARTERLY"
    else if u == "YEAR" then "YEARLY"
    else u
  }

  /** calculatePeriodEnd: count intervals after start, a missing count being
   *  one, for the standard names and their legacy short forms in any case;
   *  a null name (toUpperCase on null) or any other name throws. */
  function PeriodEnd(start: Instant, interval: Option<string>, count: Option<int>): (r: Result<Instant>)
    ensures r.Success? <==> interval.Some? && Upper(interval.value) in AcceptedIntervals
    ensures r.Success? ==>
              StandardInterval(StandardName(Upper(interval.value))).Some?
              && r.value == AddIntervals(start, StandardInterval(StandardName(Upper(interval.value))).value,
                                         if count.Some? then count.value else 1)
  {
    match interval
    case None => Failure("NullPointerException")
    case Some(name) =>
      var n := if count.Some? then count.value else 1;
      var u := Upper(name);
      var end := EndByName(start, u, n);
      EndByNameAccepts(start, u, n);
      EndByNameValue(start, u, n);
      if end.Some? then Success(end.value) else Failure("Unsupported billing interval: " + name)
  }

  /** The switch over the upper-cased name. */
  function EndByName(start: Instant, u: string, n: int): Option<Instant>
  {
    if u == "DAILY" then Some(PlusDays(start, n))
    else if u == "WEEKLY" then Some(PlusWeeks(start, n))
    else if u == "MONTHLY" then Some(PlusMonths(start, n))
    else if u == "QUARTERLY" then Some(PlusMonths(start, 3 * n))
    else if u == "YEARLY" then Some(PlusYears(start, n))
    else if u == "DAY" then Some(PlusDays(start, n))
    else if u == "WEEK" then Some(PlusWeeks(start, n))
    else if u == "MONTH" then Some(PlusMonths(start, n))
    else if u == "QUARTER" then Some(PlusMonths(start, 3 * n))
    else if u == "YEAR" then Some(PlusYears(start, n))
    else None
  }

  /** The switch has a case for exactly the accepted names. */
  lemma EndByNameAccepts(start: Instant, u: string, n: int)
    ensures EndByName(start, u, n).Some? <==> u in AcceptedIntervals
  {
  }

  /** Each case adds n of its standard interval. */
  lemma EndByNameValue(start: Instant, u: string, n: int)
    ensures EndByName(start, u, n).Some? ==>
              StandardInterval(StandardName(u)).Some?
              && EndByName(start, u, n).value == AddIntervals(start, StandardInterval(StandardName(u)).value, n)
  {
  }

  /** Every interval invoice generation accepts ends the period at the same
   *  instant here. */
  lemma PeriodEndAgreesWithInvoicing(start: Instant, interval: Option<string>, count: Option<int>)
    requires InvoiceGeneration.CalculatePeriodEnd(start, interval, count).Success?
    ensures PeriodEnd(start, interval, count) == InvoiceGeneration.CalculatePeriodEnd(start, interval, count)
  {
    var u := Upper(interval.value);
    assert StandardName(u) == u;
  }

  /** The name's case does not matter: an accepted name ends the period
   *  where its upper-case spelling does. */
  lemma PeriodEndIgnoresCase(start: Instant, name: string, count: Option<int>)
    requires PeriodEnd(start, Some(name), count).Success?
    ensures PeriodEnd(start, Some(Upper(name)), count) == PeriodEnd(start, Some(name), count)
  {
    assert Upper(Upper(name)) == Upper(name) by {
      forall i | 0 <= i < |name| ensures UpperChar(UpperChar(name[i])) == UpperChar(name[i]) { }
    }
  }

  // ---------------------------------------------------------------- validatePlans

  /** A product's plan id is found in the map. */
  predicate Found(id: Option<Uuid>, m: map<Uuid, Plan>)
  {
    id.Some? && id.value in m
  }

  /** The text of a plan id in an error message. */
  function IdText(id: Option<Uuid>): string
  {
    if id.Some? then id.value else "null"
  }

  /** The plan ids of the products, in order, a product without one giving
   *  a null. The source keeps only the first occurrence of each id; the
   *  repetitions it drops change neither the plans fetched nor the first
   *  id found missing. */
  function RequestedPlanIds(products: seq<ProductItem>): (r: seq<Option<Uuid>>)
    ensures |r| == |products|
    ensures forall i :: 0 <= i < |products| ==> r[i] == products[i].planId
  {
    seq(|products|, i requires 0 <= i < |products| => products[i].planId)
  }

  /** fetchById: the plans whose id is requested, in table order, whatever
   *  their tenant. */
  function Fetched(plans: seq<Plan>, requested: seq<Option<Uuid>>): seq<Plan>
  {
    Filter(plans, (p: Plan) => Some(p.id) in requested)
  }

  /** The first loop over the fetched plans: one of another tenant is
   *  reported as not found, an inactive one as not active, and the others
   *  are put in the map by id. */
  function PlanMap(fetched: seq<Plan>, tenantId: Uuid): (r: Result<map<Uuid, Plan>>)
    ensures r.Success? <==> forall i :: 0 <= i < |fetched| ==>
                              fetched[i].tenantId == tenantId && fetched[i].status == PlanActive
    ensures r.Success? ==> forall i :: 0 <= i < |fetched| ==> fetched[i].id in r.value
    ensures r.Success? ==> forall id :: id in r.value ==> r.value[id] in fetched && r.value[id].id == id
    decreases |fetched|
  {
    if fetched == [] then Success(map[])
    else
      var init := fetched[..|fetched| - 1];
      var last := fetched[|fetched| - 1];
      var m := PlanMap(init, tenantId);
      assert forall i :: 0 <= i < |init| ==> init[i] == fetched[i];
      if m.Failure? then m
      else if last.tenantId != tenantId then Failure("Plan not found: " + last.id)
      else if last.status != PlanActive then Failure("Plan is not active: " + last.id)
      else Success(m.value[last.id := last])
  }

  /** One more plan of the first loop: it fails on a plan of another tenant
   *  or an inactive one, and otherwise adds the plan under its id. */
  lemma PlanMapStep(fetched: seq<Plan>, tenantId: Uuid, i: nat)
    requires i < |fetched| && PlanMap(fetched[..i], tenantId).Success?
    ensures var m := PlanMap(fetched[..i], tenantId).value;
            PlanMap(fetched[..i + 1], tenantId) ==
              if fetched[i].tenantId != tenantId then Failure("Plan not found: " + fetched[i].id)
              else if fetched[i].status != PlanActive then Failure("Plan is not active: " + fetched[i].id)
              else Success(m[fetched[i].id := fetched[i]])
  {
    assert fetched[..i + 1][..i] == fetched[..i];
  }

  /** Once a prefix of the fetched plans fails the first loop, the whole
   *  loop fails with the same message. */
  lemma {:induction false} PlanMapFailureSticks(fetched: seq<Plan>, tenantId: Uuid, j: nat)
    requires j <= |fetched| && PlanMap(fetched[..j], tenantId).Failure?
    ensures PlanMap(fetched, tenantId) == PlanMap(fetched[..j], tenantId)
    decreases |fetched| - j
  {
    if j < |fetched| {
      var init := fetched[..|fetched| - 1];
      assert init[..j] == fetched[..j];
      PlanMapFailureSticks(init, tenantId, j);
    } else {
      assert fetched[..j] == fetched;
    }
  }

  /** The second loop over the requested ids: the position of the first one
   *  the map lacks. */
  function FirstMissing(requested: seq<Option<Uuid>>, m: map<Uuid, Plan>): (r: Option<nat>)
    ensures r.None? <==> forall i :: 0 <= i < |requested| ==> Found(requested[i], m)
    ensures r.Some? ==> r.value < |requested| && !Found(requested[r.value], m)
                        && forall i :: 0 <= i < r.value ==> Found(requested[i], m)
    decreases |requested|
  {
    if requested == [] then None
    else if !Found(requested[0], m) then Some(0)
    else
      var r := FirstMissing(requested[1..], m);
      assert forall i :: 1 <= i < |requested| ==> requested[i] == requested[1..][i - 1];
      if r.Some? then Some(r.value + 1) else None
  }

  /** validatePlans: the map from plan id to plan, or the exception. */
  function PlanCheck(plans: seq<Plan>, products: seq<ProductItem>, tenantId: Uuid): Result<map<Uuid, Plan>>
  {
    var requested := RequestedPlanIds(products);
    var m := PlanMap(Fetched(plans, requested), tenantId);
    if m.Failure? then m
    else
      match FirstMissing(requested, m.value)
      case Some(i) => Failure("Plan not found: " + IdText(requested[i]))
      case None => m
  }

  /** A plan with this id exists, in whatever tenant. */
  predicate HasPlanId(plans: seq<Plan>, id: Uuid)
  {
    exists k :: 0 <= k < |plans| && plans[k].id == id
  }

  /** Some product names this plan. */
  predicate Requested(products: seq<ProductItem>, id: Uuid)
  {
    exists i :: 0 <= i < |products| && products[i].planId == Some(id)
  }

  /** validatePlans succeeds exactly when every product names a plan that
   *  exists and every plan so named is in the tenant and ACTIVE; the map it
   *  returns then gives each product that plan. */
  lemma PlanCheckAccepts(plans: seq<Plan>, products: seq<ProductItem>, tenantId: Uuid)
    ensures PlanCheck(plans, products, tenantId).Success? <==>
              (forall i :: 0 <= i < |products| ==> products[i].planId.Some? && HasPlanId(plans, products[i].planId.value))
              && (forall k :: 0 <= k < |plans| && Requested(products, plans[k].id) ==>
                    plans[k].tenantId == tenantId && plans[k].status == PlanActive)
    ensures PlanCheck(plans, products, tenantId).Success? ==>
              var m := PlanCheck(plans, products, tenantId).value;
              forall i :: 0 <= i < |products| ==>
                products[i].planId.Some? && products[i].planId.value in m
                && m[products[i].planId.value] in plans && m[products[i].planId.value].id == products[i].planId.value
                && m[products[i].planId.value].tenantId == tenantId && m[products[i].planId.value].status == PlanActive
  {
    var requested := RequestedPlanIds(products);
    var m := PlanMap(Fetched(plans, requested), tenantId);
    FetchedAreRequested(plans, products);
    if m.Success? {
      MapHoldsExistingIds(plans, products, tenantId);
    }
    if PlanCheck(plans, products, tenantId).Success? {
      assert FirstMissing(requested, m.value).None?;
      forall i | 0 <= i < |products| ensures Found(products[i].planId, m.value) {
        assert requested[i] == products[i].planId;
      }
    }
  }

  /** The fetched plans are exactly the table's requested ones. */
  lemma FetchedAreRequested(plans: seq<Plan>, products: seq<ProductItem>)
    ensures forall k :: 0 <= k < |plans| && Requested(products, plans[k].id) ==>
              plans[k] in Fetched(plans, RequestedPlanIds(products))
    ensures forall f :: f in Fetched(plans, RequestedPlanIds(products)) ==> f in plans && Requested(products, f.id)
  {
    var requested := RequestedPlanIds(products);
    var fetched := Fetched(plans, requested);
    var pred := (p: Plan) => Some(p.id) in requested;
    forall k | 0 <= k < |plans| && Requested(products, plans[k].id) ensures plans[k] in fetched {
      var i :| 0 <= i < |products| && products[i].planId == Some(plans[k].id);
      assert requested[i] == Some(plans[k].id);
      assert pred(plans[k]);
    }
    forall f | f in fetched ensures f in plans && Requested(products, f.id) {
      var i :| 0 <= i < |fetched| && fetched[i] == f;
      assert pred(fetched[i]);
      var j :| 0 <= j < |requested| && requested[j] == Some(f.id);
      assert products[j].planId == Some(f.id);
    }
  }

  /** A built map holds the id of every product whose plan exists, and only
   *  ids of plans that exist. */
  lemma MapHoldsExistingIds(plans: seq<Plan>, products: seq<ProductItem>, tenantId: Uuid)
    requires PlanMap(Fetched(plans, RequestedPlanIds(products)), tenantId).Success?
    ensures var m := PlanMap(Fetched(plans, RequestedPlanIds(products)), tenantId).value;
            (forall i :: 0 <= i < |products| && products[i].planId.Some? && HasPlanId(plans, products[i].planId.value) ==>
               products[i].planId.value in m)
            && (forall i :: 0 <= i < |products| && Found(products[i].planId, m) ==>
                  HasPlanId(plans, products[i].planId.value))
  {
    var fetched := Fetched(plans, RequestedPlanIds(products));
    var m := PlanMap(fetched, tenantId);
    FetchedAreRequested(plans, products);
    forall i | 0 <= i < |products| && products[i].planId.Some? && HasPlanId(plans, products[i].planId.value)
      ensures products[i].planId.value in m.value
    {
      var k :| 0 <= k < |plans| && plans[k].id == products[i].planId.value;
      assert Requested(products, plans[k].id);
      var n :| 0 <= n < |fetched| && fetched[n] == plans[k];
    }
    forall i | 0 <= i < |products| && Found(products[i].planId, m.value)
      ensures HasPlanId(plans, products[i].planId.value)
    {
      var f := m.value[products[i].planId.value];
      var k :| 0 <= k < |plans| && plans[k] == f;
    }
  }

  /** validatePlans as written: the fetched plans fill a hash map, then
   *  every requested id must be in it. */
  method ValidatePlans(plans: seq<Plan>, products: seq<ProductItem>, tenantId: Uuid) returns (r: Result<map<Uuid, Plan>>)
    ensures r == PlanCheck(plans, products, tenantId)
  {
    var planIds := RequestedPlanIds(products);
    var planMap := FillPlanMap(Fetched(plans, planIds), tenantId);
    if planMap.Failure? {
      return planMap;
    }
    var missing := FindMissing(planIds, planMap.value);
    if missing.Some? {
      return Failure("Plan not found: " + IdText(planIds[missing.value]));
    }
    return planMap;
  }

  /** The loop over the fetched plans. */
  method FillPlanMap(fetched: seq<Plan>, tenantId: Uuid) returns (r: Result<map<Uuid, Plan>>)
    ensures r == PlanMap(fetched, tenantId)
  {
    var planMap: map<Uuid, Plan> := map[];
    var i := 0;
    while i < |fetched|
      invariant 0 <= i <= |fetched|
      invariant PlanMap(fetched[..i], tenantId) == Success(planMap)
    {
      var plan := fetched[i];
      PlanMapStep(fetched, tenantId, i);
      if plan.tenantId != tenantId {
        PlanMapFailureSticks(fetched, tenantId, i + 1);
        return Failure("Plan not found: " + plan.id);
      }
      if plan.status != PlanActive {
        PlanMapFailureSticks(fetched, tenantId, i + 1);
        return Failure("Plan is not active: " + plan.id);
      }
      planMap := planMap[plan.id := plan];
      i := i + 1;
    }
    assert fetched[..i] == fetched;
    return Success(planMap);
  }

  /** The loop over the requested ids. */
  method FindMissing(planIds: seq<Option<Uuid>>, planMap: map<Uuid, Plan>) returns (r: Option<nat>)
    ensures r == FirstMissing(planIds, planMap)
  {
    var j := 0;
    while j < |planIds|
      invariant 0 <= j <= |planIds|
      invariant forall k :: 0 <= k < j ==> Found(planIds[k], planMap)
    {
      if !Found(planIds[j], planMap) {
        return Some(j);
      }
      j := j + 1;
    }
    return None;
  }

  // ---------------------------------------------------------------- customer

  /** The request: the base plan, the products, the customer, the payment
   *  method, the trial and start dates and the shipping address as Jackson
   *  writes it. */
  datatype EcommerceRequest = EcommerceRequest(
    basePlanId: Uuid,
    products: seq<ProductItem>,
    customerEmail: Option<string>,
    customerFirstName: Option<string>,
    customerLastName: Option<string>,
    customerPhone: Option<string>,
    externalCustomerId: Option<string>,
    paymentMethodRef: Option<string>,
    trialStart: Option<Instant>,
    trialEnd: Option<Instant>,
    startDate: Option<Instant>,
    shippingAddress: Option<string>)

  /** The `tenant_id = ? AND email = ?` lookup; a null email is rendered as
   *  IS NULL, so a request without one finds the customers without one. */
  predicate EmailMatches(c: Customer, tenantId: Uuid, email: Option<string>)
  {
    c.tenantId == tenantId && c.email == email
  }

  /** The positions of the customers the lookup returns, in table order. */
  function EmailPositions(cs: seq<Customer>, tenantId: Uuid, email: Option<string>): (r: seq<nat>)
    ensures forall i :: 0 <= i < |r| ==> r[i] < |cs| && EmailMatches(cs[r[i]], tenantId, email)
    ensures forall j :: 0 <= j < |cs| && EmailMatches(cs[j], tenantId, email) ==> j in r
    ensures forall i, k :: 0 <= i < k < |r| ==> r[i] < r[k]
    decreases |cs|
  {
    if cs == [] then []
    else
      var last := |cs| - 1;
      var r := EmailPositions(cs[..last], tenantId, email);
      assert forall j :: 0 <= j < last ==> cs[..last][j] == cs[j];
      r + (if EmailMatches(cs[last], tenantId, email) then [last] else [])
  }

  predicate CustomerIdTaken(cs: seq<Customer>, id: Uuid)
  {
    exists i :: 0 <= i < |cs| && cs[i].id == id
  }

  /** The customer row the service creates: ACTIVE, with no customer type. */
  function NewCustomer(id: Uuid, tenantId: Uuid, req: EcommerceRequest): Customer
  {
    Customer(id, tenantId, req.customerEmail, req.externalCustomerId, req.customerFirstName,
             req.customerLastName, req.customerPhone, "ACTIVE", None)
  }

  /** upsertCustomer: the one customer with the email gets the request's
   *  names and phone (a null overwrites too); without one a new customer is
   *  inserted. More than one match throws (fetchOne), and so does an insert
   *  whose id is taken. */
  function UpsertCustomer(cs: seq<Customer>, tenantId: Uuid, req: EcommerceRequest, newId: Uuid)
    : (r: Result<(Customer, seq<Customer>)>)
    ensures var p := EmailPositions(cs, tenantId, req.customerEmail);
            (r.Failure? <==> |p| > 1 || (|p| == 0 && CustomerIdTaken(cs, newId)))
            && (r.Success? && |p| == 1 ==>
                  r.value.1 == cs[p[0] := r.value.0]
                  && r.value.0 == cs[p[0]].(firstName := req.customerFirstName, lastName := req.customerLastName,
                                            phone := req.customerPhone))
            && (r.Success? && |p| == 0 ==>
                  r.value.1 == cs + [r.value.0] && r.value.0 == NewCustomer(newId, tenantId, req))
    ensures r.Success? ==> EmailMatches(r.value.0, tenantId, req.customerEmail) && r.value.0 in r.value.1
  {
    var p := EmailPositions(cs, tenantId, req.customerEmail);
    if |p| > 1 then Failure("Query returned more than one customer")
    else if |p| == 1 then
      var c := cs[p[0]].(firstName := req.customerFirstName, lastName := req.customerLastName,
                         phone := req.customerPhone);
      var updated := cs[p[0] := c];
      assert updated[p[0]] == c;
      Success((c, updated))
    else if CustomerIdTaken(cs, newId) then Failure("duplicate key value violates unique constraint")
    else
      var c := NewCustomer(newId, tenantId, req);
      Success((c, cs + [c]))
  }

  /** Upserting the same customer again finds the one customer the first
   *  upsert left and changes nothing. */
  lemma UpsertCustomerIdempotent(cs: seq<Customer>, tenantId: Uuid, req: EcommerceRequest, newId: Uuid, newId2: Uuid)
    requires UpsertCustomer(cs, tenantId, req, newId).Success?
    ensures var (c, cs1) := UpsertCustomer(cs, tenantId, req, newId).value;
            UpsertCustomer(cs1, tenantId, req, newId2) == Success((c, cs1))
  {
    var p := EmailPositions(cs, tenantId, req.customerEmail);
    var (c, cs1) := UpsertCustomer(cs, tenantId, req, newId).value;
    if |p| == 1 {
      assert EmailPositions(cs1, tenantId, req.customerEmail) == [p[0]] by {
        EmailPositionsAgree(cs, cs1, tenantId, req.customerEmail);
      }
      FoundOnceIsKept(cs1, tenantId, req, newId2, p[0]);
    } else {
      assert EmailPositions(cs1, tenantId, req.customerEmail) == [|cs|] by {
        InsertedIsFound(cs, tenantId, req, c, cs1);
      }
      FoundOnceIsKept(cs1, tenantId, req, newId2, |cs|);
    }
  }

  /** A lookup that finds one customer who already has the request's names
   *  and phone leaves the table as it is. */
  lemma FoundOnceIsKept(cs: seq<Customer>, tenantId: Uuid, req: EcommerceRequest, newId: Uuid, k: nat)
    requires EmailPositions(cs, tenantId, req.customerEmail) == [k]
    requires k < |cs| && cs[k].firstName == req.customerFirstName && cs[k].lastName == req.customerLastName
             && cs[k].phone == req.customerPhone
    ensures UpsertCustomer(cs, tenantId, req, newId) == Success((cs[k], cs))
  {
    assert cs[k].(firstName := req.customerFirstName, lastName := req.customerLastName, phone := req.customerPhone)
           == cs[k];
    UpdateSame(cs, k, cs[k]);
  }

  /** After an insert the lookup finds exactly the new row. */
  lemma InsertedIsFound(cs: seq<Customer>, tenantId: Uuid, req: EcommerceRequest, c: Customer, cs1: seq<Customer>)
    requires EmailPositions(cs, tenantId, req.customerEmail) == []
    requires cs1 == cs + [c] && EmailMatches(c, tenantId, req.customerEmail)
    ensures EmailPositions(cs1, tenantId, req.customerEmail) == [|cs|]
  {
    assert cs1[..|cs|] == cs;
  }

  /** Tables whose rows match the lookup at the same places give the same
   *  positions. */
  lemma {:induction false} EmailPositionsAgree(a: seq<Customer>, b: seq<Customer>, tenantId: Uuid, email: Option<string>)
    requires |a| == |b|
    requires forall i :: 0 <= i < |a| ==> (EmailMatches(a[i], tenantId, email) <==> EmailMatches(b[i], tenantId, email))
    ensures EmailPositions(a, tenantId, email) == EmailPositions(b, tenantId, email)
    decreases |a|
  {
    if a != [] {
      EmailPositionsAgree(a[..|a| - 1], b[..|b| - 1], tenantId, email);
    }
  }

  // ---------------------------------------------------------------- products

  /** What every product's step shares: the tenant, the subscription, its
   *  period start, the validated plans and the random ids per product. */
  datatype Context = Context(tenantId: Uuid, sid: Uuid, start: Instant, plans: map<Uuid, Plan>,
                             itemId: nat -> Uuid, taskId: nat -> Uuid)

  function OrEmpty(s: Option<string>): string
  {
    if s.Some? then s.value else ""
  }

  /** createSubscriptionItem: the item on the product's own plan. Its
   *  configuration is built with Map.of, which throws on a null product id
   *  or name; a null plan id, quantity, price or currency fails its NOT
   *  NULL column. */
  function ItemRow(sid: Uuid, tenantId: Uuid, p: ProductItem, id: Uuid): (r: Result<SubscriptionItem>)
    ensures r.Success? <==> p.productId.Some? && p.productName.Some? && p.planId.Some? && p.quantity.Some?
                            && p.unitPriceCents.Some? && p.currency.Some?
    ensures r.Success? ==> r.value.id == id && r.value.subscriptionId == sid && r.value.tenantId == tenantId
                           && r.value.planId == p.planId.value && r.value.quantity == p.quantity.value
                           && r.value.unitPriceCents == p.unitPriceCents.value && r.value.currency == p.currency.value
  {
    if p.productId.None? || p.productName.None? then Failure("NullPointerException")
    else if p.planId.None? || p.quantity.None? || p.unitPriceCents.None? || p.currency.None? then
      Failure("null value violates not-null constraint")
    else
      Success(SubscriptionItem(id, tenantId, sid, p.planId.value, p.quantity.value, p.unitPriceCents.value,
                               p.currency.value,
                               Json(map["productId" := p.productId.value, "productName" := p.productName.value,
                                        "description" := OrEmpty(p.description), "imageUrl" := OrEmpty(p.imageUrl),
                                        "category" := OrEmpty(p.category)])))
  }

  predicate ItemIdTaken(items: seq<SubscriptionItem>, id: Uuid)
  {
    exists i :: 0 <= i < |items| && items[i].id == id
  }

  /** The product's renewal date: one interval of its own plan after the
   *  period start. A plan missing from the map reads as null and throws. */
  function ProductDue(ctx: Context, p: ProductItem): (r: Result<Instant>)
    ensures r.Success? ==> p.planId.Some? && p.planId.value in ctx.plans
                           && r == PeriodEnd(ctx.start, ctx.plans[p.planId.value].billingInterval,
                                             ctx.plans[p.planId.value].billingIntervalCount)
  {
    if p.planId.None? || p.planId.value !in ctx.plans then Failure("NullPointerException")
    else
      var plan := ctx.plans[p.planId.value];
      PeriodEnd(ctx.start, plan.billingInterval, plan.billingIntervalCount)
  }

  /** The product renewal task of a product: due at its renewal date,
   *  keyed by the product (a null product id would throw in Map.of). */
  function RenewalTask(ctx: Context, p: ProductItem, j: nat): (r: Result<Task>)
    ensures r.Success? <==> ProductDue(ctx, p).Success? && p.productId.Some?
    ensures r.Success? ==>
              r.value == ScheduledTask(ctx.taskId(j), ctx.tenantId, ProductRenewal(ctx.sid, p.productId.value, p.planId.value),
                                       ProductDue(ctx, p).value)
  {
    var due := ProductDue(ctx, p);
    if due.Failure? then Failure(due.error)
    else if p.productId.None? then Failure("NullPointerException")
    else Success(ScheduledTask(ctx.taskId(j), ctx.tenantId, ProductRenewal(ctx.sid, p.productId.value, p.planId.value), due.value))
  }

  /** The two rows each product's turn of the loop writes, in order. */
  datatype Turn = Turn(item: Result<SubscriptionItem>, task: Result<Task>)

  function Turns(ctx: Context, products: seq<ProductItem>): (r: seq<Turn>)
    ensures |r| == |products|
    ensures forall j :: 0 <= j < |products| ==>
              r[j] == Turn(ItemRow(ctx.sid, ctx.tenantId, products[j], ctx.itemId(j)), RenewalTask(ctx, products[j], j))
  {
    seq(|products|, j requires 0 <= j < |products| =>
          Turn(ItemRow(ctx.sid, ctx.tenantId, products[j], ctx.itemId(j)), RenewalTask(ctx, products[j], j)))
  }

  /** One product's turn: its item is inserted (a taken id throws), then
   *  its renewal task is computed and inserted. */
  function AddTurn(items: seq<SubscriptionItem>, tasks: seq<Task>, turn: Turn)
    : (r: Result<(seq<SubscriptionItem>, seq<Task>)>)
    ensures r.Success? <==> turn.item.Success? && !ItemIdTaken(items, turn.item.value.id)
                            && turn.task.Success? && Insert(tasks, turn.task.value).Success?
    ensures r.Success? ==> r.value == (items + [turn.item.value], tasks + [turn.task.value])
  {
    if turn.item.Failure? then Failure(turn.item.error)
    else if ItemIdTaken(items, turn.item.value.id) then Failure("duplicate key value violates unique constraint")
    else if turn.task.Failure? then Failure(turn.task.error)
    else
      var ins := Insert(tasks, turn.task.value);
      if ins.Failure? then Failure(ins.error) else Success((items + [turn.item.value], ins.value))
  }

  /** The loop over turns[from..]. */
  function AddProducts(items: seq<SubscriptionItem>, tasks: seq<Task>, turns: seq<Turn>, from: nat)
    : (r: Result<(seq<SubscriptionItem>, seq<Task>)>)
    requires from <= |turns|
    ensures r.Success? ==> |r.value.0| == |items| + |turns| - from && r.value.0[..|items|] == items
                           && |r.value.1| == |tasks| + |turns| - from && r.value.1[..|tasks|] == tasks
    decreases |turns| - from
  {
    if from == |turns| then Success((items, tasks))
    else
      var step := AddTurn(items, tasks, turns[from]);
      if step.Failure? then step
      else
        var r := AddProducts(step.value.0, step.value.1, turns, from + 1);
        if r.Success? then
          assert r.value.0[..|items|] == r.value.0[..|items| + 1][..|items|];
          assert r.value.1[..|tasks|] == r.value.1[..|tasks| + 1][..|tasks|];
          r
        else r
  }

  /** After the loop, the j-th turn's item and task are at the j-th new
   *  place of their tables. */
  lemma {:induction false} AddProductsRow(items: seq<SubscriptionItem>, tasks: seq<Task>, turns: seq<Turn>,
                                          from: nat, j: nat)
    requires from <= j < |turns|
    requires AddProducts(items, tasks, turns, from).Success?
    ensures var r := AddProducts(items, tasks, turns, from).value;
            turns[j].item == Success(r.0[|items| + j - from]) && turns[j].task == Success(r.1[|tasks| + j - from])
    decreases |turns| - from
  {
    var turn := turns[from];
    var items1 := items + [turn.item.value];
    var tasks1 := tasks + [turn.task.value];
    var r := AddProducts(items1, tasks1, turns, from + 1).value;
    if j == from {
      assert r.0[|items|] == r.0[..|items1|][|items|];
      assert r.1[|tasks|] == r.1[..|tasks1|][|tasks|];
    } else {
      AddProductsRow(items1, tasks1, turns, from + 1, j);
    }
  }

  // ---------------------------------------------------------------- the response

  /** Σ quantity × unit price over the products in unbounded integers; a
   *  product without both counts nothing. */
  function ExactTotal(products: seq<ProductItem>): int
  {
    if products == [] then 0
    else
      var p := products[|products| - 1];
      ExactTotal(products[..|products| - 1])
      + (if p.quantity.Some? && p.unitPriceCents.Some? then p.quantity.value * p.unitPriceCents.value else 0)
  }

  /** Adding n multiples of 2^64 does not change the remainder. */
  lemma ModShift(x: int, k: int)
    ensures (x + k * TwoTo64) % TwoTo64 == x % TwoTo64
  {
    var q := x / TwoTo64;
    assert x == q * TwoTo64 + x % TwoTo64;
    assert x + k * TwoTo64 == (q + k) * TwoTo64 + x % TwoTo64;
  }

  /** Long addition of wrapped values wraps the exact sum. */
  lemma WrapAdd(x: int, y: int)
    ensures WrapLong(WrapLong(x) + WrapLong(y)) == WrapLong(x + y)
  {
    var a := WrapLong(x);
    var b := WrapLong(y);
    var ka := (a - x) / TwoTo64;
    var kb := (b - y) / TwoTo64;
    assert a - x == ka * TwoTo64;
    assert b - y == kb * TwoTo64;
    assert a + b == (x + y) + (ka + kb) * TwoTo64;
    ModShift(x + y, ka + kb);
  }

  /** LongStream.sum of getTotalPriceCents: every total and every partial
   *  sum wraps to a long, so the sum is the exact one wrapped; a missing
   *  quantity or price throws. */
  function TotalCents(products: seq<ProductItem>): (r: Result<int>)
    ensures r.Success? <==> forall i :: 0 <= i < |products| ==>
                              products[i].quantity.Some? && products[i].unitPriceCents.Some?
    ensures r.Success? ==> r.value == WrapLong(ExactTotal(products))
    decreases |products|
  {
    if products == [] then Success(0)
    else
      var init := products[..|products| - 1];
      var last := products[|products| - 1];
      var s := TotalCents(init);
      assert forall i :: 0 <= i < |init| ==> init[i] == products[i];
      if s.Failure? then s
      else
        var t := TotalPriceCents(last);
        if t.Failure? then Failure(t.error)
        else
          WrapAdd(ExactTotal(init), last.quantity.value * last.unitPriceCents.value);
          Success(WrapLong(s.value + t.value))
  }

  /** Validated products whose exact total fits in a long are priced at
   *  that exact total. */
  lemma {:induction false} TotalIsExact(products: seq<ProductItem>)
    requires forall i :: 0 <= i < |products| ==> ValidProductItem(products[i]) && products[i].quantity.Some?
    requires ExactTotal(products) <= LongMax
    ensures ExactTotal(products) >= 0
    ensures TotalCents(products) == Success(ExactTotal(products))
    decreases |products|
  {
    if products != [] {
      var init := products[..|products| - 1];
      var last := products[|products| - 1];
      assert forall i :: 0 <= i < |init| ==> init[i] == products[i];
      assert last.quantity.value * last.unitPriceCents.value >= 0;
      TotalIsExact(init);
    }
  }

  /** The validated plan of a product; plans.get on a null or unknown id
   *  gives null. */
  function PlanOf(plans: map<Uuid, Plan>, p: ProductItem): Option<Plan>
  {
    if p.planId.Some? && p.planId.value in plans then Some(plans[p.planId.value]) else None
  }

  /** The billing interval of a product's plan, null when it has none. */
  function IntervalAt(plans: map<Uuid, Plan>, p: ProductItem): Option<string>
  {
    if PlanOf(plans, p).Some? then PlanOf(plans, p).value.billingInterval else None
  }

  /** Every product has a plan in the map, and that plan an interval. */
  predicate Known(plans: map<Uuid, Plan>, products: seq<ProductItem>)
  {
    forall k :: 0 <= k < |products| ==> PlanOf(plans, products[k]).Some? && IntervalAt(plans, products[k]).Some?
  }

  /** allMatch(interval -> interval.equals(first)) over products[from..]:
   *  stops at the first interval that differs; a missing plan or a null
   *  interval met before that throws. */
  function AllMatch(plans: map<Uuid, Plan>, products: seq<ProductItem>, first: Option<string>, from: nat): (r: Result<bool>)
    requires from <= |products|
    ensures Known(plans, products) ==>
              r.Success? && (r.value <==> forall k :: from <= k < |products| ==> IntervalAt(plans, products[k]) == first)
    decreases |products| - from
  {
    if from == |products| then Success(true)
    else
      var p := products[from];
      if PlanOf(plans, p).None? || IntervalAt(plans, p).None? then Failure("NullPointerException")
      else if IntervalAt(plans, p) != first then Success(false)
      else AllMatch(plans, products, first, from + 1)
  }

  /** determineBillingInterval: UNKNOWN without products, the products'
   *  common interval when they share one, MIXED otherwise. */
  function BillingInterval(plans: map<Uuid, Plan>, products: seq<ProductItem>): (r: Result<string>)
    ensures products == [] ==> r == Success("UNKNOWN")
    ensures products != [] && Known(plans, products) ==>
              r.Success?
              && ((forall k :: 0 <= k < |products| ==> IntervalAt(plans, products[k]) == IntervalAt(plans, products[0]))
                  ==> r.value == IntervalAt(plans, products[0]).value)
              && ((exists k :: 0 <= k < |products| && IntervalAt(plans, products[k]) != IntervalAt(plans, products[0]))
                  ==> r.value == "MIXED")
    ensures r.Success? && products != [] ==> PlanOf(plans, products[0]).Some?
  {
    if products == [] then Success("UNKNOWN")
    else if PlanOf(plans, products[0]).None? then Failure("NullPointerException")
    else
      var first := IntervalAt(plans, products[0]);
      var same := AllMatch(plans, products, first, 0);
      if same.Failure? then Failure(same.error)
      else if !same.value then Success("MIXED")
      else if first.None? then Failure("NullPointerException")
      else Success(first.value)
  }

  const MultiProductName: string := "Multi-Product Subscription"

  /** The response: the subscription and the customer, the billing
   *  interval, the plan (the single product's, or none), the summed price
   *  and the first product's currency. */
  datatype EcommerceResponse = EcommerceResponse(
    id: Uuid,
    status: SubscriptionStatus,
    currentPeriodStart: Instant,
    currentPeriodEnd: Option<Instant>,
    nextRenewalAt: Option<Instant>,
    trialStart: Option<Instant>,
    trialEnd: Option<Instant>,
    createdAt: Instant,
    updatedAt: Instant,
    customerId: Uuid,
    customerEmail: Option<string>,
    customerFirstName: Option<string>,
    customerLastName: Option<string>,
    planBillingInterval: string,
    planId: Option<Uuid>,
    planName: Option<string>,
    planBasePriceCents: int,
    planCurrency: Option<string>)

  /** mapToEcommerceResponse. */
  function Response(s: Subscription, c: Customer, plans: map<Uuid, Plan>, products: seq<ProductItem>)
    : (r: Result<EcommerceResponse>)
    ensures r.Success? <==> BillingInterval(plans, products).Success? && TotalCents(products).Success?
    ensures r.Success? ==>
              r.value.id == s.id && r.value.status == s.status && r.value.customerId == c.id
              && r.value.currentPeriodStart == s.currentPeriodStart && r.value.currentPeriodEnd == s.currentPeriodEnd
              && r.value.nextRenewalAt == s.nextRenewalAt
              && r.value.planBillingInterval == BillingInterval(plans, products).value
              && r.value.planBasePriceCents == WrapLong(ExactTotal(products))
              && r.value.planCurrency == (if products == [] then Some("USD") else products[0].currency)
    ensures r.Success? && |products| == 1 ==>
              r.value.planId == Some(PlanOf(plans, products[0]).value.id)
              && r.value.planName == Some(PlanOf(plans, products[0]).value.name)
    ensures r.Success? && |products| != 1 ==> r.value.planId.None? && r.value.planName == Some(MultiProductName)
  {
    var interval := BillingInterval(plans, products);
    if interval.Failure? then Failure(interval.error)
    else
      var named: (Option<Uuid>, Option<string>) :=
        if |products| == 1 then
          var plan := PlanOf(plans, products[0]).value;
          (Some(plan.id), Some(plan.name))
        else (None, Some(MultiProductName));
      var total := TotalCents(products);
      if total.Failure? then Failure(total.error)
      else
        Success(EcommerceResponse(s.id, s.status, s.currentPeriodStart, s.currentPeriodEnd, s.nextRenewalAt,
                                  s.trialStart, s.trialEnd, s.createdAt, s.updatedAt,
                                  c.id, c.email, c.firstName, c.lastName,
                                  interval.value, named.0, named.1, total.value,
                                  if products == [] then Some("USD") else products[0].currency))
  }

  // ---------------------------------------------------------------- creation

  /** The random ids a creation draws: the subscription, a new customer, the
   *  trial-end task, and per product an item and a renewal task. */
  datatype EcommerceIds = EcommerceIds(
    subscriptionId: Uuid,
    customerId: Uuid,
    trialTaskId: Uuid,
    itemId: nat -> Uuid,
    productTaskId: nat -> Uuid)

  /** The period starts at the trial start, else the start date, else now. */
  function PeriodStart(req: EcommerceRequest, now: Instant): Instant
  {
    if req.trialStart.Some? then req.trialStart.value
    else if req.startDate.Some? then req.startDate.value
    else now
  }

  /** The subscription row: ACTIVE on the base plan, one month long by
   *  default, with no next renewal of its own. */
  function NewRow(tenantId: Uuid, now: Instant, req: EcommerceRequest, customerId: Uuid, sid: Uuid): Subscription
  {
    var start := PeriodStart(req, now);
    Subscription(sid, tenantId, customerId, req.basePlanId, Active, start, Some(PlusMonths(start, 1)), None,
                 Some(false), None, None, req.paymentMethodRef, req.shippingAddress, req.trialStart, req.trialEnd,
                 map[], now, now)
  }

  /** The trial-end task, when there is a trial end. */
  function TrialTask(tasks: seq<Task>, tenantId: Uuid, sid: Uuid, req: EcommerceRequest, id: Uuid): (r: Result<seq<Task>>)
    ensures req.trialEnd.None? ==> r == Success(tasks)
    ensures r.Success? && req.trialEnd.Some? ==>
              |r.value| == |tasks| + 1 && r.value[..|tasks|] == tasks
              && r.value[|tasks|] == ScheduledTask(id, tenantId, TrialEnd(sid), req.trialEnd.value)
  {
    if req.trialEnd.Some? then Insert(tasks, ScheduledTask(id, tenantId, TrialEnd(sid), req.trialEnd.value))
    else Success(tasks)
  }

  function ProductContext(tenantId: Uuid, now: Instant, req: EcommerceRequest, ids: EcommerceIds, plans: map<Uuid, Plan>)
    : Context
  {
    Context(tenantId, ids.subscriptionId, PeriodStart(req, now), plans, ids.itemId, ids.productTaskId)
  }

  /** createEcommerceSubscription: the response and the tables after the
   *  transaction. */
  function Create(t: Tables, tenantId: Uuid, now: Instant, req: EcommerceRequest, ids: EcommerceIds)
    : (r: Result<(EcommerceResponse, Tables)>)
    ensures PlanCheck(t.plans, req.products, tenantId).Failure? ==> r.Failure?
    ensures r.Success? ==> PlanCheck(t.plans, req.products, tenantId).Success?
                           && UpsertCustomer(t.customers, tenantId, req, ids.customerId).Success?
    ensures r.Success? ==>
              var plans := PlanCheck(t.plans, req.products, tenantId).value;
              var (customer, customers) := UpsertCustomer(t.customers, tenantId, req, ids.customerId).value;
              var sid := ids.subscriptionId;
              var turns := Turns(ProductContext(tenantId, now, req, ids, plans), req.products);
              FindSubscription(t.subscriptions, sid).None?
              && AddProducts(t.items, t.tasks, turns, 0).Success?
              && TrialTask(AddProducts(t.items, t.tasks, turns, 0).value.1, tenantId, sid, req, ids.trialTaskId).Success?
              && r.value.1 == Tables(t.plans, customers, t.subscriptions + [NewRow(tenantId, now, req, customer.id, sid)],
                                     AddProducts(t.items, t.tasks, turns, 0).value.0,
                                     TrialTask(AddProducts(t.items, t.tasks, turns, 0).value.1, tenantId, sid, req,
                                               ids.trialTaskId).value,
                                     t.history)
              && Response(NewRow(tenantId, now, req, customer.id, sid), customer, plans, req.products) == Success(r.value.0)
  {
    var plans := PlanCheck(t.plans, req.products, tenantId);
    if plans.Failure? then Failure(plans.error)
    else
      var up := UpsertCustomer(t.customers, tenantId, req, ids.customerId);
      if up.Failure? then Failure(up.error)
      else
        var (customer, customers) := up.value;
        var sid := ids.subscriptionId;
        var row := NewRow(tenantId, now, req, customer.id, sid);
        if FindSubscription(t.subscriptions, sid).Some? then Failure("duplicate key value violates unique constraint")
        else
          var added := AddProducts(t.items, t.tasks, Turns(ProductContext(tenantId, now, req, ids, plans.value), req.products), 0);
          if added.Failure? then Failure(added.error)
          else
            var tasks := TrialTask(added.value.1, tenantId, sid, req, ids.trialTaskId);
            if tasks.Failure? then Failure(tasks.error)
            else
              var response := Response(row, customer, plans.value, req.products);
              if response.Failure? then Failure(response.error)
              else
                Success((response.value, Tables(t.plans, customers, t.subscriptions + [row], added.value.0, tasks.value, t.history)))
  }

  /** A created subscription is ACTIVE on the base plan from the trial start
   *  (else the start date, else now) for one month, renews nowhere of its
   *  own and is not set to cancel; it is appended for a customer with the
   *  request's email. */
  lemma CreatedSubscriptionState(t: Tables, tenantId: Uuid, now: Instant, req: EcommerceRequest, ids: EcommerceIds)
    requires Create(t, tenantId, now, req, ids).Success?
    ensures var t1 := Create(t, tenantId, now, req, ids).value.1;
            var start := if req.trialStart.Some? then req.trialStart.value
                         else if req.startDate.Some? then req.startDate.value else now;
            |t1.subscriptions| == |t.subscriptions| + 1 && t1.subscriptions[..|t.subscriptions|] == t.subscriptions
            && var s := t1.subscriptions[|t.subscriptions|];
               s.id == ids.subscriptionId && s.tenantId == tenantId && s.planId == req.basePlanId && s.status == Active
               && s.currentPeriodStart == start && s.currentPeriodEnd == Some(PlusMonths(start, 1))
               && s.nextRenewalAt.None? && s.cancelAtPeriodEnd == Some(false)
               && exists c :: c in t1.customers && c.id == s.customerId && EmailMatches(c, tenantId, req.customerEmail)
  {
    var t1 := Create(t, tenantId, now, req, ids).value.1;
    var (customer, customers) := UpsertCustomer(t.customers, tenantId, req, ids.customerId).value;
    assert t1.subscriptions[|t.subscriptions|] == NewRow(tenantId, now, req, customer.id, ids.subscriptionId);
    assert customer in t1.customers;
  }

  /** The loop and the trial-end task leave the j-th turn's rows at the
   *  j-th new place of each table. */
  lemma TurnRows(items: seq<SubscriptionItem>, tasks: seq<Task>, turns: seq<Turn>, tenantId: Uuid, sid: Uuid,
                 req: EcommerceRequest, trialId: Uuid)
    requires AddProducts(items, tasks, turns, 0).Success?
    requires TrialTask(AddProducts(items, tasks, turns, 0).value.1, tenantId, sid, req, trialId).Success?
    ensures var added := AddProducts(items, tasks, turns, 0).value;
            var tasks1 := TrialTask(added.1, tenantId, sid, req, trialId).value;
            |added.0| == |items| + |turns| && added.0[..|items|] == items
            && |tasks1| == |tasks| + |turns| + (if req.trialEnd.Some? then 1 else 0) && tasks1[..|tasks|] == tasks
            && forall j :: 0 <= j < |turns| ==>
                 turns[j].item == Success(added.0[|items| + j]) && turns[j].task == Success(tasks1[|tasks| + j])
  {
    var added := AddProducts(items, tasks, turns, 0).value;
    var tasks1 := TrialTask(added.1, tenantId, sid, req, trialId).value;
    assert tasks1[..|added.1|] == added.1;
    assert tasks1[..|tasks|] == added.1[..|tasks|];
    forall j | 0 <= j < |turns|
      ensures turns[j].item == Success(added.0[|items| + j]) && turns[j].task == Success(tasks1[|tasks| + j])
    {
      AddProductsRow(items, tasks, turns, 0, j);
      assert tasks1[|tasks| + j] == tasks1[..|added.1|][|tasks| + j];
    }
  }

  /** A creation appends one item per product and one renewal task per
   *  product, then the trial-end task, if any, after the rows already
   *  there. */
  lemma ProductRowsWritten(t: Tables, tenantId: Uuid, now: Instant, req: EcommerceRequest, ids: EcommerceIds)
    requires Create(t, tenantId, now, req, ids).Success?
    ensures var t1 := Create(t, tenantId, now, req, ids).value.1;
            |t1.items| == |t.items| + |req.products| && t1.items[..|t.items|] == t.items
            && |t1.tasks| == |t.tasks| + |req.products| + (if req.trialEnd.Some? then 1 else 0)
            && t1.tasks[..|t.tasks|] == t.tasks
  {
    var ctx, turns := CreateWritesTurns(t, tenantId, now, req, ids);
    ContextRows(t.items, t.tasks, ctx, req.products, req, ids.trialTaskId);
  }

  /** The j-th product's item, on its own plan, and its renewal task, due
   *  one interval of that plan after the period start, sit at the j-th new
   *  place of their tables. */
  lemma ProductRowAt(t: Tables, tenantId: Uuid, now: Instant, req: EcommerceRequest, ids: EcommerceIds, j: nat)
    requires Create(t, tenantId, now, req, ids).Success?
    requires j < |req.products|
    ensures var t1 := Create(t, tenantId, now, req, ids).value.1;
            var ctx := ProductContext(tenantId, now, req, ids, PlanCheck(t.plans, req.products, tenantId).value);
            |t.items| + j < |t1.items| && |t.tasks| + j < |t1.tasks|
            && ItemRow(ctx.sid, ctx.tenantId, req.products[j], ctx.itemId(j)) == Success(t1.items[|t.items| + j])
            && RenewalTask(ctx, req.products[j], j) == Success(t1.tasks[|t.tasks| + j])
  {
    var ctx, turns := CreateWritesTurns(t, tenantId, now, req, ids);
    TablesRowAt(t, Create(t, tenantId, now, req, ids).value.1, ctx, req, ids.trialTaskId, j);
  }

  lemma TablesRowAt(t: Tables, t1: Tables, ctx: Context, req: EcommerceRequest, trialId: Uuid, j: nat)
    requires j < |req.products|
    requires AddProducts(t.items, t.tasks, Turns(ctx, req.products), 0).Success?
    requires TrialTask(AddProducts(t.items, t.tasks, Turns(ctx, req.products), 0).value.1, ctx.tenantId, ctx.sid, req,
                       trialId).Success?
    requires t1.items == AddProducts(t.items, t.tasks, Turns(ctx, req.products), 0).value.0
    requires t1.tasks == TrialTask(AddProducts(t.items, t.tasks, Turns(ctx, req.products), 0).value.1, ctx.tenantId,
                                   ctx.sid, req, trialId).value
    ensures |t.items| + j < |t1.items| && |t.tasks| + j < |t1.tasks|
            && ItemRow(ctx.sid, ctx.tenantId, req.products[j], ctx.itemId(j)) == Success(t1.items[|t.items| + j])
            && RenewalTask(ctx, req.products[j], j) == Success(t1.tasks[|t.tasks| + j])
  {
    ContextRowAt(t.items, t.tasks, ctx, req.products, req, trialId, j);
  }

  lemma ContextRowAt(items: seq<SubscriptionItem>, tasks: seq<Task>, ctx: Context, products: seq<ProductItem>,
                     req: EcommerceRequest, trialId: Uuid, j: nat)
    requires j < |products|
    requires AddProducts(items, tasks, Turns(ctx, products), 0).Success?
    requires TrialTask(AddProducts(items, tasks, Turns(ctx, products), 0).value.1, ctx.tenantId, ctx.sid, req,
                       trialId).Success?
    ensures var added := AddProducts(items, tasks, Turns(ctx, products), 0).value;
            var tasks1 := TrialTask(added.1, ctx.tenantId, ctx.sid, req, trialId).value;
            |items| + j < |added.0| && |tasks| + j < |tasks1|
            && ItemRow(ctx.sid, ctx.tenantId, products[j], ctx.itemId(j)) == Success(added.0[|items| + j])
            && RenewalTask(ctx, products[j], j) == Success(tasks1[|tasks| + j])
  {
    ContextRows(items, tasks, ctx, products, req, trialId);
  }

  /** TurnRows for the turns of a context. */
  lemma ContextRows(items: seq<SubscriptionItem>, tasks: seq<Task>, ctx: Context, products: seq<ProductItem>,
                    req: EcommerceRequest, trialId: Uuid)
    requires AddProducts(items, tasks, Turns(ctx, products), 0).Success?
    requires TrialTask(AddProducts(items, tasks, Turns(ctx, products), 0).value.1, ctx.tenantId, ctx.sid, req,
                       trialId).Success?
    ensures var added := AddProducts(items, tasks, Turns(ctx, products), 0).value;
            var tasks1 := TrialTask(added.1, ctx.tenantId, ctx.sid, req, trialId).value;
            |added.0| == |items| + |products| && added.0[..|items|] == items
            && |tasks1| == |tasks| + |products| + (if req.trialEnd.Some? then 1 else 0) && tasks1[..|tasks|] == tasks
            && forall j :: 0 <= j < |products| ==>
                 ItemRow(ctx.sid, ctx.tenantId, products[j], ctx.itemId(j)) == Success(added.0[|items| + j])
                 && RenewalTask(ctx, products[j], j) == Success(tasks1[|tasks| + j])
  {
    var turns := Turns(ctx, products);
    TurnRows(items, tasks, turns, ctx.tenantId, ctx.sid, req, trialId);
  }

  /** The item and task tables a creation leaves are those of the product
   *  loop over the turns of its context, then the trial-end task. */
  lemma CreateWritesTurns(t: Tables, tenantId: Uuid, now: Instant, req: EcommerceRequest, ids: EcommerceIds)
    returns (ctx: Context, turns: seq<Turn>)
    requires Create(t, tenantId, now, req, ids).Success?
    ensures ctx == ProductContext(tenantId, now, req, ids, PlanCheck(t.plans, req.products, tenantId).value)
    ensures turns == Turns(ctx, req.products)
    ensures AddProducts(t.items, t.tasks, turns, 0).Success?
    ensures TrialTask(AddProducts(t.items, t.tasks, turns, 0).value.1, tenantId, ids.subscriptionId, req,
                      ids.trialTaskId).Success?
    ensures Create(t, tenantId, now, req, ids).value.1.items == AddProducts(t.items, t.tasks, turns, 0).value.0
    ensures Create(t, tenantId, now, req, ids).value.1.tasks
            == TrialTask(AddProducts(t.items, t.tasks, turns, 0).value.1, tenantId, ids.subscriptionId, req,
                         ids.trialTaskId).value
  {
    ctx := ProductContext(tenantId, now, req, ids, PlanCheck(t.plans, req.products, tenantId).value);
    turns := Turns(ctx, req.products);
  }

  /** Each product's item carries the plan its renewal task names, so the
   *  invoice the scheduled task generates finds it (unlike the placeholder plan ids
   *  of the simple creation path). */
  lemma ItemsAreFindable(t: Tables, tenantId: Uuid, now: Instant, req: EcommerceRequest, ids: EcommerceIds, j: nat)
    requires Create(t, tenantId, now, req, ids).Success?
    requires j < |req.products|
    ensures var t1 := Create(t, tenantId, now, req, ids).value.1;
            var ctx := ProductContext(tenantId, now, req, ids, PlanCheck(t.plans, req.products, tenantId).value);
            req.products[j].planId.Some?
            && |t.tasks| + j < |t1.tasks| && t1.tasks[|t.tasks| + j].payload.Json?
            && "planId" in t1.tasks[|t.tasks| + j].payload.fields
            && t1.tasks[|t.tasks| + j].payload.fields["planId"] == req.products[j].planId.value
            && |t.items| + j < |t1.items|
            && t1.items[|t.items| + j] in InvoiceGeneration.RenewalItems(t1.items, ctx.sid, ctx.tenantId,
                                                                       req.products[j].planId.value)
  {
    var t1 := Create(t, tenantId, now, req, ids).value.1;
    var ctx := ProductContext(tenantId, now, req, ids, PlanCheck(t.plans, req.products, tenantId).value);
    ProductRowAt(t, tenantId, now, req, ids, j);
    assert A: |t.items| + j < |t1.items|;
    assert B: ItemRow(ctx.sid, ctx.tenantId, req.products[j], ctx.itemId(j)) == Success(t1.items[|t.items| + j]);
    assert C: RenewalTask(ctx, req.products[j], j) == Success(t1.tasks[|t.tasks| + j]);
    RowFindable(ctx, t1.items, |t.items| + j, t1.tasks[|t.tasks| + j], req.products[j], j);
  }

  /** One product's item and renewal task: the scheduled task names the item's plan,
   *  and the plan's renewal items include the item. */
  lemma RowFindable(ctx: Context, items: seq<SubscriptionItem>, i: nat, task: Task, p: ProductItem, j: nat)
    requires i < |items|
    requires ItemRow(ctx.sid, ctx.tenantId, p, ctx.itemId(j)) == Success(items[i])
    requires RenewalTask(ctx, p, j) == Success(task)
    ensures p.planId.Some? && task.payload.Json? && "planId" in task.payload.fields
            && task.payload.fields["planId"] == p.planId.value
            && items[i] in InvoiceGeneration.RenewalItems(items, ctx.sid, ctx.tenantId, p.planId.value)
  {
    assert PayloadOf(ProductRenewal(ctx.sid, p.productId.value, p.planId.value))["planId"] == p.planId.value;
    assert InvoiceGeneration.RenewalItem(ctx.sid, ctx.tenantId, p.planId.value, items[i]);
  }

  /** A creation goes through only when every product names a plan that
   *  exists, and every plan so named is in the tenant and ACTIVE. */
  lemma CreateNeedsActivePlans(t: Tables, tenantId: Uuid, now: Instant, req: EcommerceRequest, ids: EcommerceIds)
    requires Create(t, tenantId, now, req, ids).Success?
    ensures forall i :: 0 <= i < |req.products| ==>
              req.products[i].planId.Some? && HasPlanId(t.plans, req.products[i].planId.value)
    ensures forall k :: 0 <= k < |t.plans| && Requested(req.products, t.plans[k].id) ==>
              t.plans[k].tenantId == tenantId && t.plans[k].status == PlanActive
  {
    PlanCheckAccepts(t.plans, req.products, tenantId);
  }

  // ---------------------------------------------------------------- the transaction

  /** The product loop as written: per product, insert its item, then
   *  compute its renewal date and schedule its renewal task. */
  method AddProductRows(items: seq<SubscriptionItem>, tasks: seq<Task>, ctx: Context, products: seq<ProductItem>)
    returns (r: Result<(seq<SubscriptionItem>, seq<Task>)>)
    ensures r == AddProducts(items, tasks, Turns(ctx, products), 0)
  {
    var turns := Turns(ctx, products);
    var newItems, newTasks := items, tasks;
    var i := 0;
    while i < |products|
      invariant 0 <= i <= |products|
      invariant AddProducts(newItems, newTasks, turns, i) == AddProducts(items, tasks, turns, 0)
    {
      var step := AddProductRow(newItems, newTasks, ctx, products, i);
      AddProductsStep(newItems, newTasks, turns, i);
      if step.Failure? {
        return Failure(step.error);
      }
      newItems, newTasks := step.value.0, step.value.1;
      i := i + 1;
    }
    assert AddProducts(newItems, newTasks, turns, i) == Success((newItems, newTasks));
    return Success((newItems, newTasks));
  }

  /** One turn of the loop over turns[from..]: a failing turn ends it, a
   *  successful one hands its tables to the next turn. */
  lemma AddProductsStep(items: seq<SubscriptionItem>, tasks: seq<Task>, turns: seq<Turn>, from: nat)
    requires from < |turns|
    ensures var step := AddTurn(items, tasks, turns[from]);
            AddProducts(items, tasks, turns, from)
            == if step.Failure? then step else AddProducts(step.value.0, step.value.1, turns, from + 1)
  {
  }

  /** One turn of the product loop as written. */
  method AddProductRow(items: seq<SubscriptionItem>, tasks: seq<Task>, ctx: Context, products: seq<ProductItem>, i: nat)
    returns (r: Result<(seq<SubscriptionItem>, seq<Task>)>)
    requires i < |products|
    ensures r == AddTurn(items, tasks, Turns(ctx, products)[i])
  {
    var p := products[i];
    var item := ItemRow(ctx.sid, ctx.tenantId, p, ctx.itemId(i));
    if item.Failure? {
      return Failure(item.error);
    }
    if ItemIdTaken(items, item.value.id) {
      return Failure("duplicate key value violates unique constraint");
    }
    var task := RenewalTask(ctx, p, i);
    if task.Failure? {
      return Failure(task.error);
    }
    var ins := Insert(tasks, task.value);
    if ins.Failure? {
      return Failure(ins.error);
    }
    return Success((items + [item.value], ins.value));
  }

  /** createEcommerceSubscription on the store: nothing changes unless the
   *  whole creation goes through. */
  method CreateEcommerceSubscription(store: Store, tenantId: Uuid, now: Instant, req: EcommerceRequest, ids: EcommerceIds)
    returns (r: Result<EcommerceResponse>)
    modifies store
    ensures var c := Create(old(store.Contents()), tenantId, now, req, ids);
            (r.Success? <==> c.Success?)
            && (c.Success? ==> r.value == c.value.0 && store.Contents() == c.value.1)
            && (c.Failure? ==> store.Contents() == old(store.Contents()))
  {
    var plans := ValidatePlans(store.plans, req.products, tenantId);
    if plans.Failure? {
      return Failure(plans.error);
    }
    var up := UpsertCustomer(store.customers, tenantId, req, ids.customerId);
    if up.Failure? {
      return Failure(up.error);
    }
    var (customer, customers) := up.value;
    var sid := ids.subscriptionId;
    var row := NewRow(tenantId, now, req, customer.id, sid);
    if FindSubscription(store.subscriptions, sid).Some? {
      return Failure("duplicate key value violates unique constraint");
    }
    var added := AddProductRows(store.items, store.tasks, ProductContext(tenantId, now, req, ids, plans.value),
                                req.products);
    if added.Failure? {
      return Failure(added.error);
    }
    var tasks := TrialTask(added.value.1, tenantId, sid, req, ids.trialTaskId);
    if tasks.Failure? {
      return Failure(tasks.error);
    }
    var response := Response(row, customer, plans.value, req.products);
    if response.Failure? {
      return Failure(response.error);
    }
    var t1 := Tables(store.plans, customers, store.subscriptions + [row], added.value.0, tasks.value, store.history);
    assert Create(store.Contents(), tenantId, now, req, ids) == Success((response.value, t1));
    store.Commit(t1);
    return Success(response.value);
  }
}
