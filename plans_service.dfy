/** The plans service: creating a plan with its defaults and category rules,
 *  switching it between ACTIVE and INACTIVE, and the tenant-scoped reads. */
module PlansService {
  import opened Common
  import opened Calendar
  import opened Records
  import opened PlanValidation

  /** The fields of a plan creation request (null fields are None). */
  datatype CreatePlanRequest = CreatePlanRequest(
    name: string,
    description: Option<string>,
    planType: Option<string>,
    status: Option<string>,
    basePriceCents: Option<int>,
    currency: string,
    billingInterval: Option<string>,
    billingIntervalCount: Option<int>,
    trialPeriodDays: Option<int>,
    planCategory: Option<string>)

  /** The plans table. */
  class PlanTable {
    var rows: seq<Plan>

    constructor()
      ensures rows == []
    {
      rows := [];
    }
  }

  /** The plan object createPlan fills from the request before the default
   *  flags: status ACTIVE and category DIGITAL when the request names none,
   *  flags unset, both timestamps now. */
  function DraftPlan(request: CreatePlanRequest, tenantId: Uuid, id: Uuid, now: Instant): (r: Plan)
    ensures r.id == id && r.tenantId == tenantId && r.name == request.name
    ensures r.status == if request.status.Some? then request.status.value else PlanActive
    ensures r.planCategory == if request.planCategory.Some? then request.planCategory else Some(Digital)
    ensures r.basePriceCents == request.basePriceCents && r.billingInterval == request.billingInterval
    ensures r.requiresProducts.None? && r.allowsProducts.None? && r.basePriceRequired.None?
  {
    Plan(id, tenantId, request.name, request.description, request.planType,
         if request.status.Some? then request.status.value else PlanActive,
         request.basePriceCents, request.currency, request.billingInterval,
         request.billingIntervalCount, request.trialPeriodDays,
         if request.planCategory.Some? then request.planCategory else Some(Digital),
         None, None, None, now, now)
  }

  /** What createPlan stores: the draft with the category's default flags,
   *  when that passes the category rules. With the defaults applied, a plan
   *  is accepted exactly when its category is known and, unless it is
   *  PRODUCT_BASED, it has a base price above zero. */
  function AcceptedPlan(request: CreatePlanRequest, tenantId: Uuid, id: Uuid, now: Instant): (r: Option<Plan>)
    ensures var c := if request.planCategory.Some? then request.planCategory else Some(Digital);
            r.Some? <==> IsKnownCategory(c) && (c == Some(ProductBased) || (request.basePriceCents.Some? && request.basePriceCents.value > 0))
    ensures r.Some? ==> r.value.id == id && r.value.tenantId == tenantId && ConsistentConfiguration(r.value)
    ensures r.Some? ==> r.value.status == if request.status.Some? then request.status.value else PlanActive
  {
    var plan := WithDefaultFlags(DraftPlan(request, tenantId, id, now));
    if ConsistentConfiguration(plan) then Some(plan) else None
  }

  /** createPlan: the plan object is filled, given its default flags in
   *  place, validated, and inserted only when valid; an invalid plan throws
   *  and nothing is inserted. */
  method CreatePlan(table: PlanTable, request: CreatePlanRequest, tenantId: Uuid, id: Uuid, now: Instant)
    returns (r: Result<Plan>)
    modifies table
    ensures r.Success? <==> AcceptedPlan(request, tenantId, id, now).Some?
    ensures r.Success? ==> r.value == AcceptedPlan(request, tenantId, id, now).value
                           && table.rows == old(table.rows) + [r.value]
    ensures r.Failure? ==> table.rows == old(table.rows)
  {
    var entity := new PlanEntity(DraftPlan(request, tenantId, id, now));
    SetDefaultValidationFlags(entity);
    var validation := ValidatePlanConfiguration(entity.plan);
    if !validation.valid {
      return Failure("Plan validation failed: " + validation.ErrorMessage());
    }
    table.rows := table.rows + [entity.plan];
    return Success(entity.plan);
  }

  function StatusText(active: bool): string
  {
    if active then PlanActive else PlanInactive
  }

  /** The table after `UPDATE plans SET status, updated_at WHERE id AND
   *  tenant_id`: only that tenant's plan with that id changes. */
  function WithPlanStatus(rows: seq<Plan>, planId: Uuid, tenantId: Uuid, active: bool, now: Instant): (r: seq<Plan>)
    ensures |r| == |rows|
    ensures forall i :: 0 <= i < |rows| ==>
              if rows[i].id == planId && rows[i].tenantId == tenantId
              then r[i] == rows[i].(status := StatusText(active), updatedAt := now)
              else r[i] == rows[i]
  {
    seq(|rows|, i requires 0 <= i < |rows| =>
      if rows[i].id == planId && rows[i].tenantId == tenantId
      then rows[i].(status := StatusText(active), updatedAt := now)
      else rows[i])
  }

  /** updatePlanStatus: ACTIVE when active, else INACTIVE; empty when the
   *  plan is missing or belongs to another tenant, which changes nothing. */
  method UpdatePlanStatus(table: PlanTable, planId: Uuid, tenantId: Uuid, active: bool, now: Instant)
    returns (r: Option<Plan>)
    modifies table
    ensures table.rows == WithPlanStatus(old(table.rows), planId, tenantId, active, now)
    ensures r.Some? <==> PlanIn(old(table.rows), planId, tenantId)
    ensures r.Some? ==> r == FindPlan(table.rows, planId, tenantId)
                        && r.value.status == StatusText(active)
    ensures r.None? ==> table.rows == old(table.rows)
  {
    var before := table.rows;
    table.rows := WithPlanStatus(table.rows, planId, tenantId, active, now);
    if !PlanIn(before, planId, tenantId) {
      assert table.rows == before;
      return None;
    }
    PlanStatusFound(before, planId, tenantId, active, now);
    r := FindPlan(table.rows, planId, tenantId);
  }

  /** After a status update of a tenant's plan, the plan is still found in
   *  that tenant, now with the new status. */
  lemma PlanStatusFound(rows: seq<Plan>, planId: Uuid, tenantId: Uuid, active: bool, now: Instant)
    requires PlanIn(rows, planId, tenantId)
    ensures PlanIn(WithPlanStatus(rows, planId, tenantId, active, now), planId, tenantId)
    ensures FindPlan(WithPlanStatus(rows, planId, tenantId, active, now), planId, tenantId).value.status == StatusText(active)
  {
    var r := WithPlanStatus(rows, planId, tenantId, active, now);
    var i :| 0 <= i < |rows| && rows[i].id == planId && rows[i].tenantId == tenantId;
    assert r[i].id == planId && r[i].tenantId == tenantId;
    var p := FindPlan(r, planId, tenantId).value;
    var k :| 0 <= k < |r| && r[k] == p;
    assert rows[k].id == planId && rows[k].tenantId == tenantId;
  }

  function CreatedAt(p: Plan): int { p.createdAt }

  predicate OfTenant(tenantId: Uuid, p: Plan) { p.tenantId == tenantId }
  predicate ActiveOfTenant(tenantId: Uuid, p: Plan) { p.tenantId == tenantId && p.status == PlanActive }

  /** One page of getPlans. */
  datatype PlanPage = PlanPage(plans: seq<Plan>, totalCount: nat)

  /** The tenant's plans in the order getPlans pages through them: newest
   *  first, each of the tenant's rows exactly as often as it occurs and no
   *  other row. */
  function TenantPlansNewestFirst(rows: seq<Plan>, tenantId: Uuid): (r: seq<Plan>)
    ensures SortedDesc(r, CreatedAt)
    ensures forall p :: multiset(r)[p] == if p.tenantId == tenantId then multiset(rows)[p] else 0
    ensures |r| == |Filter(rows, p => OfTenant(tenantId, p))|
  {
    var f := Filter(rows, p => OfTenant(tenantId, p));
    SortDescFacts(f, CreatedAt);
    FilterMultiset(rows, p => OfTenant(tenantId, p));
    assert |SortDesc(f, CreatedAt)| == |multiset(SortDesc(f, CreatedAt))| == |multiset(f)| == |f|;
    SortDesc(f, CreatedAt)
  }

  /** getPlans: the tenant's plans newest first, `size` of them from
   *  `offset` (none past the end), with the count of all the tenant's plans. */
  function GetPlans(rows: seq<Plan>, tenantId: Uuid, size: int, offset: int): (r: PlanPage)
    ensures r.totalCount == |Filter(rows, p => OfTenant(tenantId, p))|
    ensures |r.plans| == if offset < 0 || size <= 0 || offset >= r.totalCount then 0
                         else Min(size, r.totalCount - offset)
    ensures forall i :: 0 <= i < |r.plans| ==>
              offset + i < r.totalCount && r.plans[i] == TenantPlansNewestFirst(rows, tenantId)[offset + i]
    ensures forall i :: 0 <= i < |r.plans| ==> r.plans[i] in rows && r.plans[i].tenantId == tenantId
    ensures forall i, j :: 0 <= i < j < |r.plans| ==> r.plans[i].createdAt >= r.plans[j].createdAt
  {
    var sorted := TenantPlansNewestFirst(rows, tenantId);
    SortedSelection(rows, p => OfTenant(tenantId, p), CreatedAt);
    var page := Slice(sorted, offset, size);
    assert forall i :: 0 <= i < |page| ==> page[i] in sorted;
    PlanPage(page, |Filter(rows, p => OfTenant(tenantId, p))|)
  }

  /** Paging through the tenant's plans page by page meets every plan: the
   *  i-th plan of page number `page` is the plan at position page * size + i
   *  of the newest-first order, whenever that position exists. */
  lemma PagesCoverPlans(rows: seq<Plan>, tenantId: Uuid, size: nat, page: nat, i: nat)
    requires i < size && page * size + i < |TenantPlansNewestFirst(rows, tenantId)|
    ensures var r := GetPlans(rows, tenantId, size, page * size);
            i < |r.plans| && r.plans[i] == TenantPlansNewestFirst(rows, tenantId)[page * size + i]
  {
    PlanAtOffset(rows, tenantId, size, page * size, i);
  }

  /** The i-th plan of the page at a given offset is the plan at position
   *  offset + i, whenever that position exists. */
  lemma PlanAtOffset(rows: seq<Plan>, tenantId: Uuid, size: nat, offset: nat, i: nat)
    requires i < size && offset + i < |TenantPlansNewestFirst(rows, tenantId)|
    ensures var r := GetPlans(rows, tenantId, size, offset);
            i < |r.plans| && r.plans[i] == TenantPlansNewestFirst(rows, tenantId)[offset + i]
  {
    var r := GetPlans(rows, tenantId, size, offset);
    assert |r.plans| == Min(size, r.totalCount - offset);
  }

  /** getActivePlans: exactly the tenant's ACTIVE plans, newest first. */
  function GetActivePlans(rows: seq<Plan>, tenantId: Uuid): (r: seq<Plan>)
    ensures forall p :: p in r <==> p in rows && p.tenantId == tenantId && p.status == PlanActive
    ensures forall i, j :: 0 <= i < j < |r| ==> r[i].createdAt >= r[j].createdAt
  {
    SortedSelection(rows, p => ActiveOfTenant(tenantId, p), CreatedAt);
    SortDesc(Filter(rows, p => ActiveOfTenant(tenantId, p)), CreatedAt)
  }
}
