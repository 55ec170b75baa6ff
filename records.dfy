/** The rows of the engine's tables that more than one service reads or
 *  writes: plans, customers, subscriptions and their items, invoices and
 *  invoice lines, delivery instances and entitlements. A table is a
 *  sequence of rows in table order; a nullable column is an Option. */
module Records {
  import opened Common
  import opened Calendar
  import Tasks

  /** A row of the plans table. */
  datatype Plan = Plan(
    id: Uuid,
    tenantId: Uuid,
    name: string,
    description: Option<string>,
    planType: Option<string>,
    status: string,
    basePriceCents: Option<int>,
    currency: string,
    billingInterval: Option<string>,
    billingIntervalCount: Option<int>,
    trialPeriodDays: Option<int>,
    planCategory: Option<string>,
    requiresProducts: Option<bool>,
    allowsProducts: Option<bool>,
    basePriceRequired: Option<bool>,
    createdAt: Instant,
    updatedAt: Instant)

  const PlanActive: string := "ACTIVE"
  const PlanInactive: string := "INACTIVE"

  /** The subscription statuses the services write; a row may hold any other
   *  text written outside them. */
  datatype SubscriptionStatus = Active | Trialing | Paused | Canceled | OtherStatus(name: string)

  /** A value of a custom_attrs JSON object as the services write it. */
  datatype AttrValue = Text(text: string) | Number(n: int) | Flag(b: bool) | Time(t: Instant) | Null

  /** A row of the subscriptions table. */
  datatype Subscription = Subscription(
    id: Uuid,
    tenantId: Uuid,
    customerId: Uuid,
    planId: Uuid,
    status: SubscriptionStatus,
    currentPeriodStart: Instant,
    currentPeriodEnd: Option<Instant>,
    nextRenewalAt: Option<Instant>,
    cancelAtPeriodEnd: Option<bool>,
    canceledAt: Option<Instant>,
    cancellationReason: Option<string>,
    paymentMethodRef: Option<string>,
    shippingAddress: Option<string>,
    trialStart: Option<Instant>,
    trialEnd: Option<Instant>,
    customAttrs: map<string, AttrValue>,
    createdAt: Instant,
    updatedAt: Instant)

  /** A row of the subscription_items table; itemConfig is the item's JSON
   *  configuration (product id, product name, ...). */
  datatype SubscriptionItem = SubscriptionItem(
    id: Uuid,
    tenantId: Uuid,
    subscriptionId: Uuid,
    planId: Uuid,
    quantity: int,
    unitPriceCents: int,
    currency: string,
    itemConfig: Tasks.Payload)

  /** A row of the customers table. */
  datatype Customer = Customer(
    id: Uuid,
    tenantId: Uuid,
    email: Option<string>,
    externalCustomerId: Option<string>,
    firstName: Option<string>,
    lastName: Option<string>,
    phone: Option<string>,
    status: string,
    customerType: Option<string>)

  /** A row of the invoices table. */
  datatype Invoice = Invoice(
    id: Uuid,
    tenantId: Uuid,
    subscriptionId: Uuid,
    customerId: Uuid,
    invoiceNumber: string,
    status: string,
    periodStart: Instant,
    periodEnd: Instant,
    subtotalCents: int,
    taxCents: int,
    totalCents: int,
    currency: string,
    dueDate: Instant,
    customAttrs: map<string, string>,
    createdAt: Instant,
    updatedAt: Instant)

  /** A row of the invoice_lines table. */
  datatype InvoiceLine = InvoiceLine(
    id: Uuid,
    tenantId: Uuid,
    invoiceId: Uuid,
    description: string,
    quantity: int,
    unitPriceCents: int,
    totalCents: int,
    currency: string,
    periodStart: Instant,
    periodEnd: Instant)

  /** What a snapshot's shippingAddress member holds: a JSON string (whose
   *  text is an address object) or an embedded JSON object. */
  datatype AddressValue = AddressText(text: string) | AddressObject(json: string)

  /** A delivery's JSON snapshot as the order step reads it back: its text
   *  members, its shippingAddress member (None when absent) and the length
   *  of its items list (None when absent); or a text the JSON reader
   *  rejects. */
  datatype Snapshot =
    | Snapshot(fields: map<string, string>, shippingAddress: Option<AddressValue>, itemCount: Option<nat>)
    | UnreadableSnapshot

  /** A row of the delivery_instances table; snapshot is the JSON copy of
   *  the items taken when the delivery was created. */
  datatype Delivery = Delivery(
    id: Uuid,
    tenantId: Uuid,
    subscriptionId: Uuid,
    invoiceId: Option<Uuid>,
    cycleKey: string,
    status: string,
    deliveryType: Option<string>,
    snapshot: Snapshot,
    externalOrderRef: Option<string>,
    cancellationReason: Option<string>,
    cancelledAt: Option<Instant>,
    createdAt: Instant,
    updatedAt: Instant)

  const DeliveryPending: string := "PENDING"
  const DeliveryProcessing: string := "PROCESSING"
  const DeliveryOrderCreated: string := "ORDER_CREATED"
  const DeliveryCanceled: string := "CANCELED"

  /** A row of the entitlements table. */
  datatype Entitlement = Entitlement(
    id: Uuid,
    tenantId: Uuid,
    customerId: Uuid,
    subscriptionId: Uuid,
    entitlementType: string,
    entitlementKey: string,
    status: string,
    validFrom: Instant,
    validUntil: Instant,
    externalEntitlementRef: Option<string>,
    updatedAt: Instant)

  /** The tables the scheduled task processor and the billing and delivery handlers
   *  read and write together. */
  datatype Database = Database(
    tasks: seq<Tasks.Task>,
    plans: seq<Plan>,
    subscriptions: seq<Subscription>,
    items: seq<SubscriptionItem>,
    invoices: seq<Invoice>,
    invoiceLines: seq<InvoiceLine>,
    deliveries: seq<Delivery>,
    entitlements: seq<Entitlement>)

  /** A row with this id exists in the tenant: the `id = ? AND tenant_id = ?`
   *  lookups every tenant-scoped service makes. */
  predicate PlanIn(plans: seq<Plan>, id: Uuid, tenantId: Uuid)
  {
    exists i :: 0 <= i < |plans| && plans[i].id == id && plans[i].tenantId == tenantId
  }

  /** The first plan with this id in the tenant. */
  function FindPlan(plans: seq<Plan>, id: Uuid, tenantId: Uuid): (r: Option<Plan>)
    ensures r.Some? <==> PlanIn(plans, id, tenantId)
    ensures r.Some? ==> r.value in plans && r.value.id == id && r.value.tenantId == tenantId
  {
    if plans == [] then None
    else if plans[0].id == id && plans[0].tenantId == tenantId then Some(plans[0])
    else
      var r := FindPlan(plans[1..], id, tenantId);
      assert forall i :: 1 <= i < |plans| ==> plans[i] == plans[1..][i - 1];
      r
  }

  /** The first plan with this id, whatever its tenant (fetchOneById). */
  function FindPlanById(plans: seq<Plan>, id: Uuid): (r: Option<Plan>)
    ensures r.Some? <==> exists i :: 0 <= i < |plans| && plans[i].id == id
    ensures r.Some? ==> r.value in plans && r.value.id == id
  {
    if plans == [] then None
    else if plans[0].id == id then Some(plans[0])
    else
      var r := FindPlanById(plans[1..], id);
      assert forall i :: 1 <= i < |plans| ==> plans[i] == plans[1..][i - 1];
      r
  }

  /** The position of the subscription with this id, if any. */
  function FindSubscription(subs: seq<Subscription>, id: Uuid): (r: Option<nat>)
    ensures r.Some? ==> r.value < |subs| && subs[r.value].id == id
    ensures r.None? <==> forall i :: 0 <= i < |subs| ==> subs[i].id != id
  {
    if subs == [] then None
    else if subs[|subs| - 1].id == id then Some(|subs| - 1)
    else
      var r := FindSubscription(subs[..|subs| - 1], id);
      assert forall i :: 0 <= i < |subs| - 1 ==> subs[..|subs| - 1][i] == subs[i];
      r
  }
}
