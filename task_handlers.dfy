/** The handlers TaskProcessorService dispatches a leased task to, by task
 *  type: renewals and trial ends (placeholders that succeed), product
 *  renewals and payments (through the billing handler when one is wired
 *  in), delivery creation, order creation and entitlement grants. A handler
 *  answers whether it succeeded and the tables it leaves behind; every
 *  exception a handler catches is a `false` answer. */
module TaskHandlers {
  import opened Common
  import opened Calendar
  import opened Tasks
  import opened Records
  import InvoiceGeneration
  import BillingTaskHandler
  import ScheduledTasks

  /** What a batch depends on that the service does not compute: the clock
   *  (read once per batch), the millisecond clock, the worker id,
   *  UUID.fromString, whether a billing handler is wired in, the payment
   *  service's verdict per invoice, and the k-th random UUID drawn while
   *  processing the scheduled task with a given id. */
  datatype Env = Env(
    now: Instant,
    millis: nat,
    worker: string,
    parse: string -> Option<Uuid>,
    billingHandler: bool,
    payment: Uuid -> Result<bool>,
    random: (Uuid, nat) -> Uuid)

  /** `UUID.fromString((String) payload.get(name))`: a missing member is
   *  null and throws, and so does a text that is not a UUID. */
  function UuidMember(env: Env, p: map<string, string>, name: string): Option<Uuid>
  {
    if name in p then env.parse(p[name]) else None
  }

  /** `(String) payload.get(name)`. */
  function Member(p: map<string, string>, name: string): Option<string>
  {
    if name in p then Some(p[name]) else None
  }

  /** `UUID.randomUUID().toString().substring(0, 8)`. */
  function ShortRandom(u: Uuid): string
  {
    if |u| >= 8 then u[..8] else u
  }

  // ---------------------------------------------------------------- billing

  /** processProductRenewal: without a billing handler the scheduled task succeeds and
   *  nothing is written; otherwise the subscription and plan ids must
   *  parse, and the billing handler's answer is the scheduled task's. */
  function ProductRenewalTask(db: Database, task: Task, p: map<string, string>, env: Env): (r: (bool, Database))
    ensures !env.billingHandler ==> r == (true, db)
    ensures env.billingHandler && (UuidMember(env, p, "subscriptionId").None? || UuidMember(env, p, "planId").None?)
            ==> r == (false, db)
    ensures !r.0 ==> r.1 == db
    ensures Extends(db.tasks, r.1.tasks)
  {
    if !env.billingHandler then (true, db)
    else
      var sid := UuidMember(env, p, "subscriptionId");
      var planId := UuidMember(env, p, "planId");
      if sid.None? || planId.None? then (false, db)
      else
        BillingTaskHandler.ProcessProductRenewal(db, task.tenantId, sid.value, Member(p, "productId"),
                                                 planId.value, env.now, RenewalIds(task, env), env.millis)
  }

  /** The fresh ids the invoice generation draws for a product renewal. */
  function RenewalIds(task: Task, env: Env): InvoiceGeneration.NewIds
  {
    InvoiceGeneration.NewIds(env.random(task.id, 0), env.random(task.id, 1), env.random(task.id, 2))
  }

  /** processChargePayment: without a billing handler the scheduled task succeeds;
   *  otherwise the invoice id must parse and the payment service's verdict
   *  is the scheduled task's. No table changes here. */
  function ChargePaymentTask(db: Database, p: map<string, string>, env: Env): (r: (bool, Database))
    ensures r.1 == db
    ensures r.0 <==> !env.billingHandler
                     || (UuidMember(env, p, "invoiceId").Some? && env.payment(UuidMember(env, p, "invoiceId").value) == Success(true))
  {
    if !env.billingHandler then (true, db)
    else
      var invoiceId := UuidMember(env, p, "invoiceId");
      if invoiceId.None? then (false, db)
      else (BillingTaskHandler.ProcessChargePayment(env.payment(invoiceId.value)), db)
  }

  // ---------------------------------------------------------------- invoice context

  predicate InvoiceOf(id: Uuid, tenantId: Uuid, inv: Invoice) { inv.id == id && inv.tenantId == tenantId }
  predicate SubscriptionOf(id: Uuid, tenantId: Uuid, s: Subscription) { s.id == id && s.tenantId == tenantId }
  predicate ItemOf(sid: Uuid, tenantId: Uuid, item: SubscriptionItem) { item.subscriptionId == sid && item.tenantId == tenantId }

  /** What the delivery and entitlement handlers load first: the invoice
   *  and the subscription named by the payload, in the scheduled task's tenant, and
   *  the subscription's items in that tenant; the subscription id also as
   *  the payload's text. */
  datatype InvoiceContext = InvoiceContext(
    invoice: Invoice,
    subscription: Subscription,
    subscriptionText: string,
    items: seq<SubscriptionItem>)

  /** The loads both handlers begin with: both ids must parse, the invoice
   *  and the subscription must exist in the tenant, and the subscription
   *  must have an item; otherwise the handler answers false. */
  function LoadInvoiceContext(db: Database, tenantId: Uuid, p: map<string, string>, env: Env): (r: Option<InvoiceContext>)
    ensures r.Some? <==>
              UuidMember(env, p, "invoiceId").Some? && UuidMember(env, p, "subscriptionId").Some?
              && (exists i :: 0 <= i < |db.invoices| && InvoiceOf(UuidMember(env, p, "invoiceId").value, tenantId, db.invoices[i]))
              && (exists i :: 0 <= i < |db.subscriptions| && SubscriptionOf(UuidMember(env, p, "subscriptionId").value, tenantId, db.subscriptions[i]))
              && (exists i :: 0 <= i < |db.items| && ItemOf(UuidMember(env, p, "subscriptionId").value, tenantId, db.items[i]))
    ensures r.Some? ==>
              var sid := UuidMember(env, p, "subscriptionId").value;
              r.value.invoice in db.invoices && InvoiceOf(UuidMember(env, p, "invoiceId").value, tenantId, r.value.invoice)
              && r.value.subscription in db.subscriptions && SubscriptionOf(sid, tenantId, r.value.subscription)
              && r.value.subscriptionText == p["subscriptionId"]
              && r.value.items == Filter(db.items, item => ItemOf(sid, tenantId, item)) && r.value.items != []
  {
    var inv := UuidMember(env, p, "invoiceId");
    var sid := UuidMember(env, p, "subscriptionId");
    if inv.None? || sid.None? then None
    else
      var invoice := Find(db.invoices, i => InvoiceOf(inv.value, tenantId, i));
      if invoice.None? then None
      else
        var sub := Find(db.subscriptions, s => SubscriptionOf(sid.value, tenantId, s));
        if sub.None? then None
        else
          var items := Filter(db.items, item => ItemOf(sid.value, tenantId, item));
          if items == [] then None
          else
            assert items[0] in db.items && ItemOf(sid.value, tenantId, items[0]);
            Some(InvoiceContext(invoice.value, sub.value, p["subscriptionId"], items))
  }

  // ---------------------------------------------------------------- deliveries

  /** The delivery's cycle key: the subscription id as the payload gives it,
   *  then the period's start and end dates, joined by "_". */
  /** Three pieces of a key, joined: the key starts with the first and ends
   *  with the last. */
  function KeyOf(head: string, mid: string, end: string): (r: string)
    ensures |r| >= |head| + |end| && r[..|head|] == head && r[|r| - |end|..] == end
  {
    AppendParts(head, mid + end);
    AppendParts(head + mid, end);
    head + (mid + end)
  }

  function CycleKey(c: InvoiceContext): (r: string)
    ensures var head := c.subscriptionText + "_";
            var end := InstantDateText(c.invoice.periodEnd);
            |r| >= |head| + |end| && r[..|head|] == head && r[|r| - |end|..] == end
  {
    KeyOf(c.subscriptionText + "_", InstantDateText(c.invoice.periodStart) + "_", InstantDateText(c.invoice.periodEnd))
  }

  predicate DeliveryOfCycle(tenantId: Uuid, sid: Uuid, cycleKey: string, d: Delivery)
  {
    d.tenantId == tenantId && d.subscriptionId == sid && d.cycleKey == cycleKey
  }

  predicate DeliveryIdTaken(deliveries: seq<Delivery>, id: Uuid)
  {
    exists i :: 0 <= i < |deliveries| && deliveries[i].id == id
  }

  /** A snapshot the order step can read: a JSON object with an items list
   *  and a shippingAddress member that is absent or an object. */
  predicate OrderReadable(s: Snapshot)
  {
    s.Snapshot? && s.itemCount.Some? && (s.shippingAddress.None? || s.shippingAddress.value.AddressObject?)
  }

  /** The snapshot of a new delivery as written: a subscription's shipping
   *  address column is put in as its JSON text, so it is read back as a
   *  string; a subscription without one gets an empty object. */
  function DeliverySnapshotAsWritten(c: InvoiceContext, invoiceText: string): (r: Snapshot)
    ensures OrderReadable(r) <==> c.subscription.shippingAddress.None?
    ensures r.Snapshot? && r.itemCount == Some(|c.items|)
  {
    Snapshot(map["subscriptionId" := c.subscriptionText, "invoiceId" := invoiceText,
                 "customerId" := c.subscription.customerId, "currency" := c.invoice.currency],
             Some(if c.subscription.shippingAddress.Some? then AddressText(c.subscription.shippingAddress.value)
                  else AddressObject("{}")),
             Some(|c.items|))
  }

  /** A subscription with a shipping address yields a snapshot the order
   *  step cannot read: its address comes back as a string, and the cast to
   *  a map throws. */
  lemma AddressTextBreaksOrder(c: InvoiceContext, invoiceText: string)
    requires c.subscription.shippingAddress.Some?
    ensures !OrderReadable(DeliverySnapshotAsWritten(c, invoiceText))
  {
  }

  /** The snapshot of a new delivery with the shipping address embedded as
   *  a JSON object, which the order step reads back as a map. The rest is
   *  as written. */
  function DeliverySnapshot(c: InvoiceContext, invoiceText: string): (r: Snapshot)
    ensures OrderReadable(r)
    ensures r.itemCount == Some(|c.items|)
    ensures r.(shippingAddress := DeliverySnapshotAsWritten(c, invoiceText).shippingAddress)
            == DeliverySnapshotAsWritten(c, invoiceText)
  {
    Snapshot(map["subscriptionId" := c.subscriptionText, "invoiceId" := invoiceText,
                 "customerId" := c.subscription.customerId, "currency" := c.invoice.currency],
             Some(AddressObject(if c.subscription.shippingAddress.Some? then c.subscription.shippingAddress.value else "{}")),
             Some(|c.items|))
  }

  /** The CREATE_ORDER task createDelivery schedules for a delivery. */
  function OrderTask(id: Uuid, tenantId: Uuid, deliveryId: Uuid, sid: Uuid, invoiceId: Uuid, now: Instant): (r: Task)
    ensures r.id == id && r.tenantId == tenantId && r.status == Ready && r.dueAt == now
    ensures r.taskType == CreateOrderType
    ensures r.payload.Json? && "deliveryId" in r.payload.fields && r.payload.fields["deliveryId"] == deliveryId
  {
    ScheduledTasks.ScheduledTask(id, tenantId, ScheduledTasks.OrderCreation(deliveryId, sid, invoiceId), now)
  }

  /** The tenant's delivery for the subscription's cycle, the first in
   *  table order. */
  function FindCycleDelivery(deliveries: seq<Delivery>, tenantId: Uuid, sid: Uuid, cycleKey: string): (r: Option<Delivery>)
    ensures r.Some? ==> r.value in deliveries && DeliveryOfCycle(tenantId, sid, cycleKey, r.value)
  {
    Find(deliveries, d => DeliveryOfCycle(tenantId, sid, cycleKey, d))
  }

  /** The PENDING delivery createDelivery inserts for a cycle. */
  function NewDelivery(id: Uuid, tenantId: Uuid, c: InvoiceContext, invoiceText: string, now: Instant): (r: Delivery)
    ensures r.id == id && r.status == DeliveryPending
    ensures DeliveryOfCycle(tenantId, c.subscription.id, CycleKey(c), r)
    ensures r.invoiceId == Some(c.invoice.id) && r.externalOrderRef.None? && r.cancelledAt.None?
    ensures OrderReadable(r.snapshot)
  {
    Delivery(id, tenantId, c.subscription.id, Some(c.invoice.id), CycleKey(c), DeliveryPending,
             None, DeliverySnapshot(c, invoiceText), None, None, None, now, now)
  }

  /** The delivery step of createDelivery: the cycle's existing delivery is
   *  reused, otherwise one is inserted with the new id, and an insert on a
   *  taken id throws. Afterwards the cycle's delivery is the one whose id is
   *  answered. */
  function EnsureCycleDelivery(deliveries: seq<Delivery>, tenantId: Uuid, c: InvoiceContext, newId: Uuid,
                               invoiceText: string, now: Instant): (r: Option<(Uuid, seq<Delivery>)>)
    ensures var found := FindCycleDelivery(deliveries, tenantId, c.subscription.id, CycleKey(c));
            (r.None? <==> found.None? && DeliveryIdTaken(deliveries, newId))
            && (found.Some? ==> r == Some((found.value.id, deliveries)))
    ensures r.Some? ==>
              |deliveries| <= |r.value.1| <= |deliveries| + 1 && r.value.1[..|deliveries|] == deliveries
              && FindCycleDelivery(r.value.1, tenantId, c.subscription.id, CycleKey(c)).Some?
              && FindCycleDelivery(r.value.1, tenantId, c.subscription.id, CycleKey(c)).value.id == r.value.0
  {
    var found := FindCycleDelivery(deliveries, tenantId, c.subscription.id, CycleKey(c));
    if found.Some? then Some((found.value.id, deliveries))
    else if DeliveryIdTaken(deliveries, newId) then None
    else
      var d := NewDelivery(newId, tenantId, c, invoiceText, now);
      FindSnoc(deliveries, d, d => DeliveryOfCycle(tenantId, c.subscription.id, CycleKey(c), d));
      assert (deliveries + [d])[..|deliveries|] == deliveries;
      Some((newId, deliveries + [d]))
  }

  /** An insert whose failure is logged and swallowed by the handler; the
   *  refused statement still aborts the surrounding transaction, which
   *  `CreateDeliveryAborts` records. */
  function InsertOrKeep(rows: seq<Task>, t: Task): (r: seq<Task>)
    ensures Extends(rows, r)
    ensures r == rows || r == rows + [t]
    ensures forall j :: |rows| <= j < |r| ==> r[j] == t
    ensures HasKey(r, t.tenantId, t.taskKey) || HasId(rows, t.id)
    ensures Insert(rows, t).Success? ==> r == rows + [t]
    ensures Insert(rows, t).Failure? ==> r == rows
  {
    var inserted := Insert(rows, t);
    if inserted.Success? then
      assert KeyIs(inserted.value[|rows|], t.tenantId, t.taskKey);
      assert inserted.value == rows + [t];
      inserted.value
    else rows
  }

  /** processCreateDelivery. After the loads the cycle's delivery is
   *  reused or inserted; a failed insert fails the scheduled task. Then an immediate
   *  CREATE_ORDER task keyed by the delivery is inserted; when that insert
   *  fails the handler swallows the error and answers true, but the refused
   *  statement has aborted the batch's transaction (`CreateDeliveryAborts`),
   *  so nothing the batch wrote is committed. */
  function CreateDeliveryTask(db: Database, task: Task, p: map<string, string>, env: Env): (r: (bool, Database))
    ensures LoadInvoiceContext(db, task.tenantId, p, env).None? ==> r == (false, db)
    ensures !r.0 ==> r.1 == db
    ensures r.0 ==> r.1.(deliveries := db.deliveries, tasks := db.tasks) == db
    ensures r.0 ==> |db.deliveries| <= |r.1.deliveries| <= |db.deliveries| + 1
                    && r.1.deliveries[..|db.deliveries|] == db.deliveries
    ensures Extends(db.tasks, r.1.tasks)
  {
    var loaded := LoadInvoiceContext(db, task.tenantId, p, env);
    if loaded.None? then (false, db)
    else
      var c := loaded.value;
      var ensured := EnsureCycleDelivery(db.deliveries, task.tenantId, c, env.random(task.id, 0), p["invoiceId"], env.now);
      if ensured.None? then (false, db)
      else
        var order := OrderTask(env.random(task.id, 1), task.tenantId, ensured.value.0, c.subscription.id, c.invoice.id, env.now);
        (true, db.(deliveries := ensured.value.1, tasks := InsertOrKeep(db.tasks, order)))
  }

  /** The loads read only the invoices, subscriptions and items. */
  lemma LoadReadsOnlyBilling(db: Database, db': Database, tenantId: Uuid, p: map<string, string>, env: Env, env': Env)
    requires db'.invoices == db.invoices && db'.subscriptions == db.subscriptions && db'.items == db.items
    requires env'.parse == env.parse
    ensures LoadInvoiceContext(db', tenantId, p, env') == LoadInvoiceContext(db, tenantId, p, env)
  {
    assert UuidMember(env', p, "invoiceId") == UuidMember(env, p, "invoiceId");
    assert UuidMember(env', p, "subscriptionId") == UuidMember(env, p, "subscriptionId");
  }

  /** Idempotence of delivery creation: once a CREATE_DELIVERY task has
   *  gone through (its random order-task id being free), running it again,
   *  with any clock and any random ids, answers true and writes nothing: no
   *  second delivery for the cycle and no second order task. But the
   *  re-run's CREATE_ORDER insert is refused, which dooms the batch it runs
   *  in: the handler is idempotent, the batch around it is not. */
  lemma {:induction false} CreateDeliveryIsIdempotent(db: Database, task: Task, p: map<string, string>, env: Env,
                                                      now2: Instant, random2: (Uuid, nat) -> Uuid)
    requires CreateDeliveryTask(db, task, p, env).0
    requires !HasId(db.tasks, env.random(task.id, 1))
    ensures var first := CreateDeliveryTask(db, task, p, env).1;
            CreateDeliveryTask(first, task, p, env.(now := now2, random := random2)) == (true, first)
            && CreateDeliveryAborts(first, task, p, env.(now := now2, random := random2))
  {
    var env2 := env.(now := now2, random := random2);
    var first := CreateDeliveryTask(db, task, p, env).1;
    var c := LoadInvoiceContext(db, task.tenantId, p, env).value;
    LoadReadsOnlyBilling(db, first, task.tenantId, p, env, env2);
    var ensured := EnsureCycleDelivery(db.deliveries, task.tenantId, c, env.random(task.id, 0), p["invoiceId"], env.now).value;
    assert first.deliveries == ensured.1;
    var ensured2 := EnsureCycleDelivery(first.deliveries, task.tenantId, c, random2(task.id, 0), p["invoiceId"], now2);
    assert ensured2 == Some(ensured);
    var order := OrderTask(env.random(task.id, 1), task.tenantId, ensured.0, c.subscription.id, c.invoice.id, env.now);
    var order2 := OrderTask(random2(task.id, 1), task.tenantId, ensured.0, c.subscription.id, c.invoice.id, now2);
    assert first.tasks == InsertOrKeep(db.tasks, order);
    assert KeyIs(order2, order.tenantId, order.taskKey);
    assert HasKey(first.tasks, order.tenantId, order.taskKey);
    assert Insert(first.tasks, order2).Failure?;
  }

  // ---------------------------------------------------------------- orders

  predicate DeliveryIn(id: Uuid, tenantId: Uuid, d: Delivery) { d.id == id && d.tenantId == tenantId }

  /** Every delivery's snapshot can be read by the order step. */
  predicate SnapshotsReadable(deliveries: seq<Delivery>)
  {
    forall i :: 0 <= i < |deliveries| ==> OrderReadable(deliveries[i].snapshot)
  }

  /** The delivery a CREATE_ORDER task works on, when its id parses, it
   *  exists in the tenant and its snapshot can be read. */
  function OrderDelivery(db: Database, tenantId: Uuid, p: map<string, string>, env: Env): (r: Option<Delivery>)
    ensures r.Some? ==> r.value in db.deliveries && r.value.tenantId == tenantId && OrderReadable(r.value.snapshot)
    ensures r.None? && UuidMember(env, p, "deliveryId").Some? && SnapshotsReadable(db.deliveries)
            ==> forall i :: 0 <= i < |db.deliveries| ==> !DeliveryIn(UuidMember(env, p, "deliveryId").value, tenantId, db.deliveries[i])
  {
    var id := UuidMember(env, p, "deliveryId");
    if id.None? then None
    else
      var d := Find(db.deliveries, x => DeliveryIn(id.value, tenantId, x));
      if d.None? || !OrderReadable(d.value.snapshot) then None
      else d
  }

  /** The order reference the mock commerce call returns. */
  function OrderRef(env: Env, task: Task): (r: string)
    ensures 11 <= |r| <= 19 && r[..11] == "mock_order_"
  {
    "mock_order_" + ShortRandom(env.random(task.id, 0))
  }

  /** processCreateOrder: the delivery must exist in the tenant and its
   *  snapshot must be readable as an object with an items list and an
   *  object (or no) shipping address; the mock order always succeeds, and
   *  every delivery row with that id, in any tenant, gets the order
   *  reference and ORDER_CREATED. */
  function CreateOrderTask(db: Database, task: Task, p: map<string, string>, env: Env): (r: (bool, Database))
    ensures r.0 <==> OrderDelivery(db, task.tenantId, p, env).Some?
    ensures !r.0 ==> r.1 == db
    ensures r.0 ==> r.1.(deliveries := db.deliveries) == db
    ensures r.0 ==>
              var id := OrderDelivery(db, task.tenantId, p, env).value.id;
              |r.1.deliveries| == |db.deliveries|
              && forall i :: 0 <= i < |db.deliveries| ==>
                   r.1.deliveries[i] == if db.deliveries[i].id == id
                                        then db.deliveries[i].(externalOrderRef := Some(OrderRef(env, task)),
                                                               status := DeliveryOrderCreated, updatedAt := env.now)
                                        else db.deliveries[i]
    ensures SnapshotsReadable(db.deliveries) ==> SnapshotsReadable(r.1.deliveries)
  {
    var d := OrderDelivery(db, task.tenantId, p, env);
    if d.None? then (false, db)
    else
      var id := d.value.id;
      (true, db.(deliveries := MapWhere(db.deliveries, (x: Delivery) => x.id == id,
                                        (x: Delivery) => x.(externalOrderRef := Some(OrderRef(env, task)),
                                                            status := DeliveryOrderCreated, updatedAt := env.now))))
  }

  /** With every snapshot readable, which the delivery step keeps, the
   *  order task a CREATE_DELIVERY run schedules succeeds when it is run,
   *  under a UUID parser that reads every id back as itself. */
  lemma {:induction false} ScheduledOrderSucceeds(db: Database, task: Task, p: map<string, string>, env: Env, env2: Env)
    requires CreateDeliveryTask(db, task, p, env).0
    requires SnapshotsReadable(db.deliveries)
    requires forall u :: env2.parse(u) == Some(u)
    ensures var first := CreateDeliveryTask(db, task, p, env).1;
            SnapshotsReadable(first.deliveries)
            && forall j :: |db.tasks| <= j < |first.tasks| ==> ProcessTask(first, first.tasks[j], env2).0
  {
    var first := CreateDeliveryTask(db, task, p, env).1;
    var c, deliveryId := DeliveryRun(db, task, p, env);
    CreateDeliveryKeepsReadable(db.deliveries, task.tenantId, c, env.random(task.id, 0), p["invoiceId"], env.now);
    var k := CycleDeliveryAt(first.deliveries, task.tenantId, c, deliveryId);
    OrderRowsSucceed(first, |db.tasks|, env.random(task.id, 1), task.tenantId, deliveryId, c.subscription.id,
                     c.invoice.id, env.now, k, env2);
  }

  /** The delivery the cycle lookup finds sits at some position of the
   *  table. */
  lemma CycleDeliveryAt(deliveries: seq<Delivery>, tenantId: Uuid, c: InvoiceContext, deliveryId: Uuid) returns (k: nat)
    requires FindCycleDelivery(deliveries, tenantId, c.subscription.id, CycleKey(c)).Some?
    requires FindCycleDelivery(deliveries, tenantId, c.subscription.id, CycleKey(c)).value.id == deliveryId
    ensures k < |deliveries| && DeliveryIn(deliveryId, tenantId, deliveries[k])
  {
    var cycle := FindCycleDelivery(deliveries, tenantId, c.subscription.id, CycleKey(c)).value;
    k :| 0 <= k < |deliveries| && deliveries[k] == cycle;
  }

  /** Every row from `from` on that is the order task for a readable
   *  delivery of its tenant succeeds. */
  lemma OrderRowsSucceed(db: Database, from: nat, id: Uuid, tenantId: Uuid, deliveryId: Uuid, sid: Uuid,
                         invoiceId: Uuid, now: Instant, k: nat, env: Env)
    requires forall j :: from <= j < |db.tasks| ==> db.tasks[j] == OrderTask(id, tenantId, deliveryId, sid, invoiceId, now)
    requires k < |db.deliveries| && DeliveryIn(deliveryId, tenantId, db.deliveries[k])
    requires SnapshotsReadable(db.deliveries)
    requires env.parse(deliveryId) == Some(deliveryId)
    ensures forall j :: from <= j < |db.tasks| ==> ProcessTask(db, db.tasks[j], env).0
  {
    ProcessOrderTask(db, id, tenantId, deliveryId, sid, invoiceId, now, k, env);
  }

  /** What a successful CREATE_DELIVERY run wrote: the delivery step's
   *  table, whose cycle delivery has the answered id, and the order task
   *  for that delivery, unless its insert failed. */
  lemma DeliveryRun(db: Database, task: Task, p: map<string, string>, env: Env) returns (c: InvoiceContext, deliveryId: Uuid)
    requires CreateDeliveryTask(db, task, p, env).0
    ensures LoadInvoiceContext(db, task.tenantId, p, env) == Some(c)
    ensures var ensured := EnsureCycleDelivery(db.deliveries, task.tenantId, c, env.random(task.id, 0), p["invoiceId"], env.now);
            var first := CreateDeliveryTask(db, task, p, env).1;
            ensured == Some((deliveryId, first.deliveries))
            && first.tasks == InsertOrKeep(db.tasks, OrderTask(env.random(task.id, 1), task.tenantId, deliveryId,
                                                                c.subscription.id, c.invoice.id, env.now))
  {
    c := LoadInvoiceContext(db, task.tenantId, p, env).value;
    deliveryId := EnsureCycleDelivery(db.deliveries, task.tenantId, c, env.random(task.id, 0), p["invoiceId"], env.now).value.0;
  }

  /** An order task for a delivery of its tenant whose snapshot is
   *  readable succeeds. */
  lemma ProcessOrderTask(db: Database, id: Uuid, tenantId: Uuid, deliveryId: Uuid, sid: Uuid, invoiceId: Uuid,
                         now: Instant, k: nat, env: Env)
    requires k < |db.deliveries| && DeliveryIn(deliveryId, tenantId, db.deliveries[k])
    requires SnapshotsReadable(db.deliveries)
    requires env.parse(deliveryId) == Some(deliveryId)
    ensures ProcessTask(db, OrderTask(id, tenantId, deliveryId, sid, invoiceId, now), env).0
  {
    var order := OrderTask(id, tenantId, deliveryId, sid, invoiceId, now);
    var fields := order.payload.fields;
    assert UuidMember(env, fields, "deliveryId") == Some(deliveryId);
    assert OrderDelivery(db, tenantId, fields, env).Some?;
    DispatchCreateOrder(db, order, env);
  }

  /** A CREATE_ORDER task with a JSON payload goes to processCreateOrder. */
  lemma DispatchCreateOrder(db: Database, task: Task, env: Env)
    requires task.payload.Json? && task.taskType == CreateOrderType
    ensures ProcessTask(db, task, env) == CreateOrderTask(db, task, task.payload.fields, env)
  {
    assert |CreateOrderType| == 12;
    assert |SubscriptionRenewalType| != 12 && |ProductRenewalType| != 12;
    assert |ChargePaymentType| != 12 && |CreateDeliveryType| != 12;
  }

  /** The delivery step keeps every snapshot readable. */
  lemma CreateDeliveryKeepsReadable(deliveries: seq<Delivery>, tenantId: Uuid, c: InvoiceContext, newId: Uuid,
                                    invoiceText: string, now: Instant)
    requires SnapshotsReadable(deliveries)
    requires EnsureCycleDelivery(deliveries, tenantId, c, newId, invoiceText, now).Some?
    ensures SnapshotsReadable(EnsureCycleDelivery(deliveries, tenantId, c, newId, invoiceText, now).value.1)
  {
  }

  // ---------------------------------------------------------------- entitlements

  /** An entitlement's key: the subscription id as the payload gives it,
   *  the item's plan id and the period's start and end dates, joined by
   *  "_". */
  function EntitlementKey(c: InvoiceContext, item: SubscriptionItem): (r: string)
    ensures var head := c.subscriptionText + "_" + item.planId + "_";
            var end := InstantDateText(c.invoice.periodEnd);
            |r| >= |head| + |end| && r[..|head|] == head && r[|r| - |end|..] == end
  {
    KeyOf(c.subscriptionText + "_" + item.planId + "_", InstantDateText(c.invoice.periodStart) + "_",
          InstantDateText(c.invoice.periodEnd))
  }

  predicate EntitlementFor(tenantId: Uuid, customerId: Uuid, key: string, e: Entitlement)
  {
    e.tenantId == tenantId && e.customerId == customerId && e.entitlementKey == key
  }

  predicate EntitlementIdTaken(ents: seq<Entitlement>, id: Uuid)
  {
    exists i :: 0 <= i < |ents| && ents[i].id == id
  }

  /** The customer holds an ACTIVE entitlement with this key, valid until
   *  the given end. */
  predicate Granted(ents: seq<Entitlement>, tenantId: Uuid, customerId: Uuid, key: string, end: Instant)
  {
    exists i :: 0 <= i < |ents| && EntitlementFor(tenantId, customerId, key, ents[i])
                && ents[i].status == "ACTIVE" && ents[i].validUntil == end
  }

  /** The upsert for one item: an existing entitlement with the key is set
   *  ACTIVE until the period's end (by id), otherwise a PLAN_ACCESS one is
   *  inserted for the period; more than one existing row makes fetchOne
   *  throw, and so does an insert on a taken id. */
  function UpsertEntitlement(ents: seq<Entitlement>, tenantId: Uuid, c: InvoiceContext, item: SubscriptionItem,
                             newId: Uuid, now: Instant): (r: Option<seq<Entitlement>>)
    ensures r.Some? ==> Granted(r.value, tenantId, c.subscription.customerId, EntitlementKey(c, item), c.invoice.periodEnd)
    ensures r.Some? ==> forall key :: Granted(ents, tenantId, c.subscription.customerId, key, c.invoice.periodEnd)
                                      ==> Granted(r.value, tenantId, c.subscription.customerId, key, c.invoice.periodEnd)
  {
    var customerId := c.subscription.customerId;
    var key := EntitlementKey(c, item);
    var matches := Filter(ents, e => EntitlementFor(tenantId, customerId, key, e));
    if |matches| > 1 then None
    else if |matches| == 1 then
      var m := matches[0];
      var r := MapWhere(ents, (e: Entitlement) => e.id == m.id,
                        (e: Entitlement) => e.(status := "ACTIVE", validUntil := c.invoice.periodEnd, updatedAt := now));
      var k :| 0 <= k < |ents| && ents[k] == m;
      assert EntitlementFor(tenantId, customerId, key, r[k]);
      Some(r)
    else if EntitlementIdTaken(ents, newId) then None
    else
      var r := ents + [Entitlement(newId, tenantId, customerId, c.subscription.id, "PLAN_ACCESS", key, "ACTIVE",
                                   c.invoice.periodStart, c.invoice.periodEnd, None, now)];
      assert EntitlementFor(tenantId, customerId, key, r[|ents|]);
      assert forall i :: 0 <= i < |ents| ==> r[i] == ents[i];
      Some(r)
  }

  /** The mock entitlement call's reference, written on every row of the
   *  customer with the key; this update cannot undo a grant. */
  function RecordEntitlementRef(ents: seq<Entitlement>, tenantId: Uuid, customerId: Uuid, key: string,
                                ref: string, now: Instant): (r: seq<Entitlement>)
    ensures forall k, end :: Granted(ents, tenantId, customerId, k, end) ==> Granted(r, tenantId, customerId, k, end)
  {
    MapWhere(ents, e => EntitlementFor(tenantId, customerId, key, e),
             (e: Entitlement) => e.(externalEntitlementRef := Some(ref), updatedAt := now))
  }

  /** One pass of the per-item loop: the upsert, then the reference
   *  update. Afterwards the customer holds the item's grant, and every
   *  grant held before. */
  function GrantItem(ents: seq<Entitlement>, tenantId: Uuid, c: InvoiceContext, item: SubscriptionItem,
                     newId: Uuid, refId: Uuid, now: Instant): (r: Option<seq<Entitlement>>)
    ensures r.Some? ==> Granted(r.value, tenantId, c.subscription.customerId, EntitlementKey(c, item), c.invoice.periodEnd)
    ensures r.Some? ==> forall key :: Granted(ents, tenantId, c.subscription.customerId, key, c.invoice.periodEnd)
                                      ==> Granted(r.value, tenantId, c.subscription.customerId, key, c.invoice.periodEnd)
  {
    var upserted := UpsertEntitlement(ents, tenantId, c, item, newId, now);
    if upserted.None? then None
    else
      Some(RecordEntitlementRef(upserted.value, tenantId, c.subscription.customerId, EntitlementKey(c, item),
                                "mock_entitlement_" + ShortRandom(refId), now))
  }

  /** The per-item loop of processEntitlementGrant from the k-th item on:
   *  an upsert that throws ends the scheduled task with false, keeping what the
   *  earlier items wrote. When the loop finishes, the customer holds an
   *  ACTIVE entitlement until the period's end for every item, and keeps
   *  every such grant it held before. */
  function GrantItems(ents: seq<Entitlement>, tenantId: Uuid, c: InvoiceContext, items: seq<SubscriptionItem>,
                      taskId: Uuid, k: nat, env: Env): (r: (bool, seq<Entitlement>))
    ensures r.0 ==> forall item :: item in items ==>
                      Granted(r.1, tenantId, c.subscription.customerId, EntitlementKey(c, item), c.invoice.periodEnd)
    ensures r.0 ==> forall key :: Granted(ents, tenantId, c.subscription.customerId, key, c.invoice.periodEnd)
                                  ==> Granted(r.1, tenantId, c.subscription.customerId, key, c.invoice.periodEnd)
    decreases |items|
  {
    if items == [] then (true, ents)
    else
      var granted := GrantItem(ents, tenantId, c, items[0], env.random(taskId, 2 * k), env.random(taskId, 2 * k + 1), env.now);
      if granted.None? then (false, ents)
      else
        var r := GrantItems(granted.value, tenantId, c, items[1..], taskId, k + 1, env);
        assert forall item :: item in items ==> item == items[0] || item in items[1..];
        r
  }

  /** processEntitlementGrant: after the loads, the per-item loop over the
   *  subscription's items; only the entitlements change. */
  function EntitlementGrantTask(db: Database, task: Task, p: map<string, string>, env: Env): (r: (bool, Database))
    ensures LoadInvoiceContext(db, task.tenantId, p, env).None? ==> r == (false, db)
    ensures r.1.(entitlements := db.entitlements) == db
    ensures r.0 ==>
              var c := LoadInvoiceContext(db, task.tenantId, p, env).value;
              forall item :: item in c.items ==>
                Granted(r.1.entitlements, task.tenantId, c.subscription.customerId, EntitlementKey(c, item), c.invoice.periodEnd)
  {
    var loaded := LoadInvoiceContext(db, task.tenantId, p, env);
    if loaded.None? then (false, db)
    else
      var g := GrantItems(db.entitlements, task.tenantId, loaded.value, loaded.value.items, task.id, 0, env);
      (g.0, db.(entitlements := g.1))
  }

  // ---------------------------------------------------------------- dispatch

  /** The scheduled task types the dispatch switch handles. */
  predicate KnownType(t: string)
  {
    t in {SubscriptionRenewalType, ProductRenewalType, ChargePaymentType, CreateDeliveryType,
          CreateOrderType, EntitlementGrantType, TrialEndType}
  }

  /** processTask: a payload that does not parse, or a task type the switch
   *  does not know, answers false and writes nothing; the renewal and
   *  trial-end placeholders answer true and write nothing; every other type
   *  goes to its handler. No handler rewrites an existing task row. */
  function ProcessTask(db: Database, task: Task, env: Env): (r: (bool, Database))
    ensures task.payload.Malformed? ==> r == (false, db)
    ensures !KnownType(task.taskType) ==> r == (false, db)
    ensures task.payload.Json? && task.taskType in {SubscriptionRenewalType, TrialEndType} ==> r == (true, db)
    ensures Extends(db.tasks, r.1.tasks)
  {
    match task.payload
    case Malformed => (false, db)
    case Json(p) =>
      if task.taskType == SubscriptionRenewalType then (true, db)
      else if task.taskType == ProductRenewalType then ProductRenewalTask(db, task, p, env)
      else if task.taskType == ChargePaymentType then ChargePaymentTask(db, p, env)
      else if task.taskType == CreateDeliveryType then CreateDeliveryTask(db, task, p, env)
      else if task.taskType == CreateOrderType then CreateOrderTask(db, task, p, env)
      else if task.taskType == EntitlementGrantType then EntitlementGrantTask(db, task, p, env)
      else if task.taskType == TrialEndType then (true, db)
      else (false, db)
  }

  // ---------------------------------------------------------------- the batch transaction

  /** The handler statements that leave the batch's one transaction unable
   *  to commit, whatever the handler answers: an exception out of the
   *  @Transactional invoice generation marks the transaction it joined
   *  rollback-only, and an INSERT the database refuses aborts it, even when
   *  the handler catches the error. A fetchOne that finds two rows throws in
   *  the client and dooms nothing; the payment service catches its own
   *  errors. Only three handlers can doom the batch: a dooming renewal or
   *  entitlement grant answers false, and a dooming delivery leaves the
   *  scheduled-task table as it was. */
  function AbortsBatch(db: Database, task: Task, env: Env): (r: bool)
    ensures r ==> task.payload.Json?
                  && task.taskType in {ProductRenewalType, CreateDeliveryType, EntitlementGrantType}
    ensures r && task.taskType != CreateDeliveryType ==> !ProcessTask(db, task, env).0
    ensures r && task.taskType == CreateDeliveryType ==> ProcessTask(db, task, env).1.tasks == db.tasks
  {
    match task.payload
    case Malformed => false
    case Json(p) =>
      if task.taskType == ProductRenewalType then ProductRenewalAborts(db, task, p, env)
      else if task.taskType == CreateDeliveryType then CreateDeliveryAborts(db, task, p, env)
      else if task.taskType == EntitlementGrantType then EntitlementGrantAborts(db, task, p, env)
      else false
  }

  /** processProductRenewal reaches the invoice generation, and the
   *  generation throws; the handler then answers false and writes nothing. */
  function ProductRenewalAborts(db: Database, task: Task, p: map<string, string>, env: Env): (r: bool)
    ensures r ==> env.billingHandler && ProductRenewalTask(db, task, p, env) == (false, db)
  {
    env.billingHandler
    && UuidMember(env, p, "subscriptionId").Some? && UuidMember(env, p, "planId").Some?
    && InvoiceGeneration.GenerateInvoiceForProductRenewal(
         db, task.tenantId, UuidMember(env, p, "subscriptionId").value, Member(p, "productId"),
         UuidMember(env, p, "planId").value, env.now, RenewalIds(task, env), env.millis).Failure?
  }

  /** processCreateDelivery loads its context, and then the delivery insert
   *  or the CREATE_ORDER insert is refused; either way no order task is
   *  written. */
  function CreateDeliveryAborts(db: Database, task: Task, p: map<string, string>, env: Env): (r: bool)
    ensures r ==> LoadInvoiceContext(db, task.tenantId, p, env).Some?
                  && CreateDeliveryTask(db, task, p, env).1.tasks == db.tasks
  {
    var loaded := LoadInvoiceContext(db, task.tenantId, p, env);
    if loaded.None? then false
    else
      var c := loaded.value;
      var ensured := EnsureCycleDelivery(db.deliveries, task.tenantId, c, env.random(task.id, 0), p["invoiceId"], env.now);
      ensured.None?
      || Insert(db.tasks, OrderTask(env.random(task.id, 1), task.tenantId, ensured.value.0, c.subscription.id,
                                    c.invoice.id, env.now)).Failure?
  }

  /** processEntitlementGrant loads its context, and its per-item loop
   *  reaches a refused insert, so the handler answers false. */
  function EntitlementGrantAborts(db: Database, task: Task, p: map<string, string>, env: Env): (r: bool)
    ensures r ==> LoadInvoiceContext(db, task.tenantId, p, env).Some? && !EntitlementGrantTask(db, task, p, env).0
  {
    var loaded := LoadInvoiceContext(db, task.tenantId, p, env);
    loaded.Some? && GrantItemsAbort(db.entitlements, task.tenantId, loaded.value, loaded.value.items, task.id, 0, env)
  }

  /** The upsert for the item inserts, as no entitlement has its key, on an
   *  id that is taken: the upsert throws, whatever the clock says. */
  function InsertRefused(ents: seq<Entitlement>, tenantId: Uuid, c: InvoiceContext, item: SubscriptionItem,
                         newId: Uuid): (r: bool)
    ensures r ==> forall now :: UpsertEntitlement(ents, tenantId, c, item, newId, now).None?
  {
    (forall i :: 0 <= i < |ents| ==> !EntitlementFor(tenantId, c.subscription.customerId, EntitlementKey(c, item), ents[i]))
    && EntitlementIdTaken(ents, newId)
  }

  /** The per-item loop from the k-th item on stops at an upsert whose
   *  insert is refused; the loop then answers false. */
  function GrantItemsAbort(ents: seq<Entitlement>, tenantId: Uuid, c: InvoiceContext, items: seq<SubscriptionItem>,
                           taskId: Uuid, k: nat, env: Env): (r: bool)
    ensures r ==> items != [] && !GrantItems(ents, tenantId, c, items, taskId, k, env).0
    decreases |items|
  {
    if items == [] then false
    else
      var newId := env.random(taskId, 2 * k);
      var granted := GrantItem(ents, tenantId, c, items[0], newId, env.random(taskId, 2 * k + 1), env.now);
      if granted.None? then InsertRefused(ents, tenantId, c, items[0], newId)
      else GrantItemsAbort(granted.value, tenantId, c, items[1..], taskId, k + 1, env)
  }

  /** A product renewal dooms the batch exactly when its handler, having
   *  parsed its ids, answers false; it then writes nothing of its own. */
  lemma RenewalAbortsIffFalse(db: Database, task: Task, p: map<string, string>, env: Env)
    requires task.payload == Json(p) && task.taskType == ProductRenewalType
    requires env.billingHandler && UuidMember(env, p, "subscriptionId").Some? && UuidMember(env, p, "planId").Some?
    ensures AbortsBatch(db, task, env) <==> !ProcessTask(db, task, env).0
    ensures AbortsBatch(db, task, env) ==> ProcessTask(db, task, env).1 == db
  {
  }

  /** A product renewal, billing handler present and ids parsed, whose
   *  subscription, item or plan the invoice generation cannot load. */
  predicate RenewalCannotLoad(db: Database, task: Task, p: map<string, string>, env: Env)
  {
    env.billingHandler
    && UuidMember(env, p, "subscriptionId").Some? && UuidMember(env, p, "planId").Some?
    && InvoiceGeneration.RenewalBasis(db, task.tenantId, UuidMember(env, p, "subscriptionId").value,
                                      UuidMember(env, p, "planId").value).Failure?
  }

  /** Such a renewal answers false, writes nothing, and dooms the batch. */
  lemma RenewalCannotLoadAborts(db: Database, task: Task, p: map<string, string>, env: Env)
    requires task.payload == Json(p) && task.taskType == ProductRenewalType
    requires RenewalCannotLoad(db, task, p, env)
    ensures ProcessTask(db, task, env) == (false, db) && AbortsBatch(db, task, env)
  {
    RenewalAbortsIffFalse(db, task, p, env);
  }

  /** A CREATE_DELIVERY task whose context loads commits its delivery and
   *  its order task exactly when it does not doom the batch; when it dooms
   *  it, the order task is not written. */
  lemma DeliveryCommitsUnlessAborted(db: Database, task: Task, p: map<string, string>, env: Env)
    requires LoadInvoiceContext(db, task.tenantId, p, env).Some?
    ensures var r := CreateDeliveryTask(db, task, p, env);
            (!CreateDeliveryAborts(db, task, p, env) <==> r.0 && |r.1.tasks| == |db.tasks| + 1)
            && (CreateDeliveryAborts(db, task, p, env) ==> r.1.tasks == db.tasks)
  {
    var c := LoadInvoiceContext(db, task.tenantId, p, env).value;
    var ensured := EnsureCycleDelivery(db.deliveries, task.tenantId, c, env.random(task.id, 0), p["invoiceId"], env.now);
    if ensured.None? {
      assert CreateDeliveryTask(db, task, p, env) == (false, db);
    } else {
      var order := OrderTask(env.random(task.id, 1), task.tenantId, ensured.value.0, c.subscription.id, c.invoice.id, env.now);
      var r := CreateDeliveryTask(db, task, p, env);
      assert r.0 && r.1.tasks == InsertOrKeep(db.tasks, order);
      assert CreateDeliveryAborts(db, task, p, env) == Insert(db.tasks, order).Failure?;
    }
  }
}
