/** ScheduledTaskService: the key, type and payload of every kind of scheduled
 *  task, the inserts that create them, and the upsert that (re)schedules a
 *  subscription renewal. The tenant comes from the request context. */
module ScheduledTasks {
  import opened Common
  import opened Calendar
  import opened Tasks

  /** What a task is scheduled for, with the identifiers its key and payload
   *  carry. */
  datatype Schedule =
    | Renewal(subscriptionId: Uuid)
    | TrialEnd(subscriptionId: Uuid)
    | ProductRenewal(subscriptionId: Uuid, productId: string, planId: Uuid)
    | Payment(invoiceId: Uuid)
    | DeliveryCreation(invoiceId: Uuid, subscriptionId: Uuid, customerId: Uuid)
    | OrderCreation(deliveryId: Uuid, subscriptionId: Uuid, invoiceId: Uuid)
    | EntitlementGrant(invoiceId: Uuid, subscriptionId: Uuid, customerId: Uuid)

  function TaskType(s: Schedule): string
  {
    match s
    case Renewal(_) => SubscriptionRenewalType
    case TrialEnd(_) => TrialEndType
    case ProductRenewal(_, _, _) => ProductRenewalType
    case Payment(_) => ChargePaymentType
    case DeliveryCreation(_, _, _) => CreateDeliveryType
    case OrderCreation(_, _, _) => CreateOrderType
    case EntitlementGrant(_, _, _) => EntitlementGrantType
  }

  /** The deduplication key; a product renewal's key also names the tenant. */
  function TaskKey(tenantId: Uuid, s: Schedule): string
  {
    match s
    case Renewal(sid) => "subscription_renewal_" + sid
    case TrialEnd(sid) => "trial_end_" + sid
    case ProductRenewal(sid, productId, _) => "product_renewal_" + tenantId + "_" + sid + "_" + productId
    case Payment(invoiceId) => "payment_" + invoiceId
    case DeliveryCreation(invoiceId, _, _) => "delivery_" + invoiceId
    case OrderCreation(deliveryId, _, _) => "order_" + deliveryId
    case EntitlementGrant(invoiceId, _, _) => "entitlement_grant_" + invoiceId
  }

  /** The payload object (the scheduledAt time stamp is not modelled). */
  function PayloadOf(s: Schedule): (r: map<string, string>)
    ensures "taskType" in r && r["taskType"] == TaskType(s)
    ensures "subscriptionId" in r <==> !s.Payment?
    ensures "invoiceId" in r <==> s.Payment? || s.DeliveryCreation? || s.OrderCreation? || s.EntitlementGrant?
    ensures "action" in r <==> s.EntitlementGrant?
    ensures s.EntitlementGrant? ==> r["action"] == "GRANT"
  {
    match s
    case Renewal(sid) => map["subscriptionId" := sid, "taskType" := TaskType(s)]
    case TrialEnd(sid) => map["subscriptionId" := sid, "taskType" := TaskType(s)]
    case ProductRenewal(sid, productId, planId) =>
      map["subscriptionId" := sid, "productId" := productId, "planId" := planId, "taskType" := TaskType(s)]
    case Payment(invoiceId) => map["invoiceId" := invoiceId, "taskType" := TaskType(s)]
    case DeliveryCreation(invoiceId, sid, customerId) =>
      map["invoiceId" := invoiceId, "subscriptionId" := sid, "customerId" := customerId, "taskType" := TaskType(s)]
    case OrderCreation(deliveryId, sid, invoiceId) =>
      map["deliveryId" := deliveryId, "subscriptionId" := sid, "invoiceId" := invoiceId, "taskType" := TaskType(s)]
    case EntitlementGrant(invoiceId, sid, customerId) =>
      map["invoiceId" := invoiceId, "subscriptionId" := sid, "customerId" := customerId,
          "action" := "GRANT", "taskType" := TaskType(s)]
  }

  /** The scheduled task an insert-based scheduling call writes. */
  function ScheduledTask(id: Uuid, tenantId: Uuid, s: Schedule, dueAt: Instant): Task
  {
    NewTask(id, tenantId, TaskType(s), TaskKey(tenantId, s), dueAt, Json(PayloadOf(s)))
  }

  // ---------------------------------------------------------------- keys

  /** Two schedules name the same target when they are of one kind and agree
   *  on the identifiers the key is made of. */
  predicate SameTarget(a: Schedule, b: Schedule)
  {
    match a
    case Renewal(sid) => b.Renewal? && b.subscriptionId == sid
    case TrialEnd(sid) => b.TrialEnd? && b.subscriptionId == sid
    case ProductRenewal(sid, productId, _) => b.ProductRenewal? && b.subscriptionId == sid && b.productId == productId
    case Payment(invoiceId) => b.Payment? && b.invoiceId == invoiceId
    case DeliveryCreation(invoiceId, _, _) => b.DeliveryCreation? && b.invoiceId == invoiceId
    case OrderCreation(deliveryId, _, _) => b.OrderCreation? && b.deliveryId == deliveryId
    case EntitlementGrant(invoiceId, _, _) => b.EntitlementGrant? && b.invoiceId == invoiceId
  }

  /** Canonical UUID text holds no underscore; the product renewal key relies
   *  on it to keep its parts apart. */
  predicate PlainIds(tenantId: Uuid, s: Schedule)
  {
    '_' !in tenantId && (s.ProductRenewal? ==> '_' !in s.subscriptionId)
  }

  /** The first two characters of each kind's key prefix. */
  function KindMark(s: Schedule): string
  {
    match s
    case Renewal(_) => "su"
    case TrialEnd(_) => "tr"
    case ProductRenewal(_, _, _) => "pr"
    case Payment(_) => "pa"
    case DeliveryCreation(_, _, _) => "de"
    case OrderCreation(_, _, _) => "or"
    case EntitlementGrant(_, _, _) => "en"
  }

  lemma KeyStartsWithMark(tenantId: Uuid, s: Schedule)
    ensures |TaskKey(tenantId, s)| >= 2 && TaskKey(tenantId, s)[..2] == KindMark(s)
  {
  }

  /** The identifier that follows the key prefix of a one-identifier key. */
  lemma KeySuffix(prefix: string, id: string)
    ensures (prefix + id)[|prefix|..] == id
  {
  }

  /** The three parts of a product renewal key after its prefix. */
  lemma ProductKeyParts(t: string, sid: string, p: string)
    requires '_' !in t && '_' !in sid
    ensures Split(t + "_" + sid + "_" + p, '_') == [t, sid] + Split(p, '_')
    ensures (t + "_" + sid + "_" + p)[|t| + |sid| + 2..] == p
  {
    SplitPiece(sid, '_', p);
    assert t + "_" + sid + "_" + p == t + ['_'] + (sid + ['_'] + p);
    SplitPiece(t, '_', sid + ['_'] + p);
  }

  /** Keys of schedules that name different targets differ. */
  lemma KeysDiffer(tenantId: Uuid, a: Schedule, b: Schedule)
    requires PlainIds(tenantId, a) && PlainIds(tenantId, b)
    requires !SameTarget(a, b)
    ensures TaskKey(tenantId, a) != TaskKey(tenantId, b)
  {
    var ka, kb := TaskKey(tenantId, a), TaskKey(tenantId, b);
    KeyStartsWithMark(tenantId, a);
    KeyStartsWithMark(tenantId, b);
    if KindMark(a) != KindMark(b) {
      assert ka[..2] != kb[..2];
    } else if a.ProductRenewal? {
      ProductKeysDiffer(tenantId, a, b);
    } else {
      OneIdKeysDiffer(tenantId, a, b);
    }
  }

  /** Two product renewal keys differ in the subscription or the product. */
  lemma ProductKeysDiffer(tenantId: Uuid, a: Schedule, b: Schedule)
    requires a.ProductRenewal? && b.ProductRenewal?
    requires PlainIds(tenantId, a) && PlainIds(tenantId, b)
    requires !SameTarget(a, b)
    ensures TaskKey(tenantId, a) != TaskKey(tenantId, b)
  {
    var prefix := "product_renewal_";
    var ra := tenantId + "_" + a.subscriptionId + "_" + a.productId;
    var rb := tenantId + "_" + b.subscriptionId + "_" + b.productId;
    assert TaskKey(tenantId, a) == prefix + ra && TaskKey(tenantId, b) == prefix + rb;
    KeySuffix(prefix, ra);
    KeySuffix(prefix, rb);
    ProductKeyParts(tenantId, a.subscriptionId, a.productId);
    ProductKeyParts(tenantId, b.subscriptionId, b.productId);
    if a.subscriptionId != b.subscriptionId {
      assert Split(ra, '_')[1] != Split(rb, '_')[1];
    } else {
      assert ra[|tenantId| + |a.subscriptionId| + 2..] != rb[|tenantId| + |b.subscriptionId| + 2..];
    }
  }

  /** The prefix of a key made of one identifier. */
  function OneIdPrefix(s: Schedule): string
    requires !s.ProductRenewal?
  {
    match s
    case Renewal(_) => "subscription_renewal_"
    case TrialEnd(_) => "trial_end_"
    case Payment(_) => "payment_"
    case DeliveryCreation(_, _, _) => "delivery_"
    case OrderCreation(_, _, _) => "order_"
    case EntitlementGrant(_, _, _) => "entitlement_grant_"
  }

  /** The one identifier such a key is made of. */
  function OneId(s: Schedule): Uuid
    requires !s.ProductRenewal?
  {
    match s
    case Renewal(sid) => sid
    case TrialEnd(sid) => sid
    case Payment(i) => i
    case DeliveryCreation(i, _, _) => i
    case OrderCreation(d, _, _) => d
    case EntitlementGrant(i, _, _) => i
  }

  /** Two keys of one kind made of one identifier differ in it. */
  lemma OneIdKeysDiffer(tenantId: Uuid, a: Schedule, b: Schedule)
    requires !a.ProductRenewal? && KindMark(a) == KindMark(b)
    requires !SameTarget(a, b)
    ensures TaskKey(tenantId, a) != TaskKey(tenantId, b)
  {
    assert !b.ProductRenewal?;
    assert OneIdPrefix(a) == OneIdPrefix(b) && OneId(a) != OneId(b);
    assert TaskKey(tenantId, a) == OneIdPrefix(a) + OneId(a);
    assert TaskKey(tenantId, b) == OneIdPrefix(b) + OneId(b);
    KeySuffix(OneIdPrefix(a), OneId(a));
    KeySuffix(OneIdPrefix(b), OneId(b));
  }

  /** Within a tenant a task key identifies its target: equal keys mean the
   *  same kind and the same identifiers, and so one row per target. */
  lemma TaskKeyIdentifiesTarget(tenantId: Uuid, a: Schedule, b: Schedule)
    requires PlainIds(tenantId, a) && PlainIds(tenantId, b)
    ensures TaskKey(tenantId, a) == TaskKey(tenantId, b) <==> SameTarget(a, b)
  {
    if !SameTarget(a, b) {
      KeysDiffer(tenantId, a, b);
    }
  }

  // ---------------------------------------------------------------- renewal upsert

  /** The columns the renewal upsert rewrites on an existing row. */
  function Rescheduled(t: Task, dueAt: Instant, payload: Payload): Task
  {
    t.(status := Ready, dueAt := dueAt, attemptCount := Some(0),
       maxAttempts := DefaultMaxAttempts, payload := payload)
  }

  /** scheduleSubscriptionRenewal on the table: the row of the renewal key is
   *  reset, or a new row is inserted. The insert can only clash on its fresh
   *  id; the retried update then finds no row and the call throws. */
  function UpsertRenewal(rows: seq<Task>, tenantId: Uuid, subscriptionId: Uuid,
                         dueAt: Instant, newId: Uuid): Result<seq<Task>>
  {
    var s := Renewal(subscriptionId);
    var key := TaskKey(tenantId, s);
    var payload := Json(PayloadOf(s));
    if HasKey(rows, tenantId, key) then
      Success(MapWhere(rows, t => KeyIs(t, tenantId, key), t => Rescheduled(t, dueAt, payload)))
    else
      Insert(rows, NewTask(newId, tenantId, TaskType(s), key, dueAt, payload))
  }

  /** The upsert fails only when there is no row to reset and the fresh id is
   *  taken, and it keeps the table's constraints. */
  lemma UpsertRenewalOutcome(rows: seq<Task>, tenantId: Uuid, subscriptionId: Uuid,
                             dueAt: Instant, newId: Uuid)
    requires UniqueKeys(rows)
    ensures var r := UpsertRenewal(rows, tenantId, subscriptionId, dueAt, newId);
      (r.Success? <==> HasKey(rows, tenantId, TaskKey(tenantId, Renewal(subscriptionId))) || !HasId(rows, newId))
      && (r.Success? ==> UniqueKeys(r.value))
  {
    var s := Renewal(subscriptionId);
    var key := TaskKey(tenantId, s);
    var payload := Json(PayloadOf(s));
    if HasKey(rows, tenantId, key) {
      UpdateKeepsUnique(rows, t => KeyIs(t, tenantId, key), t => Rescheduled(t, dueAt, payload));
    } else if !HasId(rows, newId) {
      InsertKeepsUnique(rows, NewTask(newId, tenantId, TaskType(s), key, dueAt, payload));
    }
  }

  /** After a successful upsert the renewal key has exactly one row, READY,
   *  due at the new date, with no attempts and three allowed; every other row
   *  is as it was. */
  lemma UpsertRenewalResets(rows: seq<Task>, tenantId: Uuid, subscriptionId: Uuid,
                            dueAt: Instant, newId: Uuid)
    requires UniqueKeys(rows)
    requires UpsertRenewal(rows, tenantId, subscriptionId, dueAt, newId).Success?
    ensures var r := UpsertRenewal(rows, tenantId, subscriptionId, dueAt, newId).value;
      var key := TaskKey(tenantId, Renewal(subscriptionId));
      exists i :: 0 <= i < |r| && KeyIs(r[i], tenantId, key)
        && r[i].status == Ready && r[i].dueAt == dueAt && r[i].attemptCount == Some(0)
        && r[i].maxAttempts == DefaultMaxAttempts
        && (forall j :: 0 <= j < |r| && j != i ==> !KeyIs(r[j], tenantId, key))
    ensures var r := UpsertRenewal(rows, tenantId, subscriptionId, dueAt, newId).value;
      forall j :: 0 <= j < |rows| && !KeyIs(rows[j], tenantId, TaskKey(tenantId, Renewal(subscriptionId))) ==> r[j] == rows[j]
  {
    var key := TaskKey(tenantId, Renewal(subscriptionId));
    var r := UpsertRenewal(rows, tenantId, subscriptionId, dueAt, newId).value;
    UpsertRenewalOutcome(rows, tenantId, subscriptionId, dueAt, newId);
    var i: int;
    if HasKey(rows, tenantId, key) {
      i :| 0 <= i < |rows| && KeyIs(rows[i], tenantId, key);
    } else {
      i := |rows|;
    }
    assert KeyIs(r[i], tenantId, key);
    forall j | 0 <= j < |r| && j != i ensures !KeyIs(r[j], tenantId, key) {
      if j < i { assert !KeyIs(r[i], r[j].tenantId, r[j].taskKey); }
      else { assert !KeyIs(r[j], r[i].tenantId, r[i].taskKey); }
    }
  }

  /** Scheduling the same renewal twice adds no second row. */
  lemma UpsertRenewalIdempotent(rows: seq<Task>, tenantId: Uuid, subscriptionId: Uuid,
                                due1: Instant, id1: Uuid, due2: Instant, id2: Uuid)
    requires UniqueKeys(rows)
    requires UpsertRenewal(rows, tenantId, subscriptionId, due1, id1).Success?
    ensures var once := UpsertRenewal(rows, tenantId, subscriptionId, due1, id1).value;
      var twice := UpsertRenewal(once, tenantId, subscriptionId, due2, id2);
      twice.Success? && |twice.value| == |once|
  {
    var key := TaskKey(tenantId, Renewal(subscriptionId));
    var once := UpsertRenewal(rows, tenantId, subscriptionId, due1, id1).value;
    UpsertRenewalResets(rows, tenantId, subscriptionId, due1, id1);
    var i :| 0 <= i < |once| && KeyIs(once[i], tenantId, key);
    assert HasKey(once, tenantId, key);
  }

  // ---------------------------------------------------------------- inserts

  /** A scheduling insert succeeds exactly when its id and key are free; the
   *  new row is READY, unlocked, never attempted, three attempts allowed,
   *  typed and keyed for its target, and the constraints still hold. */
  lemma NewTaskStartsReady(rows: seq<Task>, id: Uuid, tenantId: Uuid, s: Schedule, dueAt: Instant)
    requires UniqueKeys(rows)
    ensures var r := Insert(rows, ScheduledTask(id, tenantId, s, dueAt));
      (r.Success? <==> !HasId(rows, id) && !HasKey(rows, tenantId, TaskKey(tenantId, s)))
      && (r.Success? ==>
            (UniqueKeys(r.value)
             && r.value[|rows|].status == Ready && r.value[|rows|].attemptCount == Some(0)
             && r.value[|rows|].maxAttempts == 3 && r.value[|rows|].dueAt == dueAt
             && r.value[|rows|].lockedUntil.None? && r.value[|rows|].lockOwner.None?
             && r.value[|rows|].taskType == TaskType(s)
             && KeyIs(r.value[|rows|], tenantId, TaskKey(tenantId, s))))
  {
    var r := Insert(rows, ScheduledTask(id, tenantId, s, dueAt));
    if r.Success? {
      InsertKeepsUnique(rows, ScheduledTask(id, tenantId, s, dueAt));
    }
  }

  /** The six insert-based scheduling calls (trial end, product renewal,
   *  payment, delivery, order, entitlement grant): a clash on the id or the
   *  key throws and leaves the table as it was. */
  method ScheduleTask(table: TaskTable, tenantId: Uuid, s: Schedule, dueAt: Instant, newId: Uuid)
    returns (r: Result<Uuid>)
    requires !s.Renewal?
    modifies table
    ensures var ins := Insert(old(table.rows), ScheduledTask(newId, tenantId, s, dueAt));
      (r.Success? <==> ins.Success?)
      && (r.Success? ==> r.value == newId && table.rows == ins.value)
      && (r.Failure? ==> table.rows == old(table.rows))
  {
    var ins := Insert(table.rows, ScheduledTask(newId, tenantId, s, dueAt));
    if ins.Failure? {
      return Failure(ins.error);
    }
    table.rows := ins.value;
    return Success(newId);
  }

  /** scheduleSubscriptionRenewal: the upsert, answering the scheduled task row it
   *  reset or inserted. */
  method ScheduleSubscriptionRenewal(table: TaskTable, tenantId: Uuid, subscriptionId: Uuid,
                                     dueAt: Instant, newId: Uuid)
    returns (r: Result<Task>)
    modifies table
    ensures var u := UpsertRenewal(old(table.rows), tenantId, subscriptionId, dueAt, newId);
      (r.Success? <==> u.Success?)
      && table.rows == (if u.Success? then u.value else old(table.rows))
      && (r.Success? ==> r.value in table.rows && KeyIs(r.value, tenantId, TaskKey(tenantId, Renewal(subscriptionId))))
  {
    var key := TaskKey(tenantId, Renewal(subscriptionId));
    var u := UpsertRenewal(table.rows, tenantId, subscriptionId, dueAt, newId);
    if u.Failure? {
      return Failure(u.error);
    }
    var before := table.rows;
    table.rows := u.value;
    if HasKey(before, tenantId, key) {
      var i :| 0 <= i < |before| && KeyIs(before[i], tenantId, key);
      assert KeyIs(table.rows[i], tenantId, key);
    } else {
      assert KeyIs(table.rows[|before|], tenantId, key);
    }
    var found := FindKey(table.rows, tenantId, key);
    r := Success(table.rows[found.value]);
  }

  /** cancelSubscriptionTasks is a placeholder: it changes no task. */
  method CancelSubscriptionTasks(table: TaskTable, subscriptionId: Uuid, taskType: Option<string>)
    ensures table.rows == old(table.rows)
  {
  }
}
