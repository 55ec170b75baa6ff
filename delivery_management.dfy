/** DeliveryManagementService: a customer's view of the delivery instances
 *  of their subscriptions, and the cancellation of a delivery that has not
 *  reached the order step. A cancellation fails the pending CREATE_ORDER
 *  tasks of the delivery, marks the delivery CANCELED and emits a
 *  "delivery.canceled" event to the outbox, all in one transaction. */
module DeliveryManagement {
  import opened Common
  import opened Calendar
  import opened Tasks
  import opened Records
  import Jsonb
  import ScheduledTasks
  import TaskQueue

  /** canCancelDelivery: only a PENDING delivery can be cancelled. */
  predicate CanCancelDelivery(status: string)
  {
    status == DeliveryPending
  }

  /** The "delivery.canceled" event the outbox receives, with its payload
   *  members and its aggregate key. */
  datatype CanceledEvent = CanceledEvent(
    eventType: string,
    aggregateKey: string,
    deliveryId: Uuid,
    customerId: Uuid,
    subscriptionId: Uuid,
    reason: Option<string>,
    canceledAt: Instant)

  /** The tables a cancellation reads and writes: the deliveries, the
   *  subscriptions they join with, the scheduled tasks and the outbox. */
  datatype DeliveryTables = DeliveryTables(
    deliveries: seq<Delivery>,
    subscriptions: seq<Subscription>,
    tasks: seq<Task>,
    events: seq<CanceledEvent>)

  // ---------------------------------------------------------------- lookups

  /** The delivery joins a subscription of the customer (the join is on the
   *  subscription id alone). */
  predicate OfCustomer(subs: seq<Subscription>, d: Delivery, customerId: Uuid)
  {
    exists i :: 0 <= i < |subs| && subs[i].id == d.subscriptionId && subs[i].customerId == customerId
  }

  /** The delivery a cancellation or a detail view loads: this id, this
   *  tenant, a subscription of this customer. */
  predicate Owned(subs: seq<Subscription>, d: Delivery, tenantId: Uuid, deliveryId: Uuid, customerId: Uuid)
  {
    d.id == deliveryId && d.tenantId == tenantId && OfCustomer(subs, d, customerId)
  }

  function FindOwned(t: DeliveryTables, tenantId: Uuid, deliveryId: Uuid, customerId: Uuid): (r: Option<Delivery>)
    ensures r.Some? ==> r.value in t.deliveries && Owned(t.subscriptions, r.value, tenantId, deliveryId, customerId)
    ensures r.None? <==> forall i :: 0 <= i < |t.deliveries| ==>
                           !Owned(t.subscriptions, t.deliveries[i], tenantId, deliveryId, customerId)
  {
    Find(t.deliveries, (d: Delivery) => Owned(t.subscriptions, d, tenantId, deliveryId, customerId))
  }

  /** An external order reference that is present and not blank: the order
   *  step has already run. */
  predicate HasOrder(ref: Option<string>)
  {
    ref.Some? && Trim(ref.value) != ""
  }

  // ---------------------------------------------------------------- order tasks

  /** The payload names the delivery: what the scheduled task filter is for. */
  predicate NamesDelivery(p: Payload, deliveryId: Uuid)
  {
    p.Json? && "deliveryId" in p.fields && p.fields["deliveryId"] == deliveryId
  }

  /** The payload filter as written: the jsonb text must contain
   *  `"deliveryId":"<id>"`, with no space after the colon. */
  predicate LikeDeliveryAsWritten(p: Payload, deliveryId: Uuid)
  {
    p.Json? && Contains(Jsonb.Render(p.fields), "\"deliveryId\":\"" + deliveryId + "\"")
  }

  /** A live (READY or CLAIMED) CREATE_ORDER task of the tenant. */
  predicate LiveOrderTask(t: Task, tenantId: Uuid)
  {
    t.tenantId == tenantId && t.taskType == CreateOrderType && (t.status == Ready || t.status == Claimed)
  }

  /** The tasks a cancellation stops: the live order tasks of the delivery. */
  predicate StoppedByCancel(t: Task, tenantId: Uuid, deliveryId: Uuid)
  {
    LiveOrderTask(t, tenantId) && NamesDelivery(t.payload, deliveryId)
  }

  /** The tasks the update as written selects. */
  predicate StoppedAsWritten(t: Task, tenantId: Uuid, deliveryId: Uuid)
  {
    LiveOrderTask(t, tenantId) && LikeDeliveryAsWritten(t.payload, deliveryId)
  }

  /** `"..." + reason` writes "null" for a missing reason. */
  function ReasonText(reason: Option<string>): string
  {
    if reason.Some? then reason.value else "null"
  }

  function CancelledTask(t: Task, reason: Option<string>): Task
  {
    t.(status := Cancelled, lastError := Some("Delivery cancelled by customer: " + ReasonText(reason)))
  }

  /** The delivery row after the cancellation. */
  function CanceledDelivery(d: Delivery, reason: Option<string>, now: Instant): Delivery
  {
    d.(status := DeliveryCanceled, cancellationReason := reason, cancelledAt := Some(now), updatedAt := now)
  }

  function CancelEvent(deliveryId: Uuid, customerId: Uuid, subscriptionId: Uuid, reason: Option<string>,
                       now: Instant): CanceledEvent
  {
    CanceledEvent("delivery.canceled", "delivery_" + deliveryId, deliveryId, customerId, subscriptionId, reason, now)
  }

  // ---------------------------------------------------------------- cancel

  /** Whether the cancellation may go ahead: the delivery is found for the
   *  tenant and the customer, is PENDING and has no order yet. */
  predicate Cancellable(t: DeliveryTables, tenantId: Uuid, deliveryId: Uuid, customerId: Uuid)
  {
    var found := FindOwned(t, tenantId, deliveryId, customerId);
    found.Some? && CanCancelDelivery(found.value.status) && !HasOrder(found.value.externalOrderRef)
  }

  /** The writes of a permitted cancellation, the scheduled task update given by its
   *  filter. */
  function CancelWrites(t: DeliveryTables, tenantId: Uuid, deliveryId: Uuid, customerId: Uuid, reason: Option<string>,
                        now: Instant, stopped: Task -> bool): (r: DeliveryTables)
    requires Cancellable(t, tenantId, deliveryId, customerId)
    ensures |r.tasks| == |t.tasks| && |r.deliveries| == |t.deliveries| && r.subscriptions == t.subscriptions
    ensures forall i :: 0 <= i < |t.tasks| ==>
              r.tasks[i] == if stopped(t.tasks[i]) then CancelledTask(t.tasks[i], reason) else t.tasks[i]
    ensures forall i :: 0 <= i < |t.deliveries| ==>
              r.deliveries[i] == if t.deliveries[i].id == deliveryId && t.deliveries[i].tenantId == tenantId
                                 then CanceledDelivery(t.deliveries[i], reason, now) else t.deliveries[i]
    ensures r.events == t.events + [CancelEvent(deliveryId, customerId,
                                                FindOwned(t, tenantId, deliveryId, customerId).value.subscriptionId,
                                                reason, now)]
  {
    var d := FindOwned(t, tenantId, deliveryId, customerId).value;
    t.(tasks := MapWhere(t.tasks, stopped, (x: Task) => CancelledTask(x, reason)),
       deliveries := MapWhere(t.deliveries, (x: Delivery) => x.id == deliveryId && x.tenantId == tenantId,
                              (x: Delivery) => CanceledDelivery(x, reason, now)),
       events := t.events + [CancelEvent(deliveryId, customerId, d.subscriptionId, reason, now)])
  }

  /** cancelDelivery, with the scheduled task filter meant: false and nothing
   *  written when the delivery is not the customer's, not PENDING or
   *  already ordered; otherwise its live order tasks are CANCELLED, the
   *  delivery is CANCELED with the reason, and one event is emitted. */
  function Cancel(t: DeliveryTables, tenantId: Uuid, deliveryId: Uuid, customerId: Uuid, reason: Option<string>,
                  now: Instant): (r: (bool, DeliveryTables))
    ensures r.0 <==> Cancellable(t, tenantId, deliveryId, customerId)
    ensures !r.0 ==> r.1 == t
    ensures r.0 ==> r.1 == CancelWrites(t, tenantId, deliveryId, customerId, reason, now,
                                         (x: Task) => StoppedByCancel(x, tenantId, deliveryId))
  {
    if !Cancellable(t, tenantId, deliveryId, customerId) then (false, t)
    else (true, CancelWrites(t, tenantId, deliveryId, customerId, reason, now,
                             (x: Task) => StoppedByCancel(x, tenantId, deliveryId)))
  }

  /** cancelDelivery as written, with the LIKE filter on the jsonb text. */
  function CancelAsWritten(t: DeliveryTables, tenantId: Uuid, deliveryId: Uuid, customerId: Uuid,
                           reason: Option<string>, now: Instant): (r: (bool, DeliveryTables))
    ensures r.0 <==> Cancellable(t, tenantId, deliveryId, customerId)
    ensures !r.0 ==> r.1 == t
  {
    if !Cancellable(t, tenantId, deliveryId, customerId) then (false, t)
    else (true, CancelWrites(t, tenantId, deliveryId, customerId, reason, now,
                             (x: Task) => StoppedAsWritten(x, tenantId, deliveryId)))
  }

  /** Only a PENDING delivery without an order is cancelled; afterwards
   *  every row of it is CANCELED with the reason and the time, and the
   *  outbox holds exactly one more event, a "delivery.canceled" keyed
   *  "delivery_<id>". */
  lemma CancelOutcome(t: DeliveryTables, tenantId: Uuid, deliveryId: Uuid, customerId: Uuid, reason: Option<string>,
                      now: Instant)
    requires Cancel(t, tenantId, deliveryId, customerId, reason, now).0
    ensures var d := FindOwned(t, tenantId, deliveryId, customerId).value;
            d.status == DeliveryPending && !HasOrder(d.externalOrderRef)
    ensures var t1 := Cancel(t, tenantId, deliveryId, customerId, reason, now).1;
            |t1.events| == |t.events| + 1 && t1.events[..|t.events|] == t.events
            && t1.events[|t.events|].eventType == "delivery.canceled"
            && t1.events[|t.events|].aggregateKey == "delivery_" + deliveryId
    ensures var t1 := Cancel(t, tenantId, deliveryId, customerId, reason, now).1;
            forall i :: 0 <= i < |t1.deliveries| && t1.deliveries[i].id == deliveryId
                        && t1.deliveries[i].tenantId == tenantId ==>
              t1.deliveries[i].status == DeliveryCanceled && t1.deliveries[i].cancellationReason == reason
              && t1.deliveries[i].cancelledAt == Some(now)
  {
    var d := FindOwned(t, tenantId, deliveryId, customerId).value;
    assert (t.events + [CancelEvent(deliveryId, customerId, d.subscriptionId, reason, now)])[..|t.events|] == t.events;
  }

  /** A cancelled delivery cannot be cancelled a second time. */
  lemma CancelIsFinal(t: DeliveryTables, tenantId: Uuid, deliveryId: Uuid, customerId: Uuid, reason: Option<string>,
                      now: Instant, reason2: Option<string>, later: Instant)
    requires Cancel(t, tenantId, deliveryId, customerId, reason, now).0
    ensures var t1 := Cancel(t, tenantId, deliveryId, customerId, reason, now).1;
            Cancel(t1, tenantId, deliveryId, customerId, reason2, later) == (false, t1)
  {
    var t1 := Cancel(t, tenantId, deliveryId, customerId, reason, now).1;
    CancelOutcome(t, tenantId, deliveryId, customerId, reason, now);
    var again := FindOwned(t1, tenantId, deliveryId, customerId);
    if again.Some? {
      var i :| 0 <= i < |t1.deliveries| && t1.deliveries[i] == again.value;
      assert t1.deliveries[i].status == DeliveryCanceled;
    }
  }

  /** The order task CREATE_DELIVERY schedules for a delivery is stopped
   *  by the cancellation: CANCELLED, it is never leased again. */
  lemma CancelStopsOrderTask(t: DeliveryTables, tenantId: Uuid, deliveryId: Uuid, customerId: Uuid,
                             reason: Option<string>, now: Instant, k: nat, later: Instant)
    requires Cancel(t, tenantId, deliveryId, customerId, reason, now).0
    requires k < |t.tasks| && LiveOrderTask(t.tasks[k], tenantId) && NamesDelivery(t.tasks[k].payload, deliveryId)
    ensures var t1 := Cancel(t, tenantId, deliveryId, customerId, reason, now).1;
            t1.tasks[k].status == Cancelled && !TaskQueue.Leasable(t1.tasks[k], later)
  {
  }

  /** The LIKE filter as written matches no payload's jsonb text, whatever
   *  its keys and values, for an id that does not start with ":", "," or
   *  "}": in jsonb text a colon and a double quote are followed by one of
   *  those. */
  lemma LikeDeliveryNeverMatches(p: Payload, deliveryId: Uuid)
    requires |deliveryId| > 0 ==> !Jsonb.Closer(deliveryId[0])
    ensures !LikeDeliveryAsWritten(p, deliveryId)
  {
    if p.Json? {
      var pattern := "\"deliveryId\":\"" + deliveryId + "\"";
      assert pattern[12] == ':' && pattern[13] == '"' && !Jsonb.Closer(pattern[14]);
      Jsonb.RenderCloses(p.fields);
      Jsonb.ClosesLacksPattern(Jsonb.Render(p.fields), pattern, 12);
    }
  }

  /** The payload of the order task CREATE_DELIVERY schedules, with its
   *  scheduledAt timestamp text, names the delivery, yet the pattern as
   *  written misses it. */
  lemma OrderPayloadMissedAsWritten(deliveryId: Uuid, sid: Uuid, invoiceId: Uuid, scheduledAt: string)
    requires |deliveryId| > 0 ==> !Jsonb.Closer(deliveryId[0])
    ensures var p := Json(ScheduledTasks.PayloadOf(ScheduledTasks.OrderCreation(deliveryId, sid, invoiceId))["scheduledAt" := scheduledAt]);
            NamesDelivery(p, deliveryId) && !LikeDeliveryAsWritten(p, deliveryId)
  {
    var p := Json(ScheduledTasks.PayloadOf(ScheduledTasks.OrderCreation(deliveryId, sid, invoiceId))["scheduledAt" := scheduledAt]);
    LikeDeliveryNeverMatches(p, deliveryId);
  }

  /** As written, every live order task naming the delivery survives a
   *  successful cancellation unchanged, so the order is placed for a
   *  cancelled delivery. */
  lemma OrderTaskSurvivesAsWritten(t: DeliveryTables, tenantId: Uuid, deliveryId: Uuid, customerId: Uuid,
                                   reason: Option<string>, now: Instant, k: nat)
    requires CancelAsWritten(t, tenantId, deliveryId, customerId, reason, now).0
    requires |deliveryId| > 0 ==> !Jsonb.Closer(deliveryId[0])
    requires k < |t.tasks| && LiveOrderTask(t.tasks[k], tenantId)
    ensures CancelAsWritten(t, tenantId, deliveryId, customerId, reason, now).1.tasks[k] == t.tasks[k]
  {
    LikeDeliveryNeverMatches(t.tasks[k].payload, deliveryId);
    assert !StoppedAsWritten(t.tasks[k], tenantId, deliveryId);
  }

  // ---------------------------------------------------------------- queries

  /** A delivery shown as upcoming: of the tenant, of the customer, and
   *  PENDING or PROCESSING. */
  predicate IsUpcoming(subs: seq<Subscription>, d: Delivery, tenantId: Uuid, customerId: Uuid)
  {
    d.tenantId == tenantId && OfCustomer(subs, d, customerId)
    && (d.status == DeliveryPending || d.status == DeliveryProcessing)
  }

  function CreatedAt(d: Delivery): int { d.createdAt }

  /** An entry of the upcoming list: the delivery with its canCancel flag,
   *  or, when its snapshot cannot be read, its id and status with an
   *  error. */
  datatype UpcomingEntry =
    | Listed(delivery: Delivery, canCancel: bool)
    | Unparsed(deliveryId: Uuid, status: string, error: string)

  function Entry(d: Delivery): UpcomingEntry
  {
    if d.snapshot.UnreadableSnapshot? then Unparsed(d.id, d.status, "Failed to parse delivery details")
    else Listed(d, CanCancelDelivery(d.status))
  }

  /** The upcoming deliveries, newest first (ties in table order). */
  function UpcomingRows(t: DeliveryTables, tenantId: Uuid, customerId: Uuid): seq<Delivery>
  {
    SortDesc(Filter(t.deliveries, (d: Delivery) => IsUpcoming(t.subscriptions, d, tenantId, customerId)), CreatedAt)
  }

  /** getUpcomingDeliveries: at most limit entries; the database refuses a
   *  negative limit, and the error is rethrown. */
  function GetUpcomingDeliveries(t: DeliveryTables, tenantId: Uuid, customerId: Uuid, limit: int)
    : (r: Result<seq<UpcomingEntry>>)
    ensures r.Failure? <==> limit < 0
    ensures r.Success? ==> |r.value| == Min(limit, |UpcomingRows(t, tenantId, customerId)|)
    ensures r.Success? ==> forall i :: 0 <= i < |r.value| ==> r.value[i] == Entry(UpcomingRows(t, tenantId, customerId)[i])
  {
    if limit < 0 then Failure("Failed to get upcoming deliveries")
    else
      var rows := Take(UpcomingRows(t, tenantId, customerId), limit);
      Success(seq(|rows|, i requires 0 <= i < |rows| => Entry(rows[i])))
  }

  /** The upcoming list holds only open deliveries of the tenant and the
   *  customer, newest first, and every one of them when there are no more
   *  than limit; only a PENDING one is offered for cancellation. */
  lemma UpcomingAreOpen(t: DeliveryTables, tenantId: Uuid, customerId: Uuid, limit: int)
    requires limit >= 0
    ensures var rows := UpcomingRows(t, tenantId, customerId);
            var r := GetUpcomingDeliveries(t, tenantId, customerId, limit).value;
            (forall i :: 0 <= i < |r| ==> IsUpcoming(t.subscriptions, rows[i], tenantId, customerId))
            && (forall i, j :: 0 <= i < j < |r| ==> rows[i].createdAt >= rows[j].createdAt)
            && (forall i :: 0 <= i < |r| && r[i].Listed? ==> (r[i].canCancel <==> r[i].delivery.status == DeliveryPending))
            && (|rows| <= limit ==> forall d :: d in t.deliveries && IsUpcoming(t.subscriptions, d, tenantId, customerId)
                                              ==> exists i :: 0 <= i < |r| && rows[i] == d)
  {
    var p := (d: Delivery) => IsUpcoming(t.subscriptions, d, tenantId, customerId);
    var rows := UpcomingRows(t, tenantId, customerId);
    SortedSelection(t.deliveries, p, CreatedAt);
    assert forall i :: 0 <= i < |rows| ==> rows[i] in rows;
    if |rows| <= limit {
      forall d | d in t.deliveries && IsUpcoming(t.subscriptions, d, tenantId, customerId)
        ensures exists i :: 0 <= i < |rows| && rows[i] == d
      {
        assert p(d);
        assert d in rows;
      }
    }
  }

  /** getDeliveryDetails: the customer's delivery with its canCancel flag;
   *  empty when it is not found or its snapshot cannot be read. */
  function GetDeliveryDetails(t: DeliveryTables, tenantId: Uuid, deliveryId: Uuid, customerId: Uuid)
    : (r: Option<(Delivery, bool)>)
    ensures r.Some? <==> FindOwned(t, tenantId, deliveryId, customerId).Some?
                         && !FindOwned(t, tenantId, deliveryId, customerId).value.snapshot.UnreadableSnapshot?
    ensures r.Some? ==> r.value.0 in t.deliveries && Owned(t.subscriptions, r.value.0, tenantId, deliveryId, customerId)
                        && (r.value.1 <==> r.value.0.status == DeliveryPending)
  {
    var found := FindOwned(t, tenantId, deliveryId, customerId);
    if found.None? || found.value.snapshot.UnreadableSnapshot? then None
    else Some((found.value, CanCancelDelivery(found.value.status)))
  }

  /** The detail view offers cancellation exactly when a cancellation
   *  would be refused for no other reason than an existing order. */
  lemma DetailsAgreeWithCancel(t: DeliveryTables, tenantId: Uuid, deliveryId: Uuid, customerId: Uuid,
                               reason: Option<string>, now: Instant)
    requires GetDeliveryDetails(t, tenantId, deliveryId, customerId).Some?
    ensures var v := GetDeliveryDetails(t, tenantId, deliveryId, customerId).value;
            Cancel(t, tenantId, deliveryId, customerId, reason, now).0 <==> v.1 && !HasOrder(v.0.externalOrderRef)
  {
  }

  // ---------------------------------------------------------------- the store

  /** The tables as the service writes them. */
  class DeliveryStore {
    var deliveries: seq<Delivery>
    var subscriptions: seq<Subscription>
    var tasks: seq<Task>
    var events: seq<CanceledEvent>

    constructor(t: DeliveryTables)
      ensures Contents() == t
    {
      deliveries := t.deliveries;
      subscriptions := t.subscriptions;
      tasks := t.tasks;
      events := t.events;
    }

    function Contents(): DeliveryTables
      reads this
    {
      DeliveryTables(deliveries, subscriptions, tasks, events)
    }

    /** cancelDelivery: load, check, then the three writes in order. */
    method CancelDelivery(tenantId: Uuid, deliveryId: Uuid, customerId: Uuid, reason: Option<string>, now: Instant)
      returns (cancelled: bool)
      modifies this
      ensures (cancelled, Contents()) == Cancel(old(Contents()), tenantId, deliveryId, customerId, reason, now)
    {
      var found := FindOwned(Contents(), tenantId, deliveryId, customerId);
      if found.None? {
        return false;
      }
      var d := found.value;
      if !CanCancelDelivery(d.status) {
        return false;
      }
      if d.externalOrderRef.Some? && Trim(d.externalOrderRef.value) != "" {
        return false;
      }
      tasks := MapWhere(tasks, (x: Task) => StoppedByCancel(x, tenantId, deliveryId), (x: Task) => CancelledTask(x, reason));
      deliveries := MapWhere(deliveries, (x: Delivery) => x.id == deliveryId && x.tenantId == tenantId,
                             (x: Delivery) => CanceledDelivery(x, reason, now));
      events := events + [CancelEvent(deliveryId, customerId, d.subscriptionId, reason, now)];
      cancelled := true;
    }
  }
}
