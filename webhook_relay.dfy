/** WebhookRelayWorker: turns unpublished outbox events into webhook
 *  deliveries, one per subscribed endpoint, and sends due deliveries with
 *  a bounded number of attempts and exponential backoff. The HTTP send is
 *  a parameter: its outcome for each delivery is given. */
module WebhookRelay {
  import opened Common
  import opened Calendar

  // ---------------------------------------------------------------- rows

  datatype Endpoint = Endpoint(
    id: Uuid,
    tenantId: Uuid,
    url: string,
    secret: string,
    status: string,
    events: Option<seq<string>>)

  datatype OutboxEvent = OutboxEvent(
    id: Uuid,
    tenantId: Uuid,
    eventType: string,
    payload: string,
    createdAt: Instant,
    publishedAt: Option<Instant>)

  datatype WebhookDelivery = WebhookDelivery(
    id: Uuid,
    tenantId: Uuid,
    endpointId: Uuid,
    outboxEventId: Uuid,
    eventType: string,
    payload: string,
    status: string,
    attemptCount: int,
    maxAttempts: int,
    nextAttemptAt: Instant,
    lastResponseStatus: Option<int>,
    lastResponseBody: Option<string>,
    lastError: Option<string>,
    deliveredAt: Option<Instant>,
    createdAt: Instant,
    updatedAt: Instant)

  const Active: string := "ACTIVE"
  const DeliveryPending: string := "PENDING"
  const DeliveryDelivered: string := "DELIVERED"
  const DeliveryFailed: string := "FAILED"

  const MaxAttempts: int := 5
  const EventBatch: int := 100
  const DeliveryBatch: int := 50
  const ResponseBodyLimit: nat := 1000
  const ErrorBodyLimit: nat := 200

  // ---------------------------------------------------------------- events to deliveries

  /** An endpoint receives an event type when it lists no types at all or
   *  lists this one. */
  predicate Subscribes(e: Endpoint, eventType: string)
  {
    e.events.None? || |e.events.value| == 0 || eventType in e.events.value
  }

  /** The endpoints an event goes to: the tenant's ACTIVE endpoints that
   *  subscribe to its type, in table order. */
  function Receivers(endpoints: seq<Endpoint>, ev: OutboxEvent): seq<Endpoint>
  {
    Filter(endpoints, (e: Endpoint) => Receives(e, ev))
  }

  predicate Receives(e: Endpoint, ev: OutboxEvent)
  {
    e.tenantId == ev.tenantId && e.status == Active && Subscribes(e, ev.eventType)
  }

  /** createWebhookDelivery: a PENDING delivery of the event's type and
   *  payload, no attempts yet, at most five, due at once. */
  function NewDelivery(id: Uuid, ev: OutboxEvent, e: Endpoint, now: Instant): WebhookDelivery
  {
    WebhookDelivery(id, ev.tenantId, e.id, ev.id, ev.eventType, ev.payload, DeliveryPending, 0, MaxAttempts, now,
                    None, None, None, None, now, now)
  }

  /** The deliveries created for one event, `freshId` standing for the
   *  random UUID drawn for each (event, endpoint) pair. */
  function NewDeliveries(receivers: seq<Endpoint>, ev: OutboxEvent, freshId: (Uuid, Uuid) -> Uuid, now: Instant)
    : (r: seq<WebhookDelivery>)
    ensures |r| == |receivers|
    ensures forall k :: 0 <= k < |r| ==> r[k] == NewDelivery(freshId(ev.id, receivers[k].id), ev, receivers[k], now)
  {
    seq(|receivers|, k requires 0 <= k < |receivers| => NewDelivery(freshId(ev.id, receivers[k].id), ev, receivers[k], now))
  }

  /** Walking one more endpoint adds its delivery when it receives the
   *  event. */
  lemma NewDeliveriesSnoc(es: seq<Endpoint>, e: Endpoint, ev: OutboxEvent, freshId: (Uuid, Uuid) -> Uuid, now: Instant)
    ensures NewDeliveries(Receivers(es + [e], ev), ev, freshId, now)
         == NewDeliveries(Receivers(es, ev), ev, freshId, now)
            + (if Receives(e, ev) then [NewDelivery(freshId(ev.id, e.id), ev, e, now)] else [])
  {
    FilterSnoc(es, e, (x: Endpoint) => Receives(x, ev));
  }

  /** markAsPublished, run in the event's tenant: stamps the event. */
  function MarkPublished(events: seq<OutboxEvent>, ev: OutboxEvent, now: Instant): (r: seq<OutboxEvent>)
    ensures |r| == |events|
    ensures forall i :: 0 <= i < |events| ==>
              r[i] == if events[i].id == ev.id && events[i].tenantId == ev.tenantId
                      then events[i].(publishedAt := Some(now)) else events[i]
  {
    MapWhere(events, (x: OutboxEvent) => x.id == ev.id && x.tenantId == ev.tenantId,
             (x: OutboxEvent) => x.(publishedAt := Some(now)))
  }

  /** The tables the relay works on. */
  datatype Relay = Relay(events: seq<OutboxEvent>, endpoints: seq<Endpoint>, deliveries: seq<WebhookDelivery>)

  /** processEvent: one delivery per receiving endpoint is appended, and the
   *  event is marked published whether or not any endpoint received it. */
  function ProcessEvent(t: Relay, ev: OutboxEvent, freshId: (Uuid, Uuid) -> Uuid, now: Instant): (r: Relay)
    ensures r.endpoints == t.endpoints
    ensures r.deliveries == t.deliveries + NewDeliveries(Receivers(t.endpoints, ev), ev, freshId, now)
    ensures r.events == MarkPublished(t.events, ev, now)
  {
    Relay(MarkPublished(t.events, ev, now), t.endpoints,
          t.deliveries + NewDeliveries(Receivers(t.endpoints, ev), ev, freshId, now))
  }

  function Unpublished(ev: OutboxEvent): bool { ev.publishedAt.None? }

  function Earliness(ev: OutboxEvent): int { -ev.createdAt }

  /** The batch processOutboxEvents fetches: the unpublished events, oldest
   *  first, at most 100 (ties in createdAt in table order). */
  function EventBatchOf(events: seq<OutboxEvent>): seq<OutboxEvent>
  {
    Take(SortDesc(Filter(events, Unpublished), Earliness), EventBatch)
  }

  /** The events of a batch processed in turn. */
  function ProcessEvents(t: Relay, batch: seq<OutboxEvent>, freshId: (Uuid, Uuid) -> Uuid, now: Instant): Relay
    decreases |batch|
  {
    if batch == [] then t
    else ProcessEvents(ProcessEvent(t, batch[0], freshId, now), batch[1..], freshId, now)
  }

  /** processOutboxEvents on the tables. */
  function ProcessOutbox(t: Relay, freshId: (Uuid, Uuid) -> Uuid, now: Instant): Relay
  {
    ProcessEvents(t, EventBatchOf(t.events), freshId, now)
  }

  /** An event is marked in a table of events. */
  predicate PublishedIn(events: seq<OutboxEvent>, ev: OutboxEvent)
  {
    forall i :: 0 <= i < |events| && events[i].id == ev.id && events[i].tenantId == ev.tenantId ==>
      events[i].publishedAt.Some?
  }

  /** After a batch every one of its events is marked published, endpoints
   *  that received nothing included, and marks already made stay; the
   *  delivery table only grows. */
  lemma {:induction false} BatchPublishesAll(t: Relay, batch: seq<OutboxEvent>, freshId: (Uuid, Uuid) -> Uuid,
                                             now: Instant, ev: OutboxEvent)
    requires ev in batch || PublishedIn(t.events, ev)
    ensures PublishedIn(ProcessEvents(t, batch, freshId, now).events, ev)
    ensures ProcessEvents(t, batch, freshId, now).endpoints == t.endpoints
    ensures t.deliveries <= ProcessEvents(t, batch, freshId, now).deliveries
    decreases |batch|
  {
    if batch != [] {
      var t1 := ProcessEvent(t, batch[0], freshId, now);
      if ev in batch[1..] {
        BatchPublishesAll(t1, batch[1..], freshId, now, ev);
      } else {
        assert PublishedIn(t1.events, ev);
        BatchPublishesAll(t1, batch[1..], freshId, now, ev);
      }
    }
  }

  /** Each event of the batch yields exactly one PENDING delivery with no
   *  attempts for each receiving endpoint, appended in order. */
  lemma EventDeliveries(t: Relay, ev: OutboxEvent, freshId: (Uuid, Uuid) -> Uuid, now: Instant, e: Endpoint)
    requires e in t.endpoints && e.tenantId == ev.tenantId && e.status == Active && Subscribes(e, ev.eventType)
    ensures var added := ProcessEvent(t, ev, freshId, now).deliveries[|t.deliveries|..];
            exists k :: 0 <= k < |added| && added[k].endpointId == e.id && added[k].outboxEventId == ev.id
                        && added[k].status == DeliveryPending && added[k].attemptCount == 0
                        && added[k].maxAttempts == MaxAttempts && added[k].nextAttemptAt == now
  {
    var rs := Receivers(t.endpoints, ev);
    var added := ProcessEvent(t, ev, freshId, now).deliveries[|t.deliveries|..];
    assert added == NewDeliveries(rs, ev, freshId, now);
    assert e in rs;
    var k :| 0 <= k < |rs| && rs[k] == e;
    assert added[k].endpointId == e.id;
  }

  /** The batch holds only unpublished events, oldest first, at most 100. */
  lemma EventBatchFacts(events: seq<OutboxEvent>)
    ensures var b := EventBatchOf(events);
            |b| <= EventBatch
            && (forall i :: 0 <= i < |b| ==> b[i] in events && b[i].publishedAt.None?)
            && (forall i, j :: 0 <= i < j < |b| ==> b[i].createdAt <= b[j].createdAt)
  {
    var s := SortDesc(Filter(events, Unpublished), Earliness);
    SortedSelection(events, Unpublished, Earliness);
    assert forall i :: 0 <= i < |s| ==> s[i] in s;
  }

  // ---------------------------------------------------------------- sending

  /** A delivery the sender picks: PENDING, due, attempts left. */
  predicate Due(d: WebhookDelivery, now: Instant)
  {
    d.status == DeliveryPending && d.nextAttemptAt <= now && d.attemptCount < d.maxAttempts
  }

  function Lateness(d: WebhookDelivery): int { -d.nextAttemptAt }

  /** The batch deliverWebhooks fetches: due deliveries, earliest due
   *  first, at most 50. */
  function DueBatch(ds: seq<WebhookDelivery>, now: Instant): seq<WebhookDelivery>
  {
    Take(SortDesc(Filter(ds, (d: WebhookDelivery) => Due(d, now)), Lateness), DeliveryBatch)
  }

  /** What a send attempt came to: an HTTP response, or an exception
   *  (unreadable payload, signing or connection failure) with its message,
   *  which may be null. */
  datatype SendOutcome = Response(statusCode: int, body: string) | Thrown(message: Option<string>)

  /** The first n characters, or all when fewer. */
  function Truncate(s: string, n: nat): (r: string)
    ensures |r| == Min(|s|, n) && r <= s
  {
    s[..Min(|s|, n)]
  }

  /** A Java int: 32-bit two's complement wrap-around. */
  function ToInt32(x: int): (r: int)
    ensures -0x8000_0000 <= r < 0x8000_0000
    ensures -0x8000_0000 <= x < 0x8000_0000 ==> r == x
  {
    (x + 0x8000_0000) % 0x1_0000_0000 - 0x8000_0000
  }

  /** `(int) Math.pow(2, attempts)`: a negative count gives a fraction below
   *  one, which the cast truncates to 0; exact up to 2^30; the cast saturates
   *  at Integer.MAX_VALUE above. */
  function PowerCast(attempts: int): (r: int)
    ensures attempts < 0 ==> r == 0
    ensures attempts == 0 ==> r == 1
    ensures 0 <= attempts <= 30 ==> r == Pow2(attempts)
    ensures attempts >= 31 ==> r == 0x7FFF_FFFF
  {
    if attempts < 0 then 0 else if attempts <= 30 then Pow2(attempts) else 0x7FFF_FFFF
  }

  /** The retry delay in seconds after the given number of attempts, with
   *  int multiplication. */
  function BackoffSeconds(attempts: int, base: int): int
  {
    ToInt32(PowerCast(attempts) * base)
  }

  /** The backoff doubles from one attempt to the next while it fits. */
  lemma BackoffDoubles(attempts: nat, base: nat)
    requires attempts < 30 && Pow2(attempts + 1) * base < 0x8000_0000
    ensures BackoffSeconds(attempts + 1, base) == 2 * BackoffSeconds(attempts, base)
    ensures BackoffSeconds(attempts, base) == Pow2(attempts) * base
  {
    var p := Pow2(attempts);
    var q := p * base;
    assert Pow2(attempts + 1) == 2 * p;
    assert 2 * p * base == 2 * q;
    assert 0 <= q <= 2 * q;
  }

  /** The retry bookkeeping shared by a failed response and an exception:
   *  FAILED once the attempts are used up, otherwise due again after the
   *  backoff. */
  function RetryOrFail(d: WebhookDelivery, now: Instant, base: int): WebhookDelivery
  {
    if d.attemptCount >= d.maxAttempts then d.(status := DeliveryFailed)
    else d.(nextAttemptAt := now + BackoffSeconds(d.attemptCount, base))
  }

  /** deliverWebhook for one fetched delivery: the endpoint is looked up by
   *  id; a missing or inactive endpoint fails the delivery without an
   *  attempt; otherwise the attempt is counted and its outcome recorded. */
  function Deliver(d: WebhookDelivery, endpoint: Option<Endpoint>, outcome: SendOutcome, now: Instant, base: int)
    : (r: WebhookDelivery)
    ensures (r.id, r.tenantId, r.endpointId, r.outboxEventId, r.eventType, r.payload, r.maxAttempts)
         == (d.id, d.tenantId, d.endpointId, d.outboxEventId, d.eventType, d.payload, d.maxAttempts)
    ensures r.updatedAt == now
  {
    if endpoint.None? then d.(status := DeliveryFailed, lastError := Some("Webhook endpoint not found"), updatedAt := now)
    else if endpoint.value.status != Active then
      d.(status := DeliveryFailed, lastError := Some("Webhook endpoint is not active"), updatedAt := now)
    else
      var d1 := d.(attemptCount := d.attemptCount + 1);
      match outcome
      case Response(code, body) =>
        var d2 := d1.(lastResponseStatus := Some(code), lastResponseBody := Some(Truncate(body, ResponseBodyLimit)));
        if 200 <= code < 300 then d2.(status := DeliveryDelivered, deliveredAt := Some(now), updatedAt := now)
        else
          RetryOrFail(d2.(lastError := Some("HTTP " + IntText(code) + ": " + Truncate(body, ErrorBodyLimit))), now, base)
            .(updatedAt := now)
      case Thrown(message) =>
        RetryOrFail(d1.(lastError := message), now, base).(updatedAt := now)
  }

  /** The attempt counter never passes the maximum. */
  predicate AttemptsBounded(d: WebhookDelivery)
  {
    0 <= d.attemptCount <= d.maxAttempts && (d.status == DeliveryPending ==> d.attemptCount < d.maxAttempts)
  }

  /** One send step of a due delivery: the attempt is counted exactly when
   *  the endpoint is there and active; a 2xx response, and only that,
   *  delivers; a delivery that stays PENDING has attempts left and is due
   *  again only after the backoff; the bound on attempts is kept. */
  lemma DeliverStep(d: WebhookDelivery, endpoint: Option<Endpoint>, outcome: SendOutcome, now: Instant, base: int)
    requires Due(d, now) && 0 <= d.attemptCount
    ensures var r := Deliver(d, endpoint, outcome, now, base);
            var reachable := endpoint.Some? && endpoint.value.status == Active;
            AttemptsBounded(r)
            && r.attemptCount == d.attemptCount + (if reachable then 1 else 0)
            && (!reachable ==> r.status == DeliveryFailed && r.nextAttemptAt == d.nextAttemptAt)
            && (r.status == DeliveryDelivered <==> reachable && outcome.Response? && 200 <= outcome.statusCode < 300)
            && (r.status == DeliveryFailed <==> !reachable || (r.attemptCount >= r.maxAttempts && r.status != DeliveryDelivered))
            && (r.status == DeliveryPending ==> r.nextAttemptAt == now + BackoffSeconds(r.attemptCount, base))
            && (reachable && outcome.Response? ==>
                  r.lastResponseStatus == Some(outcome.statusCode)
                  && r.lastResponseBody == Some(Truncate(outcome.body, ResponseBodyLimit)))
  {
  }

  /** Starting from a new delivery, the counter stays within five: the
   *  bound holds at creation and every step keeps it. */
  lemma NewDeliveryBounded(id: Uuid, ev: OutboxEvent, e: Endpoint, now: Instant)
    ensures AttemptsBounded(NewDelivery(id, ev, e, now)) && Due(NewDelivery(id, ev, e, now), now)
  {
  }

  /** Terminal deliveries are never picked again. */
  lemma TerminalNotDue(d: WebhookDelivery, now: Instant)
    requires d.status == DeliveryDelivered || d.status == DeliveryFailed
    ensures !Due(d, now)
  {
  }

  function EndpointOf(t: Relay, d: WebhookDelivery): Option<Endpoint>
  {
    Find(t.endpoints, (e: Endpoint) => e.id == d.endpointId)
  }

  /** One fetched delivery after its send. */
  function Sent(t: Relay, d: WebhookDelivery, outcome: Uuid -> SendOutcome, now: Instant, base: int): WebhookDelivery
  {
    Deliver(d, EndpointOf(t, d), outcome(d.id), now, base)
  }

  /** deliverWebhooks on the delivery table: the fetched deliveries are
   *  sent in turn, each written back over the row with its id; `outcome`
   *  gives the send's result per delivery id. */
  function DeliverAll(t: Relay, batch: seq<WebhookDelivery>, outcome: Uuid -> SendOutcome, now: Instant, base: int)
    : seq<WebhookDelivery>
    decreases |batch|
  {
    if batch == [] then t.deliveries
    else
      var p := batch[|batch| - 1];
      var r := Sent(t, p, outcome, now, base);
      MapWhere(DeliverAll(t, batch[..|batch| - 1], outcome, now, base), (x: WebhookDelivery) => x.id == p.id,
               (x: WebhookDelivery) => r)
  }

  lemma DeliverAllSnoc(t: Relay, front: seq<WebhookDelivery>, p: WebhookDelivery, outcome: Uuid -> SendOutcome,
                       now: Instant, base: int)
    ensures DeliverAll(t, front + [p], outcome, now, base)
         == MapWhere(DeliverAll(t, front, outcome, now, base), (x: WebhookDelivery) => x.id == p.id,
                     (x: WebhookDelivery) => Sent(t, p, outcome, now, base))
  {
    assert (front + [p])[..|front|] == front;
  }

  predicate UniqueIds(ds: seq<WebhookDelivery>)
  {
    forall i, j :: 0 <= i < j < |ds| ==> ds[i].id != ds[j].id
  }

  /** Row by row, the table after sending a batch: a fetched row is
   *  replaced by its send step, any other row is kept. */
  predicate RowsSent(t: Relay, batch: seq<WebhookDelivery>, r: seq<WebhookDelivery>, outcome: Uuid -> SendOutcome,
                     now: Instant, base: int)
  {
    |r| == |t.deliveries|
    && forall i :: 0 <= i < |r| ==>
         r[i] == if t.deliveries[i] in batch then Sent(t, t.deliveries[i], outcome, now, base) else t.deliveries[i]
  }

  lemma SameIdSameRow(ds: seq<WebhookDelivery>, i: nat, p: WebhookDelivery)
    requires UniqueIds(ds) && i < |ds| && p in ds && ds[i].id == p.id
    ensures ds[i] == p
  {
    var j :| 0 <= j < |ds| && ds[j] == p;
    assert i == j;
  }

  /** With unique delivery ids and a batch drawn from the table, every row
   *  is either untouched or replaced by one send step of itself, however
   *  the batch is ordered. */
  lemma {:induction false} DeliverAllRows(t: Relay, batch: seq<WebhookDelivery>, outcome: Uuid -> SendOutcome,
                                          now: Instant, base: int)
    requires UniqueIds(t.deliveries)
    requires forall k :: 0 <= k < |batch| ==> batch[k] in t.deliveries
    ensures RowsSent(t, batch, DeliverAll(t, batch, outcome, now, base), outcome, now, base)
    decreases |batch|
  {
    if batch != [] {
      var front := batch[..|batch| - 1];
      var p := batch[|batch| - 1];
      assert batch == front + [p];
      DeliverAllRows(t, front, outcome, now, base);
      var prev := DeliverAll(t, front, outcome, now, base);
      var r := DeliverAll(t, batch, outcome, now, base);
      forall i | 0 <= i < |r|
        ensures r[i] == if t.deliveries[i] in batch then Sent(t, t.deliveries[i], outcome, now, base) else t.deliveries[i]
      {
        assert prev[i].id == t.deliveries[i].id;
        if t.deliveries[i].id == p.id {
          SameIdSameRow(t.deliveries, i, p);
        } else {
          assert t.deliveries[i] in batch <==> t.deliveries[i] in front;
        }
      }
    }
  }

  /** The send batch holds only due deliveries, earliest due first, at most
   *  50, and every due delivery when there are no more than 50. */
  lemma DueBatchFacts(ds: seq<WebhookDelivery>, now: Instant)
    ensures var b := DueBatch(ds, now);
            |b| <= DeliveryBatch
            && (forall i :: 0 <= i < |b| ==> b[i] in ds && Due(b[i], now))
            && (forall i, j :: 0 <= i < j < |b| ==> b[i].nextAttemptAt <= b[j].nextAttemptAt)
            && (|Filter(ds, (d: WebhookDelivery) => Due(d, now))| <= DeliveryBatch ==>
                  forall d :: d in ds && Due(d, now) ==> d in b)
  {
    var p := (d: WebhookDelivery) => Due(d, now);
    var s := SortDesc(Filter(ds, p), Lateness);
    SortedSelection(ds, p, Lateness);
    SortDescFacts(Filter(ds, p), Lateness);
    assert |s| == |multiset(s)| == |multiset(Filter(ds, p))| == |Filter(ds, p)|;
    assert forall i :: 0 <= i < |s| ==> s[i] in s;
    forall d | d in ds && Due(d, now)
      ensures d in s
    {
      assert p(d);
    }
  }

  // ---------------------------------------------------------------- signature

  /** A byte as an unsigned value; `%02x` formats a negative Java byte as
   *  its value plus 256. */
  newtype Byte = x: int | 0 <= x < 256

  function HexDigit(v: int): char
    requires 0 <= v < 16
  {
    if v < 10 then '0' + v as char else 'a' + (v - 10) as char
  }

  function HexValue(c: char): int
  {
    if '0' <= c <= '9' then (c - '0') as int else if 'a' <= c <= 'f' then (c - 'a') as int + 10 else 0
  }

  /** Two lowercase hex digits per byte. */
  function Hex(bytes: seq<Byte>): (r: string)
    ensures |r| == 2 * |bytes|
  {
    if bytes == [] then ""
    else Hex(bytes[..|bytes| - 1])
         + [HexDigit(bytes[|bytes| - 1] as int / 16), HexDigit(bytes[|bytes| - 1] as int % 16)]
  }

  function Unhex(s: string): seq<Byte>
    requires |s| % 2 == 0
  {
    if s == [] then []
    else
      var v := HexValue(s[|s| - 2]) * 16 + HexValue(s[|s| - 1]);
      Unhex(s[..|s| - 2]) + [if 0 <= v < 256 then v as Byte else 0]
  }

  lemma HexDigitValue(v: int)
    requires 0 <= v < 16
    ensures HexValue(HexDigit(v)) == v
    ensures '0' <= HexDigit(v) <= '9' || 'a' <= HexDigit(v) <= 'f'
  {
  }

  /** The hex text loses nothing: it reads back as the same bytes. */
  lemma {:induction false} HexRoundTrip(bytes: seq<Byte>)
    ensures Unhex(Hex(bytes)) == bytes
  {
    if bytes != [] {
      var front := bytes[..|bytes| - 1];
      var b := bytes[|bytes| - 1] as int;
      HexRoundTrip(front);
      var c1, c2 := HexDigit(b / 16), HexDigit(b % 16);
      var h := Hex(bytes);
      assert h == Hex(front) + [c1, c2];
      assert h[..|h| - 2] == Hex(front);
      HexDigitValue(b / 16);
      HexDigitValue(b % 16);
      assert HexValue(h[|h| - 2]) * 16 + HexValue(h[|h| - 1]) == b;
      assert bytes == front + [b as Byte];
    }
  }

  /** The hex text is made of lowercase hex digits only. */
  lemma {:induction false} HexIsLowercase(bytes: seq<Byte>)
    ensures forall i :: 0 <= i < |Hex(bytes)| ==> '0' <= Hex(bytes)[i] <= '9' || 'a' <= Hex(bytes)[i] <= 'f'
  {
    if bytes != [] {
      var front := bytes[..|bytes| - 1];
      var b := bytes[|bytes| - 1] as int;
      HexIsLowercase(front);
      HexDigitValue(b / 16);
      HexDigitValue(b % 16);
      assert Hex(bytes) == Hex(front) + [HexDigit(b / 16), HexDigit(b % 16)];
    }
  }

  /** bytesToHex, with its string builder. */
  method BytesToHex(bytes: seq<Byte>) returns (s: string)
    ensures s == Hex(bytes)
  {
    s := "";
    var i := 0;
    while i < |bytes|
      invariant 0 <= i <= |bytes| && s == Hex(bytes[..i])
    {
      assert bytes[..i + 1][..i] == bytes[..i];
      s := s + [HexDigit(bytes[i] as int / 16), HexDigit(bytes[i] as int % 16)];
      i := i + 1;
    }
    assert bytes[..i] == bytes;
  }

  /** generateSignature: "sha256=" and the hex of the HMAC-SHA256 of the
   *  payload under the endpoint secret (the HMAC is a parameter). */
  function Signature(payload: string, secret: string, hmac: (string, string) -> seq<Byte>): (r: string)
    ensures |r| == 7 + 2 * |hmac(payload, secret)| && r[..7] == "sha256="
    ensures Unhex(r[7..]) == hmac(payload, secret)
  {
    HexRoundTrip(hmac(payload, secret));
    "sha256=" + Hex(hmac(payload, secret))
  }

  // ---------------------------------------------------------------- the worker

  class Worker {
    var events: seq<OutboxEvent>
    var endpoints: seq<Endpoint>
    var deliveries: seq<WebhookDelivery>
    const retryBackoffBaseSeconds: int

    constructor(t: Relay, base: int)
      ensures Contents() == t && retryBackoffBaseSeconds == base
    {
      events := t.events;
      endpoints := t.endpoints;
      deliveries := t.deliveries;
      retryBackoffBaseSeconds := base;
    }

    function Contents(): Relay
      reads this
    {
      Relay(events, endpoints, deliveries)
    }

    /** processEvent: walks the tenant's active endpoints and creates a
     *  delivery for each that subscribes, then marks the event. */
    method ProcessOneEvent(ev: OutboxEvent, freshId: (Uuid, Uuid) -> Uuid, now: Instant)
      modifies this
      ensures Contents() == ProcessEvent(old(Contents()), ev, freshId, now)
    {
      var candidates := endpoints;
      var i := 0;
      ghost var start := deliveries;
      while i < |candidates|
        invariant 0 <= i <= |candidates| && candidates == endpoints && events == old(events)
        invariant deliveries == start + NewDeliveries(Receivers(candidates[..i], ev), ev, freshId, now)
      {
        var e := candidates[i];
        assert candidates[..i + 1] == candidates[..i] + [e];
        NewDeliveriesSnoc(candidates[..i], e, ev, freshId, now);
        if e.tenantId == ev.tenantId && e.status == Active && Subscribes(e, ev.eventType) {
          deliveries := deliveries + [NewDelivery(freshId(ev.id, e.id), ev, e, now)];
        }
        i := i + 1;
      }
      assert candidates[..i] == candidates;
      events := MarkPublished(events, ev, now);
    }

    /** processOutboxEvents: the fetched batch, one event after another. */
    method ProcessOutboxEvents(freshId: (Uuid, Uuid) -> Uuid, now: Instant)
      modifies this
      ensures Contents() == ProcessOutbox(old(Contents()), freshId, now)
    {
      var batch := EventBatchOf(events);
      var i := 0;
      while i < |batch|
        invariant 0 <= i <= |batch|
        invariant ProcessEvents(Contents(), batch[i..], freshId, now) == ProcessOutbox(old(Contents()), freshId, now)
      {
        assert batch[i..][1..] == batch[i + 1..];
        ProcessOneEvent(batch[i], freshId, now);
        i := i + 1;
      }
    }

    /** deliverWebhook: sends one fetched delivery and writes it back over
     *  the row with its id. */
    method DeliverOne(p: WebhookDelivery, outcome: Uuid -> SendOutcome, now: Instant)
      modifies this
      ensures deliveries == MapWhere(old(deliveries), (x: WebhookDelivery) => x.id == p.id,
                                     (x: WebhookDelivery) => Sent(old(Contents()), p, outcome, now, retryBackoffBaseSeconds))
      ensures events == old(events) && endpoints == old(endpoints)
    {
      var endpoint := Find(endpoints, (e: Endpoint) => e.id == p.endpointId);
      var r := Deliver(p, endpoint, outcome(p.id), now, retryBackoffBaseSeconds);
      deliveries := MapWhere(deliveries, (x: WebhookDelivery) => x.id == p.id, (x: WebhookDelivery) => r);
    }

    /** deliverWebhooks: each fetched delivery is sent and written back. */
    method DeliverWebhooks(outcome: Uuid -> SendOutcome, now: Instant)
      modifies this
      ensures deliveries == DeliverAll(old(Contents()), DueBatch(old(deliveries), now), outcome, now,
                                       retryBackoffBaseSeconds)
      ensures events == old(events) && endpoints == old(endpoints)
    {
      var batch := DueBatch(deliveries, now);
      ghost var t := Contents();
      var i := 0;
      while i < |batch|
        invariant 0 <= i <= |batch| && events == t.events && endpoints == t.endpoints
        invariant deliveries == DeliverAll(t, batch[..i], outcome, now, retryBackoffBaseSeconds)
      {
        DeliverAllSnoc(t, batch[..i], batch[i], outcome, now, retryBackoffBaseSeconds);
        assert batch[..i + 1] == batch[..i] + [batch[i]];
        DeliverOne(batch[i], outcome, now);
        i := i + 1;
      }
      assert batch[..i] == batch;
    }
  }
}
