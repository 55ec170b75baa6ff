/** The scheduled_tasks table that the scheduler fills, the scheduled task processor
 *  leases and completes, and the subscription and delivery services cancel.
 *  Rows are kept in table order; the table's constraints are a unique id and
 *  a unique (tenant, task key) pair. */
module Tasks {
  import opened Common
  import opened Calendar

  datatype TaskStatus = Ready | Claimed | Completed | Failed | Cancelled

  /** The JSON payload column: a flat object of text fields, or a text the
   *  JSON reader rejects. */
  datatype Payload = Json(fields: map<string, string>) | Malformed

  datatype Task = Task(
    id: Uuid,
    tenantId: Uuid,
    taskType: string,
    taskKey: string,
    status: TaskStatus,
    dueAt: Instant,
    lockedUntil: Option<Instant>,
    lockOwner: Option<string>,
    attemptCount: Option<int>,
    maxAttempts: int,
    payload: Payload,
    lastError: Option<string>,
    completedAt: Option<Instant>)

  const SubscriptionRenewalType: string := "SUBSCRIPTION_RENEWAL"
  const ProductRenewalType: string := "PRODUCT_RENEWAL"
  const ChargePaymentType: string := "CHARGE_PAYMENT"
  const CreateDeliveryType: string := "CREATE_DELIVERY"
  const CreateOrderType: string := "CREATE_ORDER"
  const EntitlementGrantType: string := "ENTITLEMENT_GRANT"
  const TrialEndType: string := "TRIAL_END"

  /** Attempts a newly scheduled task is allowed. */
  const DefaultMaxAttempts: int := 3

  /** A task as every scheduling path creates it: READY, unlocked, never
   *  attempted, three attempts allowed. */
  function NewTask(id: Uuid, tenantId: Uuid, taskType: string, taskKey: string,
                   dueAt: Instant, payload: Payload): Task
  {
    Task(id, tenantId, taskType, taskKey, Ready, dueAt, None, None, Some(0),
         DefaultMaxAttempts, payload, None, None)
  }

  predicate HasId(rows: seq<Task>, id: Uuid)
  {
    exists i :: 0 <= i < |rows| && rows[i].id == id
  }

  predicate KeyIs(t: Task, tenantId: Uuid, key: string)
  {
    t.tenantId == tenantId && t.taskKey == key
  }

  predicate HasKey(rows: seq<Task>, tenantId: Uuid, key: string)
  {
    exists i :: 0 <= i < |rows| && KeyIs(rows[i], tenantId, key)
  }

  /** A write that only appends to the table: the rows that were there
   *  stay as they were, and every new row has an id not taken before. */
  predicate Extends(before: seq<Task>, after: seq<Task>)
  {
    |before| <= |after| && after[..|before|] == before
    && forall j :: |before| <= j < |after| ==> !HasId(before, after[j].id)
  }

  /** The table's constraints: no two rows share an id or a (tenant, key). */
  ghost predicate UniqueKeys(rows: seq<Task>)
  {
    forall i, j :: 0 <= i < j < |rows| ==>
      rows[i].id != rows[j].id && !KeyIs(rows[j], rows[i].tenantId, rows[i].taskKey)
  }

  /** INSERT: refused (the driver throws) when the id or the (tenant, key)
   *  pair is taken; otherwise the row is appended. */
  function Insert(rows: seq<Task>, t: Task): (r: Result<seq<Task>>)
    ensures r.Success? <==> !HasId(rows, t.id) && !HasKey(rows, t.tenantId, t.taskKey)
    ensures r.Success? ==> |r.value| == |rows| + 1 && r.value[..|rows|] == rows && r.value[|rows|] == t
    ensures r.Success? ==> Extends(rows, r.value)
  {
    if HasId(rows, t.id) || HasKey(rows, t.tenantId, t.taskKey) then Failure("duplicate key value violates unique constraint")
    else Success(rows + [t])
  }

  /** An insert the table accepts keeps its constraints. */
  lemma InsertKeepsUnique(rows: seq<Task>, t: Task)
    requires UniqueKeys(rows)
    requires Insert(rows, t).Success?
    ensures UniqueKeys(Insert(rows, t).value)
  {
    var r := Insert(rows, t).value;
    forall i, j | 0 <= i < j < |r|
      ensures r[i].id != r[j].id && !KeyIs(r[j], r[i].tenantId, r[i].taskKey)
    {
      if j == |rows| {
        assert r[i] == rows[i] && r[j] == t;
        assert !HasId(rows, t.id) && !HasKey(rows, t.tenantId, t.taskKey);
      } else {
        assert r[i] == rows[i] && r[j] == rows[j];
      }
    }
  }

  /** An UPDATE that changes neither ids nor (tenant, key) pairs keeps the
   *  table's constraints. */
  lemma UpdateKeepsUnique(rows: seq<Task>, p: Task -> bool, f: Task -> Task)
    requires UniqueKeys(rows)
    requires forall t :: f(t).id == t.id && KeyIs(f(t), t.tenantId, t.taskKey)
    ensures UniqueKeys(MapWhere(rows, p, f))
  {
    var r := MapWhere(rows, p, f);
    forall i, j | 0 <= i < j < |r|
      ensures r[i].id != r[j].id && !KeyIs(r[j], r[i].tenantId, r[i].taskKey)
    {
      assert r[i].id == rows[i].id && KeyIs(r[i], rows[i].tenantId, rows[i].taskKey);
      assert r[j].id == rows[j].id && KeyIs(r[j], rows[j].tenantId, rows[j].taskKey);
    }
  }

  /** The row count an UPDATE ... WHERE p reports. */
  function CountWhere(rows: seq<Task>, p: Task -> bool): (n: nat)
    ensures n <= |rows|
    ensures n == 0 <==> forall i :: 0 <= i < |rows| ==> !p(rows[i])
  {
    if rows == [] then 0
    else (if p(rows[|rows| - 1]) then 1 else 0) + CountWhere(rows[..|rows| - 1], p)
  }

  /** The position of the row with the given (tenant, key), if any. */
  function FindKey(rows: seq<Task>, tenantId: Uuid, key: string): (r: Option<nat>)
    ensures r.Some? ==> r.value < |rows| && KeyIs(rows[r.value], tenantId, key)
    ensures r.None? <==> !HasKey(rows, tenantId, key)
  {
    if rows == [] then None
    else if KeyIs(rows[|rows| - 1], tenantId, key) then Some(|rows| - 1)
    else
      var r := FindKey(rows[..|rows| - 1], tenantId, key);
      assert forall i :: 0 <= i < |rows| - 1 ==> rows[..|rows| - 1][i] == rows[i];
      r
  }

  /** The scheduled_tasks table. */
  class TaskTable {
    var rows: seq<Task>

    constructor()
      ensures rows == []
    {
      rows := [];
    }
  }
}
