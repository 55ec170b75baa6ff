/** TaskProcessorService's batch: lease up to ten due tasks for this
 *  worker, run each leased task through its handler in order, and mark it
 *  completed when the handler answers true and failed otherwise; and the
 *  reaper that releases expired locks. The service's state is the database
 *  it writes, held by a `Store`. */
module TaskProcessor {
  import opened Common
  import opened Tasks
  import opened Records
  import opened TaskQueue
  import opened TaskHandlers

  /** One leased task, start to finish: its handler runs, then its row is
   *  marked completed or failed ("Task processing returned false"). */
  function Settle(db: Database, task: Task, env: Env): (r: (bool, Database))
    ensures var h := ProcessTask(db, task, env);
            (r.0 <==> h.0)
            && r.1.(tasks := h.1.tasks) == h.1
            && |db.tasks| <= |r.1.tasks| && (forall i :: 0 <= i < |db.tasks| ==> r.1.tasks[i].id == db.tasks[i].id)
            && r.1.tasks == if h.0 then MarkTaskCompleted(h.1.tasks, task, env.now)
                            else MarkTaskFailed(h.1.tasks, task, "Task processing returned false")
  {
    var h := ProcessTask(db, task, env);
    var rows := Mark(h.1.tasks, task, h.0, env.now);
    MarkingKeepsIds(db.tasks, h.1.tasks, rows);
    (h.0, h.1.(tasks := rows))
  }

  /** The marking after the handler: completed when it answered true,
   *  failed otherwise; no row changes its id. */
  function Mark(rows: seq<Task>, task: Task, ok: bool, now: Calendar.Instant): (r: seq<Task>)
    ensures |r| == |rows| && forall i :: 0 <= i < |rows| ==> r[i].id == rows[i].id
  {
    if ok then MarkTaskCompleted(rows, task, now)
    else MarkTaskFailed(rows, task, "Task processing returned false")
  }

  /** Rows that extend a table and are then marked row by row keep the
   *  table's ids in place. */
  lemma MarkingKeepsIds(before: seq<Task>, after: seq<Task>, marked: seq<Task>)
    requires Extends(before, after)
    requires |marked| == |after| && forall i :: 0 <= i < |after| ==> marked[i].id == after[i].id
    ensures |before| <= |marked| && forall i :: 0 <= i < |before| ==> marked[i].id == before[i].id
  {
    assert forall i :: 0 <= i < |before| ==> after[..|before|][i] == after[i];
  }

  /** The first leased tasks processed in order, from a given database: how
   *  many succeeded, and the database afterwards. */
  function ProcessAll(db: Database, leased: seq<Task>, env: Env): (r: (nat, Database))
    ensures r.0 <= |leased|
    ensures |db.tasks| <= |r.1.tasks| && forall i :: 0 <= i < |db.tasks| ==> r.1.tasks[i].id == db.tasks[i].id
  {
    if leased == [] then (0, db)
    else
      var prev := ProcessAll(db, leased[..|leased| - 1], env);
      var s := Settle(prev.1, leased[|leased| - 1], env);
      (prev.0 + (if s.0 then 1 else 0), s.1)
  }

  /** For each index, whether the leased task there, run after the ones
   *  before it, leaves the batch's transaction unable to commit. */
  function AbortsAt(db: Database, leased: seq<Task>, env: Env): nat -> bool
  {
    (i: nat) => i < |leased| && AbortsBatch(ProcessAll(db, leased[..i], env).1, leased[i], env)
  }

  /** Some index below n has the property. */
  function SomeBelow(f: nat -> bool, n: nat): (r: bool)
    ensures r <==> exists k: nat :: k < n && f(k)
  {
    n > 0 && (SomeBelow(f, n - 1) || f(n - 1))
  }

  /** Whether one of the leased tasks, run in order from the database,
   *  leaves the batch's transaction unable to commit. */
  function BatchAborts(db: Database, leased: seq<Task>, env: Env): (r: bool)
    ensures r <==> exists k :: 0 <= k < |leased| && AbortsBatch(ProcessAll(db, leased[..k], env).1, leased[k], env)
    ensures r ==> leased != []
  {
    var f := AbortsAt(db, leased, env);
    assert forall k :: 0 <= k < |leased| ==> f(k) == AbortsBatch(ProcessAll(db, leased[..k], env).1, leased[k], env);
    SomeBelow(f, |leased|)
  }

  /** The batch's lease, and whether the leased tasks doom its transaction;
   *  only a batch that leased something can be rolled back. */
  function BatchRollsBack(db: Database, env: Env): (r: bool)
    ensures r ==> LeasableCount(db.tasks, env.now) > 0 && LeaseAvailableTasks(db.tasks, env.now, env.worker).1 != []
  {
    var (rows, leased) := LeaseAvailableTasks(db.tasks, env.now, env.worker);
    BatchAborts(db.(tasks := rows), leased, env)
  }

  /** processAvailableTasks as a whole. It is one @Transactional call, so
   *  the lease and every task's writes and marking commit together: when a
   *  leased task dooms the transaction, all of it is rolled back, the
   *  caller gets an exception instead of a count, and the database is as
   *  before the lease. When no task is leasable the batch counts nothing
   *  and writes nothing. */
  function RunBatch(db: Database, env: Env): (r: (nat, Database))
    ensures LeasableCount(db.tasks, env.now) == 0 ==> r == (0, db)
    ensures BatchRollsBack(db, env) ==> r == (0, db)
    ensures !BatchRollsBack(db, env) ==> r == RunBatchSettlingEach(db, env)
  {
    if BatchRollsBack(db, env) then (0, db) else RunBatchSettlingEach(db, env)
  }

  /** The batch as its loop means it: the lease, then, when it claimed
   *  anything, every leased task processed and marked, a failing task
   *  marked failed without undoing the others. */
  function RunBatchSettlingEach(db: Database, env: Env): (r: (nat, Database))
    ensures LeasableCount(db.tasks, env.now) == 0 ==> r == (0, db)
  {
    var (rows, leased) := LeaseAvailableTasks(db.tasks, env.now, env.worker);
    if leased == [] then
      NoDifferences(db.tasks, rows);
      (0, db.(tasks := rows))
    else ProcessAll(db.(tasks := rows), leased, env)
  }

  /** Processing one more leased task settles it on top of the earlier ones. */
  lemma ProcessAllStep(db: Database, leased: seq<Task>, i: nat, env: Env)
    requires i < |leased|
    ensures var prev := ProcessAll(db, leased[..i], env);
            var s := Settle(prev.1, leased[i], env);
            ProcessAll(db, leased[..i + 1], env) == (prev.0 + (if s.0 then 1 else 0), s.1)
  {
    assert leased[..i + 1][..i] == leased[..i];
  }

  /** The as-written batch: a leased PRODUCT_RENEWAL whose invoice
   *  generation cannot load its subscription or plan (a plan deleted after
   *  the renewal was scheduled, say) answers false, which the loop means to
   *  mark failed. Instead the whole batch rolls back: its attempt is
   *  not counted and the database is as before, so a run with the same
   *  clock leases the very same tasks; the renewal is retried forever and
   *  every task leased beside it is undone each time. Settling each task,
   *  every leased task would be settled. */
  lemma RenewalFailureUndoesBatch(db: Database, env: Env, k: nat, p: map<string, string>)
    requires var (rows, leased) := LeaseAvailableTasks(db.tasks, env.now, env.worker);
             k < |leased|
             && leased[k].payload == Json(p) && leased[k].taskType == ProductRenewalType
             && RenewalCannotLoad(ProcessAll(db.(tasks := rows), leased[..k], env).1, leased[k], p, env)
    ensures var (rows, leased) := LeaseAvailableTasks(db.tasks, env.now, env.worker);
            !ProcessTask(ProcessAll(db.(tasks := rows), leased[..k], env).1, leased[k], env).0
            && RunBatch(db, env) == (0, db)
            && LeaseAvailableTasks(RunBatch(db, env).1.tasks, env.now, env.worker).1 == leased
            && AllSettled(RunBatchSettlingEach(db, env).1.tasks, leased)
  {
    var (rows, leased) := LeaseAvailableTasks(db.tasks, env.now, env.worker);
    var before := ProcessAll(db.(tasks := rows), leased[..k], env).1;
    RenewalCannotLoadAborts(before, leased[k], p, env);
    DoomedAt(db, env, k);
  }

  /** One leased task that dooms the transaction rolls the whole batch
   *  back, so the next run with the same clock leases the same tasks,
   *  which settling each task would all have settled. */
  lemma DoomedAt(db: Database, env: Env, k: nat)
    requires var (rows, leased) := LeaseAvailableTasks(db.tasks, env.now, env.worker);
             k < |leased| && AbortsBatch(ProcessAll(db.(tasks := rows), leased[..k], env).1, leased[k], env)
    ensures BatchRollsBack(db, env) && RunBatch(db, env) == (0, db)
    ensures var leased := LeaseAvailableTasks(db.tasks, env.now, env.worker).1;
            LeaseAvailableTasks(RunBatch(db, env).1.tasks, env.now, env.worker).1 == leased
            && AllSettled(RunBatchSettlingEach(db, env).1.tasks, leased)
  {
    var (rows, leased) := LeaseAvailableTasks(db.tasks, env.now, env.worker);
    assert BatchAborts(db.(tasks := rows), leased, env);
    BatchSettlesLeased(db, env);
  }

  /** One more task of the loop: the batch is doomed when it was already,
   *  or when that task, run after the earlier ones, dooms it. */
  lemma AbortsStep(db: Database, leased: seq<Task>, i: nat, env: Env)
    requires i < |leased|
    ensures SomeBelow(AbortsAt(db, leased, env), i + 1)
            == (SomeBelow(AbortsAt(db, leased, env), i) || AbortsBatch(ProcessAll(db, leased[..i], env).1, leased[i], env))
  {
  }

  /** When the lease claims something, the batch is the leased tasks'
   *  processing, or nothing when they doom it. */
  lemma RunBatchLeased(db: Database, env: Env)
    requires LeaseAvailableTasks(db.tasks, env.now, env.worker).1 != []
    ensures var (rows, leased) := LeaseAvailableTasks(db.tasks, env.now, env.worker);
            RunBatch(db, env) == if BatchAborts(db.(tasks := rows), leased, env) then (0, db)
                                 else ProcessAll(db.(tasks := rows), leased, env)
  {
  }

  /** Two tables of one length that differ nowhere are equal. */
  lemma NoDifferences(a: seq<Task>, b: seq<Task>)
    requires |a| == |b| && Differences(a, b) == 0
    ensures a == b
  {
    if a != b {
      var k :| 0 <= k < |a| && a[k] != b[k];
      DifferencesPositive(a, b, k);
    }
  }

  /** A row the batch is done with: its lock is released and it is
   *  COMPLETED, back to READY for a retry, or FAILED for good. */
  predicate SettledRow(t: Task)
  {
    t.lockOwner.None? && t.lockedUntil.None? && (t.status == Completed || t.status == Ready || t.status == Failed)
  }

  /** Every row carrying the id of one of the tasks is settled. */
  predicate AllSettled(rows: seq<Task>, tasks: seq<Task>)
  {
    forall j, i :: 0 <= j < |tasks| && 0 <= i < |rows| && rows[i].id == tasks[j].id ==> SettledRow(rows[i])
  }

  /** A settled row stays settled through a handler, which only appends
   *  rows, and through the marking of another task. */
  lemma {:induction false} SettleKeepsSettled(db: Database, task: Task, env: Env, done: seq<Task>)
    requires AllSettled(db.tasks, done)
    requires forall j :: 0 <= j < |done| ==> HasId(db.tasks, done[j].id)
    requires HasId(db.tasks, task.id)
    ensures var r := Settle(db, task, env).1;
            AllSettled(r.tasks, done + [task])
            && forall j :: 0 <= j < |done + [task]| ==> HasId(r.tasks, (done + [task])[j].id)
  {
    var h := ProcessTask(db, task, env).1;
    var r := Settle(db, task, env).1;
    SettleMarks(db, task, env);
    MarkedKeepsSettled(db.tasks, h.tasks, r.tasks, task, done);
  }

  /** The marking after the handler settles every row of the scheduled task, keeps
   *  each row's id and leaves the other rows alone. */
  predicate SettlesMarked(h: seq<Task>, r: seq<Task>, id: Uuid)
  {
    |r| == |h|
    && forall i :: 0 <= i < |h| ==>
         r[i].id == h[i].id && (h[i].id == id ==> SettledRow(r[i])) && (h[i].id != id ==> r[i] == h[i])
  }

  lemma SettleMarks(db: Database, task: Task, env: Env)
    ensures SettlesMarked(ProcessTask(db, task, env).1.tasks, Settle(db, task, env).1.tasks, task.id)
  {
  }

  /** The table-level step of SettleKeepsSettled: the handler only appends
   *  rows of fresh ids, and the marking settles the scheduled task's rows. */
  lemma MarkedKeepsSettled(before: seq<Task>, h: seq<Task>, r: seq<Task>, task: Task, done: seq<Task>)
    requires Extends(before, h) && SettlesMarked(h, r, task.id)
    requires AllSettled(before, done)
    requires forall j :: 0 <= j < |done| ==> HasId(before, done[j].id)
    requires HasId(before, task.id)
    ensures AllSettled(r, done + [task])
    ensures forall j :: 0 <= j < |done + [task]| ==> HasId(r, (done + [task])[j].id)
  {
    assert forall i :: 0 <= i < |before| ==> h[i] == before[i];
    forall j, i | 0 <= j < |done + [task]| && 0 <= i < |r| && r[i].id == (done + [task])[j].id
      ensures SettledRow(r[i])
    {
      if h[i].id != task.id {
        assert j < |done| && done[j] == (done + [task])[j];
      }
    }
    forall j | 0 <= j < |done + [task]|
      ensures HasId(r, (done + [task])[j].id)
    {
      var id := (done + [task])[j].id;
      assert HasId(before, id);
      var i :| 0 <= i < |before| && before[i].id == id;
      assert r[i].id == id;
    }
  }

  /** After the tasks are processed, every row of every one of them is
   *  settled: none is left CLAIMED by this worker. */
  lemma {:induction false} ProcessAllSettles(db: Database, leased: seq<Task>, env: Env)
    requires forall j :: 0 <= j < |leased| ==> HasId(db.tasks, leased[j].id)
    ensures AllSettled(ProcessAll(db, leased, env).1.tasks, leased)
    ensures forall j :: 0 <= j < |leased| ==> HasId(ProcessAll(db, leased, env).1.tasks, leased[j].id)
  {
    if leased != [] {
      var init := leased[..|leased| - 1];
      var last := leased[|leased| - 1];
      assert init + [last] == leased;
      assert forall j :: 0 <= j < |init| ==> init[j] == leased[j];
      ProcessAllSettles(db, init, env);
      var prev := ProcessAll(db, init, env);
      var k :| 0 <= k < |db.tasks| && db.tasks[k].id == last.id;
      assert prev.1.tasks[k].id == last.id;
      SettleKeepsSettled(prev.1, last, env, init);
    }
  }

  /** A batch settling each task leaves none of the tasks it leased
   *  locked: each ends COMPLETED, READY for a retry, or FAILED; and so does
   *  the batch as written whenever no task dooms its transaction. */
  lemma BatchSettlesLeased(db: Database, env: Env)
    ensures var leased := LeaseAvailableTasks(db.tasks, env.now, env.worker).1;
            AllSettled(RunBatchSettlingEach(db, env).1.tasks, leased)
            && (!BatchRollsBack(db, env) ==> AllSettled(RunBatch(db, env).1.tasks, leased))
  {
    var (rows, leased) := LeaseAvailableTasks(db.tasks, env.now, env.worker);
    if leased != [] {
      forall j | 0 <= j < |leased|
        ensures HasId(rows, leased[j].id)
      {
        assert leased[j] in rows;
        var i :| 0 <= i < |rows| && rows[i] == leased[j];
      }
      ProcessAllSettles(db.(tasks := rows), leased, env);
    }
  }

  /** The loop of processAvailableTasks over the leased tasks: each one
   *  settled in turn, counting the ones whose handler succeeded, and
   *  noting whether any of them dooms the transaction. */
  method ProcessLeased(base: Database, leased: seq<Task>, env: Env) returns (processed: nat, db: Database, doomed: bool)
    ensures (processed, db) == ProcessAll(base, leased, env)
    ensures doomed == BatchAborts(base, leased, env)
  {
    db := base;
    processed := 0;
    doomed := false;
    var i := 0;
    while i < |leased|
      invariant 0 <= i <= |leased|
      invariant (processed, db) == ProcessAll(base, leased[..i], env)
      invariant doomed == SomeBelow(AbortsAt(base, leased, env), i)
    {
      AbortsStep(base, leased, i, env);
      if AbortsBatch(db, leased[i], env) {
        doomed := true;
      }
      var (ok, after) := Settle(db, leased[i], env);
      ProcessAllStep(base, leased, i, env);
      db := after;
      if ok {
        processed := processed + 1;
      }
      i := i + 1;
    }
    assert leased[..i] == leased;
  }

  /** The service's database. */
  class Store {
    var db: Database

    constructor(db0: Database)
      ensures db == db0
    {
      db := db0;
    }

    /** processAvailableTasks: the lease, then the leased tasks one after
     *  another, counting the ones whose handler succeeded, all in one
     *  transaction that a dooming task rolls back at the end. */
    method ProcessAvailableTasks(env: Env) returns (processed: nat)
      modifies this
      ensures (processed, db) == RunBatch(old(db), env)
    {
      var start := db;
      var (rows, leased) := LeaseAvailableTasks(db.tasks, env.now, env.worker);
      if leased == [] {
        NoDifferences(db.tasks, rows);
        db := db.(tasks := rows);
        return 0;
      }
      var processedAll, after, doomed := ProcessLeased(db.(tasks := rows), leased, env);
      RunBatchLeased(start, env);
      if doomed {
        db := start;
        processed := 0;
      } else {
        db := after;
        processed := processedAll;
      }
    }

    /** cleanupExpiredLocks: every CLAIMED row whose lock has run out is put
     *  back to READY with its lock cleared; the count is the rows released. */
    method CleanupExpiredLocks(now: Calendar.Instant) returns (cleaned: nat)
      modifies this
      ensures (db.tasks, cleaned) == ReleaseExpiredLocks(old(db.tasks), now)
      ensures db.(tasks := old(db.tasks)) == old(db)
    {
      var r := ReleaseExpiredLocks(db.tasks, now);
      db := db.(tasks := r.0);
      cleaned := r.1;
    }
  }
}
