/** The queue side of TaskProcessorService: leasing due tasks to a worker
 *  with a five-minute lock and a batch limit of ten, reading the leased
 *  tasks back, marking a task completed or failed (counting attempts up to
 *  its maximum), and the reaper that releases expired locks. Each operation
 *  is a single UPDATE or SELECT over the scheduled_tasks rows. */
module TaskQueue {
  import opened Common
  import opened Calendar
  import opened Tasks

  const LeaseDurationMinutes: int := 5
  const BatchSize: nat := 10

  /** A task the lease may take: READY, due, and either never locked or
   *  with a lock that has run out. */
  predicate Leasable(t: Task, now: Instant)
  {
    t.status == Ready && t.dueAt <= now && (t.lockedUntil.None? || t.lockedUntil.value < now)
  }

  /** A task as the lease writes it: CLAIMED by the worker until five
   *  minutes from now. */
  function ClaimedBy(t: Task, now: Instant, worker: string): Task
  {
    t.(status := Claimed, lockedUntil := Some(PlusMinutes(now, LeaseDurationMinutes)), lockOwner := Some(worker))
  }

  /** How many rows are leasable. */
  function LeasableCount(rows: seq<Task>, now: Instant): (n: nat)
    ensures n <= |rows|
  {
    if rows == [] then 0
    else (if Leasable(rows[0], now) then 1 else 0) + LeasableCount(rows[1..], now)
  }

  /** The number of positions at which two tables of one length differ. */
  function Differences(a: seq<Task>, b: seq<Task>): nat
    requires |a| == |b|
  {
    if a == [] then 0 else (if a[0] != b[0] then 1 else 0) + Differences(a[1..], b[1..])
  }

  /** The lease's `UPDATE ... WHERE leasable LIMIT budget`, taking rows in
   *  table order: the first `budget` leasable rows are claimed and no other
   *  row changes; the count is the number of rows claimed, min(budget,
   *  leasable rows), and while it is under the budget no leasable row is
   *  passed over. */
  function LeaseRows(rows: seq<Task>, now: Instant, worker: string, budget: nat): (r: (seq<Task>, nat))
    ensures |r.0| == |rows|
    ensures r.1 == Min(budget, LeasableCount(rows, now))
    ensures r.1 == Differences(rows, r.0)
    ensures forall i :: 0 <= i < |rows| ==>
              r.0[i] == rows[i] || (Leasable(rows[i], now) && r.0[i] == ClaimedBy(rows[i], now, worker))
    ensures r.1 < budget ==>
              forall i :: 0 <= i < |rows| && Leasable(rows[i], now) ==> r.0[i] == ClaimedBy(rows[i], now, worker)
  {
    if rows == [] then ([], 0)
    else
      var take := budget > 0 && Leasable(rows[0], now);
      var rest := LeaseRows(rows[1..], now, worker, if take then budget - 1 else budget);
      var head := if take then ClaimedBy(rows[0], now, worker) else rows[0];
      var r := ([head] + rest.0, if take then rest.1 + 1 else rest.1);
      assert r.0[1..] == rest.0;
      assert forall i :: 1 <= i < |rows| ==> rows[i] == rows[1..][i - 1] && r.0[i] == rest.0[i - 1];
      r
  }

  /** A row this worker holds a live lease on. */
  predicate OwnLiveLease(worker: string, now: Instant, t: Task)
  {
    t.lockOwner == Some(worker) && t.status == Claimed && t.lockedUntil.Some? && t.lockedUntil.value > now
  }

  /** The lease's read-back: every row this worker holds a live lease on. */
  function FetchLeased(rows: seq<Task>, now: Instant, worker: string): seq<Task>
  {
    Filter(rows, t => OwnLiveLease(worker, now, t))
  }

  /** leaseAvailableTasks: the table after the lease, and the tasks handed
   *  to processing, which are none when the UPDATE claimed no row. */
  function LeaseAvailableTasks(rows: seq<Task>, now: Instant, worker: string): (r: (seq<Task>, seq<Task>))
    ensures r.0 == LeaseRows(rows, now, worker, BatchSize).0
    ensures LeaseRows(rows, now, worker, BatchSize).1 == 0 <==> r.1 == []
  {
    var (leased, n) := LeaseRows(rows, now, worker, BatchSize);
    if n == 0 then (leased, [])
    else
      DifferenceAt(rows, leased);
      var k :| 0 <= k < |rows| && leased[k] != rows[k];
      assert OwnLiveLease(worker, now, leased[k]);
      (leased, FetchLeased(leased, now, worker))
  }

  /** What the lease hands to processing: every row it claimed, and only
   *  rows this worker holds a live lease on. When the worker held no live
   *  lease before, those are exactly the rows claimed by this lease, so at
   *  most ten tasks are processed and none twice by two workers. */
  lemma {:induction false} LeaseHandsOverClaims(rows: seq<Task>, now: Instant, worker: string)
    ensures var r := LeaseAvailableTasks(rows, now, worker);
            (forall i :: 0 <= i < |rows| && r.0[i] != rows[i] ==> r.0[i] in r.1)
            && (forall t :: t in r.1 ==> t in r.0 && OwnLiveLease(worker, now, t))
            && ((forall i :: 0 <= i < |rows| ==> !OwnLiveLease(worker, now, rows[i])) ==>
                  forall t :: t in r.1 ==> exists i :: 0 <= i < |rows| && r.0[i] == t && r.0[i] != rows[i])
  {
    var r := LeaseAvailableTasks(rows, now, worker);
    var n := LeaseRows(rows, now, worker, BatchSize).1;
    forall i | 0 <= i < |rows| && r.0[i] != rows[i]
      ensures r.0[i] in r.1
    {
      assert n != 0 by {
        DifferencesPositive(rows, r.0, i);
      }
      assert OwnLiveLease(worker, now, r.0[i]);
    }
    forall t | t in r.1
      ensures t in r.0 && OwnLiveLease(worker, now, t)
    {
      var j :| 0 <= j < |r.1| && r.1[j] == t;
    }
    if forall i :: 0 <= i < |rows| ==> !OwnLiveLease(worker, now, rows[i]) {
      forall t | t in r.1
        ensures exists i :: 0 <= i < |rows| && r.0[i] == t && r.0[i] != rows[i]
      {
        var j :| 0 <= j < |r.1| && r.1[j] == t;
        var i :| 0 <= i < |r.0| && r.0[i] == t;
        assert OwnLiveLease(worker, now, r.0[i]);
      }
    }
  }

  lemma {:induction false} DifferenceAt(a: seq<Task>, b: seq<Task>)
    requires |a| == |b| && Differences(a, b) > 0
    ensures exists k :: 0 <= k < |a| && a[k] != b[k]
  {
    if a[0] == b[0] {
      DifferenceAt(a[1..], b[1..]);
      var k :| 0 <= k < |a| - 1 && a[1..][k] != b[1..][k];
      assert a[k + 1] != b[k + 1];
    }
  }

  lemma {:induction false} DifferencesPositive(a: seq<Task>, b: seq<Task>, i: int)
    requires |a| == |b| && 0 <= i < |a| && a[i] != b[i]
    ensures Differences(a, b) > 0
  {
    if i > 0 {
      DifferencesPositive(a[1..], b[1..], i - 1);
    }
  }

  /** markTaskCompleted's row: COMPLETED at now, lock released. */
  function CompletedTask(t: Task, now: Instant): Task
  {
    t.(status := Completed, completedAt := Some(now), lockedUntil := None, lockOwner := None)
  }

  /** markTaskCompleted: every row with the scheduled task's id is completed, no other
   *  row changes, and a completed row is never leasable again. */
  function MarkTaskCompleted(rows: seq<Task>, task: Task, now: Instant): (r: seq<Task>)
    ensures |r| == |rows|
    ensures forall i :: 0 <= i < |rows| ==>
              r[i] == if rows[i].id == task.id then CompletedTask(rows[i], now) else rows[i]
    ensures forall i, later :: 0 <= i < |rows| && rows[i].id == task.id ==> !Leasable(r[i], later)
  {
    MapWhere(rows, (t: Task) => t.id == task.id, t => CompletedTask(t, now))
  }

  /** The attempt count markTaskFailed writes: one more than the count in
   *  the scheduled task as it was leased, a missing count being zero. */
  function NextAttempt(task: Task): int
  {
    (if task.attemptCount.Some? then task.attemptCount.value else 0) + 1
  }

  /** markTaskFailed's row: the new attempt count, FAILED once it reaches
   *  the scheduled task's maximum and READY (to be retried) before, the error
   *  recorded and the lock released. The due time is left as it was. */
  function FailedTask(row: Task, task: Task, error: string): Task
  {
    row.(status := if NextAttempt(task) >= task.maxAttempts then Failed else Ready,
         attemptCount := Some(NextAttempt(task)), lastError := Some(error),
         lockedUntil := None, lockOwner := None)
  }

  /** markTaskFailed: every row with the scheduled task's id is failed as above, no
   *  other row changes; a row put back to READY is leasable again as soon
   *  as it is due, with no back-off. */
  function MarkTaskFailed(rows: seq<Task>, task: Task, error: string): (r: seq<Task>)
    ensures |r| == |rows|
    ensures forall i :: 0 <= i < |rows| ==>
              r[i] == if rows[i].id == task.id then FailedTask(rows[i], task, error) else rows[i]
    ensures forall i, now :: 0 <= i < |rows| && rows[i].id == task.id ==>
              (Leasable(r[i], now) <==> NextAttempt(task) < task.maxAttempts && rows[i].dueAt <= now)
  {
    MapWhere(rows, (t: Task) => t.id == task.id, t => FailedTask(t, task, error))
  }

  /** The scheduled task after k failures in a row, each read back before it failed
   *  again. */
  function FailedTimes(t: Task, k: nat, error: string): Task
  {
    if k == 0 then t else var p := FailedTimes(t, k - 1, error); FailedTask(p, p, error)
  }

  /** Failures count up from the stored count, and a task ends FAILED
   *  exactly on the failure that brings its count to the maximum: a new
   *  task (count 0, maximum 3) is READY after its first and second failure
   *  and FAILED after its third. */
  lemma {:induction false} FailuresCountUp(t: Task, k: nat, error: string)
    requires k >= 1
    ensures var a := if t.attemptCount.Some? then t.attemptCount.value else 0;
            FailedTimes(t, k, error).attemptCount == Some(a + k)
            && FailedTimes(t, k, error).maxAttempts == t.maxAttempts
            && (FailedTimes(t, k, error).status == Failed <==> a + k >= t.maxAttempts)
            && (FailedTimes(t, k, error).status == Ready <==> a + k < t.maxAttempts)
  {
    if k > 1 {
      FailuresCountUp(t, k - 1, error);
    }
  }

  /** A lock the reaper releases: CLAIMED with a lock that has run out. */
  predicate ExpiredLock(now: Instant, t: Task)
  {
    t.status == Claimed && t.lockedUntil.Some? && t.lockedUntil.value < now
  }

  function Released(t: Task): Task
  {
    t.(status := Ready, lockedUntil := None, lockOwner := None)
  }

  /** The UPDATE of cleanupExpiredLocks: every expired lock is released to
   *  READY, no other row changes, no expired lock remains, the count is the
   *  number of rows released (zero exactly when nothing changed), and a
   *  released task that is due is leasable again. */
  function ReleaseExpiredLocks(rows: seq<Task>, now: Instant): (r: (seq<Task>, nat))
    ensures |r.0| == |rows|
    ensures forall i :: 0 <= i < |rows| ==>
              r.0[i] == if ExpiredLock(now, rows[i]) then Released(rows[i]) else rows[i]
    ensures forall i :: 0 <= i < |rows| ==> !ExpiredLock(now, r.0[i])
    ensures r.1 == CountWhere(rows, t => ExpiredLock(now, t))
    ensures r.1 == 0 <==> r.0 == rows
    ensures forall i :: 0 <= i < |rows| && ExpiredLock(now, rows[i]) && rows[i].dueAt <= now ==> Leasable(r.0[i], now)
  {
    ReleaseChanges(rows, now);
    (MapWhere(rows, t => ExpiredLock(now, t), Released), CountWhere(rows, t => ExpiredLock(now, t)))
  }

  /** The reaper's UPDATE changes the table exactly when it counts a row. */
  lemma ReleaseChanges(rows: seq<Task>, now: Instant)
    ensures CountWhere(rows, t => ExpiredLock(now, t)) == 0
            <==> MapWhere(rows, t => ExpiredLock(now, t), Released) == rows
  {
    var updated := MapWhere(rows, t => ExpiredLock(now, t), Released);
    if CountWhere(rows, t => ExpiredLock(now, t)) != 0 {
      var i :| 0 <= i < |rows| && ExpiredLock(now, rows[i]);
      assert updated[i] != rows[i];
    }
  }
}
