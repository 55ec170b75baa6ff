/** Per-client request counting for API-key clients. Every allowed request
 *  adds one row stamped with the start of its hour; a request is refused when
 *  the client's rows stamped within the last sixty minutes reach the limit. */
module RateLimiter {
  import opened Common
  import opened Calendar

  const WindowSeconds: int := 60 * SecondsPerMinute
  /** Rows older than this are deleted by the hourly cleanup. */
  const RetentionSeconds: int := 2 * SecondsPerHour

  datatype Bucket = Bucket(clientId: string, windowStart: Instant)

  /** A row counts for the client at time now when its stamp is at or after
   *  now minus sixty minutes. */
  predicate InWindow(b: Bucket, clientId: string, now: Instant)
  {
    b.clientId == clientId && b.windowStart >= now - WindowSeconds
  }

  /** The COUNT(*) of getCurrentRequestCount. */
  function CountInWindow(buckets: seq<Bucket>, clientId: string, now: Instant): (r: nat)
    ensures r <= |buckets|
  {
    if buckets == [] then 0
    else CountInWindow(buckets[..|buckets| - 1], clientId, now)
         + (if InWindow(buckets[|buckets| - 1], clientId, now) then 1 else 0)
  }

  /** Appending one row adds one to the count exactly when it is in the window. */
  lemma CountAppend(buckets: seq<Bucket>, b: Bucket, clientId: string, now: Instant)
    ensures CountInWindow(buckets + [b], clientId, now)
         == CountInWindow(buckets, clientId, now) + (if InWindow(b, clientId, now) then 1 else 0)
  {
    assert (buckets + [b])[..|buckets|] == buckets;
  }

  /** The row recordRequest inserts: stamped with now truncated to the hour. */
  function RequestRecord(clientId: string, now: Instant): (r: Bucket)
    ensures r.clientId == clientId && r.windowStart <= now < r.windowStart + SecondsPerHour
  {
    Bucket(clientId, HourStart(now))
  }

  /** The rows cleanupOldBuckets keeps at time now: stamped within the last
   *  two hours. */
  function KeepRecent(now: Instant): Bucket -> bool
  {
    (b: Bucket) => b.windowStart >= now - RetentionSeconds
  }

  /** The rows that survive cleanupOldBuckets at time now: each row stamped
   *  within the last two hours, as many times as it occurred, and no other. */
  function RemoveOld(buckets: seq<Bucket>, now: Instant): (r: seq<Bucket>)
    ensures forall b :: multiset(r)[b] == if b.windowStart >= now - RetentionSeconds then multiset(buckets)[b] else 0
    ensures forall i :: 0 <= i < |r| ==> r[i] in buckets && r[i].windowStart >= now - RetentionSeconds
  {
    FilterMultiset(buckets, KeepRecent(now));
    Filter(buckets, KeepRecent(now))
  }

  /** The rows resetClientRateLimit keeps: those of other clients. */
  function KeepOthers(clientId: string): Bucket -> bool
  {
    (b: Bucket) => b.clientId != clientId
  }

  /** The rows that survive resetClientRateLimit: each row of another client,
   *  as many times as it occurred, and none of the client's. */
  function RemoveClient(buckets: seq<Bucket>, clientId: string): (r: seq<Bucket>)
    ensures forall b :: multiset(r)[b] == if b.clientId != clientId then multiset(buckets)[b] else 0
    ensures forall i :: 0 <= i < |r| ==> r[i] in buckets && r[i].clientId != clientId
  {
    FilterMultiset(buckets, KeepOthers(clientId));
    Filter(buckets, KeepOthers(clientId))
  }

  /** Faults the database calls may raise. */
  datatype Fault = NoFault | CountFault | InsertFault

  class RateLimiter {
    var buckets: seq<Bucket>

    constructor()
      ensures buckets == []
    {
      buckets := [];
    }

    /** allowRequest: refused when the count in the window has reached the
     *  limit; otherwise one row is recorded and the request is allowed. A
     *  failing count allows the request (fail open) without recording it, and
     *  a failing insert is swallowed by recordRequest. */
    method AllowRequest(clientId: string, rateLimitPerHour: int, now: Instant, fault: Fault) returns (allowed: bool)
      modifies this
      ensures allowed <==> fault == CountFault || CountInWindow(old(buckets), clientId, now) < rateLimitPerHour
      ensures buckets == if allowed && fault == NoFault then old(buckets) + [RequestRecord(clientId, now)]
                         else old(buckets)
    {
      if fault == CountFault {
        return true;
      }
      var count := CountInWindow(buckets, clientId, now);
      if count >= rateLimitPerHour {
        return false;
      }
      if fault == NoFault {
        buckets := buckets + [RequestRecord(clientId, now)];
      }
      return true;
    }

    /** getRemainingRequests: the limit minus the count, never below zero; a
     *  failing count reads as zero. */
    method GetRemainingRequests(clientId: string, rateLimitPerHour: int, now: Instant, countFails: bool)
      returns (remaining: int)
      ensures remaining >= 0
      ensures remaining <= Max(rateLimitPerHour, 0)
      ensures !countFails ==> remaining == Max(0, rateLimitPerHour - CountInWindow(buckets, clientId, now))
      ensures countFails ==> remaining == Max(0, rateLimitPerHour)
    {
      var count := if countFails then 0 else CountInWindow(buckets, clientId, now);
      remaining := Max(0, rateLimitPerHour - count);
    }

    /** cleanupOldBuckets: drops the rows stamped more than two hours ago. */
    method CleanupOldBuckets(now: Instant)
      modifies this
      ensures buckets == RemoveOld(old(buckets), now)
    {
      buckets := RemoveOld(buckets, now);
    }

    /** resetClientRateLimit: drops every row of the client. */
    method ResetClientRateLimit(clientId: string)
      modifies this
      ensures buckets == RemoveClient(old(buckets), clientId)
    {
      buckets := RemoveClient(buckets, clientId);
    }
  }

  /** Because rows carry the start of their hour, a request made at time t
   *  keeps counting only until the next hour begins: the sixty-minute window
   *  behaves as "this hour and the previous one" rather than a sliding hour. */
  lemma RecordCountsUntilNextHour(clientId: string, t: Instant, now: Instant)
    ensures InWindow(RequestRecord(clientId, t), clientId, now) <==> now <= HourStart(t) + SecondsPerHour
  {
  }

  /** Consequently a request made one second before an hour boundary is no
   *  longer counted two seconds later. */
  lemma RecordForgottenAcrossBoundary(clientId: string)
    ensures !InWindow(RequestRecord(clientId, 3599), clientId, 3601)
  {
    assert HourStart(3599) == 0;
  }

  /** An allowed, recorded request raises the client's count by one. */
  lemma {:induction false} AllowedRequestCounts(buckets: seq<Bucket>, clientId: string, now: Instant)
    ensures CountInWindow(buckets + [RequestRecord(clientId, now)], clientId, now)
         == CountInWindow(buckets, clientId, now) + 1
  {
    CountAppend(buckets, RequestRecord(clientId, now), clientId, now);
  }

  /** Other clients' rows never change a client's count. */
  lemma {:induction false} OtherClientIgnored(buckets: seq<Bucket>, b: Bucket, clientId: string, now: Instant)
    requires b.clientId != clientId
    ensures CountInWindow(buckets + [b], clientId, now) == CountInWindow(buckets, clientId, now)
  {
    CountAppend(buckets, b, clientId, now);
  }

  /** The count read from the front: the first row's share plus the rest's. */
  lemma {:induction false} CountFront(buckets: seq<Bucket>, clientId: string, now: Instant)
    requires buckets != []
    ensures CountInWindow(buckets, clientId, now)
         == (if InWindow(buckets[0], clientId, now) then 1 else 0) + CountInWindow(buckets[1..], clientId, now)
  {
    if |buckets| > 1 {
      var init := buckets[..|buckets| - 1];
      CountFront(init, clientId, now);
      assert init[1..] == buckets[1..][..|buckets| - 2];
      assert buckets[1..][|buckets| - 2] == buckets[|buckets| - 1];
    }
  }

  /** Dropping only rows outside the client's window leaves its count as it
   *  was. */
  lemma {:induction false} CountOfFilter(buckets: seq<Bucket>, keep: Bucket -> bool, clientId: string, now: Instant)
    requires forall b :: InWindow(b, clientId, now) ==> keep(b)
    ensures CountInWindow(Filter(buckets, keep), clientId, now) == CountInWindow(buckets, clientId, now)
  {
    if buckets != [] {
      CountOfFilter(buckets[1..], keep, clientId, now);
      CountFront(buckets, clientId, now);
      if keep(buckets[0]) {
        var r := Filter(buckets, keep);
        assert r == [buckets[0]] + Filter(buckets[1..], keep);
        CountFront(r, clientId, now);
        assert r[1..] == Filter(buckets[1..], keep);
      }
    }
  }

  /** A table with none of the client's rows gives it a count of zero. */
  lemma {:induction false} CountNone(buckets: seq<Bucket>, clientId: string, now: Instant)
    requires forall i :: 0 <= i < |buckets| ==> buckets[i].clientId != clientId
    ensures CountInWindow(buckets, clientId, now) == 0
  {
    if buckets != [] {
      CountNone(buckets[..|buckets| - 1], clientId, now);
    }
  }

  /** The hourly cleanup never changes a count taken within the following
   *  hour: it deletes only rows already outside every such window. */
  lemma CleanupKeepsCounts(buckets: seq<Bucket>, cleanup: Instant, clientId: string, now: Instant)
    requires cleanup <= now <= cleanup + RetentionSeconds - WindowSeconds
    ensures CountInWindow(RemoveOld(buckets, cleanup), clientId, now) == CountInWindow(buckets, clientId, now)
  {
    CountOfFilter(buckets, KeepRecent(cleanup), clientId, now);
  }

  /** After a reset the client's count is zero, and every other client's
   *  count is what it was. */
  lemma ResetClearsOnlyTheClient(buckets: seq<Bucket>, clientId: string, other: string, now: Instant)
    requires other != clientId
    ensures CountInWindow(RemoveClient(buckets, clientId), clientId, now) == 0
    ensures CountInWindow(RemoveClient(buckets, clientId), other, now) == CountInWindow(buckets, other, now)
  {
    CountNone(RemoveClient(buckets, clientId), clientId, now);
    CountOfFilter(buckets, KeepOthers(clientId), other, now);
  }
}
