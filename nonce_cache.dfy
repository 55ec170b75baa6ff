/** The replay guard for signed requests: every (client, nonce) pair is
 *  remembered for ten minutes and a second use of it is refused. */
module NonceCache {
  import opened Calendar
  import SignatureService

  /** How long a nonce is remembered, seconds (ten minutes). */
  const NonceTtlSeconds: int := 10 * SecondsPerMinute

  /** A row of the nonce table is identified by its client and its nonce; the
   *  value is the row's expiry time. */
  datatype NonceKey = NonceKey(clientId: string, nonce: string)

  /** The table after storing a fresh nonce at time now. */
  function Store(entries: map<NonceKey, Instant>, key: NonceKey, now: Instant): (r: map<NonceKey, Instant>)
    ensures key in r && r[key] == now + NonceTtlSeconds
    ensures forall k :: k in r && k != key ==> k in entries && r[k] == entries[k]
    ensures forall k :: k in entries ==> k in r
  {
    entries[key := now + NonceTtlSeconds]
  }

  /** The table after deleting every row that expired before now. */
  function RemoveExpired(entries: map<NonceKey, Instant>, now: Instant): (r: map<NonceKey, Instant>)
    ensures forall k :: k in r <==> k in entries && !(entries[k] < now)
    ensures forall k :: k in r ==> r[k] == entries[k]
  {
    map k | k in entries && !(entries[k] < now) :: entries[k]
  }

  /** The table after deleting every row of one client. */
  function RemoveClient(entries: map<NonceKey, Instant>, clientId: string): (r: map<NonceKey, Instant>)
    ensures forall k :: k in r <==> k in entries && k.clientId != clientId
    ensures forall k :: k in r ==> r[k] == entries[k]
  {
    map k | k in entries && k.clientId != clientId :: entries[k]
  }

  class NonceCache {
    var entries: map<NonceKey, Instant>

    constructor()
      ensures entries == map[]
    {
      entries := map[];
    }

    /** checkAndStore: a pair seen before is a replay and is refused; a fresh
     *  one is stored with expiry now + 10 minutes and allowed. A database
     *  error (failure) refuses the request and stores nothing. */
    method CheckAndStore(clientId: string, nonce: string, now: Instant, failure: bool) returns (allowed: bool)
      modifies this
      ensures allowed <==> !failure && NonceKey(clientId, nonce) !in old(entries)
      ensures entries == if allowed then Store(old(entries), NonceKey(clientId, nonce), now) else old(entries)
    {
      if failure {
        return false;
      }
      var key := NonceKey(clientId, nonce);
      if key in entries {
        return false;
      }
      entries := Store(entries, key, now);
      return true;
    }

    /** cleanupExpiredNonces: rows whose expiry lies before now are deleted. */
    method CleanupExpiredNonces(now: Instant)
      modifies this
      ensures entries == RemoveExpired(old(entries), now)
    {
      entries := RemoveExpired(entries, now);
    }

    /** removeClientNonces: every row of the client is deleted, no other. */
    method RemoveClientNonces(clientId: string)
      modifies this
      ensures entries == RemoveClient(old(entries), clientId)
    {
      entries := RemoveClient(entries, clientId);
    }
  }

  /** A nonce stored at time stored survives every cleanup up to ten minutes
   *  later, and while it is there the same pair is refused. */
  lemma {:induction false} ReplayRefusedWithinTtl(entries: map<NonceKey, Instant>, key: NonceKey,
                                                  stored: Instant, cleanups: seq<Instant>)
    requires forall i :: 0 <= i < |cleanups| ==> cleanups[i] <= stored + NonceTtlSeconds
    ensures key in CleanupAll(Store(entries, key, stored), cleanups)
  {
    if cleanups != [] {
      var e := Store(entries, key, stored);
      ReplayRefusedWithinTtl(entries, key, stored, cleanups[..|cleanups| - 1]);
      var before := CleanupAll(e, cleanups[..|cleanups| - 1]);
      assert CleanupAll(e, cleanups) == RemoveExpired(before, cleanups[|cleanups| - 1]);
      CleanupKeepsExpiry(e, cleanups[..|cleanups| - 1], key);
    }
  }

  /** The table after a series of cleanups. */
  function CleanupAll(entries: map<NonceKey, Instant>, cleanups: seq<Instant>): map<NonceKey, Instant>
  {
    if cleanups == [] then entries
    else RemoveExpired(CleanupAll(entries, cleanups[..|cleanups| - 1]), cleanups[|cleanups| - 1])
  }

  /** Cleanups delete rows but never change a surviving row's expiry. */
  lemma {:induction false} CleanupKeepsExpiry(entries: map<NonceKey, Instant>, cleanups: seq<Instant>, key: NonceKey)
    requires key in CleanupAll(entries, cleanups)
    ensures key in entries && CleanupAll(entries, cleanups)[key] == entries[key]
  {
    if cleanups != [] {
      CleanupKeepsExpiry(entries, cleanups[..|cleanups| - 1], key);
    }
  }

  /** With the five-minute timestamp window on either side, a replay of an
   *  accepted request that still carries a valid timestamp always finds its
   *  nonce in the table, whatever cleanups ran in between; the clock
   *  readings are epoch seconds, so the long arithmetic of the window wraps
   *  only for the one stamp 2^63 seconds back, which cannot be valid at two
   *  readings far apart. */
  lemma ReplayWithValidTimestampRefused(timestamp: string, accepted: Instant, replayed: Instant,
                                        entries: map<NonceKey, Instant>, key: NonceKey, cleanups: seq<Instant>)
    requires 0 <= accepted < SignatureService.ClockLimit && 0 <= replayed < SignatureService.ClockLimit
    requires SignatureService.ValidateTimestamp(timestamp, accepted)
    requires SignatureService.ValidateTimestamp(timestamp, replayed)
    requires forall i :: 0 <= i < |cleanups| ==> cleanups[i] <= replayed
    ensures key in CleanupAll(Store(entries, key, accepted), cleanups)
  {
    SignatureService.ValidTwiceMeansClose(timestamp, accepted, replayed);
    ReplayRefusedWithinTtl(entries, key, accepted, cleanups);
  }
}
