# Subscription engine core, modelled in Dafny

This project models the rule-bearing core of a multi-tenant subscription
engine: plans, subscriptions, scheduled tasks, invoices, deliveries,
webhooks and the request-authorisation and administration code around
them. Database tables are in-memory values: sequences of rows, or maps
keyed by id. A service that writes rows in place is a `class` whose methods
reassign those fields, and each method is tied to a pure function of the
old state. The properties are proved about those functions. Time is an
integer count of seconds (or milliseconds where the code uses them). Clock
readings, random UUIDs, database failures and the answers of external
services are parameters.

The modules follow the source files:

- `Tasks`, `ScheduledTasks`, `TaskQueue`, `TaskProcessor`, `TaskHandlers`:
  the scheduled-task table, its key formats and renewal upsert, leasing,
  completion and failure, the lock reaper, and the handlers the processor
  dispatches to.
- `PlanValidation`, `PlansService`, `ProductItems`, `InvoiceGeneration`,
  `BillingTaskHandler`: plan-category rules, prices, invoices and renewal
  dates.
- `Subscriptions`, `EcommerceSubscriptions`, `SubscriptionStore`,
  `SubscriptionManagement`, `SubscriptionHistory`, `Jsonb`, `JsonInput`,
  `SubscriptionManagementController`: creation, the
  ACTIVE/PAUSED/CANCELED/TRIALING state machine, the history log and its
  JSON text, the text PostgreSQL's jsonb type writes (`Jsonb`) and accepts
  (`JsonInput`), and the management endpoint.
- `DeliveryManagement`, `MockCommerce`, `MockEntitlement`, `WebhookRelay`:
  delivery cancellation, the two mock adapters' status maps, and webhook
  fan-out with retry and backoff.
- `UserRole`, `JwtTenantExtractor`, `CustomerAuthorization`,
  `AdminAuthorization`, `SignatureService`, `NonceCache`, `RateLimiter`:
  authentication and authorisation decisions.
- `JobConfiguration`, `OpenApiTagSorter`, `AdminApiClients`,
  `GlobalExceptionHandler`: cron presets, tag ordering, API-client
  credentials and error replies.
- `Common` and `Calendar` model the Java library behaviour the core relies
  on. `Common` covers ASCII case mapping, substring search, splitting,
  joining and sorting. `Calendar` covers UTC instants, civil dates, and
  `plusDays`/`plusMonths` with the end-of-month clamping of `java.time`.
  `Records` holds the shared row types.

## Model

| member | source | states |
|---|---|---|
| UserRole.IsAdmin | modules/auth/src/main/java/com/subscriptionengine/auth/UserRole.java:32-34 | exactly SUPER_ADMIN, TENANT_ADMIN and STAFF are administrative, i.e. every role but CUSTOMER |
| UserRole.IsCustomer | modules/auth/src/main/java/com/subscriptionengine/auth/UserRole.java:39-41 | only CUSTOMER is a customer role, so no role is both admin and customer |
| UserRole.FromString | modules/auth/src/main/java/com/subscriptionengine/auth/UserRole.java:46-56 | null gives null; a result's name equals the upper-cased text; no result means no constant has that name |
| UserRole.FromStringName | modules/auth/src/main/java/com/subscriptionengine/auth/UserRole.java:51-55 | every role's own name parses back to that role |
| UserRole.FromStringIgnoresCase | modules/auth/src/main/java/com/subscriptionengine/auth/UserRole.java:51-55 | parsing the lower-cased text gives the same result as parsing the text |
| JwtTenantExtractor.FirstPresent | modules/auth/src/main/java/com/subscriptionengine/auth/JwtTenantExtractor.java:27-49 | reference precedence: a value exists iff one of the named claims is present, and it is that claim's value |
| JwtTenantExtractor.ExtractTenantId | modules/auth/src/main/java/com/subscriptionengine/auth/JwtTenantExtractor.java:27-50 | succeeds iff the first present tenant claim parses as a UUID, and returns that parse |
| JwtTenantExtractor.FirstPresentTenantClaims | modules/auth/src/main/java/com/subscriptionengine/auth/JwtTenantExtractor.java:29-44 | the precedence is tenant_id, then org_id, then organization |
| JwtTenantExtractor.ParseClaim | modules/auth/src/main/java/com/subscriptionengine/auth/JwtTenantExtractor.java:88-96 | succeeds iff the text parses, with the parsed id |
| JwtTenantExtractor.NoFallbackOnMalformedClaim | modules/auth/src/main/java/com/subscriptionengine/auth/JwtTenantExtractor.java:29-31 | a malformed tenant_id fails even if org_id or organization holds a valid id |
| JwtTenantExtractor.ExtractUserId | modules/auth/src/main/java/com/subscriptionengine/auth/JwtTenantExtractor.java:57-66 | a non-empty subject wins; otherwise the user_id claim, absent when that claim is absent |
| JwtTenantExtractor.HasTenantClaimIffPresent | modules/auth/src/main/java/com/subscriptionengine/auth/JwtTenantExtractor.java:82-86 | hasTenantClaim holds iff the precedence finds a claim; without one, extraction fails |
| CustomerAuthorization.CheckCustomerAuthorization | modules/auth/src/main/java/com/subscriptionengine/auth/CustomerAuthorizationAspect.java:48-103 | no JWT: proceed; with a JWT: proceed iff the role parses and is admin, or the token's customer_id equals the requested one |
| CustomerAuthorization.CustomerConfinedToOwnData | modules/auth/src/main/java/com/subscriptionengine/auth/CustomerAuthorizationAspect.java:80-97 | a CUSTOMER token whose customer_id differs from the request is denied |
| AdminAuthorization.CheckAdminAuthorization | modules/auth/src/main/java/com/subscriptionengine/auth/AdminAuthorizationAspect.java:44-96 | no JWT: proceed; with a JWT: proceed iff admin role, tenant extracted, and SUPER_ADMIN or no context tenant or the same tenant; fails iff an admin token has no usable tenant |
| AdminAuthorization.TenantStaffConfinedToOwnTenant | modules/auth/src/main/java/com/subscriptionengine/auth/AdminAuthorizationAspect.java:86-91 | TENANT_ADMIN or STAFF bound to a different context tenant is denied |
| NonceCache.Store | modules/auth/src/main/java/com/subscriptionengine/auth/NonceCache.java:52-58 | the stored pair expires at now + 10 minutes; every other row is kept unchanged |
| NonceCache.RemoveExpired | modules/auth/src/main/java/com/subscriptionengine/auth/NonceCache.java:77-79 | exactly the rows with expiry not before now survive, unchanged |
| NonceCache.RemoveClient | modules/auth/src/main/java/com/subscriptionengine/auth/NonceCache.java:94-96 | exactly the rows of other clients survive, unchanged |
| NonceCache.NonceCache.constructor | modules/auth/src/main/java/com/subscriptionengine/auth/NonceCache.java:28-30 | the cache starts empty |
| NonceCache.NonceCache.CheckAndStore | modules/auth/src/main/java/com/subscriptionengine/auth/NonceCache.java:37-68 | allowed iff no database error and the pair is new; an allowed pair is stored, otherwise nothing changes (fail closed) |
| NonceCache.NonceCache.CleanupExpiredNonces | modules/auth/src/main/java/com/subscriptionengine/auth/NonceCache.java:75-87 | the table becomes RemoveExpired of the old table |
| NonceCache.NonceCache.RemoveClientNonces | modules/auth/src/main/java/com/subscriptionengine/auth/NonceCache.java:92-102 | the table becomes RemoveClient of the old table |
| NonceCache.ReplayRefusedWithinTtl | modules/auth/src/main/java/com/subscriptionengine/auth/NonceCache.java:40-61 | a stored nonce survives every cleanup up to ten minutes later, so a second use within that time is refused |
| NonceCache.CleanupKeepsExpiry | modules/auth/src/main/java/com/subscriptionengine/auth/NonceCache.java:75-87 | cleanups delete rows but never change a surviving row's expiry |
| NonceCache.ReplayWithValidTimestampRefused | modules/auth/src/main/java/com/subscriptionengine/auth/NonceCache.java:37-68 | with the 300-second timestamp window (long arithmetic included) and epoch-second clock readings, a replay that still carries a valid timestamp always finds its nonce stored |
| RateLimiter.CountInWindow | modules/auth/src/main/java/com/subscriptionengine/auth/RateLimiter.java:91-105 | the count of the client's rows stamped within the last sixty minutes, at most the number of rows |
| RateLimiter.CountAppend | modules/auth/src/main/java/com/subscriptionengine/auth/RateLimiter.java:91-105 | one more row adds one to the count exactly when it is in the client's window |
| RateLimiter.RequestRecord | modules/auth/src/main/java/com/subscriptionengine/auth/RateLimiter.java:69-86 | the inserted row belongs to the client and is stamped with the start of the current hour |
| RateLimiter.RemoveOld | modules/auth/src/main/java/com/subscriptionengine/auth/RateLimiter.java:120-134 | exactly the rows stamped within the last two hours survive, each as many times as it occurred |
| RateLimiter.RemoveClient | modules/auth/src/main/java/com/subscriptionengine/auth/RateLimiter.java:139-149 | exactly the rows of other clients survive, each as many times as it occurred |
| RateLimiter.CleanupKeepsCounts | modules/auth/src/main/java/com/subscriptionengine/auth/RateLimiter.java:91-134 | the cleanup never changes any client's count taken within the hour after it |
| RateLimiter.ResetClearsOnlyTheClient | modules/auth/src/main/java/com/subscriptionengine/auth/RateLimiter.java:91-149 | after a reset the client's count is zero and every other client's count is unchanged |
| RateLimiter.RateLimiter.constructor | modules/auth/src/main/java/com/subscriptionengine/auth/RateLimiter.java:28-30 | no rows at first |
| RateLimiter.RateLimiter.AllowRequest | modules/auth/src/main/java/com/subscriptionengine/auth/RateLimiter.java:37-64 | allowed iff the count fails (fail open) or the count is below the limit; an allowed request without a fault appends exactly one hour-stamped row |
| RateLimiter.RateLimiter.GetRemainingRequests | modules/auth/src/main/java/com/subscriptionengine/auth/RateLimiter.java:110-113 | max(0, limit - count), never negative and never above the limit |
| RateLimiter.RateLimiter.CleanupOldBuckets | modules/auth/src/main/java/com/subscriptionengine/auth/RateLimiter.java:120-134 | the rows become RemoveOld of the old rows |
| RateLimiter.RateLimiter.ResetClientRateLimit | modules/auth/src/main/java/com/subscriptionengine/auth/RateLimiter.java:139-149 | the rows become RemoveClient of the old rows |
| RateLimiter.RecordCountsUntilNextHour | modules/auth/src/main/java/com/subscriptionengine/auth/RateLimiter.java:39-51 | a request made at time t counts until the hour after its hour begins, not for a sliding sixty minutes |
| RateLimiter.RecordForgottenAcrossBoundary | modules/auth/src/main/java/com/subscriptionengine/auth/RateLimiter.java:71-79 | a request one second before an hour boundary no longer counts two seconds later |
| RateLimiter.AllowedRequestCounts | modules/auth/src/main/java/com/subscriptionengine/auth/RateLimiter.java:55-57 | an allowed, recorded request raises the client's count by exactly one |
| RateLimiter.OtherClientIgnored | modules/auth/src/main/java/com/subscriptionengine/auth/RateLimiter.java:91-105 | another client's row never changes a client's count |
| SignatureService.HashRequestBody | modules/auth/src/main/java/com/subscriptionengine/auth/SignatureService.java:141-154 | no body or an empty body gives the empty text; any other body its digest |
| SignatureService.CanonicalRequestFields | modules/auth/src/main/java/com/subscriptionengine/auth/SignatureService.java:35-51 | the canonical request splits back into METHOD upper-cased, path, timestamp, nonce and body hash, so different requests differ |
| SignatureService.CanonicalRequestWithQueryFields | modules/auth/src/main/java/com/subscriptionengine/auth/SignatureService.java:57-76 | the query variant splits into six fields with the canonical query third |
| SignatureService.StrLtIrreflexive | modules/auth/src/main/java/com/subscriptionengine/auth/SignatureService.java:160-178 | the key order used for the query is irreflexive |
| SignatureService.StrLtTransitive | modules/auth/src/main/java/com/subscriptionengine/auth/SignatureService.java:160-178 | the key order is transitive |
| SignatureService.StrLtTotal | modules/auth/src/main/java/com/subscriptionengine/auth/SignatureService.java:160-178 | any two different keys are ordered |
| SignatureService.LeastExists | modules/auth/src/main/java/com/subscriptionengine/auth/SignatureService.java:160-178 | a non-empty key set has a least key |
| SignatureService.SortedKeysMembers | modules/auth/src/main/java/com/subscriptionengine/auth/SignatureService.java:160-178 | the sorted key walk lists exactly the map's keys |
| SignatureService.SortedKeysAscending | modules/auth/src/main/java/com/subscriptionengine/auth/SignatureService.java:160-178 | the walk is strictly ascending |
| SignatureService.Pairs | modules/auth/src/main/java/com/subscriptionengine/auth/SignatureService.java:168-175 | each key becomes "k=v" with its value, in order |
| SignatureService.BuildCanonicalQueryString | modules/auth/src/main/java/com/subscriptionengine/auth/SignatureService.java:160-178 | the loop builds the "&"-joined pairs in ascending key order, and "" for no map or an empty one |
| SignatureService.VerifySignature | modules/auth/src/main/java/com/subscriptionengine/auth/SignatureService.java:102-112 | true iff the provided signature equals the expected one |
| SignatureService.ParseLong | modules/auth/src/main/java/com/subscriptionengine/auth/SignatureService.java:119 | a parsed value is inside the 64-bit range |
| SignatureService.ParseLongOfDecimal | modules/auth/src/main/java/com/subscriptionengine/auth/SignatureService.java:119 | a long printed in decimal parses back to itself |
| SignatureService.ToLong | modules/auth/src/main/java/com/subscriptionengine/auth/SignatureService.java:121 | long subtraction: the result lies in the 64-bit range and equals the true difference whenever that fits |
| SignatureService.LongAbs | modules/auth/src/main/java/com/subscriptionengine/auth/SignatureService.java:121 | Math.abs on a long: Long.MIN_VALUE stays itself (negative), any other value gets its absolute value |
| SignatureService.ValidateTimestamp | modules/auth/src/main/java/com/subscriptionengine/auth/SignatureService.java:117-136 | as written, with long wrap-around: valid iff the text parses and the true distance to now is at most 300, exactly 2^63, or within 300 of 2^64 |
| SignatureService.WrappedDistance | modules/auth/src/main/java/com/subscriptionengine/auth/SignatureService.java:121-123 | the wrapped Math.abs test passes exactly the distances of at most 300, of exactly 2^63 and of at least 2^64 - 300 |
| SignatureService.ParseLongOfNegative | modules/auth/src/main/java/com/subscriptionengine/auth/SignatureService.java:119 | a negative long -m printed in decimal parses back to -m, for every m up to 2^63 |
| SignatureService.StaleTimestampAccepted | modules/auth/src/main/java/com/subscriptionengine/auth/SignatureService.java:121-123 | for any clock reading, the stamp 2^63 seconds earlier passes the written check and fails the intended window |
| SignatureService.StaleTextAccepted | modules/auth/src/main/java/com/subscriptionengine/auth/SignatureService.java:121-123 | any text that parses as the long 2^63 seconds before the clock passes the written check and fails the intended window |
| SignatureService.TimestampInWindow | modules/auth/src/main/java/com/subscriptionengine/auth/SignatureService.java:117-136 | the intended check: valid iff the text parses and lies within 300 seconds of now, either side |
| SignatureService.ValidateAgreesWithWindow | modules/auth/src/main/java/com/subscriptionengine/auth/SignatureService.java:117-136 | for epoch-second clock readings the written check passes the intended window plus exactly the stamp 2^63 seconds back |
| SignatureService.ValidTwiceMeansClose | modules/auth/src/main/java/com/subscriptionengine/auth/SignatureService.java:117-136 | a timestamp valid at two clock readings puts them at most 600 seconds apart, the wrapped stamp included |
| SignatureService.FreshTimestampValid | modules/auth/src/main/java/com/subscriptionengine/auth/SignatureService.java:183-185 | a timestamp taken from the clock is valid exactly while the clock is within 300 seconds of it |
| Tasks.Insert | modules/scheduler/src/main/java/com/subscriptionengine/scheduler/service/ScheduledTaskService.java:103-108 | the insert is refused iff the id or the (tenant, task key) pair is taken; otherwise exactly the new row is appended |
| Tasks.InsertKeepsUnique | modules/scheduler/src/main/java/com/subscriptionengine/scheduler/service/ScheduledTaskService.java:71-72 | an accepted insert keeps ids and (tenant, task key) pairs unique |
| Tasks.UpdateKeepsUnique | modules/scheduler/src/main/java/com/subscriptionengine/scheduler/service/ScheduledTaskService.java:77-87 | an UPDATE that keeps ids and keys keeps the table's uniqueness |
| Tasks.CountWhere | modules/scheduler/src/main/java/com/subscriptionengine/scheduler/service/TaskProcessorService.java:889-896 | the reported row count is zero iff no row satisfies the condition |
| Tasks.FindKey | modules/scheduler/src/main/java/com/subscriptionengine/scheduler/service/ScheduledTaskService.java:84-85 | finds a row with the (tenant, key) pair, and none iff the pair is absent |
| TaskQueue.LeasableCount | modules/scheduler/src/main/java/com/subscriptionengine/scheduler/service/TaskProcessorService.java:157-163 | the number of READY, due, unlocked-or-expired rows |
| TaskQueue.LeaseRows | modules/scheduler/src/main/java/com/subscriptionengine/scheduler/service/TaskProcessorService.java:186-196 | only leasable rows change, each to CLAIMED by the worker until now + 5 minutes; the count is min(10, leasable) and equals the number of changed rows; under the limit no leasable row is skipped |
| TaskQueue.LeaseAvailableTasks | modules/scheduler/src/main/java/com/subscriptionengine/scheduler/service/TaskProcessorService.java:139-214 | the table is the lease's table; nothing is handed over iff the update claimed no row |
| TaskQueue.LeaseHandsOverClaims | modules/scheduler/src/main/java/com/subscriptionengine/scheduler/service/TaskProcessorService.java:200-213 | every claimed row is handed over, only rows with a live lease of this worker are, and with no earlier lease exactly the claimed rows are |
| TaskQueue.MarkTaskCompleted | modules/scheduler/src/main/java/com/subscriptionengine/scheduler/service/TaskProcessorService.java:846-857 | the scheduled task's rows become COMPLETED at now with the lock cleared, other rows unchanged, and a completed row is never leasable again |
| TaskQueue.MarkTaskFailed | modules/scheduler/src/main/java/com/subscriptionengine/scheduler/service/TaskProcessorService.java:862-880 | the scheduled task's rows get the counted attempt, FAILED at the maximum and READY before, lock cleared; the row is leasable again iff under the maximum and due |
| TaskQueue.FailuresCountUp | modules/scheduler/src/main/java/com/subscriptionengine/scheduler/service/TaskProcessorService.java:864-866 | after k failures the count is the old count (null as 0) + k, and the scheduled task is FAILED iff that reaches the maximum |
| TaskQueue.ReleaseExpiredLocks | modules/scheduler/src/main/java/com/subscriptionengine/scheduler/service/TaskProcessorService.java:886-903 | exactly the CLAIMED rows with an expired lock go back to READY unlocked; none remain; the count is the number released, zero iff nothing changed |
| TaskQueue.ReleaseChanges | modules/scheduler/src/main/java/com/subscriptionengine/scheduler/service/TaskProcessorService.java:889-902 | the reaper's count is zero iff its update leaves the table unchanged |
| TaskProcessor.Settle | modules/scheduler/src/main/java/com/subscriptionengine/scheduler/service/TaskProcessorService.java:94-116 | the scheduled task's handler runs, then its row is marked completed if the handler answered true and failed with "Task processing returned false" otherwise; these are writes inside the batch's transaction, committed only when no leased task dooms it (RunBatch) |
| TaskProcessor.ProcessAll | modules/scheduler/src/main/java/com/subscriptionengine/scheduler/service/TaskProcessorService.java:86-127 | the loop's writes inside the batch's transaction: at most one success per leased task, and existing rows keep their ids |
| TaskProcessor.BatchAborts | modules/scheduler/src/main/java/com/subscriptionengine/scheduler/service/TaskProcessorService.java:67-133 | a leased batch is doomed exactly when some leased task, run after the ones before it, dooms the transaction; an empty lease never is |
| TaskProcessor.BatchRollsBack | modules/scheduler/src/main/java/com/subscriptionengine/scheduler/service/TaskProcessorService.java:67-133 | only a batch that leased at least one task, with some task leasable, can be rolled back |
| TaskProcessor.RunBatch | modules/scheduler/src/main/java/com/subscriptionengine/scheduler/service/TaskProcessorService.java:67-133 | one transaction: with no leasable task the count is 0 and nothing is written; when a leased task dooms the transaction, its commit throws UnexpectedRollbackException, which the scheduler loop catches and only logs (apps/subscription-worker/src/main/java/com/subscriptionengine/worker/scheduler/TaskWorker.java:31-42), so nothing is committed: the model's count 0 and pre-lease database stand in for that exception; otherwise the batch is the per-task settling RunBatchSettlingEach |
| TaskProcessor.RunBatchSettlingEach | modules/scheduler/src/main/java/com/subscriptionengine/scheduler/service/TaskProcessorService.java:68-133 | the batch as its loop intends it, each task settled on its own: with no leasable task it returns 0 and writes nothing; corrected member of Findings row 9 |
| TaskProcessor.ProcessLeased | modules/scheduler/src/main/java/com/subscriptionengine/scheduler/service/TaskProcessorService.java:86-127 | the loop's count and database are those of ProcessAll, and it notes exactly whether a leased task dooms the transaction (BatchAborts) |
| TaskProcessor.AbortsStep | modules/scheduler/src/main/java/com/subscriptionengine/scheduler/service/TaskProcessorService.java:86-127 | the batch is doomed after one more task iff it already was or that task, run after the earlier ones, dooms it |
| TaskProcessor.RunBatchLeased | modules/scheduler/src/main/java/com/subscriptionengine/scheduler/service/TaskProcessorService.java:67-133 | when the lease claims tasks, the batch is their processing, or nothing when one of them dooms the transaction |
| TaskProcessor.DoomedAt | modules/scheduler/src/main/java/com/subscriptionengine/scheduler/service/TaskProcessorService.java:67-133 | any one leased task that dooms the transaction rolls the whole batch back to the pre-lease database with count 0, so the next run with the same clock leases the same tasks, all of which settling each task would have settled |
| TaskProcessor.RenewalFailureUndoesBatch | modules/scheduler/src/main/java/com/subscriptionengine/scheduler/service/TaskProcessorService.java:67-133 | as written (Findings row 9): a leased product renewal whose subscription or plan cannot be loaded answers false, yet the batch rolls back entirely and the same tasks are leased again, while settling each task would settle them all |
| TaskProcessor.Mark | modules/scheduler/src/main/java/com/subscriptionengine/scheduler/service/TaskProcessorService.java:104-115 | the marking after the handler keeps the table's length and every row's id |
| TaskProcessor.ProcessAllStep | modules/scheduler/src/main/java/com/subscriptionengine/scheduler/service/TaskProcessorService.java:87-127 | each further leased task settles on top of the earlier ones and adds one to the count iff its handler succeeded |
| TaskProcessor.SettleKeepsSettled | modules/scheduler/src/main/java/com/subscriptionengine/scheduler/service/TaskProcessorService.java:104-115 | rows already settled stay settled when a later task is processed |
| TaskProcessor.SettleMarks | modules/scheduler/src/main/java/com/subscriptionengine/scheduler/service/TaskProcessorService.java:104-115 | the marking settles every row of the scheduled task and leaves the rest |
| TaskProcessor.MarkedKeepsSettled | modules/scheduler/src/main/java/com/subscriptionengine/scheduler/service/TaskProcessorService.java:104-115 | appending handler rows then marking one task keeps earlier tasks settled |
| TaskProcessor.ProcessAllSettles | modules/scheduler/src/main/java/com/subscriptionengine/scheduler/service/TaskProcessorService.java:87-127 | inside the transaction, after the loop every row of every leased task is COMPLETED, READY or FAILED with its lock cleared |
| TaskProcessor.BatchSettlesLeased | modules/scheduler/src/main/java/com/subscriptionengine/scheduler/service/TaskProcessorService.java:68-133 | settling each task, a batch leaves none of the tasks it leased CLAIMED; as written, so does every batch no task dooms (corrected member of Findings row 9) |
| TaskProcessor.Store.constructor | modules/scheduler/src/main/java/com/subscriptionengine/scheduler/service/TaskProcessorService.java:56-59 | the service starts on the given database |
| TaskProcessor.Store.ProcessAvailableTasks | modules/scheduler/src/main/java/com/subscriptionengine/scheduler/service/TaskProcessorService.java:67-133 | the method's count and new database are those of RunBatch: all of the batch, or, when a task dooms the transaction, the database as before the lease |
| TaskProcessor.Store.CleanupExpiredLocks | modules/scheduler/src/main/java/com/subscriptionengine/scheduler/service/TaskProcessorService.java:886-903 | the scheduled task table and count are those of ReleaseExpiredLocks, and no other table changes |
| ScheduledTasks.PayloadOf | modules/scheduler/src/main/java/com/subscriptionengine/scheduler/service/ScheduledTaskService.java:414-419 | every payload names its task type; the subscription and invoice members appear for exactly the kinds that carry them; the entitlement payload's action is GRANT |
| ScheduledTasks.KeyStartsWithMark | modules/scheduler/src/main/java/com/subscriptionengine/scheduler/service/ScheduledTaskService.java:167 | each kind's key starts with its own two-character prefix mark |
| ScheduledTasks.ProductKeyParts | modules/scheduler/src/main/java/com/subscriptionengine/scheduler/service/ScheduledTaskService.java:216 | a product renewal key splits back into tenant, subscription and product |
| ScheduledTasks.KeysDiffer | modules/scheduler/src/main/java/com/subscriptionengine/scheduler/service/ScheduledTaskService.java:72 | schedules of different targets get different keys |
| ScheduledTasks.ProductKeysDiffer | modules/scheduler/src/main/java/com/subscriptionengine/scheduler/service/ScheduledTaskService.java:216 | product renewal keys differ when the subscription or the product differs |
| ScheduledTasks.OneIdKeysDiffer | modules/scheduler/src/main/java/com/subscriptionengine/scheduler/service/ScheduledTaskService.java:284 | one-identifier keys of one kind (payment_, delivery_, order_, ...) differ when the identifier differs |
| ScheduledTasks.TaskKeyIdentifiesTarget | modules/scheduler/src/main/java/com/subscriptionengine/scheduler/service/ScheduledTaskService.java:72 | within a tenant, two keys are equal iff they name the same kind and identifiers |
| ScheduledTasks.UpsertRenewalOutcome | modules/scheduler/src/main/java/com/subscriptionengine/scheduler/service/ScheduledTaskService.java:74-125 | the renewal upsert fails only when no row has the key and the fresh id is taken, and it keeps the table's constraints |
| ScheduledTasks.UpsertRenewalResets | modules/scheduler/src/main/java/com/subscriptionengine/scheduler/service/ScheduledTaskService.java:77-101 | afterwards exactly one row has the renewal key, READY, due at the new date, 0 attempts, maximum 3; other rows are untouched |
| ScheduledTasks.UpsertRenewalIdempotent | modules/scheduler/src/main/java/com/subscriptionengine/scheduler/service/ScheduledTaskService.java:77-87 | scheduling the same renewal again adds no row |
| ScheduledTasks.NewTaskStartsReady | modules/scheduler/src/main/java/com/subscriptionengine/scheduler/service/ScheduledTaskService.java:170-182 | an insert succeeds iff id and key are free; the new row is READY, unlocked, 0 attempts, maximum 3, typed and keyed for its target |
| ScheduledTasks.ScheduleTask | modules/scheduler/src/main/java/com/subscriptionengine/scheduler/service/ScheduledTaskService.java:213-258 | an insert-based schedule returns the new id and appends the scheduled task, or throws and leaves the table unchanged |
| ScheduledTasks.ScheduleSubscriptionRenewal | modules/scheduler/src/main/java/com/subscriptionengine/scheduler/service/ScheduledTaskService.java:50-138 | the table becomes the upsert's result and the returned task carries the renewal key |
| ScheduledTasks.CancelSubscriptionTasks | modules/scheduler/src/main/java/com/subscriptionengine/scheduler/service/ScheduledTaskService.java:198-206 | the placeholder changes no task |
| PlanValidation.ValidatePlanConfiguration | modules/domain-plans/src/main/java/com/subscriptionengine/plans/service/PlanValidationService.java:25-48 | a missing category fails with exactly "Plan category is required"; valid iff the category's rules hold iff no error; an unknown category gives exactly "Invalid plan category: ..."; each base-price and product rule is reported iff broken |
| PlanValidation.DigitalErrors | modules/domain-plans/src/main/java/com/subscriptionengine/plans/service/PlanValidationService.java:53-66 | no error iff products are neither required nor allowed, base price is not waived and is above zero |
| PlanValidation.ProductBasedErrors | modules/domain-plans/src/main/java/com/subscriptionengine/plans/service/PlanValidationService.java:71-81 | no error iff products are required and allowed and base price is not required |
| PlanValidation.HybridErrors | modules/domain-plans/src/main/java/com/subscriptionengine/plans/service/PlanValidationService.java:86-99 | no error iff products are allowed but not required, base price is required and above zero |
| PlanValidation.ValidateSubscriptionRequest | modules/domain-plans/src/main/java/com/subscriptionengine/plans/service/PlanValidationService.java:104-131 | no category fails; DIGITAL valid iff no products; PRODUCT_BASED iff products with a non-zero count; HYBRID always; unknown never |
| PlanValidation.CalculateSubscriptionPrice | modules/domain-plans/src/main/java/com/subscriptionengine/plans/service/PlanValidationService.java:136-156 | throws iff the category is missing or unknown; base (null as 0) for DIGITAL, the products total for PRODUCT_BASED, their sum for HYBRID |
| PlanValidation.WithDefaultFlags | modules/domain-plans/src/main/java/com/subscriptionengine/plans/service/PlanValidationService.java:161-183 | a missing category becomes DIGITAL; with a known category the defaulted plan passes the rules iff it is PRODUCT_BASED or has a positive base price; only category and flags change |
| PlanValidation.PlanEntity.constructor | modules/domain-plans/src/main/java/com/subscriptionengine/plans/service/PlansService.java:59 | the plan object holds the given plan |
| PlanValidation.SetDefaultValidationFlags | modules/domain-plans/src/main/java/com/subscriptionengine/plans/service/PlanValidationService.java:161-183 | the plan object is updated in place to WithDefaultFlags of its old value |
| PlansService.PlanTable.constructor | modules/domain-plans/src/main/java/com/subscriptionengine/plans/service/PlansService.java:40-44 | the plans table starts empty |
| PlansService.DraftPlan | modules/domain-plans/src/main/java/com/subscriptionengine/plans/service/PlansService.java:59-73 | id, tenant and request fields are copied; status defaults to ACTIVE and category to DIGITAL; flags unset |
| PlansService.AcceptedPlan | modules/domain-plans/src/main/java/com/subscriptionengine/plans/service/PlansService.java:73-87 | a plan is accepted iff its (defaulted) category is known and it is PRODUCT_BASED or has a positive base price; an accepted plan passes the category rules |
| PlansService.CreatePlan | modules/domain-plans/src/main/java/com/subscriptionengine/plans/service/PlansService.java:53-92 | success iff the plan is accepted, in which case exactly that plan is appended; an invalid plan throws and inserts nothing |
| PlansService.WithPlanStatus | modules/domain-plans/src/main/java/com/subscriptionengine/plans/service/PlansService.java:185-190 | only the tenant's plan with that id changes, to ACTIVE/INACTIVE at now |
| PlansService.UpdatePlanStatus | modules/domain-plans/src/main/java/com/subscriptionengine/plans/service/PlansService.java:182-199 | a result iff the plan is in the tenant, carrying the new status; otherwise empty and nothing changes |
| PlansService.PlanStatusFound | modules/domain-plans/src/main/java/com/subscriptionengine/plans/service/PlansService.java:192-194 | after the update the plan is found again in its tenant with the new status |
| PlansService.TenantPlansNewestFirst | modules/domain-plans/src/main/java/com/subscriptionengine/plans/service/PlansService.java:135-138 | the order getPlans pages through: sorted newest first, holding each of the tenant's rows as often as it occurs and no other row |
| PlansService.GetPlans | modules/domain-plans/src/main/java/com/subscriptionengine/plans/service/PlansService.java:125-150 | the count is of the tenant's plans; the page is the min(size, count - offset) plans from position offset of the newest-first order (none past the end), all the tenant's, newest first |
| PlansService.PagesCoverPlans | modules/domain-plans/src/main/java/com/subscriptionengine/plans/service/PlansService.java:135-140 | walking the pages meets every plan: the i-th plan of page n is the plan at position n * size + i of the newest-first order |
| PlansService.PlanAtOffset | modules/domain-plans/src/main/java/com/subscriptionengine/plans/service/PlansService.java:135-140 | the i-th plan of the page at any offset is the plan at position offset + i of the newest-first order, whenever it exists |
| PlansService.GetActivePlans | modules/domain-plans/src/main/java/com/subscriptionengine/plans/service/PlansService.java:158-172 | exactly the tenant's ACTIVE plans, newest first |
| Records.FindPlan | modules/domain-plans/src/main/java/com/subscriptionengine/plans/service/PlansService.java:104-107 | a plan is found iff one with that id is in the tenant, and it is that plan |
| ProductItems.EmptyProductItem | modules/domain-subscriptions/src/main/java/com/subscriptionengine/subscriptions/dto/ProductItem.java:27-48 | quantity 1 and currency USD by default, other fields unset |
| ProductItems.NewProductItem | modules/domain-subscriptions/src/main/java/com/subscriptionengine/subscriptions/dto/ProductItem.java:50-57 | the given fields, with currency left at USD |
| ProductItems.WrapLong | modules/domain-subscriptions/src/main/java/com/subscriptionengine/subscriptions/dto/ProductItem.java:145-147 | the long result congruent modulo 2^64, equal to the value when it fits |
| ProductItems.TotalPriceCents | modules/domain-subscriptions/src/main/java/com/subscriptionengine/subscriptions/dto/ProductItem.java:145-147 | defined iff quantity and price are present (else the unboxing throws), and then quantity x price in long arithmetic |
| ProductItems.ValidTotalIsExact | modules/domain-subscriptions/src/main/java/com/subscriptionengine/subscriptions/dto/ProductItem.java:19-40 | for a product passing the bean constraints whose product fits in a long, the total is the exact non-negative product |
| ProductItems.TotalWrapsAround | modules/domain-subscriptions/src/main/java/com/subscriptionengine/subscriptions/dto/ProductItem.java:145-147 | a valid product whose total passes the long range wraps: 2^31 - 1 units (an int quantity) at 2^33 cents report -2^33 |
| InvoiceGeneration.CalculatePeriodEnd | modules/domain-billing/src/main/java/com/subscriptionengine/billing/service/InvoiceGenerationService.java:285-296 | defined iff the interval is present and its upper-cased name is DAILY, WEEKLY, MONTHLY, QUARTERLY or YEARLY; then start plus count (default 1) intervals, QUARTERLY being 3 x count months |
| InvoiceGeneration.InvoiceNumber | modules/domain-billing/src/main/java/com/subscriptionengine/billing/service/InvoiceGenerationService.java:312-317 | "INV-", the tenant id's first 8 characters upper-cased, "-", then decimal digits whose value is millis mod 1000000 |
| InvoiceGeneration.LineItemDescription | modules/domain-billing/src/main/java/com/subscriptionengine/billing/service/InvoiceGenerationService.java:322-333 | "<productName or Product> - <plan> (<interval lower-cased>)", or "<plan> (<interval>)" when the item configuration cannot be read; throws without an interval |
| InvoiceGeneration.RenewalBasis | modules/domain-billing/src/main/java/com/subscriptionengine/billing/service/InvoiceGenerationService.java:83-119 | succeeds iff the subscription is in the tenant, has an item for the plan, the plan is in the tenant and its interval gives a period end; the first such item is used |
| InvoiceGeneration.CreateInvoice | modules/domain-billing/src/main/java/com/subscriptionengine/billing/service/InvoiceGenerationService.java:136-273 | succeeds iff the tenant id is long enough, the product id is present, ids are free and the payment task can be inserted; then exactly one OPEN invoice (due now + 30 days, subtotal = total = quantity x unit price, tax 0) for the period, one line and one payment task are added, and nothing else |
| InvoiceGeneration.GenerateInvoiceForProductRenewal | modules/domain-billing/src/main/java/com/subscriptionengine/billing/service/InvoiceGenerationService.java:72-280 | throws when the basis fails; on success exactly one invoice exists for the period and its id is returned; subscriptions, items, plans, deliveries and entitlements are untouched and tasks are only appended |
| InvoiceGeneration.GenerateAgainIsIdempotent | modules/domain-billing/src/main/java/com/subscriptionengine/billing/service/InvoiceGenerationService.java:126-131 | running the renewal again with any clock and ids returns the same invoice id and writes nothing |
| InvoiceGeneration.BasisReadsSubscriptionsItemsPlans | modules/domain-billing/src/main/java/com/subscriptionengine/billing/service/InvoiceGenerationService.java:83-119 | the basis depends only on subscriptions, items and plans |
| InvoiceGeneration.GenerateFindsOne | modules/domain-billing/src/main/java/com/subscriptionengine/billing/service/InvoiceGenerationService.java:126-131 | with exactly one invoice for the period, its id is returned and nothing is written |
| InvoiceGeneration.NewInvoiceTotals | modules/domain-billing/src/main/java/com/subscriptionengine/billing/service/InvoiceGenerationService.java:207-263 | a fresh renewal adds one OPEN invoice and one line with total quantity x unit price, and one CHARGE_PAYMENT task due now |
| InvoiceGeneration.PaymentTaskRow | modules/domain-billing/src/main/java/com/subscriptionengine/billing/service/InvoiceGenerationService.java:263 | the scheduled payment task is the one new row, typed CHARGE_PAYMENT and due now |
| BillingTaskHandler.EffectiveCount | modules/domain-billing/src/main/java/com/subscriptionengine/billing/service/BillingTaskHandlerImpl.java:164-166 | a missing or non-positive count is 1, a positive count is kept |
| BillingTaskHandler.NextRenewalDate | modules/domain-billing/src/main/java/com/subscriptionengine/billing/service/BillingTaskHandlerImpl.java:163-183 | a known upper-cased interval advances by count intervals (QUARTERLY = 3 x count months), any other name by count months; for known names and non-negative counts it agrees with the invoice period end |
| BillingTaskHandler.UpdateSubscriptionRenewalDate | modules/domain-billing/src/main/java/com/subscriptionengine/billing/service/BillingTaskHandlerImpl.java:118-158 | when subscription and plan exist and there is a date to count from, only that subscription's next renewal moves on from nextRenewalAt (else the period end); otherwise nothing changes |
| BillingTaskHandler.ProcessProductRenewal | modules/domain-billing/src/main/java/com/subscriptionengine/billing/service/BillingTaskHandlerImpl.java:46-80 | true iff invoice generation went through, and then the renewal date also moves on; false leaves the database unchanged; tasks are only appended; the exception behind a false answer has marked the batch's transaction rollback-only (TaskHandlers.RenewalAbortsIffFalse) |
| BillingTaskHandler.ProcessChargePayment | modules/domain-billing/src/main/java/com/subscriptionengine/billing/service/BillingTaskHandlerImpl.java:83-113 | true iff the payment service answered true; false when it answered false or threw |
| BillingTaskHandler.UpdateKeepsLookup | modules/domain-billing/src/main/java/com/subscriptionengine/billing/service/BillingTaskHandlerImpl.java:146-149 | the renewal update keeps the subscription at the same position, tenant and period start |
| BillingTaskHandler.FindSubscriptionSameIds | modules/domain-billing/src/main/java/com/subscriptionengine/billing/service/BillingTaskHandlerImpl.java:123 | tables with the same ids row for row find a subscription at the same position |
| BillingTaskHandler.RenewalRetryAdvancesAgain | modules/domain-billing/src/main/java/com/subscriptionengine/billing/service/BillingTaskHandlerImpl.java:46-80 | a second run after a successful one succeeds without a second invoice, line or payment task but moves the next renewal on once more |
| WebhookRelay.NewDeliveries | modules/outbox/src/main/java/com/subscriptionengine/outbox/service/WebhookRelayWorker.java:126-137 | one delivery per receiving endpoint, in order, each built by createWebhookDelivery |
| WebhookRelay.NewDeliveriesSnoc | modules/outbox/src/main/java/com/subscriptionengine/outbox/service/WebhookRelayWorker.java:129-136 | one more endpoint adds its delivery exactly when it is ACTIVE in the tenant and lists no event types or this one |
| WebhookRelay.MarkPublished | modules/outbox/src/main/java/com/subscriptionengine/outbox/service/WebhookRelayWorker.java:143 | only the event itself is stamped published at now |
| WebhookRelay.ProcessEvent | modules/outbox/src/main/java/com/subscriptionengine/outbox/service/WebhookRelayWorker.java:112-144 | endpoints unchanged; the receiving endpoints' deliveries are appended; the event is marked published even when none received it |
| WebhookRelay.BatchPublishesAll | modules/outbox/src/main/java/com/subscriptionengine/outbox/service/WebhookRelayWorker.java:89-102 | after a batch every event in it is published, earlier marks stay, and deliveries only grow |
| WebhookRelay.EventDeliveries | modules/outbox/src/main/java/com/subscriptionengine/outbox/service/WebhookRelayWorker.java:149-166 | every active subscribing endpoint of the tenant gets a PENDING delivery with 0 attempts, maximum 5, due now |
| WebhookRelay.EventBatchFacts | modules/outbox/src/main/java/com/subscriptionengine/outbox/service/WebhookRelayWorker.java:76-80 | the event batch has only unpublished events, oldest first, at most 100 |
| WebhookRelay.Truncate | modules/outbox/src/main/java/com/subscriptionengine/outbox/service/WebhookRelayWorker.java:279 | the first min(length, n) characters, a prefix |
| WebhookRelay.ToInt32 | modules/outbox/src/main/java/com/subscriptionengine/outbox/service/WebhookRelayWorker.java:298 | the 32-bit wrap-around, identity inside the int range |
| WebhookRelay.PowerCast | modules/outbox/src/main/java/com/subscriptionengine/outbox/service/WebhookRelayWorker.java:298 | (int) Math.pow(2, attempts): 0 for a negative count (the fraction truncated), 2^attempts from 0 up to 30, Integer.MAX_VALUE from 31 |
| WebhookRelay.BackoffDoubles | modules/outbox/src/main/java/com/subscriptionengine/outbox/service/WebhookRelayWorker.java:298-299 | while it fits in an int, the delay is 2^attempts x base and doubles with each attempt |
| WebhookRelay.Deliver | modules/outbox/src/main/java/com/subscriptionengine/outbox/service/WebhookRelayWorker.java:223-327 | a send step keeps the delivery's identity, event, payload and maximum, and stamps updatedAt |
| WebhookRelay.DeliverStep | modules/outbox/src/main/java/com/subscriptionengine/outbox/service/WebhookRelayWorker.java:223-336 | the attempt is counted iff the endpoint exists and is ACTIVE (else FAILED without an attempt); DELIVERED iff a 2xx response; FAILED iff unreachable or out of attempts; still PENDING means due again after the backoff; the response status and 1000-character body are kept; attempts never pass the maximum |
| WebhookRelay.NewDeliveryBounded | modules/outbox/src/main/java/com/subscriptionengine/outbox/service/WebhookRelayWorker.java:158-161 | a new delivery is within its attempt bound and due at once |
| WebhookRelay.TerminalNotDue | modules/outbox/src/main/java/com/subscriptionengine/outbox/service/WebhookRelayWorker.java:186-189 | DELIVERED and FAILED deliveries are never picked again |
| WebhookRelay.DeliverAllSnoc | modules/outbox/src/main/java/com/subscriptionengine/outbox/service/WebhookRelayWorker.java:200-213 | one more fetched delivery overwrites the row with its id by its send step |
| WebhookRelay.SameIdSameRow | modules/outbox/src/main/java/com/subscriptionengine/outbox/service/WebhookRelayWorker.java:307 | with unique ids, the row with a delivery's id is that delivery |
| WebhookRelay.DeliverAllRows | modules/outbox/src/main/java/com/subscriptionengine/outbox/service/WebhookRelayWorker.java:183-218 | with unique ids, each row after a run is untouched or one send step of itself |
| WebhookRelay.DueBatchFacts | modules/outbox/src/main/java/com/subscriptionengine/outbox/service/WebhookRelayWorker.java:186-192 | the send batch holds only due deliveries, earliest first, at most 50, and all of them when there are at most 50 |
| WebhookRelay.Hex | modules/outbox/src/main/java/com/subscriptionengine/outbox/service/WebhookRelayWorker.java:357-363 | two characters per byte |
| WebhookRelay.HexDigitValue | modules/outbox/src/main/java/com/subscriptionengine/outbox/service/WebhookRelayWorker.java:360 | each hex digit reads back as its value and is 0-9 or a-f |
| WebhookRelay.HexRoundTrip | modules/outbox/src/main/java/com/subscriptionengine/outbox/service/WebhookRelayWorker.java:357-363 | the hex text reads back as the same bytes |
| WebhookRelay.HexIsLowercase | modules/outbox/src/main/java/com/subscriptionengine/outbox/service/WebhookRelayWorker.java:360 | the hex text holds lowercase hex digits only |
| WebhookRelay.BytesToHex | modules/outbox/src/main/java/com/subscriptionengine/outbox/service/WebhookRelayWorker.java:357-363 | the loop builds exactly Hex of the bytes |
| WebhookRelay.Signature | modules/outbox/src/main/java/com/subscriptionengine/outbox/service/WebhookRelayWorker.java:342-352 | "sha256=" followed by hex text that reads back as the HMAC bytes |
| WebhookRelay.Worker.constructor | modules/outbox/src/main/java/com/subscriptionengine/outbox/service/WebhookRelayWorker.java:51-65 | the worker starts on the given tables and backoff base |
| WebhookRelay.Worker.ProcessOneEvent | modules/outbox/src/main/java/com/subscriptionengine/outbox/service/WebhookRelayWorker.java:112-144 | the tables become ProcessEvent of the old tables |
| WebhookRelay.Worker.ProcessOutboxEvents | modules/outbox/src/main/java/com/subscriptionengine/outbox/service/WebhookRelayWorker.java:73-107 | the tables become the batch of unpublished events processed in turn |
| WebhookRelay.Worker.DeliverOne | modules/outbox/src/main/java/com/subscriptionengine/outbox/service/WebhookRelayWorker.java:223-327 | only the row with the delivery's id changes, to its send step; events and endpoints unchanged |
| WebhookRelay.Worker.DeliverWebhooks | modules/outbox/src/main/java/com/subscriptionengine/outbox/service/WebhookRelayWorker.java:183-218 | the due batch is sent in turn; events and endpoints unchanged |
| DeliveryManagement.FindOwned | modules/domain-delivery/src/main/java/com/subscriptionengine/delivery/service/DeliveryManagementService.java:136-154 | the delivery found is one of the tenant's rows with the requested id whose subscription belongs to the customer; none is found exactly when no row qualifies |
| DeliveryManagement.CancelWrites | modules/domain-delivery/src/main/java/com/subscriptionengine/delivery/service/DeliveryManagementService.java:183-226 | a permitted cancellation cancels exactly the selected tasks, marks exactly the tenant's rows of the delivery CANCELED with reason and time, keeps the subscriptions, and appends one event for the delivery's subscription |
| DeliveryManagement.Cancel | modules/domain-delivery/src/main/java/com/subscriptionengine/delivery/service/DeliveryManagementService.java:125-240 | the cancellation succeeds exactly when the delivery is the customer's, PENDING and has no external order; a refusal writes nothing; a success performs the writes with the live order tasks of the delivery selected; corrected (Findings row 6): the order tasks are selected by the payload naming the delivery, where the LIKE as written selects none |
| DeliveryManagement.CancelAsWritten | modules/domain-delivery/src/main/java/com/subscriptionengine/delivery/service/DeliveryManagementService.java:183-191 | the cancellation with the LIKE filter as written accepts and refuses the same requests as the intended one |
| DeliveryManagement.CancelOutcome | modules/domain-delivery/src/main/java/com/subscriptionengine/delivery/service/DeliveryManagementService.java:150-226 | a successful cancellation had a PENDING delivery without an order, appends exactly one "delivery.canceled" event keyed "delivery_<id>", and leaves every row of the delivery CANCELED with the reason and the time |
| DeliveryManagement.CancelIsFinal | modules/domain-delivery/src/main/java/com/subscriptionengine/delivery/service/DeliveryManagementService.java:166-170 | a delivery once cancelled cannot be cancelled again, and the second attempt writes nothing |
| DeliveryManagement.CancelStopsOrderTask | modules/domain-delivery/src/main/java/com/subscriptionengine/delivery/service/DeliveryManagementService.java:183-191 | a live CREATE_ORDER task naming the delivery is CANCELLED by the cancellation and can no longer be leased |
| DeliveryManagement.LikeDeliveryNeverMatches | modules/domain-delivery/src/main/java/com/subscriptionengine/delivery/service/DeliveryManagementService.java:190 | the pattern '"deliveryId":"<id>"' matches the jsonb text of no payload at all, whatever its keys and values hold, for an id that does not start with ":", "," or "}" (a UUID never does) |
| DeliveryManagement.OrderPayloadMissedAsWritten | modules/domain-delivery/src/main/java/com/subscriptionengine/delivery/service/DeliveryManagementService.java:190 | the payload of the order task scheduled for a delivery, with any scheduledAt timestamp text, names the delivery, yet the pattern as written does not match it |
| DeliveryManagement.OrderTaskSurvivesAsWritten | modules/domain-delivery/src/main/java/com/subscriptionengine/delivery/service/DeliveryManagementService.java:183-191 | as written, a successful cancellation leaves every live CREATE_ORDER task of the tenant unchanged, the delivery's own order task included |
| DeliveryManagement.GetUpcomingDeliveries | modules/domain-delivery/src/main/java/com/subscriptionengine/delivery/service/DeliveryManagementService.java:50-118 | a negative limit fails; otherwise the list has min(limit, matching rows) entries, each the entry of the matching row at the same position |
| DeliveryManagement.UpcomingAreOpen | modules/domain-delivery/src/main/java/com/subscriptionengine/delivery/service/DeliveryManagementService.java:70-91 | every upcoming entry is an open (PENDING or PROCESSING) delivery of the tenant and customer, the list is newest first, canCancel holds exactly for PENDING, and under the limit no matching delivery is missing |
| DeliveryManagement.GetDeliveryDetails | modules/domain-delivery/src/main/java/com/subscriptionengine/delivery/service/DeliveryManagementService.java:245-294 | details are present exactly when the customer's delivery is found and its snapshot is readable, and canCancel holds exactly for a PENDING delivery |
| DeliveryManagement.DetailsAgreeWithCancel | modules/domain-delivery/src/main/java/com/subscriptionengine/delivery/service/DeliveryManagementService.java:277-303 | for a delivery the customer can see, a cancellation succeeds exactly when the detail view offers it and no order exists yet |
| DeliveryManagement.DeliveryStore.constructor | modules/domain-delivery/src/main/java/com/subscriptionengine/delivery/service/DeliveryManagementService.java:125-135 | the store starts with the given tables |
| DeliveryManagement.DeliveryStore.CancelDelivery | modules/domain-delivery/src/main/java/com/subscriptionengine/delivery/service/DeliveryManagementService.java:125-240 | the stored tables and the answer are those of the cancellation function |
| MockCommerce.ToLong | modules/integrations/src/main/java/com/subscriptionengine/integrations/commerce/impl/MockCommerceAdapter.java:42-44 | the result is a Java long congruent to the integer modulo 2^64, and equal to it when it fits |
| MockCommerce.StatusOf | modules/integrations/src/main/java/com/subscriptionengine/integrations/commerce/impl/MockCommerceAdapter.java:92-95 | a status other than PENDING is the one stored for that reference; an unknown reference reads PENDING |
| MockCommerce.ToLongAdd | modules/integrations/src/main/java/com/subscriptionengine/integrations/commerce/impl/MockCommerceAdapter.java:42-44 | wrapping after each addition of the stream sum gives the wrapped exact sum |
| MockCommerce.Create | modules/integrations/src/main/java/com/subscriptionengine/integrations/commerce/impl/MockCommerceAdapter.java:33-89 | creation succeeds exactly when every item has a total and a currency is given; a null total stores nothing; otherwise the new reference is stored CONFIRMED; a failure is "mock_error", a success reports the wrapped total, the currency and the item count |
| MockCommerce.CreateStoresConfirmed | modules/integrations/src/main/java/com/subscriptionengine/integrations/commerce/impl/MockCommerceAdapter.java:67-94 | after a creation the new order reads CONFIRMED and every other reference reads as before |
| MockCommerce.CreatedOrderCancels | modules/integrations/src/main/java/com/subscriptionengine/integrations/commerce/impl/MockCommerceAdapter.java:98-118 | an order just created can be cancelled, the result reports CONFIRMED as the previous status, and the order then reads CANCELLED |
| MockCommerce.Cancel | modules/integrations/src/main/java/com/subscriptionengine/integrations/commerce/impl/MockCommerceAdapter.java:98-119 | cancellation succeeds exactly for a known order that is neither SHIPPED nor DELIVERED; unknown references fail with "order_not_found", shipped or delivered ones with "cannot_cancel", both leaving the map; a success stores CANCELLED and reports the previous status |
| MockCommerce.CancelIdempotent | modules/integrations/src/main/java/com/subscriptionengine/integrations/commerce/impl/MockCommerceAdapter.java:106-118 | a second cancellation of the same order succeeds again and changes nothing |
| MockCommerce.CancelTouchesOnlyItsOrder | modules/integrations/src/main/java/com/subscriptionengine/integrations/commerce/impl/MockCommerceAdapter.java:110 | cancelling one order leaves the status of every other reference unchanged |
| MockCommerce.ReportedTotalIsSum | modules/integrations/src/main/java/com/subscriptionengine/integrations/commerce/impl/MockCommerceAdapter.java:42-44 | the reported order total is the exact sum of the item totals when that sum fits in a long |
| MockCommerce.Adapter.constructor | modules/integrations/src/main/java/com/subscriptionengine/integrations/commerce/impl/MockCommerceAdapter.java:30 | the adapter starts with no orders |
| MockCommerce.Adapter.CreateOrder | modules/integrations/src/main/java/com/subscriptionengine/integrations/commerce/impl/MockCommerceAdapter.java:33-89 | the result and the new status map are those of the creation function |
| MockCommerce.Adapter.CancelOrder | modules/integrations/src/main/java/com/subscriptionengine/integrations/commerce/impl/MockCommerceAdapter.java:98-119 | the result and the new status map are those of the cancellation function |
| MockEntitlement.EntitlementKey | modules/integrations/src/main/java/com/subscriptionengine/integrations/entitlements/impl/MockEntitlementAdapter.java:165-167 | a key exists exactly when a customer id is given |
| MockEntitlement.StatusOf | modules/integrations/src/main/java/com/subscriptionengine/integrations/entitlements/impl/MockEntitlementAdapter.java:141-143 | a status other than PENDING is the one stored under the customer:product key; an unknown pair reads PENDING |
| MockEntitlement.KeysIdentifyPairs | modules/integrations/src/main/java/com/subscriptionengine/integrations/entitlements/impl/MockEntitlementAdapter.java:165-167 | for customer ids without colons, two keys are equal exactly when the customers are equal and the product texts are equal |
| MockEntitlement.Update | modules/integrations/src/main/java/com/subscriptionengine/integrations/entitlements/impl/MockEntitlementAdapter.java:33-138 | an operation succeeds exactly when the customer id is present and the provider data can be built; without a customer id nothing is stored; otherwise the pair's key is set to the target status; failures carry the operation's error code, successes the target status and the prefixed reference |
| MockEntitlement.Grant | modules/integrations/src/main/java/com/subscriptionengine/integrations/entitlements/impl/MockEntitlementAdapter.java:33-74 | a grant succeeds exactly when customer, product, plan and both period ends are present, and fails with "mock_grant_error" otherwise |
| MockEntitlement.Suspend | modules/integrations/src/main/java/com/subscriptionengine/integrations/entitlements/impl/MockEntitlementAdapter.java:77-106 | a suspension succeeds exactly when customer and product are present, and fails with "mock_suspend_error" otherwise |
| MockEntitlement.Revoke | modules/integrations/src/main/java/com/subscriptionengine/integrations/entitlements/impl/MockEntitlementAdapter.java:109-138 | a revocation succeeds exactly when customer and product are present, and fails with "mock_revoke_error" otherwise |
| MockEntitlement.UpdateSetsOnlyItsPair | modules/integrations/src/main/java/com/subscriptionengine/integrations/entitlements/impl/MockEntitlementAdapter.java:141-149 | after any operation with a customer id the pair reads the target status, and every pair with another key reads as before |
| MockEntitlement.OperationsSetTheirStatus | modules/integrations/src/main/java/com/subscriptionengine/integrations/entitlements/impl/MockEntitlementAdapter.java:50-118 | grant, suspend and revoke leave their pair ACTIVE, SUSPENDED and REVOKED |
| MockEntitlement.NoCustomerNoChange | modules/integrations/src/main/java/com/subscriptionengine/integrations/entitlements/impl/MockEntitlementAdapter.java:37-138 | a request without a customer id changes no status |
| MockEntitlement.GrantAfterRevoke | modules/integrations/src/main/java/com/subscriptionengine/integrations/entitlements/impl/MockEntitlementAdapter.java:50-118 | a revoked pair becomes ACTIVE again after a later grant |
| MockEntitlement.Adapter.constructor | modules/integrations/src/main/java/com/subscriptionengine/integrations/entitlements/impl/MockEntitlementAdapter.java:30 | the adapter starts with no statuses |
| MockEntitlement.Adapter.Apply | modules/integrations/src/main/java/com/subscriptionengine/integrations/entitlements/impl/MockEntitlementAdapter.java:37-67 | the result and the new status map are those of the shared update function |
| MockEntitlement.Adapter.GrantEntitlements | modules/integrations/src/main/java/com/subscriptionengine/integrations/entitlements/impl/MockEntitlementAdapter.java:33-74 | the result and the new status map are those of the grant function |
| MockEntitlement.Adapter.SuspendEntitlements | modules/integrations/src/main/java/com/subscriptionengine/integrations/entitlements/impl/MockEntitlementAdapter.java:77-106 | the result and the new status map are those of the suspend function |
| MockEntitlement.Adapter.RevokeEntitlements | modules/integrations/src/main/java/com/subscriptionengine/integrations/entitlements/impl/MockEntitlementAdapter.java:109-138 | the result and the new status map are those of the revoke function |
| SubscriptionStore.FindOwned | modules/domain-subscriptions/src/main/java/com/subscriptionengine/subscriptions/service/SubscriptionManagementService.java:61-81 | a subscription is found exactly when the row with that id belongs to the tenant and the customer, and it is that row |
| SubscriptionStore.Store.constructor | modules/domain-subscriptions/src/main/java/com/subscriptionengine/subscriptions/service/SubscriptionManagementService.java:213-214 | the store starts with the given tables |
| SubscriptionStore.Store.Commit | modules/domain-subscriptions/src/main/java/com/subscriptionengine/subscriptions/service/SubscriptionManagementService.java:213-214 | a committed transaction leaves every table with the rows computed for it |
| SubscriptionManagement.LikeAsWrittenNeverMatches | modules/domain-subscriptions/src/main/java/com/subscriptionengine/subscriptions/service/SubscriptionManagementService.java:265-266 | the pattern '"subscriptionId":"<id>"' matches the jsonb text of no payload at all, whatever its keys and values hold, for an id that does not start with ":", "," or "}" (a UUID never does) |
| SubscriptionManagement.ProductRenewalMissedAsWritten | modules/domain-subscriptions/src/main/java/com/subscriptionengine/subscriptions/service/SubscriptionManagementService.java:401-409 | the product renewal payload the scheduler writes, with any scheduledAt timestamp text, names the subscription, yet the pattern as written misses it |
| SubscriptionManagement.CancelAsWrittenFailsRenewalOnly | modules/domain-subscriptions/src/main/java/com/subscriptionengine/subscriptions/service/SubscriptionManagementService.java:252-268 | as written, a cancellation fails a task exactly when it is live and holds the subscription's renewal key: no product renewal is matched |
| SubscriptionManagement.ModifiedAttrs | modules/domain-subscriptions/src/main/java/com/subscriptionengine/subscriptions/service/SubscriptionManagementService.java:117-142 | the stored attributes are kept except the keys a modification writes; modifiedAt and modifiedBy are always set, the plan change pair, newQuantity, paymentMethodUpdated and shippingAddressUpdated exactly when given |
| SubscriptionManagement.ModifiedRenewal | modules/domain-subscriptions/src/main/java/com/subscriptionengine/subscriptions/service/SubscriptionManagementService.java:186-187 | the renewal is the stored next renewal, else one month after the period end, else one month after now |
| SubscriptionManagement.ModifiedRow | modules/domain-subscriptions/src/main/java/com/subscriptionengine/subscriptions/service/SubscriptionManagementService.java:144-161 | plan, payment method and shipping address change only when given, the next renewal is set, and nothing else of the row changes besides the attributes and the update time |
| SubscriptionManagement.ModifiedItems | modules/domain-subscriptions/src/main/java/com/subscriptionengine/subscriptions/service/SubscriptionManagementService.java:168-184 | the subscription's items take the new plan and quantity when given, and every other item is untouched |
| SubscriptionManagement.Modify | modules/domain-subscriptions/src/main/java/com/subscriptionengine/subscriptions/service/SubscriptionManagementService.java:46-211 | a subscription that is not the customer's, not ACTIVE or PAUSED, set to cancel at period end, or given a plan foreign to the tenant answers false with no write; otherwise the row, the items and the renewal task are written, and a failing renewal upsert throws |
| SubscriptionManagement.CancelAttrs | modules/domain-subscriptions/src/main/java/com/subscriptionengine/subscriptions/service/SubscriptionManagementService.java:276-290 | the stored attributes are kept and the four cancellation keys are written: request time, reason (null when missing), type IMMEDIATE or END_OF_PERIOD, cancelled by customer |
| SubscriptionManagement.CancelledRow | modules/domain-subscriptions/src/main/java/com/subscriptionengine/subscriptions/service/SubscriptionManagementService.java:295-328 | an immediate cancellation makes the row CANCELED with cancelAtPeriodEnd false and the cancel time; an end-of-period one keeps the status with cancelAtPeriodEnd true; both drop the next renewal and store the reason |
| SubscriptionManagement.CancelEffects | modules/domain-subscriptions/src/main/java/com/subscriptionengine/subscriptions/service/SubscriptionManagementService.java:252-328 | the live renewal task of the subscription and its live product renewals become FAILED with "Subscription cancelled by customer", the row is cancelled, and nothing else changes; corrected (Findings row 3): the product renewals are those whose payload names the subscription, where the LIKE as written finds none (see CancelEffectsAsWritten) |
| SubscriptionManagement.CancelEffectsAsWritten | modules/domain-subscriptions/src/main/java/com/subscriptionengine/subscriptions/service/SubscriptionManagementService.java:252-328 | as written: the live tasks with the renewal key or a product renewal payload matching the LIKE pattern become FAILED with "Subscription cancelled by customer", the row is cancelled, and nothing else changes |
| SubscriptionManagement.CancelAsWritten | modules/domain-subscriptions/src/main/java/com/subscriptionengine/subscriptions/service/SubscriptionManagementService.java:214-349 | as written: a reasonless cancellation of a manageable subscription throws (Map.of on a null reason), and the live tasks failed are those CancelEffectsAsWritten selects with the LIKE pattern |
| SubscriptionManagement.CancelWithoutReasonThrows | modules/domain-subscriptions/src/main/java/com/subscriptionengine/subscriptions/service/SubscriptionHistoryService.java:94-97 | a reasonless cancellation of a subscription that may be cancelled fails as written |
| SubscriptionManagement.RecordCancellationOrNone | modules/domain-subscriptions/src/main/java/com/subscriptionengine/subscriptions/service/SubscriptionHistoryService.java:94-97 | with a reason the history row is recordCancellation's; without one it is a CANCELED row with no metadata |
| SubscriptionManagement.Cancel | modules/domain-subscriptions/src/main/java/com/subscriptionengine/subscriptions/service/SubscriptionManagementService.java:214-349 | corrected (Findings rows 2 and 3): the cancellation goes through exactly when the subscription is the customer's and ACTIVE or PAUSED; otherwise nothing is written; a missing reason records no metadata instead of throwing, and product renewals naming the subscription are failed; with a reason it agrees with the code as written in its answer and in every table but the tasks |
| SubscriptionManagement.CancelAsWrittenKeepsProductRenewals | modules/domain-subscriptions/src/main/java/com/subscriptionengine/subscriptions/service/SubscriptionManagementService.java:252-268 | as written, a successful cancellation leaves every task without the renewal key unchanged, live product renewals included |
| SubscriptionManagement.PausedRow | modules/domain-subscriptions/src/main/java/com/subscriptionengine/subscriptions/service/SubscriptionManagementService.java:418-430 | the paused row is PAUSED without a next renewal, with exactly the pause attributes, and keeps its period and identity |
| SubscriptionManagement.Pause | modules/domain-subscriptions/src/main/java/com/subscriptionengine/subscriptions/service/SubscriptionManagementService.java:360-453 | only the customer's ACTIVE subscription is paused; its live product renewals become FAILED, the row is paused and a PAUSED history row records the reason or the default; corrected (Findings row 3): the product renewals failed are those whose payload names the subscription, where the LIKE as written finds none (see PauseAsWritten) |
| SubscriptionManagement.PauseAsWritten | modules/domain-subscriptions/src/main/java/com/subscriptionengine/subscriptions/service/SubscriptionManagementService.java:360-453 | as written: the same answer and the same tables as the corrected pause except the tasks, where only product renewals matching the LIKE pattern are failed |
| SubscriptionManagement.PauseAsWrittenKeepsTasks | modules/domain-subscriptions/src/main/java/com/subscriptionengine/subscriptions/service/SubscriptionManagementService.java:401-409 | as written, a pause leaves every task unchanged |
| SubscriptionManagement.ResumedRow | modules/domain-subscriptions/src/main/java/com/subscriptionengine/subscriptions/service/SubscriptionManagementService.java:505-522 | the resumed row is ACTIVE, renews one month after its period end and carries exactly the resume attributes |
| SubscriptionManagement.Resume | modules/domain-subscriptions/src/main/java/com/subscriptionengine/subscriptions/service/SubscriptionManagementService.java:463-551 | only the customer's PAUSED subscription is resumed; a missing period end throws; otherwise the row, the renewal task and a RESUMED history row are written, unless the upsert throws |
| SubscriptionManagement.Details | modules/domain-subscriptions/src/main/java/com/subscriptionengine/subscriptions/service/SubscriptionManagementService.java:560-629 | the view is present exactly when the subscription is the customer's and has a period end; it shows the status, canPause exactly for ACTIVE, canResume exactly for PAUSED, canCancel exactly for ACTIVE or PAUSED, and the history exactly when attributes exist |
| SubscriptionManagement.CapabilitiesMatchOperations | modules/domain-subscriptions/src/main/java/com/subscriptionengine/subscriptions/service/SubscriptionManagementService.java:608-610 | the capability flags tell the truth: pause and cancel succeed exactly when offered, and resume acts exactly when offered |
| SubscriptionManagement.EndOfPeriodCancelBlocksModify | modules/domain-subscriptions/src/main/java/com/subscriptionengine/subscriptions/service/SubscriptionManagementService.java:92-96 | after an end-of-period cancellation, a modification answers false and writes nothing |
| SubscriptionManagement.ImmediateCancelIsFinal | modules/domain-subscriptions/src/main/java/com/subscriptionengine/subscriptions/service/SubscriptionManagementService.java:295-306 | after an immediate cancellation, modify, pause, resume and cancel all answer false and write nothing |
| SubscriptionManagement.CanceledIsFinal | modules/domain-subscriptions/src/main/java/com/subscriptionengine/subscriptions/service/SubscriptionManagementService.java:77-98 | a CANCELED subscription, or one the customer does not own, cannot be modified, paused, resumed or cancelled, and nothing is written |
| SubscriptionManagement.PauseThenResume | modules/domain-subscriptions/src/main/java/com/subscriptionengine/subscriptions/service/SubscriptionManagementService.java:389-534 | a second pause after a pause answers false, and a resume then makes the subscription ACTIVE with a renewal one month after its period end |
| SubscriptionManagement.FindSubscriptionUpdated | modules/domain-subscriptions/src/main/java/com/subscriptionengine/subscriptions/service/SubscriptionManagementService.java:144-161 | rewriting the found row under the same id leaves every lookup unchanged |
| SubscriptionManagement.FindSubscriptionSameIds | modules/domain-subscriptions/src/main/java/com/subscriptionengine/subscriptions/service/SubscriptionManagementService.java:72-75 | tables whose rows agree on ids find a subscription at the same position |
| SubscriptionManagement.ModifySubscription | modules/domain-subscriptions/src/main/java/com/subscriptionengine/subscriptions/service/SubscriptionManagementService.java:46-211 | the answer and the new tables are those of the modification function, and a thrown error leaves every table as it was |
| SubscriptionManagement.CancelSubscription | modules/domain-subscriptions/src/main/java/com/subscriptionengine/subscriptions/service/SubscriptionManagementService.java:214-349 | the answer and the new tables are those of the cancellation function; corrected like that function (Findings rows 2 and 3) |
| SubscriptionManagement.PauseSubscription | modules/domain-subscriptions/src/main/java/com/subscriptionengine/subscriptions/service/SubscriptionManagementService.java:360-453 | the answer and the new tables are those of the pause function; corrected like that function (Findings row 3) |
| SubscriptionManagement.ResumeSubscription | modules/domain-subscriptions/src/main/java/com/subscriptionengine/subscriptions/service/SubscriptionManagementService.java:463-551 | the answer and the new tables are those of the resume function, and a thrown error leaves every table as it was |
| Subscriptions.PeriodEnd | modules/domain-subscriptions/src/main/java/com/subscriptionengine/subscriptions/service/SubscriptionsService.java:480-495 | the period end is the billing service's period end for an interval count of one: one day, week, month, three months or a year after start, case-insensitively, and an error for a null or unknown interval |
| Subscriptions.PerformedByType | modules/domain-subscriptions/src/main/java/com/subscriptionengine/subscriptions/service/SubscriptionsService.java:503-519 | the actor kind is CUSTOMER exactly for the role CUSTOMER, ADMIN exactly for SUPER_ADMIN, TENANT_ADMIN or STAFF, and SYSTEM otherwise |
| Subscriptions.PerformedByTypeOfRole | modules/domain-subscriptions/src/main/java/com/subscriptionengine/subscriptions/service/SubscriptionsService.java:509-515 | every role's own name is classified as ADMIN for the administrative roles and CUSTOMER for the customer role |
| Subscriptions.ValidateAndGetPlan | modules/domain-subscriptions/src/main/java/com/subscriptionengine/subscriptions/service/SubscriptionsService.java:352-367 | a plan missing from the tenant fails with "Plan not found", an inactive one with "Plan is not active", and a success returns the tenant's ACTIVE plan with that id |
| Subscriptions.MatchPositions | modules/domain-subscriptions/src/main/java/com/subscriptionengine/subscriptions/service/SubscriptionsService.java:376-386 | the positions returned are exactly the customers the email lookup, or without an email the external-id lookup, matches |
| Subscriptions.MatchPositionsAgree | modules/domain-subscriptions/src/main/java/com/subscriptionengine/subscriptions/service/SubscriptionsService.java:376-386 | tables whose rows match the lookup at the same places give the same matches |
| Subscriptions.UpsertCustomer | modules/domain-subscriptions/src/main/java/com/subscriptionengine/subscriptions/service/SubscriptionsService.java:372-417 | a lookup with several rows throws; a single match gets the request's names and phone in place; otherwise a new ACTIVE REGISTERED customer of the tenant is appended; the customer returned is in the new table with the requested names |
| Subscriptions.UpsertCustomerIdempotent | modules/domain-subscriptions/src/main/java/com/subscriptionengine/subscriptions/service/SubscriptionsService.java:372-417 | upserting the same customer again by email or external id finds the customer left by the first upsert and changes nothing |
| Subscriptions.InsertedIsFound | modules/domain-subscriptions/src/main/java/com/subscriptionengine/subscriptions/service/SubscriptionsService.java:400-413 | after an insert, the lookup finds exactly the new row |
| Subscriptions.NewSubscriptionRow | modules/domain-subscriptions/src/main/java/com/subscriptionengine/subscriptions/service/SubscriptionsService.java:116-130 | the new subscription is TRIALING exactly when a trial start is given and ACTIVE otherwise; its period runs from start to end; it renews at the trial end, else at the period end; it is not set to cancel |
| Subscriptions.ItemRow | modules/domain-subscriptions/src/main/java/com/subscriptionengine/subscriptions/service/SubscriptionsService.java:444-469 | an item row is written exactly when the product has an id, a name, a quantity, a unit price and a currency, and it carries them with the subscription, the tenant and the plan id given |
| Subscriptions.InsertItems | modules/domain-subscriptions/src/main/java/com/subscriptionengine/subscriptions/service/SubscriptionsService.java:444-473 | the rows of all products are appended in order after the existing items, each the product's item row |
| Subscriptions.ItemsAsWrittenAreUnfindable | modules/domain-subscriptions/src/main/java/com/subscriptionengine/subscriptions/service/SubscriptionsService.java:449 | as written, each item gets a random placeholder plan id, so when no placeholder equals the plan id, the product renewal's lookup by subscription, tenant and plan finds none of the new items |
| Subscriptions.ItemsAreFindable | modules/domain-subscriptions/src/main/java/com/subscriptionengine/subscriptions/service/SubscriptionsService.java:442-474 | with the subscription's plan id on each item, every new item is among those the product renewal finds |
| Subscriptions.ProductRenewalTasks | modules/domain-subscriptions/src/main/java/com/subscriptionengine/subscriptions/service/SubscriptionsService.java:194-200 | the product renewal tasks exist exactly when every product has an id: one per product, in order, due at the end of the first period |
| Subscriptions.InsertAll | modules/domain-subscriptions/src/main/java/com/subscriptionengine/subscriptions/service/SubscriptionsService.java:196-200 | a successful insertion appends the new rows after the existing ones and changes no existing row |
| Subscriptions.InsertProductRenewals | modules/domain-subscriptions/src/main/java/com/subscriptionengine/subscriptions/service/SubscriptionsService.java:194-200 | the product renewals are appended after the existing tasks, and existing rows are kept |
| Subscriptions.ExtendsTrans | modules/domain-subscriptions/src/main/java/com/subscriptionengine/subscriptions/service/SubscriptionsService.java:190-204 | appending keeps the existing rows across consecutive scheduling steps |
| Subscriptions.TrialTask | modules/domain-subscriptions/src/main/java/com/subscriptionengine/subscriptions/service/SubscriptionsService.java:190-192 | a trial-end task is inserted exactly when a trial end is given, due at the trial end |
| Subscriptions.RenewalTasks | modules/domain-subscriptions/src/main/java/com/subscriptionengine/subscriptions/service/SubscriptionsService.java:194-204 | a product subscription gets its product renewals; a simple one gets the renewal upsert at its next renewal |
| Subscriptions.CreationTasks | modules/domain-subscriptions/src/main/java/com/subscriptionengine/subscriptions/service/SubscriptionsService.java:190-204 | creation schedules the trial-end task first, then the renewals, and fails when either step fails |
| Subscriptions.Prepare | modules/domain-subscriptions/src/main/java/com/subscriptionengine/subscriptions/service/SubscriptionsService.java:94-130 | a prepared creation has the tenant's ACTIVE plan, products that pass the plan validation, the upserted customer, and the row for the start date (now when none is given) and the period end |
| Subscriptions.Create | modules/domain-subscriptions/src/main/java/com/subscriptionengine/subscriptions/service/SubscriptionsService.java:85-210 | a plan missing from the tenant fails; a success returns the new id, appends exactly the new row, keeps the plans, writes the upserted customers, the items of a product subscription, the scheduled tasks, and the history: the creation record, then, for a product subscription, the products-update record for the number of products; corrected (Findings row 4): each product item carries the plan id rather than the random placeholder |
| Subscriptions.CreatedSubscriptionState | modules/domain-subscriptions/src/main/java/com/subscriptionengine/subscriptions/service/SubscriptionsService.java:106-130 | a created subscription is TRIALING exactly when a trial start is given, ends its first period one interval after start, renews at the trial end or the period end, is not set to cancel, and is found under its id |
| Subscriptions.UpsertRenewalSchedules | modules/domain-subscriptions/src/main/java/com/subscriptionengine/subscriptions/service/SubscriptionsService.java:203 | a successful renewal upsert leaves a READY task under the renewal key, due at the requested date |
| Subscriptions.SimpleSubscriptionRenewalScheduled | modules/domain-subscriptions/src/main/java/com/subscriptionengine/subscriptions/service/SubscriptionsService.java:201-204 | a simple subscription has a READY renewal task due at its next renewal |
| Subscriptions.ProductRenewalsScheduled | modules/domain-subscriptions/src/main/java/com/subscriptionengine/subscriptions/service/SubscriptionsService.java:194-200 | a product subscription gets one renewal task per product, due at the end of the first period, after the trial task if there is one |
| Subscriptions.CreateSubscription | modules/domain-subscriptions/src/main/java/com/subscriptionengine/subscriptions/service/SubscriptionsService.java:85-210 | the answer and the new tables are those of the creation function, and a failure leaves every table as it was; corrected like that function (Findings row 4) |
| Subscriptions.CreateItems | modules/domain-subscriptions/src/main/java/com/subscriptionengine/subscriptions/service/SubscriptionsService.java:442-474 | the loop writes exactly the items of the item function, and any failure is reported as the item creation failing; corrected (Findings row 4): the items carry the plan id rather than a random placeholder |
| EcommerceSubscriptions.PeriodEnd | modules/domain-subscriptions/src/main/java/com/subscriptionengine/subscriptions/service/EcommerceSubscriptionService.java:254-271 | the period end exists exactly when the interval, upper-cased, is one of the five standard names or their short forms; it is count intervals after start, count defaulting to one |
| EcommerceSubscriptions.EndByNameAccepts | modules/domain-subscriptions/src/main/java/com/subscriptionengine/subscriptions/service/EcommerceSubscriptionService.java:257-270 | the switch has a case for exactly the accepted names |
| EcommerceSubscriptions.EndByNameValue | modules/domain-subscriptions/src/main/java/com/subscriptionengine/subscriptions/service/EcommerceSubscriptionService.java:258-268 | each case adds count of its standard interval, quarters being three months |
| EcommerceSubscriptions.PeriodEndAgreesWithInvoicing | modules/domain-subscriptions/src/main/java/com/subscriptionengine/subscriptions/service/EcommerceSubscriptionService.java:254-271 | for every interval invoice generation accepts, this service ends the period at the same instant |
| EcommerceSubscriptions.PeriodEndIgnoresCase | modules/domain-subscriptions/src/main/java/com/subscriptionengine/subscriptions/service/EcommerceSubscriptionService.java:257 | an accepted interval name ends the period where its upper-case spelling does |
| EcommerceSubscriptions.RequestedPlanIds | modules/domain-subscriptions/src/main/java/com/subscriptionengine/subscriptions/service/EcommerceSubscriptionService.java:157-160 | the requested ids are the products' plan ids in order, a missing one being null |
| EcommerceSubscriptions.PlanMap | modules/domain-subscriptions/src/main/java/com/subscriptionengine/subscriptions/service/EcommerceSubscriptionService.java:166-174 | the first loop succeeds exactly when every fetched plan is in the tenant and ACTIVE, and then maps each fetched plan's id to that plan |
| EcommerceSubscriptions.PlanMapStep | modules/domain-subscriptions/src/main/java/com/subscriptionengine/subscriptions/service/EcommerceSubscriptionService.java:166-174 | one more fetched plan fails with "Plan not found" for another tenant, "Plan is not active" when inactive, and otherwise is added under its id |
| EcommerceSubscriptions.PlanMapFailureSticks | modules/domain-subscriptions/src/main/java/com/subscriptionengine/subscriptions/service/EcommerceSubscriptionService.java:166-172 | once a prefix of the fetched plans fails, the whole loop fails with the same message |
| EcommerceSubscriptions.FirstMissing | modules/domain-subscriptions/src/main/java/com/subscriptionengine/subscriptions/service/EcommerceSubscriptionService.java:177-181 | the second loop finds the first requested id missing from the map, and none exactly when all are present |
| EcommerceSubscriptions.PlanCheckAccepts | modules/domain-subscriptions/src/main/java/com/subscriptionengine/subscriptions/service/EcommerceSubscriptionService.java:155-184 | plan validation succeeds exactly when every product names an existing plan and every plan so named is in the tenant and ACTIVE; its map then gives each product that plan |
| EcommerceSubscriptions.FetchedAreRequested | modules/domain-subscriptions/src/main/java/com/subscriptionengine/subscriptions/service/EcommerceSubscriptionService.java:163 | the fetched plans are exactly the table's plans some product names |
| EcommerceSubscriptions.MapHoldsExistingIds | modules/domain-subscriptions/src/main/java/com/subscriptionengine/subscriptions/service/EcommerceSubscriptionService.java:166-181 | the built map holds every requested id whose plan exists, and only ids of existing plans |
| EcommerceSubscriptions.ValidatePlans | modules/domain-subscriptions/src/main/java/com/subscriptionengine/subscriptions/service/EcommerceSubscriptionService.java:155-184 | the two loops return the plan check's map or error |
| EcommerceSubscriptions.FillPlanMap | modules/domain-subscriptions/src/main/java/com/subscriptionengine/subscriptions/service/EcommerceSubscriptionService.java:164-174 | the first loop returns the plan map or its first error |
| EcommerceSubscriptions.FindMissing | modules/domain-subscriptions/src/main/java/com/subscriptionengine/subscriptions/service/EcommerceSubscriptionService.java:177-181 | the second loop finds the first missing requested id |
| EcommerceSubscriptions.EmailPositions | modules/domain-subscriptions/src/main/java/com/subscriptionengine/subscriptions/service/EcommerceSubscriptionService.java:188-191 | the positions returned are exactly the tenant's customers with the request's email (null matching null), in table order |
| EcommerceSubscriptions.UpsertCustomer | modules/domain-subscriptions/src/main/java/com/subscriptionengine/subscriptions/service/EcommerceSubscriptionService.java:186-217 | more than one match throws; a single match gets the request's names and phone in place; no match appends a new ACTIVE customer; the customer returned matches the lookup and is in the new table |
| EcommerceSubscriptions.UpsertCustomerIdempotent | modules/domain-subscriptions/src/main/java/com/subscriptionengine/subscriptions/service/EcommerceSubscriptionService.java:186-217 | upserting the same customer again finds the customer left by the first upsert and changes nothing |
| EcommerceSubscriptions.FoundOnceIsKept | modules/domain-subscriptions/src/main/java/com/subscriptionengine/subscriptions/service/EcommerceSubscriptionService.java:193-200 | a single match that already has the request's names and phone leaves the table as it is |
| EcommerceSubscriptions.InsertedIsFound | modules/domain-subscriptions/src/main/java/com/subscriptionengine/subscriptions/service/EcommerceSubscriptionService.java:203-214 | after an insert, the lookup finds exactly the new row |
| EcommerceSubscriptions.EmailPositionsAgree | modules/domain-subscriptions/src/main/java/com/subscriptionengine/subscriptions/service/EcommerceSubscriptionService.java:188-191 | tables whose rows match the lookup at the same places give the same matches |
| EcommerceSubscriptions.ItemRow | modules/domain-subscriptions/src/main/java/com/subscriptionengine/subscriptions/service/EcommerceSubscriptionService.java:219-252 | an item row is written exactly when the product has an id, a name, a plan, a quantity, a price and a currency, and it is on the product's own plan |
| EcommerceSubscriptions.ProductDue | modules/domain-subscriptions/src/main/java/com/subscriptionengine/subscriptions/service/EcommerceSubscriptionService.java:138-139 | a product's renewal date is one interval of its own plan, that plan's count times, after the period start |
| EcommerceSubscriptions.RenewalTask | modules/domain-subscriptions/src/main/java/com/subscriptionengine/subscriptions/service/EcommerceSubscriptionService.java:138-141 | a product's renewal task exists exactly when its due date does and it has a product id, and it is the product renewal of the subscription, product and plan at that date |
| EcommerceSubscriptions.Turns | modules/domain-subscriptions/src/main/java/com/subscriptionengine/subscriptions/service/EcommerceSubscriptionService.java:133-142 | each product's turn is its item row and its renewal task |
| EcommerceSubscriptions.AddTurn | modules/domain-subscriptions/src/main/java/com/subscriptionengine/subscriptions/service/EcommerceSubscriptionService.java:133-142 | a turn succeeds exactly when its item has a fresh id and its task can be inserted, and appends both |
| EcommerceSubscriptions.AddProducts | modules/domain-subscriptions/src/main/java/com/subscriptionengine/subscriptions/service/EcommerceSubscriptionService.java:133-142 | the loop appends one item and one task per product after the existing rows |
| EcommerceSubscriptions.AddProductsRow | modules/domain-subscriptions/src/main/java/com/subscriptionengine/subscriptions/service/EcommerceSubscriptionService.java:133-142 | after the loop, the j-th product's item and task are at the j-th new place of their tables |
| EcommerceSubscriptions.WrapAdd | modules/domain-subscriptions/src/main/java/com/subscriptionengine/subscriptions/service/EcommerceSubscriptionService.java:307-309 | long addition of wrapped values wraps the exact sum |
| EcommerceSubscriptions.TotalCents | modules/domain-subscriptions/src/main/java/com/subscriptionengine/subscriptions/service/EcommerceSubscriptionService.java:307-309 | the stream sum exists exactly when every product has a quantity and a price, and is the exact total wrapped to a long |
| EcommerceSubscriptions.TotalIsExact | modules/domain-subscriptions/src/main/java/com/subscriptionengine/subscriptions/service/EcommerceSubscriptionService.java:307-310 | validated products whose exact total fits in a long are priced at that exact, non-negative total |
| EcommerceSubscriptions.AllMatch | modules/domain-subscriptions/src/main/java/com/subscriptionengine/subscriptions/service/EcommerceSubscriptionService.java:329-333 | with every plan and interval known, the match holds exactly when every remaining product's interval equals the first |
| EcommerceSubscriptions.BillingInterval | modules/domain-subscriptions/src/main/java/com/subscriptionengine/subscriptions/service/EcommerceSubscriptionService.java:320-336 | no products gives UNKNOWN; a shared interval is returned; a differing one gives MIXED |
| EcommerceSubscriptions.Response | modules/domain-subscriptions/src/main/java/com/subscriptionengine/subscriptions/service/EcommerceSubscriptionService.java:273-314 | the response carries the subscription's dates and status, the customer, the billing interval, the wrapped total and the first product's currency (USD without products); a single product names its plan, several name no plan and "Multi-Product Subscription" |
| EcommerceSubscriptions.TrialTask | modules/domain-subscriptions/src/main/java/com/subscriptionengine/subscriptions/service/EcommerceSubscriptionService.java:145-147 | a trial-end task due at the trial end is appended exactly when a trial end is given |
| EcommerceSubscriptions.Create | modules/domain-subscriptions/src/main/java/com/subscriptionengine/subscriptions/service/EcommerceSubscriptionService.java:71-153 | creation fails when plan validation fails; a success appends exactly the new subscription row, writes the upserted customer, the product items and renewals then the trial task, and answers the response for the new row |
| EcommerceSubscriptions.CreatedSubscriptionState | modules/domain-subscriptions/src/main/java/com/subscriptionengine/subscriptions/service/EcommerceSubscriptionService.java:85-104 | a created subscription is ACTIVE on the base plan, starts at the trial start, else the start date, else now, lasts one month, has no renewal date of its own, is not set to cancel, and belongs to a customer with the request's email |
| EcommerceSubscriptions.TurnRows | modules/domain-subscriptions/src/main/java/com/subscriptionengine/subscriptions/service/EcommerceSubscriptionService.java:133-147 | the loop and the trial task leave the j-th product's item and task at the j-th new place of each table |
| EcommerceSubscriptions.ProductRowsWritten | modules/domain-subscriptions/src/main/java/com/subscriptionengine/subscriptions/service/EcommerceSubscriptionService.java:133-147 | a creation appends one item and one renewal task per product, then the trial task if any, after the rows already there |
| EcommerceSubscriptions.ProductRowAt | modules/domain-subscriptions/src/main/java/com/subscriptionengine/subscriptions/service/EcommerceSubscriptionService.java:133-141 | the j-th product's item, on its own plan, and its renewal task, due one interval of that plan after the start, are at the j-th new place of their tables |
| EcommerceSubscriptions.ItemsAreFindable | modules/domain-subscriptions/src/main/java/com/subscriptionengine/subscriptions/service/EcommerceSubscriptionService.java:226 | each product's item carries the plan its renewal task names, so the renewal's invoice finds the item |
| EcommerceSubscriptions.RowFindable | modules/domain-subscriptions/src/main/java/com/subscriptionengine/subscriptions/service/EcommerceSubscriptionService.java:226-228 | an item row and the renewal task of the same product name the same plan, and the plan's renewal items include the item |
| EcommerceSubscriptions.CreateNeedsActivePlans | modules/domain-subscriptions/src/main/java/com/subscriptionengine/subscriptions/service/EcommerceSubscriptionService.java:79 | a creation goes through only when every product names an existing plan and every plan so named is in the tenant and ACTIVE |
| EcommerceSubscriptions.AddProductRows | modules/domain-subscriptions/src/main/java/com/subscriptionengine/subscriptions/service/EcommerceSubscriptionService.java:133-142 | the loop as written computes the product loop's rows |
| EcommerceSubscriptions.AddProductRow | modules/domain-subscriptions/src/main/java/com/subscriptionengine/subscriptions/service/EcommerceSubscriptionService.java:134-141 | one turn as written computes that product's turn |
| EcommerceSubscriptions.CreateEcommerceSubscription | modules/domain-subscriptions/src/main/java/com/subscriptionengine/subscriptions/service/EcommerceSubscriptionService.java:71-153 | the response and the new tables are those of the creation function, and a failure leaves every table as it was |
| SubscriptionHistory.JsonMembersSnoc | modules/domain-subscriptions/src/main/java/com/subscriptionengine/subscriptions/service/SubscriptionHistoryService.java:200-204 | one more entry adds a comma, unless it is the first, and its member |
| SubscriptionHistory.ToJson | modules/domain-subscriptions/src/main/java/com/subscriptionengine/subscriptions/service/SubscriptionHistoryService.java:195-211 | the builder loop writes "{", the members "key":"value" separated by commas, and "}" |
| SubscriptionHistory.NextQuote | modules/domain-subscriptions/src/main/java/com/subscriptionengine/subscriptions/service/SubscriptionHistoryService.java:202 | the position found is the first double quote at or after the start, or the end of the text |
| SubscriptionHistory.NextQuoteSkips | modules/domain-subscriptions/src/main/java/com/subscriptionengine/subscriptions/service/SubscriptionHistoryService.java:202 | a run without a quote followed by a quote is skipped whole |
| SubscriptionHistory.ParseMember | modules/domain-subscriptions/src/main/java/com/subscriptionengine/subscriptions/service/SubscriptionHistoryService.java:202 | a member read at the start of a text ends inside the text |
| SubscriptionHistory.MemberLayout | modules/domain-subscriptions/src/main/java/com/subscriptionengine/subscriptions/service/SubscriptionHistoryService.java:202 | a written member is a quote, the key, the colon between quotes, the value and a closing quote, followed by the rest |
| SubscriptionHistory.ParseMemberLayout | modules/domain-subscriptions/src/main/java/com/subscriptionengine/subscriptions/service/SubscriptionHistoryService.java:202 | a member at the start of a text reads back as that entry |
| SubscriptionHistory.ParseLastMember | modules/domain-subscriptions/src/main/java/com/subscriptionengine/subscriptions/service/SubscriptionHistoryService.java:202 | a lone member reads back as itself |
| SubscriptionHistory.ParseFirstMember | modules/domain-subscriptions/src/main/java/com/subscriptionengine/subscriptions/service/SubscriptionHistoryService.java:201-202 | a member followed by a comma reads as that member, then whatever the rest reads as |
| SubscriptionHistory.MembersRoundTrip | modules/domain-subscriptions/src/main/java/com/subscriptionengine/subscriptions/service/SubscriptionHistoryService.java:200-204 | the members written for quote-free entries read back as the same entries in the same order |
| SubscriptionHistory.JsonRoundTrip | modules/domain-subscriptions/src/main/java/com/subscriptionengine/subscriptions/service/SubscriptionHistoryService.java:195-211 | the text written for quote-free entries reads back as the same entries in the same order |
| SubscriptionHistory.QuoteInValueBreaksJson | modules/domain-subscriptions/src/main/java/com/subscriptionengine/subscriptions/service/SubscriptionHistoryService.java:202 | values are not escaped, so a reason holding a double quote does not read back |
| JsonInput.SkipWs | modules/domain-subscriptions/src/main/java/com/subscriptionengine/subscriptions/service/SubscriptionHistoryService.java:55 | the position after white space is within the text and not at white space |
| JsonInput.StringRest | modules/domain-subscriptions/src/main/java/com/subscriptionengine/subscriptions/service/SubscriptionHistoryService.java:55 | a string token's rest, when there is one, ends past its start and within the text |
| JsonInput.DigitsEnd | modules/domain-subscriptions/src/main/java/com/subscriptionengine/subscriptions/service/SubscriptionHistoryService.java:55 | a digit run ends at or after its start and within the text |
| JsonInput.Number | modules/domain-subscriptions/src/main/java/com/subscriptionengine/subscriptions/service/SubscriptionHistoryService.java:55 | a number, when there is one, is non-empty and within the text |
| JsonInput.Word | modules/domain-subscriptions/src/main/java/com/subscriptionengine/subscriptions/service/SubscriptionHistoryService.java:55 | true, false or null, when there, is non-empty and within the text |
| JsonInput.Value | modules/domain-subscriptions/src/main/java/com/subscriptionengine/subscriptions/service/SubscriptionHistoryService.java:55 | a JSON value, when there is one, is non-empty and within the text |
| JsonInput.Object | modules/domain-subscriptions/src/main/java/com/subscriptionengine/subscriptions/service/SubscriptionHistoryService.java:55 | an object's rest, when there is one, ends past its start and within the text |
| JsonInput.Member | modules/domain-subscriptions/src/main/java/com/subscriptionengine/subscriptions/service/SubscriptionHistoryService.java:55 | one member, when there is one, is non-empty and within the text |
| JsonInput.Members | modules/domain-subscriptions/src/main/java/com/subscriptionengine/subscriptions/service/SubscriptionHistoryService.java:55 | an object's members, when there are any, end past their start and within the text |
| JsonInput.Array | modules/domain-subscriptions/src/main/java/com/subscriptionengine/subscriptions/service/SubscriptionHistoryService.java:55 | an array's rest, when there is one, ends past its start and within the text |
| JsonInput.Elements | modules/domain-subscriptions/src/main/java/com/subscriptionengine/subscriptions/service/SubscriptionHistoryService.java:55 | an array's elements, when there are any, end past their start and within the text |
| JsonInput.PlainStringRest | modules/domain-subscriptions/src/main/java/com/subscriptionengine/subscriptions/service/SubscriptionHistoryService.java:55 | plain text followed by a quote is a whole string token's rest |
| JsonInput.MembersAfterMember | modules/domain-subscriptions/src/main/java/com/subscriptionengine/subscriptions/service/SubscriptionHistoryService.java:55 | after one member, a "}" closes the members and a "," hands over to the next member after white space |
| SubscriptionHistory.MemberChars | modules/domain-subscriptions/src/main/java/com/subscriptionengine/subscriptions/service/SubscriptionHistoryService.java:202 | where toJson puts the quotes, the colon, the key and the value of one member |
| SubscriptionHistory.MembersStartWithQuote | modules/domain-subscriptions/src/main/java/com/subscriptionengine/subscriptions/service/SubscriptionHistoryService.java:200-204 | written members start with the first key's opening quote |
| SubscriptionHistory.PlainMemberParse | modules/domain-subscriptions/src/main/java/com/subscriptionengine/subscriptions/service/SubscriptionHistoryService.java:202 | a plain member as written is one JSON object member, ending where the written text ends |
| SubscriptionHistory.MembersAfterFirst | modules/domain-subscriptions/src/main/java/com/subscriptionengine/subscriptions/service/SubscriptionHistoryService.java:200-204 | after a plain first member, a "}" closes the members and a "," hands over to the next member |
| SubscriptionHistory.PlainMembersParse | modules/domain-subscriptions/src/main/java/com/subscriptionengine/subscriptions/service/SubscriptionHistoryService.java:200-204 | a run of plain members closed by "}" parses as a JSON object's members up to the brace |
| SubscriptionHistory.PlainMetadataIsJson | modules/domain-subscriptions/src/main/java/com/subscriptionengine/subscriptions/service/SubscriptionHistoryService.java:195-211 | toJson's text of plain metadata is JSON, so the jsonb column accepts it |
| SubscriptionHistory.QuotedReasonText | modules/domain-subscriptions/src/main/java/com/subscriptionengine/subscriptions/service/SubscriptionHistoryService.java:195-211 | toJson writes the reason say "hi" as {"reason":"say "hi""}, unescaped |
| SubscriptionHistory.QuotedReasonTextIsNotJson | modules/domain-subscriptions/src/main/java/com/subscriptionengine/subscriptions/service/SubscriptionHistoryService.java:55 | that text is not JSON: the string ends at the inner quote and "h" follows where "," or "}" must |
| SubscriptionHistory.QuotedReasonIsNotJson | modules/domain-subscriptions/src/main/java/com/subscriptionengine/subscriptions/service/SubscriptionHistoryService.java:195-211 | so toJson's text of a reason holding a double quote is refused by the jsonb column |
| SubscriptionHistory.PlainMetadataIsRecorded | modules/domain-subscriptions/src/main/java/com/subscriptionengine/subscriptions/service/SubscriptionHistoryService.java:37-67 | with a free id, plain metadata is always recorded: the row is appended |
| SubscriptionHistory.QuotedReasonLeavesNoRow | modules/domain-subscriptions/src/main/java/com/subscriptionengine/subscriptions/service/SubscriptionHistoryService.java:37-67 | a pause or cancellation whose reason holds a double quote leaves the history unchanged, though it succeeds |
| SubscriptionHistory.RecordAction | modules/domain-subscriptions/src/main/java/com/subscriptionengine/subscriptions/service/SubscriptionHistoryService.java:37-67 | recording never fails the caller: the new row, with the metadata as toJson's text, is appended when its id is free and that text is JSON; otherwise the insert throws, the error is swallowed and the history is unchanged; existing rows are kept |
| SubscriptionHistory.RecordedMetadataReadsBack | modules/domain-subscriptions/src/main/java/com/subscriptionengine/subscriptions/service/SubscriptionHistoryService.java:55 | a row recorded with plain metadata (no quote, backslash or control character) is appended, and its metadata reads back as the map that was recorded |
| SubscriptionHistory.RecordCreation | modules/domain-subscriptions/src/main/java/com/subscriptionengine/subscriptions/service/SubscriptionHistoryService.java:72-74 | a CREATED row without metadata, noted "Subscription created" |
| SubscriptionHistory.RecordPause | modules/domain-subscriptions/src/main/java/com/subscriptionengine/subscriptions/service/SubscriptionHistoryService.java:79-82 | a pause is recorded only when a reason is given (Map.of throws on null): PAUSED with metadata {reason}, noted "Subscription paused", under recordAction's insert-or-swallow rule |
| SubscriptionHistory.RecordResume | modules/domain-subscriptions/src/main/java/com/subscriptionengine/subscriptions/service/SubscriptionHistoryService.java:87-89 | a RESUMED row without metadata, noted "Subscription resumed" |
| SubscriptionHistory.RecordCancellation | modules/domain-subscriptions/src/main/java/com/subscriptionengine/subscriptions/service/SubscriptionHistoryService.java:94-97 | a cancellation is recorded only when a reason is given: CANCELED with metadata {reason}, noted "Subscription canceled", under recordAction's insert-or-swallow rule |
| SubscriptionHistory.RecordPlanChange | modules/domain-subscriptions/src/main/java/com/subscriptionengine/subscriptions/service/SubscriptionHistoryService.java:102-120 | a plan change is recorded exactly when both ids and both names are given: a PLAN_CHANGED row with the four values, noted "Plan changed from <old> to <new>" |
| SubscriptionHistory.RecordPaymentUpdate | modules/domain-subscriptions/src/main/java/com/subscriptionengine/subscriptions/service/SubscriptionHistoryService.java:125-127 | a PAYMENT_UPDATED row without metadata, noted "Payment method updated" |
| SubscriptionHistory.RecordProductsUpdate | modules/domain-subscriptions/src/main/java/com/subscriptionengine/subscriptions/service/SubscriptionHistoryService.java:132-136 | a PRODUCTS_UPDATED row with the product count, noted "Subscription products updated (<n> items)" |
| SubscriptionHistory.RecordShippingUpdate | modules/domain-subscriptions/src/main/java/com/subscriptionengine/subscriptions/service/SubscriptionHistoryService.java:141-143 | a SHIPPING_UPDATED row without metadata, noted "Shipping address updated" |
| SubscriptionHistory.RecordMetadataUpdate | modules/domain-subscriptions/src/main/java/com/subscriptionengine/subscriptions/service/SubscriptionHistoryService.java:148-150 | a METADATA_UPDATED row without metadata, noted "Metadata updated" |
| SubscriptionHistory.RecordArchival | modules/domain-subscriptions/src/main/java/com/subscriptionengine/subscriptions/service/SubscriptionHistoryService.java:155-158 | an archival is recorded exactly when a reason is given: an ARCHIVED row with metadata {reason}, noted "Subscription archived" |
| SubscriptionHistory.ReasonMetadataIsReason | modules/domain-subscriptions/src/main/java/com/subscriptionengine/subscriptions/service/SubscriptionHistoryService.java:79-97 | a pause or cancellation with a plain reason appends one row under its action whose metadata reads back as exactly {reason} |
| SubscriptionHistory.HistoryIsNewestFirst | modules/domain-subscriptions/src/main/java/com/subscriptionengine/subscriptions/service/SubscriptionHistoryService.java:163-168 | the history holds exactly the subscription's rows, ordered newest first |
| SubscriptionHistory.HistoryPage | modules/domain-subscriptions/src/main/java/com/subscriptionengine/subscriptions/service/SubscriptionHistoryService.java:173-180 | a page exists exactly when the limit and the offset are not negative; it holds at most size rows, each the history row at offset plus its position |
| SubscriptionHistory.HistoryPageIsComplete | modules/domain-subscriptions/src/main/java/com/subscriptionengine/subscriptions/service/SubscriptionHistoryService.java:173-180 | a page holds every history row from its offset up to its size |
| SubscriptionHistory.HistoryCount | modules/domain-subscriptions/src/main/java/com/subscriptionengine/subscriptions/service/SubscriptionHistoryService.java:185-190 | the count is the number of the subscription's rows, the length of its history |
| Jsonb.KeyOrder | modules/domain-subscriptions/src/main/java/com/subscriptionengine/subscriptions/service/SubscriptionManagementService.java:265-266 | jsonb's key order, shorter keys first and then character by character, is a strict total order |
| Jsonb.LeastExists | modules/domain-subscriptions/src/main/java/com/subscriptionengine/subscriptions/service/SubscriptionManagementService.java:265-266 | every non-empty set of keys has a first key in that order |
| Jsonb.SortedKeys | modules/domain-subscriptions/src/main/java/com/subscriptionengine/subscriptions/service/SubscriptionManagementService.java:265-266 | the keys of an object are listed once each, in jsonb's order |
| Jsonb.EscapeChar | modules/domain-subscriptions/src/main/java/com/subscriptionengine/subscriptions/service/SubscriptionManagementService.java:265-266 | an escaped character is never empty and holds a colon exactly when the character is one |
| Jsonb.Escape | modules/domain-subscriptions/src/main/java/com/subscriptionengine/subscriptions/service/SubscriptionManagementService.java:265-266 | escaping a text without a colon introduces none |
| Jsonb.EscapeNoColonQuote | modules/domain-subscriptions/src/main/java/com/subscriptionengine/subscriptions/service/SubscriptionManagementService.java:265-266 | escaped string content never puts a double quote right after a colon, and never starts with a double quote |
| Jsonb.QuotedCloses | modules/domain-subscriptions/src/main/java/com/subscriptionengine/subscriptions/service/SubscriptionManagementService.java:265-266 | in a quoted string a colon and a double quote can only be the content's last character and the closing quote, at the string's end |
| Jsonb.ColonQuoteClosesConcat | modules/domain-subscriptions/src/main/java/com/subscriptionengine/subscriptions/service/SubscriptionManagementService.java:265-266 | the property survives concatenation when the seam does not create a colon and quote without a closer after them |
| Jsonb.MemberCloses | modules/domain-subscriptions/src/main/java/com/subscriptionengine/subscriptions/service/SubscriptionManagementService.java:265-266 | a member "key": "value" has the property, for any key and value |
| Jsonb.MembersCloses | modules/domain-subscriptions/src/main/java/com/subscriptionengine/subscriptions/service/SubscriptionManagementService.java:265-266 | so do the members of any object joined by ", " |
| Jsonb.RenderCloses | modules/domain-subscriptions/src/main/java/com/subscriptionengine/subscriptions/service/SubscriptionManagementService.java:265-266 | in the jsonb text of any object, a colon followed by a double quote is followed by ":", "," or "}" |
| Jsonb.ClosesLacksPattern | modules/domain-subscriptions/src/main/java/com/subscriptionengine/subscriptions/service/SubscriptionManagementService.java:265-266 | such a text contains no pattern with a colon and a double quote followed by anything else |
| TaskHandlers.ProductRenewalTask | modules/scheduler/src/main/java/com/subscriptionengine/scheduler/service/TaskProcessorService.java:299-343 | without a billing handler the scheduled task succeeds and writes nothing; with one, an unparsable subscription or plan id fails it; a failure writes nothing; existing tasks are kept |
| TaskHandlers.ChargePaymentTask | modules/scheduler/src/main/java/com/subscriptionengine/scheduler/service/TaskProcessorService.java:349-385 | no table changes; the scheduled task succeeds exactly when there is no billing handler, or the invoice id parses and the payment service answers true |
| TaskHandlers.LoadInvoiceContext | modules/scheduler/src/main/java/com/subscriptionengine/scheduler/service/TaskProcessorService.java:403-449 | the loads succeed exactly when both ids parse and the invoice, the subscription and at least one item exist in the scheduled task's tenant; they return those rows and the subscription's items in that tenant |
| TaskHandlers.AddressTextBreaksOrder | modules/scheduler/src/main/java/com/subscriptionengine/scheduler/service/TaskProcessorService.java:461-462 | as written, a subscription with a shipping address yields a snapshot whose address the order step cannot read as a map |
| TaskHandlers.DeliverySnapshot | modules/scheduler/src/main/java/com/subscriptionengine/scheduler/service/TaskProcessorService.java:455-472 | the corrected snapshot embeds the address as an object, so the order step can read it, counts the subscription's items, and is otherwise as written |
| TaskHandlers.FindCycleDelivery | modules/scheduler/src/main/java/com/subscriptionengine/scheduler/service/TaskProcessorService.java:498-503 | the delivery found belongs to the tenant, the subscription and the cycle key |
| TaskHandlers.EnsureCycleDelivery | modules/scheduler/src/main/java/com/subscriptionengine/scheduler/service/TaskProcessorService.java:476-512 | the cycle's existing delivery is reused; otherwise a new one is appended, and the step fails only when the new id is taken; afterwards the cycle's delivery carries the id returned |
| TaskHandlers.InsertOrKeep | modules/scheduler/src/main/java/com/subscriptionengine/scheduler/service/TaskProcessorService.java:506-518 | the handler swallows a refused insert: the row is appended when the insert succeeds and the table is kept when it is refused; afterwards the key is present or the id was taken; the refusal still aborts the transaction (CreateDeliveryAborts) |
| TaskHandlers.CreateDeliveryTask | modules/scheduler/src/main/java/com/subscriptionengine/scheduler/service/TaskProcessorService.java:391-535 | failed loads fail the scheduled task with no write; a failure writes nothing; a success writes only deliveries and tasks, adds at most one delivery, and keeps existing rows; corrected (Findings row 5): the delivery snapshot keeps the shipping address as an object, where the code as written stores its JSON text; a refused delivery or order insert dooms the batch's transaction (CreateDeliveryAborts, DeliveryCommitsUnlessAborted) |
| TaskHandlers.KeyOf | modules/scheduler/src/main/java/com/subscriptionengine/scheduler/service/TaskProcessorService.java:432-435 | a key joined from three pieces starts with the first piece and ends with the last |
| TaskHandlers.CycleKey | modules/scheduler/src/main/java/com/subscriptionengine/scheduler/service/TaskProcessorService.java:432-435 | the cycle key starts with the subscription id and "_" and ends with the period end date |
| TaskHandlers.NewDelivery | modules/scheduler/src/main/java/com/subscriptionengine/scheduler/service/TaskProcessorService.java:479-489 | the inserted delivery is PENDING, belongs to the tenant, the subscription and the cycle, carries the invoice, has no order reference and is not cancelled, and its snapshot is readable by the order step (corrected, Findings row 5) |
| TaskHandlers.OrderTask | modules/scheduler/src/main/java/com/subscriptionengine/scheduler/service/TaskProcessorService.java:514-518 | the scheduled order task is a READY CREATE_ORDER task of the tenant, due now, whose payload names the delivery |
| TaskHandlers.DeliverySnapshotAsWritten | modules/scheduler/src/main/java/com/subscriptionengine/scheduler/service/TaskProcessorService.java:461-462 | as written, the snapshot is readable by the order step exactly when the subscription has no shipping address |
| TaskHandlers.OrderRef | modules/scheduler/src/main/java/com/subscriptionengine/scheduler/service/TaskProcessorService.java:597 | the order reference is "mock_order_" followed by at most eight characters of a random UUID |
| TaskHandlers.EntitlementKey | modules/scheduler/src/main/java/com/subscriptionengine/scheduler/service/TaskProcessorService.java:722-726 | the entitlement key starts with the subscription id, "_", the item's plan id and "_", and ends with the period end date |
| TaskHandlers.LoadReadsOnlyBilling | modules/scheduler/src/main/java/com/subscriptionengine/scheduler/service/TaskProcessorService.java:403-444 | the loads depend only on the invoices, subscriptions and items |
| TaskHandlers.CreateDeliveryIsIdempotent | modules/scheduler/src/main/java/com/subscriptionengine/scheduler/service/TaskProcessorService.java:489-518 | once a delivery task has gone through, running it again with any clock and random ids answers true and writes nothing, but its refused CREATE_ORDER insert dooms the batch it runs in |
| TaskHandlers.OrderDelivery | modules/scheduler/src/main/java/com/subscriptionengine/scheduler/service/TaskProcessorService.java:552-574 | the order step's delivery is in the tenant with a readable snapshot; when all snapshots are readable and the id parses, none is found only when no such delivery exists |
| TaskHandlers.CreateOrderTask | modules/scheduler/src/main/java/com/subscriptionengine/scheduler/service/TaskProcessorService.java:541-642 | the order step succeeds exactly when the delivery is found and readable; a success marks that delivery ORDER_CREATED with the order reference and changes nothing else; readable snapshots stay readable |
| TaskHandlers.ScheduledOrderSucceeds | modules/scheduler/src/main/java/com/subscriptionengine/scheduler/service/TaskProcessorService.java:516-634 | with readable snapshots, the order task a delivery run schedules succeeds when it is run |
| TaskHandlers.CycleDeliveryAt | modules/scheduler/src/main/java/com/subscriptionengine/scheduler/service/TaskProcessorService.java:498-505 | the delivery the cycle lookup finds sits at some position of the table |
| TaskHandlers.OrderRowsSucceed | modules/scheduler/src/main/java/com/subscriptionengine/scheduler/service/TaskProcessorService.java:541-634 | every order task for a readable delivery of its tenant succeeds |
| TaskHandlers.DeliveryRun | modules/scheduler/src/main/java/com/subscriptionengine/scheduler/service/TaskProcessorService.java:476-523 | a successful delivery run wrote the delivery step's table and the order task for the cycle's delivery, unless that insert failed |
| TaskHandlers.ProcessOrderTask | modules/scheduler/src/main/java/com/subscriptionengine/scheduler/service/TaskProcessorService.java:541-634 | an order task for a readable delivery of its tenant succeeds |
| TaskHandlers.DispatchCreateOrder | modules/scheduler/src/main/java/com/subscriptionengine/scheduler/service/TaskProcessorService.java:247-248 | a CREATE_ORDER task with a JSON payload goes to the order step |
| TaskHandlers.CreateDeliveryKeepsReadable | modules/scheduler/src/main/java/com/subscriptionengine/scheduler/service/TaskProcessorService.java:476-512 | the delivery step keeps every snapshot readable |
| TaskHandlers.UpsertEntitlement | modules/scheduler/src/main/java/com/subscriptionengine/scheduler/service/TaskProcessorService.java:728-775 | a successful upsert leaves the customer an ACTIVE entitlement with the item's key until the period end, and keeps every grant held before |
| TaskHandlers.RecordEntitlementRef | modules/scheduler/src/main/java/com/subscriptionengine/scheduler/service/TaskProcessorService.java:789-807 | writing the external reference cannot undo a grant |
| TaskHandlers.GrantItem | modules/scheduler/src/main/java/com/subscriptionengine/scheduler/service/TaskProcessorService.java:705-808 | one pass leaves the customer the item's grant and every grant held before |
| TaskHandlers.GrantItems | modules/scheduler/src/main/java/com/subscriptionengine/scheduler/service/TaskProcessorService.java:705-808 | when the loop finishes, the customer holds a grant for every item and every grant held before |
| TaskHandlers.EntitlementGrantTask | modules/scheduler/src/main/java/com/subscriptionengine/scheduler/service/TaskProcessorService.java:648-823 | failed loads fail the scheduled task with no write; only the entitlements change; a success grants every item of the subscription until the period end |
| TaskHandlers.ProcessTask | modules/scheduler/src/main/java/com/subscriptionengine/scheduler/service/TaskProcessorService.java:219-272 | an unparsable payload or an unknown task type fails with no write; the renewal and trial-end placeholders succeed with no write; existing tasks are kept |

| TaskHandlers.AbortsBatch | modules/scheduler/src/main/java/com/subscriptionengine/scheduler/service/TaskProcessorService.java:67-133 | only a PRODUCT_RENEWAL, CREATE_DELIVERY or ENTITLEMENT_GRANT task with a parsed payload can leave the batch's one transaction unable to commit; a dooming renewal or entitlement grant answers false, and a dooming delivery leaves the scheduled-task table as it was |
| TaskHandlers.ProductRenewalAborts | modules/domain-billing/src/main/java/com/subscriptionengine/billing/service/InvoiceGenerationService.java:71-111 | a renewal dooms the batch only with the billing handler present, and the handler, whose @Transactional invoice generation threw, then answers false and writes nothing |
| TaskHandlers.CreateDeliveryAborts | modules/scheduler/src/main/java/com/subscriptionengine/scheduler/service/TaskProcessorService.java:477-523 | a delivery task dooms the batch only after its loads succeed, and then no CREATE_ORDER task is written, whether the delivery insert or the order insert was refused |
| TaskHandlers.EntitlementGrantAborts | modules/scheduler/src/main/java/com/subscriptionengine/scheduler/service/TaskProcessorService.java:705-774 | an entitlement grant dooms the batch only after its loads succeed, and the handler then answers false |
| TaskHandlers.InsertRefused | modules/scheduler/src/main/java/com/subscriptionengine/scheduler/service/TaskProcessorService.java:728-774 | an upsert that finds no entitlement with the item's key and inserts on a taken id throws, at every clock reading |
| TaskHandlers.GrantItemsAbort | modules/scheduler/src/main/java/com/subscriptionengine/scheduler/service/TaskProcessorService.java:705-774 | a per-item loop that reaches a refused insert has at least one item and answers false |
| TaskHandlers.RenewalAbortsIffFalse | modules/domain-billing/src/main/java/com/subscriptionengine/billing/service/InvoiceGenerationService.java:71-111 | a product renewal with parsed ids dooms the batch iff its handler answers false, and then it writes nothing of its own |
| TaskHandlers.RenewalCannotLoadAborts | modules/domain-billing/src/main/java/com/subscriptionengine/billing/service/InvoiceGenerationService.java:71-111 | a renewal whose subscription, item or plan the generation cannot load answers false, writes nothing and dooms the batch |
| TaskHandlers.DeliveryCommitsUnlessAborted | modules/scheduler/src/main/java/com/subscriptionengine/scheduler/service/TaskProcessorService.java:477-518 | after its loads a delivery task answers true and adds its order task iff it does not doom the batch; when it dooms it, the order task is not written |
| SubscriptionManagementController.ParseOperation | apps/subscription-api/src/main/java/com/subscriptionengine/api/controller/SubscriptionManagementController.java:154 | the operation is PAUSE, RESUME, CANCEL or MODIFY exactly when the upper-cased name is that word |
| SubscriptionManagementController.CaseDoesNotMatter | apps/subscription-api/src/main/java/com/subscriptionengine/api/controller/SubscriptionManagementController.java:154-185 | the operation name and the cancellation type are read regardless of case |
| SubscriptionManagementController.Answer | apps/subscription-api/src/main/java/com/subscriptionengine/api/controller/SubscriptionManagementController.java:234-254 | a true answer is 200 with the operation's message and data, a false one 400 with the failure message |
| SubscriptionManagementController.GetSubscription | apps/subscription-api/src/main/java/com/subscriptionengine/api/controller/SubscriptionManagementController.java:74-104 | the reply is 404 exactly when the management view is empty; otherwise it is a successful 200 showing that subscription |
| SubscriptionManagementController.PauseReply | apps/subscription-api/src/main/java/com/subscriptionengine/api/controller/SubscriptionManagementController.java:155-167 | PAUSE writes what the pause writes, answers 200 exactly when it goes through and 400 with nothing written otherwise, and reports the status the subscription is left in; the writes are those of the corrected pause (Findings row 3) |
| SubscriptionManagementController.ResumeReply | apps/subscription-api/src/main/java/com/subscriptionengine/api/controller/SubscriptionManagementController.java:169-181 | RESUME answers 500 exactly when the service throws, otherwise 200 exactly when the resume goes through, writing only then, and reports the status the subscription is left in |
| SubscriptionManagementController.CancelReply | apps/subscription-api/src/main/java/com/subscriptionengine/api/controller/SubscriptionManagementController.java:183-203 | CANCEL answers 200 exactly when the cancellation goes through with the immediate or end-of-period cancellation type reported, 400 with nothing written otherwise, and reports the status the subscription is left in; corrected (Findings row 7): the code as written reports ACTIVE for every end-of-period cancellation; the writes are those of the corrected cancellation (Findings rows 2 and 3) |
| SubscriptionManagementController.CancelLeavesStatus | apps/subscription-api/src/main/java/com/subscriptionengine/api/controller/SubscriptionManagementController.java:197 | a cancellation that goes through leaves the subscription CANCELED when immediate and in its previous status otherwise |
| SubscriptionManagementController.ModifyReply | apps/subscription-api/src/main/java/com/subscriptionengine/api/controller/SubscriptionManagementController.java:205-222 | MODIFY answers 500 exactly when the service throws, otherwise 200 exactly when the modification goes through, reporting no status |
| SubscriptionManagementController.UpdateSubscription | apps/subscription-api/src/main/java/com/subscriptionengine/api/controller/SubscriptionManagementController.java:140-255 | an unknown operation is 400 and writes nothing; every reply is 200, 400 or 500; anything but 200 writes nothing; the success flag is set exactly on 200; a reported status is the one stored; built on the corrected operations (Findings rows 2, 3 and 7) |
| SubscriptionManagementController.PausedCancelReportsActiveAsWritten | apps/subscription-api/src/main/java/com/subscriptionengine/api/controller/SubscriptionManagementController.java:194-201 | as written, an end-of-period cancellation of a PAUSED subscription reports ACTIVE while the subscription stays PAUSED |
| JobConfiguration.Word | modules/scheduler/src/main/java/com/subscriptionengine/scheduler/service/JobConfigurationService.java:221 | the leading word is a prefix of the text, holds no `\s` character, and is followed by one when it is not the whole text |
| JobConfiguration.Words | modules/scheduler/src/main/java/com/subscriptionengine/scheduler/service/JobConfigurationService.java:221 | splitting at runs of `\s` yields only non-empty fields free of `\s` characters |
| JobConfiguration.WordOf | modules/scheduler/src/main/java/com/subscriptionengine/scheduler/service/JobConfigurationService.java:221 | a word followed by nothing or by a separator is read back as that word |
| JobConfiguration.WordsCons | modules/scheduler/src/main/java/com/subscriptionengine/scheduler/service/JobConfigurationService.java:221 | a field followed by a space splits off as the first of the fields |
| JobConfiguration.WordsOne | modules/scheduler/src/main/java/com/subscriptionengine/scheduler/service/JobConfigurationService.java:221 | a single field splits into itself alone |
| JobConfiguration.TrimOfSolidEnds | modules/scheduler/src/main/java/com/subscriptionengine/scheduler/service/JobConfigurationService.java:221 | a text with printable first and last characters is left alone by trim |
| JobConfiguration.SixFieldCron | modules/scheduler/src/main/java/com/subscriptionengine/scheduler/service/JobConfigurationService.java:214-229 | six fields joined by single spaces split into six fields, the first one first, and make a valid cron expression |
| JobConfiguration.PresetDescriptionsCover | modules/scheduler/src/main/java/com/subscriptionengine/scheduler/service/JobConfigurationService.java:234-246 | a name is a preset exactly when it is one of the eight names, and exactly when its description is not "Custom schedule" |
| JobConfiguration.PresetNamesCover | modules/scheduler/src/main/java/com/subscriptionengine/scheduler/service/JobConfigurationService.java:37-46 | the same for every name at once |
| JobConfiguration.PresetsAreValid | modules/scheduler/src/main/java/com/subscriptionengine/scheduler/service/JobConfigurationService.java:37-46 | every preset's expression is a valid six-field cron |
| JobConfiguration.SchedulePresets | modules/scheduler/src/main/java/com/subscriptionengine/scheduler/service/JobConfigurationService.java:171-185 | the listing holds exactly the presets with their expression and own description, and the CUSTOM option |
| JobConfiguration.Resolve | modules/scheduler/src/main/java/com/subscriptionengine/scheduler/service/JobConfigurationService.java:133-142 | a request resolves exactly when it is CUSTOM with an expression or names a preset; CUSTOM takes the given expression, a preset its own |
| JobConfiguration.UpdateJobSchedule | modules/scheduler/src/main/java/com/subscriptionengine/scheduler/service/JobConfigurationService.java:127-166 | the update succeeds exactly when the request resolves and the job exists; a failed one writes nothing; a successful one sets only that job's expression, preset, flag and updated columns |
| JobConfiguration.Upserted | modules/scheduler/src/main/java/com/subscriptionengine/scheduler/service/JobConfigurationService.java:276-295 | the upserted row carries the request's description, schedule, flag and author; a new job gets schedule type CRON and its creation columns, an existing one keeps them |
| JobConfiguration.CreateOrUpdate | modules/scheduler/src/main/java/com/subscriptionengine/scheduler/service/JobConfigurationService.java:252-306 | the upsert goes through exactly when the request resolves and a custom expression is a valid cron; a refused request writes nothing; an accepted one replaces only that job's row |
| JobConfiguration.CreateWritesValidCron | modules/scheduler/src/main/java/com/subscriptionengine/scheduler/service/JobConfigurationService.java:258-271 | every expression the upsert writes is a valid cron |
| JobConfiguration.OneWordInvalid | modules/scheduler/src/main/java/com/subscriptionengine/scheduler/service/JobConfigurationService.java:214-229 | a single field is not a valid cron |
| JobConfiguration.UpdateStoresInvalidCron | modules/scheduler/src/main/java/com/subscriptionengine/scheduler/service/JobConfigurationService.java:133-135 | the update path stores a custom expression unchecked, an invalid one included |
| JobConfiguration.CreateOrUpdateIdempotent | modules/scheduler/src/main/java/com/subscriptionengine/scheduler/service/JobConfigurationService.java:276-295 | repeating the same upsert changes nothing more |
| JobConfiguration.Service.constructor | modules/scheduler/src/main/java/com/subscriptionengine/scheduler/service/JobConfigurationService.java:48-51 | the service starts over the given table |
| JobConfiguration.Service.UpdateSchedule | modules/scheduler/src/main/java/com/subscriptionengine/scheduler/service/JobConfigurationService.java:127-166 | the method's answer and new table are those of UpdateJobSchedule |
| JobConfiguration.Service.CreateOrUpdateJob | modules/scheduler/src/main/java/com/subscriptionengine/scheduler/service/JobConfigurationService.java:252-306 | the method's answer and new table are those of CreateOrUpdate |
| OpenApiTagSorter.TagOrderDistinct | apps/subscription-api/src/main/java/com/subscriptionengine/api/config/OpenApiTagSorter.java:19-29 | no section name occurs twice in the fixed order |
| OpenApiTagSorter.Names | apps/subscription-api/src/main/java/com/subscriptionengine/api/config/OpenApiTagSorter.java:43 | the names of the tags, position by position |
| OpenApiTagSorter.IndexOf | apps/subscription-api/src/main/java/com/subscriptionengine/api/config/OpenApiTagSorter.java:41 | the first position at which a name occurs in the order |
| OpenApiTagSorter.FirstNamed | apps/subscription-api/src/main/java/com/subscriptionengine/api/config/OpenApiTagSorter.java:42-44 | findFirst gives the first tag with the name, and nothing exactly when no tag has it |
| OpenApiTagSorter.Hit | apps/subscription-api/src/main/java/com/subscriptionengine/api/config/OpenApiTagSorter.java:44-45 | each name of the order adds at most one tag |
| OpenApiTagSorter.Rest | apps/subscription-api/src/main/java/com/subscriptionengine/api/config/OpenApiTagSorter.java:49-51 | the remaining tags carry no name from the order |
| OpenApiTagSorter.PickedAreFirstMatches | apps/subscription-api/src/main/java/com/subscriptionengine/api/config/OpenApiTagSorter.java:41-46 | every tag the first loop adds is the first tag with its name, and that name is in the order |
| OpenApiTagSorter.PickedWhenCarried | apps/subscription-api/src/main/java/com/subscriptionengine/api/config/OpenApiTagSorter.java:41-46 | a name of the order that some tag carries is added by the first loop |
| OpenApiTagSorter.PickedCover | apps/subscription-api/src/main/java/com/subscriptionengine/api/config/OpenApiTagSorter.java:41-46 | a name of the order is added exactly when some tag carries it |
| OpenApiTagSorter.IndexOfPrefix | apps/subscription-api/src/main/java/com/subscriptionengine/api/config/OpenApiTagSorter.java:41 | a name of a prefix of the order has the same position in the whole order |
| OpenApiTagSorter.IndexOfLast | apps/subscription-api/src/main/java/com/subscriptionengine/api/config/OpenApiTagSorter.java:19-29 | in a list without repeats the last name occurs last |
| OpenApiTagSorter.PickedInOrder | apps/subscription-api/src/main/java/com/subscriptionengine/api/config/OpenApiTagSorter.java:41-46 | the tags the first loop adds follow the order of their names |
| OpenApiTagSorter.PickedSameHits | apps/subscription-api/src/main/java/com/subscriptionengine/api/config/OpenApiTagSorter.java:41-46 | two tag lists with the same first matches for every name of the order lead to the same added tags |
| OpenApiTagSorter.RestAppend | apps/subscription-api/src/main/java/com/subscriptionengine/api/config/OpenApiTagSorter.java:49-51 | the remaining tags of a concatenation are the remaining tags of each part |
| OpenApiTagSorter.RestOfNamed | apps/subscription-api/src/main/java/com/subscriptionengine/api/config/OpenApiTagSorter.java:49-51 | tags whose names are all in the order leave no remaining tags |
| OpenApiTagSorter.RestOfUnnamed | apps/subscription-api/src/main/java/com/subscriptionengine/api/config/OpenApiTagSorter.java:49-51 | tags none of whose names are in the order all remain, in order |
| OpenApiTagSorter.NamedArePicked | apps/subscription-api/src/main/java/com/subscriptionengine/api/config/OpenApiTagSorter.java:38-54 | a tag of the result named in the order belongs to the part the first loop built |
| OpenApiTagSorter.SortedFollowsTagOrder | apps/subscription-api/src/main/java/com/subscriptionengine/api/config/OpenApiTagSorter.java:38-54 | tags named in the order come first, in the order's sequence |
| OpenApiTagSorter.SortedCover | apps/subscription-api/src/main/java/com/subscriptionengine/api/config/OpenApiTagSorter.java:38-54 | a name of the order appears in the result exactly when some input tag carries it |
| OpenApiTagSorter.SortedTakesFirstMatch | apps/subscription-api/src/main/java/com/subscriptionengine/api/config/OpenApiTagSorter.java:38-54 | a tag of the result named in the order is the first input tag with that name, and no other tag of the result shares the name |
| OpenApiTagSorter.SortedKeepsTheRest | apps/subscription-api/src/main/java/com/subscriptionengine/api/config/OpenApiTagSorter.java:49-51 | the tags not named in the order keep their relative order, none lost and none added |
| OpenApiTagSorter.SortedIsIdempotent | apps/subscription-api/src/main/java/com/subscriptionengine/api/config/OpenApiTagSorter.java:32-55 | sorting an already sorted list changes nothing |
| OpenApiTagSorter.OpenApi.constructor | apps/subscription-api/src/main/java/com/subscriptionengine/api/config/OpenApiTagSorter.java:32 | the document starts with the given tags |
| OpenApiTagSorter.OpenApi.Customise | apps/subscription-api/src/main/java/com/subscriptionengine/api/config/OpenApiTagSorter.java:32-55 | a document without tags is unchanged; otherwise its tag list becomes the sorted list |
| OpenApiTagSorter.PickInOrder | apps/subscription-api/src/main/java/com/subscriptionengine/api/config/OpenApiTagSorter.java:41-46 | the first loop adds, for each name of the order in turn, the first tag carrying it |
| OpenApiTagSorter.AppendRest | apps/subscription-api/src/main/java/com/subscriptionengine/api/config/OpenApiTagSorter.java:49-51 | the second loop appends exactly the tags not named in the order, in their original order |
| AdminApiClients.Alnums | apps/subscription-api/src/main/java/com/subscriptionengine/api/controller/AdminApiClientsController.java:360 | the letters and digits kept from a text are all in `[a-z0-9]` |
| AdminApiClients.AlnumsAppend | apps/subscription-api/src/main/java/com/subscriptionengine/api/controller/AdminApiClientsController.java:360 | the letters and digits of a concatenation are those of each part |
| AdminApiClients.SkipRun | apps/subscription-api/src/main/java/com/subscriptionengine/api/controller/AdminApiClientsController.java:360 | skipping a leading run of other characters leaves a suffix that starts with a letter or digit and keeps every letter and digit |
| AdminApiClients.Collapse | apps/subscription-api/src/main/java/com/subscriptionengine/api/controller/AdminApiClientsController.java:360 | replacing each run of characters outside `[a-z0-9]` by one underscore leaves only letters, digits and single underscores, keeps every letter and digit in order, and is empty only for an empty text |
| AdminApiClients.StripLeading | apps/subscription-api/src/main/java/com/subscriptionengine/api/controller/AdminApiClientsController.java:361 | dropping leading underscores leaves a suffix with no leading underscore, the same letters and digits, and a well-formed text well formed |
| AdminApiClients.StripTrailing | apps/subscription-api/src/main/java/com/subscriptionengine/api/controller/AdminApiClientsController.java:361 | dropping trailing underscores leaves a prefix with no trailing underscore, the same letters and digits, and a well-formed text well formed |
| AdminApiClients.SanitizeShape | apps/subscription-api/src/main/java/com/subscriptionengine/api/controller/AdminApiClientsController.java:359-361 | the sanitised name holds only letters, digits and single underscores, none at either end, and keeps exactly the letters and digits of the lowercased name |
| AdminApiClients.CollapseOfSlugChars | apps/subscription-api/src/main/java/com/subscriptionengine/api/controller/AdminApiClientsController.java:360 | a text of letters, digits and single underscores is left alone by the collapse |
| AdminApiClients.LowerOfSlugChars | apps/subscription-api/src/main/java/com/subscriptionengine/api/controller/AdminApiClientsController.java:359 | such a text is already lower case |
| AdminApiClients.SanitizeIsIdempotent | apps/subscription-api/src/main/java/com/subscriptionengine/api/controller/AdminApiClientsController.java:359-361 | sanitising a sanitised name changes nothing |
| AdminApiClients.RemoveDashesOfHex | apps/subscription-api/src/main/java/com/subscriptionengine/api/controller/AdminApiClientsController.java:370 | removing dashes from hexadecimal digits changes nothing |
| AdminApiClients.RemoveDashesAfterGroup | apps/subscription-api/src/main/java/com/subscriptionengine/api/controller/AdminApiClientsController.java:370 | a group of digits followed by a dash loses only the dash |
| AdminApiClients.UndashedUuid | apps/subscription-api/src/main/java/com/subscriptionengine/api/controller/AdminApiClientsController.java:370 | a UUID's text without its dashes is its 32 digits |
| AdminApiClients.SlugCharsAppend | apps/subscription-api/src/main/java/com/subscriptionengine/api/controller/AdminApiClientsController.java:363 | joining two texts of letters, digits and underscores gives such a text |
| AdminApiClients.ClientIdParts | apps/subscription-api/src/main/java/com/subscriptionengine/api/controller/AdminApiClientsController.java:358-364 | a client id is the sanitised name, an underscore and the first eight characters of the random UUID |
| AdminApiClients.ClientIdShape | apps/subscription-api/src/main/java/com/subscriptionengine/api/controller/AdminApiClientsController.java:358-364 | a client id holds only letters, digits and underscores and ends with an underscore and eight hexadecimal digits |
| AdminApiClients.SuffixedShape | apps/subscription-api/src/main/java/com/subscriptionengine/api/controller/AdminApiClientsController.java:363 | any such text followed by an underscore and eight UUID digits has that shape |
| AdminApiClients.ClientSecretShape | apps/subscription-api/src/main/java/com/subscriptionengine/api/controller/AdminApiClientsController.java:369-371 | a secret is "sk_" followed by 64 hexadecimal digits |
| AdminApiClients.View | apps/subscription-api/src/main/java/com/subscriptionengine/api/controller/AdminApiClientsController.java:324-353 | the view shows the row's id, client id and status, and a null scope or IP list as empty |
| AdminApiClients.Create | apps/subscription-api/src/main/java/com/subscriptionengine/api/controller/AdminApiClientsController.java:82-140 | a creation inserts a row under the new id and changes no other row |
| AdminApiClients.CreateRules | apps/subscription-api/src/main/java/com/subscriptionengine/api/controller/AdminApiClientsController.java:89-137 | the new row and the response carry the client id made from the name; a secret, shown once and stored hashed, exactly for API_KEY and OAUTH; PENDING_CERTIFICATE exactly for MTLS and ACTIVE otherwise; the given scopes or none; the given rate limit or 1000 |
| AdminApiClients.Get | apps/subscription-api/src/main/java/com/subscriptionengine/api/controller/AdminApiClientsController.java:199-212 | an unknown id is API_CLIENT_NOT_FOUND; a known one shows the row's view |
| AdminApiClients.Update | apps/subscription-api/src/main/java/com/subscriptionengine/api/controller/AdminApiClientsController.java:224-286 | an unknown id is API_CLIENT_NOT_FOUND with nothing written; no row is added or removed and no other row changes |
| AdminApiClients.UpdateRules | apps/subscription-api/src/main/java/com/subscriptionengine/api/controller/AdminApiClientsController.java:239-285 | the secret is rotated and shown once exactly when asked for on an API_KEY or OAUTH client; each null field of the request leaves the stored value and each given one replaces it; identity and creation time stay; the reply shows the updated row |
| AdminApiClients.Delete | apps/subscription-api/src/main/java/com/subscriptionengine/api/controller/AdminApiClientsController.java:296-319 | an unknown id is API_CLIENT_NOT_FOUND with nothing written; a known one is set to REVOKED and its client id reported |
| AdminApiClients.DeleteIsSoft | apps/subscription-api/src/main/java/com/subscriptionengine/api/controller/AdminApiClientsController.java:309-311 | a delete keeps the row and changes only its status and update time; deleting again gives the same reply |
| AdminApiClients.CreatedClientIsFound | apps/subscription-api/src/main/java/com/subscriptionengine/api/controller/AdminApiClientsController.java:124-211 | a created client can be looked up, showing what the creation response showed |
| AdminApiClients.EmptyUpdateTouchesNothing | apps/subscription-api/src/main/java/com/subscriptionengine/api/controller/AdminApiClientsController.java:251-270 | an update that asks for nothing only moves the update time |
| AdminApiClients.Controller.constructor | apps/subscription-api/src/main/java/com/subscriptionengine/api/controller/AdminApiClientsController.java:82 | the controller starts over the given table |
| AdminApiClients.Controller.CreateApiClient | apps/subscription-api/src/main/java/com/subscriptionengine/api/controller/AdminApiClientsController.java:82-140 | the response and the new table are those of Create |
| AdminApiClients.Controller.GetApiClient | apps/subscription-api/src/main/java/com/subscriptionengine/api/controller/AdminApiClientsController.java:199-212 | the reply is that of Get on the current table |
| AdminApiClients.Controller.UpdateApiClient | apps/subscription-api/src/main/java/com/subscriptionengine/api/controller/AdminApiClientsController.java:224-286 | the reply and the new table are those of Update |
| AdminApiClients.Controller.DeleteApiClient | apps/subscription-api/src/main/java/com/subscriptionengine/api/controller/AdminApiClientsController.java:296-319 | the reply and the new table are those of Delete |
| GlobalExceptionHandler.FieldErrorMap | apps/subscription-api/src/main/java/com/subscriptionengine/api/exception/GlobalExceptionHandler.java:32-36 | the field-error map has one entry for each field that has an error, and no other |
| GlobalExceptionHandler.ValidationResponse | apps/subscription-api/src/main/java/com/subscriptionengine/api/exception/GlobalExceptionHandler.java:30-46 | a validation failure is a 400 VALIDATION_ERROR whose details have exactly one entry per failing field |
| GlobalExceptionHandler.HandleIntegrityAsWritten | apps/subscription-api/src/main/java/com/subscriptionengine/api/exception/GlobalExceptionHandler.java:51-97 | as written: 409 exactly for DUPLICATE_ENTRY, and the same status, code and message as the corrected handler, differing at most in the details |
| GlobalExceptionHandler.HandleTypeMismatch | apps/subscription-api/src/main/java/com/subscriptionengine/api/exception/GlobalExceptionHandler.java:107-120 | a type mismatch is a 400 INVALID_PARAMETER_FORMAT whose details are exactly the parameter name and the provided value, "null" when there is none |
| GlobalExceptionHandler.HandleUnexpected | apps/subscription-api/src/main/java/com/subscriptionengine/api/exception/GlobalExceptionHandler.java:125-135 | any other exception is a 500 INTERNAL_ERROR whose only detail is the exception type |
| GlobalExceptionHandler.LastErrorWins | apps/subscription-api/src/main/java/com/subscriptionengine/api/exception/GlobalExceptionHandler.java:34-36 | a field's entry is the message of its last error |
| GlobalExceptionHandler.HandleValidationErrors | apps/subscription-api/src/main/java/com/subscriptionengine/api/exception/GlobalExceptionHandler.java:31-46 | a validation failure is a 400 whose details name exactly the fields in error |
| GlobalExceptionHandler.KeyViolation | apps/subscription-api/src/main/java/com/subscriptionengine/api/exception/GlobalExceptionHandler.java:72-91 | a message is a duplicate exactly when it speaks of a duplicate key or a unique constraint |
| GlobalExceptionHandler.Classify | apps/subscription-api/src/main/java/com/subscriptionengine/api/exception/GlobalExceptionHandler.java:53-92 | a message that does not speak of a constraint is a plain integrity error; a duplicate is only reported for a constraint message naming no check constraint |
| GlobalExceptionHandler.ContainsPiece | apps/subscription-api/src/main/java/com/subscriptionengine/api/exception/GlobalExceptionHandler.java:72-80 | a text holding a phrase holds every piece of it |
| GlobalExceptionHandler.DuplicateIsConflict | apps/subscription-api/src/main/java/com/subscriptionengine/api/exception/GlobalExceptionHandler.java:72-79 | a unique-constraint or duplicate-key violation naming no check constraint is DUPLICATE_ENTRY, with the tenant-slug message exactly when the key is tenants_slug_key |
| GlobalExceptionHandler.ForeignKeyIsInvalidReference | apps/subscription-api/src/main/java/com/subscriptionengine/api/exception/GlobalExceptionHandler.java:80-90 | a foreign-key violation that is neither a named check nor a duplicate is INVALID_REFERENCE |
| GlobalExceptionHandler.LineEnd | apps/subscription-api/src/main/java/com/subscriptionengine/api/exception/GlobalExceptionHandler.java:148-151 | the end of the line is the first newline at or after the start, or the end of the text |
| GlobalExceptionHandler.TrimEndDropsBlanks | apps/subscription-api/src/main/java/com/subscriptionengine/api/exception/GlobalExceptionHandler.java:152 | trimming the end drops only blanks |
| GlobalExceptionHandler.TrimEndKeeps | apps/subscription-api/src/main/java/com/subscriptionengine/api/exception/GlobalExceptionHandler.java:152 | trimming the end keeps every character up to the last non-blank one |
| GlobalExceptionHandler.ExtractConstraintDetails | apps/subscription-api/src/main/java/com/subscriptionengine/api/exception/GlobalExceptionHandler.java:140-156 | a null message gives the no-details text; one without "Detail:" the "check your input" hint; one with it the trimmed line starting at the first "Detail:" |
| GlobalExceptionHandler.TrimFromNonBlank | apps/subscription-api/src/main/java/com/subscriptionengine/api/exception/GlobalExceptionHandler.java:152 | trimming a text that starts with a non-blank keeps a prefix reaching past every non-blank and drops only blanks |
| GlobalExceptionHandler.TrimSlice | apps/subscription-api/src/main/java/com/subscriptionengine/api/exception/GlobalExceptionHandler.java:152 | the same for a slice of a longer text |
| GlobalExceptionHandler.LineHoldsPattern | apps/subscription-api/src/main/java/com/subscriptionengine/api/exception/GlobalExceptionHandler.java:146-151 | a line cannot end inside a phrase that holds no newline |
| GlobalExceptionHandler.LineFromPattern | apps/subscription-api/src/main/java/com/subscriptionengine/api/exception/GlobalExceptionHandler.java:146-152 | the trimmed line starting at a phrase still starts with that phrase and holds no newline |
| GlobalExceptionHandler.DetailNeverFound | apps/subscription-api/src/main/java/com/subscriptionengine/api/exception/GlobalExceptionHandler.java:53-97 | as written, the lower-cased message never holds "Detail:", so every integrity reply carries the generic hint |
| GlobalExceptionHandler.HandleIntegrityViolation | apps/subscription-api/src/main/java/com/subscriptionengine/api/exception/GlobalExceptionHandler.java:52-102 | an integrity reply is 409 exactly for a duplicate; a message with a "Detail:" line reports that line; a null message is a plain 400 integrity error with no details |
| GlobalExceptionHandler.Respond | apps/subscription-api/src/main/java/com/subscriptionengine/api/exception/GlobalExceptionHandler.java:30-135 | every reply says success false and is 400, 409 or 500; 500 exactly for an unexpected failure; 409 exactly for a duplicate; validation details name the fields in error; a type mismatch names the parameter and the value given, or "null" |

## Left out

- SQL, jOOQ and Spring wiring: tables are values, and a statement is modelled by its stated effect on them. Transactions are single steps. The one exception is the scheduler batch: TaskProcessor.RunBatch treats processAvailableTasks as one transaction that is rolled back as a whole (TaskHandlers.AbortsBatch).
- Concurrency: leasing, the reaper and the webhook worker are atomic steps. Cross-worker races and the thread-local tenant context are not modelled; the tenant is a parameter.
- HTTP: the webhook POST, servlet filters and security configuration. A webhook send's outcome is a parameter.
- Cryptography: HMAC-SHA256, SHA-256, BCrypt and JWT decoding are parameter functions. Signature verification is modelled as the byte-for-byte comparison only.
- Clock, random UUIDs and random numbers are parameters. So are the clock readings the mock adapters put in their provider data (`simulatedAt`, `createdAt`, `grantedAt` and so on), which are left out of the modelled results.
- Floating point: the webhook backoff's `Math.pow` is the integer power of two.
- JSON parsing and Jackson serialisation: payloads are string maps. The webhook payload's JSON wrapping is not modelled.
- Logging, request ids and the error reply's timestamp.
- Bean validation annotations on request bodies.
- Case mapping is ASCII only. `Map.of` iteration order is unspecified in Java; the model takes the order in which the entries are written.
- listApiClients, getAllJobConfigurations and getJobConfiguration: read-only queries with paging, not modelled.
- SubscriptionsService getSubscription, getSubscriptions and getCustomerSubscriptions: read-only queries, not modelled.
- PlansService getPlan and planExists: covered only through the tenant-scoped lookup `Records.FindPlan`.
- JwtTenantExtractor.extractUserEmail, the adapters' getProviderName, supportsProductType and supportsEntitlementType (constant answers), and SignatureService getCurrentTimestamp and generateNonce (clock and randomness): not modelled.
- The order step's FAILED branch in TaskProcessorService.java:620-630 is not modelled. The mock success flag is the constant true, so the branch cannot run.
- GlobalExceptionHandler: a field error whose message is null, and the exception type name in a 500 reply, are not modelled.
- The shipping address is kept as text, not as structured JSON.
- InvoiceGeneration.CreateInvoice: the line total quantity × unit price is exact, not wrapped at 64 bits, because a realistic quantity and price cannot reach the long range.
- PlanValidation.CalculateSubscriptionPrice: the HYBRID sum of base price and products total is exact, not wrapped at 64 bits, for the same reason.
- SubscriptionHistory.HistoryPage: the offset page × size is exact, not wrapped to a 32-bit int, because an offset that large lies far past any subscription's history.
- SubscriptionManagement.CancelEffects: follows the corrected product-renewal filter of Findings row 3, not the LIKE as written; CancelEffectsAsWritten models the code as written.
- SubscriptionManagement.Cancel: follows Findings rows 2 and 3 (a missing reason records no metadata; product renewals naming the subscription are failed); CancelAsWritten models the code as written.
- SubscriptionManagement.CancelSubscription: inherits the corrections of SubscriptionManagement.Cancel.
- SubscriptionManagement.Pause: follows the corrected product-renewal filter of Findings row 3; PauseAsWritten models the code as written, which fails no task.
- SubscriptionManagement.PauseSubscription: inherits the correction of SubscriptionManagement.Pause.
- Subscriptions.Create: follows Findings row 4, giving each product item the plan id instead of the random placeholder; ItemsAsWrittenAreUnfindable shows what the placeholder breaks.
- Subscriptions.CreateSubscription: inherits the correction of Subscriptions.Create.
- Subscriptions.CreateItems: follows Findings row 4, like Subscriptions.Create.
- TaskHandlers.CreateDeliveryTask: follows Findings row 5, keeping the shipping address as an object in the delivery snapshot; AddressTextBreaksOrder shows the code as written.
- SubscriptionManagementController.CancelReply: follows Findings row 7 and reports the status the subscription keeps; PausedCancelReportsActiveAsWritten shows the code as written. Its writes are those of the corrected cancellation.
- SubscriptionManagementController.PauseReply: its writes are those of the corrected pause (Findings row 3).
- SubscriptionManagementController.UpdateSubscription: is built on the corrected operations above.
- DeliveryManagement.Cancel: follows Findings row 6, selecting order tasks by the payload naming the delivery; CancelAsWritten models the code as written.
- SubscriptionHistory.RecordAction: a refused insert drops only the history row. Whether PostgreSQL's aborted transaction then also rolls back the surrounding cancellation or pause is not modelled; the caller's other writes stand.
- JsonInput: models the JSON grammar the jsonb column accepts, not PostgreSQL's further refusal of the escape \u0000 and of lone surrogate escapes; toJson copies a value holding such an escape text unchanged, so the model records a row that PostgreSQL would refuse.
- ScheduledTasks.PayloadOf: the scheduledAt clock text the scheduler adds to every payload is left out of the stored payload, since it is a clock reading; the LIKE lemmas are stated for the payload with any scheduledAt text added.
- TaskHandlers.AbortsBatch: counts as dooming the batch only the failures the model can produce: an exception out of the invoice generation, and an insert refused for a taken id or key. Other statements PostgreSQL might refuse are not modelled.
- TaskHandlers.ChargePaymentTask: the payment service is a parameter. Its own writes are not modelled, and neither is a statement it has refused inside the batch's transaction. It catches its own exceptions, so in the model a charge never dooms the batch.
- WebhookRelay.NewDeliveries: every delivery insert succeeds. In the code, createWebhookDelivery swallows a refused insert (WebhookRelayWorker.java:149-175), but the refusal would still abort the @Transactional processOutboxEvents. Its only cause is a random id collision, so it is not modelled.
- NonceCache.ReplayWithValidTimestampRefused: assumes one clock. The nonce expiry is read from the LocalDateTime wall clock, and the timestamp window from epoch seconds. The lemma holds when the JVM's zone has no offset changes (UTC). Across a daylight-saving shift the two clocks disagree by the shift, which is not modelled.
- SignatureService.ParseLong: reads ASCII digits only. Long.parseLong also accepts any other Unicode decimal digit (Character.digit), so a timestamp written in, say, Arabic-Indic digits parses in Java and not in the model. SignatureService.ValidateTimestamp inherits this.
- OpenApiTagSorter: a tag without a name (the null name throws in the sort at OpenApiTagSorter.java:43) is not modelled; tag names are strings.

## Findings

| source | as written | input that shows it | evidently intended | confidence | as-written member | corrected member |
|---|---|---|---|---|---|---|
| apps/subscription-api/src/main/java/com/subscriptionengine/api/exception/GlobalExceptionHandler.java:53-97 | the driver message is lower-cased before `extractConstraintDetails` searches it for "Detail:" | any integrity violation whose message holds a "Detail:" line | the detail line of the driver's message is reported | not executed | GlobalExceptionHandler.DetailNeverFound | GlobalExceptionHandler.HandleIntegrityViolation |
| modules/domain-subscriptions/src/main/java/com/subscriptionengine/subscriptions/service/SubscriptionHistoryService.java:94-97 | the cancellation history entry is built with `Map.of("reason", reason)`, which throws on a null reason | a CANCEL request without a reason | the cancellation goes through and records no reason | not executed | SubscriptionManagement.CancelWithoutReasonThrows | SubscriptionManagement.Cancel |
| modules/domain-subscriptions/src/main/java/com/subscriptionengine/subscriptions/service/SubscriptionManagementService.java:265-266 | product renewal tasks are found by a LIKE on the jsonb text with no space after the colon, but jsonb text puts one there | cancelling a subscription that has a READY PRODUCT_RENEWAL task | the subscription's product renewal tasks are stopped | not executed | SubscriptionManagement.ProductRenewalMissedAsWritten | SubscriptionManagement.Cancel |
| modules/domain-subscriptions/src/main/java/com/subscriptionengine/subscriptions/service/SubscriptionsService.java:449 | each product item gets a random placeholder plan id | a subscription created with one product | the item carries the product's plan id, so renewal can find it | not executed | Subscriptions.ItemsAsWrittenAreUnfindable | Subscriptions.ItemsAreFindable |
| modules/scheduler/src/main/java/com/subscriptionengine/scheduler/service/TaskProcessorService.java:461-462 | the delivery snapshot stores the shipping address as JSON text, which the order step casts to a map | a subscription with a shipping address reaching its CREATE_ORDER task | the address is stored as an object, so the order step can read it | not executed | TaskHandlers.AddressTextBreaksOrder | TaskHandlers.ScheduledOrderSucceeds |
| modules/domain-delivery/src/main/java/com/subscriptionengine/delivery/service/DeliveryManagementService.java:190 | CREATE_ORDER tasks are found by a LIKE on the jsonb text with no space after the colon | cancelling a PENDING delivery that has a READY CREATE_ORDER task | the delivery's order task is cancelled | not executed | DeliveryManagement.OrderTaskSurvivesAsWritten | DeliveryManagement.CancelStopsOrderTask |
| apps/subscription-api/src/main/java/com/subscriptionengine/api/controller/SubscriptionManagementController.java:197 | an end-of-period cancel reports status ACTIVE whatever the stored status | an end-of-period CANCEL of a PAUSED subscription | the reply reports the status the subscription keeps | not executed | SubscriptionManagementController.PausedCancelReportsActiveAsWritten | SubscriptionManagementController.UpdateSubscription |
| modules/auth/src/main/java/com/subscriptionengine/auth/SignatureService.java:121-123 | the distance to the clock is `Math.abs(now - ts)` in long arithmetic, which wraps, and Math.abs of Long.MIN_VALUE is negative | the timestamp text of now - 2^63 | only timestamps within 300 seconds of the clock are accepted | not executed | SignatureService.StaleTimestampAccepted | SignatureService.TimestampInWindow |
| modules/scheduler/src/main/java/com/subscriptionengine/scheduler/service/TaskProcessorService.java:67-133 | the whole batch is one @Transactional call. The @Transactional generateInvoiceForProductRenewal (InvoiceGenerationService.java:71-111) throws and marks that transaction rollback-only, even though processProductRenewal catches the exception, so the commit fails and everything the batch did is undone, the lease and the attempt count included | a leased PRODUCT_RENEWAL whose plan was deleted after the renewal was scheduled | the renewal is marked failed, eventually for good, and the other leased tasks commit | not executed | TaskProcessor.RenewalFailureUndoesBatch | TaskProcessor.BatchSettlesLeased |
