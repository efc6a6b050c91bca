# LLM gateway: a verified model

A Dafny model of the parts of a small LLM gateway in which mistakes are hard to
see: the in-memory rate limiter, route selection and the life of a proxied
request, the cache loader and its refresh, the audit pipeline, the relational
store behind the admin API, and the SQL migrations. `dafny verify dfyconfig.toml`
checks the whole project.

## How it is organised

| part | modules |
|---|---|
| helpers | `Wrappers`, `MachineInts` (i32/u32/u64/u128 and casts), `Collections` (filters, stable sort, grouping), `PeriodicCount` |
| rate limiter | `RateLimiter` (the store), `LimiterRuns` (interleaved steps, full log), `LimiterBounds`, `LimiterSpacing` |
| routing | `RouteSelection` (the selector), `RouteFairness` |
| requests | `Gateway` (context and filter), `GatewayRuns` (all requests interleaved, cache swaps), `GatewayLimits`, `GatewayRequests`, `GatewayFilter`, `EndToEnd` |
| the whole system | `Deployment` (all parts on one database), `DeployedRoutes`, `DeployedLimits`, `DeployedAudit` |
| store | `Schema`, `Statements`, `Integrity`, `PolicyWrites`, `Loaders`, `KeyListing`, `AdminOps`, `AdminEffects`, `Repository`, `PolicyReadBack` |
| cache | `Cache`, `CacheLoader`, `CacheRefresh`, `KeyRetirement`, `RouteRetirement` |
| audit | `AuditPipeline` |
| migrations | `LegacySchema`, `PolicyMigration`, `MigrationMeaning`, `Migrations` |

Concurrent code is a state machine: one event per lock acquisition, clock
reading, statement or channel operation, in any order. A machine may also keep
what the program does not (the full log of recorded requests, the published cache
versions, the database history); no step reads these. Code that changes things in
place is a class or a method with loops whose contract equates the new state with
the specification function that the machine uses, so the theorems about runs cover
it. Tables are maps by primary key, or sequences of rows where row order is
visible; every constraint of the schema is part of `Schema.Valid`, and a statement
that breaks one fails and leaves the store as it was.

## Where code, comments and expectations differ

The model follows the code.

* "Prune entries older than 60s": `as_secs() > 60` truncates, so an entry is
  dropped at an age of 61 s (`gateway/src/proxy.rs:51-57`).
* A check reads the clock before it takes the lock, so a slow check can use a
  reading older than another check's prune. It may then let a request pass that the
  full log at its own reading would refuse: `LimiterSpacing.OutOfOrderReadingUndercounts`
  gives such a run, `LimiterRuns.ChecksAgreeIff` the exact condition.
* `entries.len() as i32` turns negative at 2^31 entries: the concurrent bound holds
  exactly while limit - 1 + k is below 2^31 (`LimiterBounds.BoundHoldsIff`), and the
  spacing exactly while fewer than 2^31 entries are counted
  (`LimiterSpacing.SpacingHoldsIff`); requests recorded without a limit can pile up to
  that number.
* A `tokens_per_minute` limit is checked but never reached: every request is recorded
  with 0 tokens (`gateway/src/proxy.rs:333`), so from a valid database no request is
  ever rejected for tokens (`DeployedLimits.NoRequestRejectedForTokens`).
* Round robin is fair across the wrap of the 64-bit cursor only for route counts
  that divide 2^64 (`RouteFairness.FairAcrossWrapIff`).
* The first schema lets a config route to mappings of other models. Two of its
  routes can then meet on one provider model, and migration 002 drops one of them:
  `MigrationMeaning.RouteLostWhereModelsMeet` is a valid database that loses a route.
* The first schema has an `enabled` flag on mappings, and 002 heeds it for a mapping no
  route uses (`deploy/sql/002_mapping_policies.sql:109,127`); of a mapping that a route
  uses it is dropped (`deploy/sql/002_mapping_policies.sql:84`). Taking an old route to be
  in force while it and its mapping are enabled, an enabled route on a disabled mapping
  comes back into force: `MigrationMeaning.AccessGainedByMigration` is a valid database
  where it does. `MigrationMeaning.AccessPreservedIff` is the exact condition for both.
* "A retry/duplicate must never fail the batch" (`gateway/src/audit_writer.rs:121`): it
  does not, but other rows can. A requested model may be any JSON string, also one with
  a NUL character, which a TEXT column refuses; one such row loses the whole batch (`AuditPipeline.OneNulLosesTheBatch`), and
  `AuditPipeline.FlushStoresIff` is the exact condition.
* 003 looks up whether the limit columns exist and never uses the answer
  (`deploy/sql/003_rate_limit_rules.sql:12-22`): a database with policies but neither
  limit columns nor a rules table makes it fail (`Migrations.ListMigrates`).
* The comment on `select_route` says the request id is uniformly random; a version 4
  id has fixed bits (section 5.4 of RFC 9562). The shares are proved over dice values
  and over consecutive 128-bit ids, not as probabilities.

## Model

| member | source | states |
|---|---|---|
| MachineInts.CastComparesFaithfully | gateway/src/proxy.rs:60-77 | a count cast to `i32` compares with every limit as the count itself does if and only if it is below 2^31 or its low 32 bits are the largest `i32` |
| MachineInts.CastKeepsLowBits | gateway/src/proxy.rs:60-77 | the cast changes a number by a multiple of 2^32 |
| MachineInts.StoredU32ReadsBack | admin-api/src/repositories.rs:1083-1085 | a `u32` is refused by the column check from 2^31 on, and otherwise reads back unchanged; a negative column reads as 0 |
| RateLimiter.RateLimitStore.CheckRateLimit | gateway/src/proxy.rs:42-83 | leaves the deque pruned from the front at the caller's reading, other keys alone, and rejects with exactly the first limit that is reached |
| RateLimiter.RateLimitStore.RecordRateLimit | gateway/src/proxy.rs:85-93 | appends one entry to the key's deque and changes no other |
| RateLimiter.ExpiresAtSpan | gateway/src/proxy.rs:51-57 | an entry expires exactly at an age of 61 s |
| RateLimiter.VerdictIsExact | gateway/src/proxy.rs:59-78 | below 2^31 requests and tokens a check passes exactly when both uncut counts stay below their limits; otherwise it names the count and the limit, requests before tokens |
| RateLimiter.TokensAddUp | gateway/src/proxy.rs:72 | the token sum of two deques in a row is the sum of theirs, and of one entry its tokens |
| LimiterRuns.DequeIsWindowOfLog | gateway/src/proxy.rs:47-57 | in every interleaved run the lazily pruned deque is the full log filtered at the highest reading any check of the key used |
| LimiterRuns.CheckDecidesOnWindow | gateway/src/proxy.rs:42-83 | in every run a check decides on the log filtered at the higher of its reading and that mark; it is the log at its own reading if and only if no entry fresh at that reading had expired at the mark |
| LimiterRuns.CheckRefinesFullLog | gateway/src/proxy.rs:42-83 | while nothing expired at the mark is fresh at its reading, as when readings follow lock order, and counts stay below 2^31, a check decides as if it filtered the whole log |
| LimiterRuns.UncheckedIff | gateway/src/proxy.rs:318-320 | a request goes unchecked exactly when its key has no limit of any type |
| LimiterRuns.ChecksAgreeIff | gateway/src/proxy.rs:47-68 | with fewer than 2^31 recent requests, the verdict agrees with the whole log at the reading for every requests-per-minute limit if and only if nothing expired at the mark is fresh at the reading |
| LimiterBounds.ConcurrentBound | gateway/src/proxy.rs:42-93 | with limit L and at most k requests of a key between a passed check and their record, no window shorter than 61 s holds more than L - 1 + k recorded requests, in any interleaving |
| LimiterBounds.SequentialBound | gateway/src/proxy.rs:312-333 | one request at a time: at most L |
| LimiterBounds.BoundIsReached | gateway/src/proxy.rs:42-93 | for every L and k some run records exactly L - 1 + k requests in one window |
| LimiterBounds.BoundBreaks | gateway/src/proxy.rs:61 | from 2^31 on a run exceeds the bound, because the count as an `i32` is negative |
| LimiterBounds.BoundHoldsIff | gateway/src/proxy.rs:42-93 | the bound holds in all runs if and only if it is below 2^31 |
| LimiterSpacing.CheckedRequestsAreSpaced | gateway/src/proxy.rs:42-93 | in every run, a recorded request that passed with limit L is 61 s after the entry L places before the end of the log its check saw |
| LimiterSpacing.SequentialRequestsAreSpaced | gateway/src/proxy.rs:312-333 | one request of a key at a time: time[j] - time[j-L] >= 61 s, also when limits change or were absent before |
| LimiterSpacing.SpacingBreaksAtCast | gateway/src/proxy.rs:61 | a sequential run in which, after 2^31 unpruned entries, one more request passes any limit but the least `i32`, at the instant of all others |
| LimiterSpacing.SpacingHoldsIff | gateway/src/proxy.rs:59-68 | for every limit and n: in all sequential runs every request that passed that limit with at most n entries counted keeps the 61 s distance, if and only if n is below 2^31 or the limit is the least `i32`, which nothing passes |
| LimiterSpacing.OutOfOrderReadingUndercounts | gateway/src/proxy.rs:47-48 | a run in which a check with an old reading passes a request the log at that reading refuses |
| RouteSelection.LandingOwnsPick | gateway/src/proxy.rs:184-198 | the dice loop stops at the one route whose slice holds the pick, so it always breaks and never subtracts below zero |
| RouteSelection.SharesAddUp | gateway/src/proxy.rs:185 | the total of two lists in a row is the sum of theirs, and of one route max(weight, 1) |
| RouteSelection.TotalFitsU64 | gateway/src/proxy.rs:185 | the sum of up to 2^32 shares fits in 64 bits |
| RouteSelection.ChoiceInRange | gateway/src/proxy.rs:175-199 | each strategy picks an existing route |
| RouteSelection.RouteSelector.SelectRoute | gateway/src/proxy.rs:166-201 | none exactly for an empty list; otherwise the first route, the route at the model's cursor modulo the count, or the route whose slice holds the dice value; only round robin moves a cursor, the model's own, by one, wrapping |
| RouteFairness.WeightedCycleIsExact | gateway/src/proxy.rs:184-198 | over one cycle of dice values route i is chosen exactly max(weight, 1) times |
| RouteFairness.WeightedShareOfConsecutiveIds | gateway/src/proxy.rs:184-198 | among N consecutive ids it is chosen between floor(N/total)*w and that plus w times |
| RouteFairness.TurnsFollowCursor | gateway/src/proxy.rs:177-183 | other models, other strategies and cache refreshes never move a model's cursor |
| RouteFairness.TurnsAreInRange | gateway/src/proxy.rs:180-182 | the index is in range also after the route count changes |
| RouteFairness.RoundRobinIsFair | gateway/src/proxy.rs:177-183 | while n stays and the cursor does not wrap (or n divides 2^64), each index comes up floor(m/n) or ceil(m/n) times in m turns |
| RouteFairness.FairAcrossWrapIff | gateway/src/proxy.rs:177-183 | over all runs of choices, across wraps of the cursor, round robin among n routes stays even if and only if n divides 2^64 |
| RouteFairness.UnfairAtWrap | gateway/src/proxy.rs:181 | for every other n, a run from the start whose last turns, no more than n, hit index 0 twice |
| Gateway.FilteredEnds | gateway/src/proxy.rs:247-398 | a request ends answered with one of eight statuses or forwarded; auth result, active flag and base URL are set exactly when it is forwarded |
| Gateway.RequestContext.ApplyRoute | gateway/src/proxy.rs:205-215 | fills provider, key, base URL and upstream model from one route; host and port only if the URL parses |
| Gateway.PathOfBase | gateway/src/proxy.rs:469-484 | a base URL whose parsed path is p and n slashes, p not ending in one, gives the upstream path p and `/chat/completions`, or leaves the path alone if p is empty |
| Gateway.ReadRequestBody | gateway/src/proxy.rs:339-350 | refuses exactly bodies over 4 MiB, wherever chunks are cut, and otherwise returns them whole |
| Gateway.ChunksJoin | gateway/src/proxy.rs:341-350 | the body is the chunks one after the other |
| Gateway.LlmGateway.Authenticate | gateway/src/proxy.rs:248-310 | 200, 404, 405, 401, 403 or the key id of the cache, counting 401 and 403 as failures |
| Gateway.LlmGateway.ApplyLimits | gateway/src/proxy.rs:312-333 | checks only a non-empty configuration; a rejected request is not recorded, every other is |
| Gateway.LlmGateway.ChooseRoute | gateway/src/proxy.rs:352-381 | a route of the body's model, else the first route of the fallback lookup, else none |
| Gateway.LlmGateway.RouteBody | gateway/src/proxy.rs:338-398 | 413 exactly for a body over 4 MiB, else the model the body names is kept; 503 or forwarded, with the gauge raised exactly when forwarded |
| Gateway.LlmGateway.RequestFilter | gateway/src/proxy.rs:247-398 | context, deques, cursors, answer and counters are those of the phases in order, for any cache each lookup may find |
| Gateway.LlmGateway.Logging | gateway/src/proxy.rs:500-568 | the total up by one, the gauge down exactly for counted requests, and a row exactly for audited ones, each of its columns holding its own field of the context |
| GatewayFilter.FilterIsARun | gateway/src/proxy.rs:247-398 | for any caches and readings one call may meet, some run of the machine of all requests ends with the same context, answer, deques and cursors |
| GatewayRuns.RunLimiterInv | gateway/src/proxy.rs:312-333 | in every run the phase of a request agrees with where the limiter has it: 429 is rejected, everything past the limiter is recorded |
| GatewayLimits.GatewayRunsLimiter | gateway/src/proxy.rs:312-333 | the limiter inside any gateway run goes through a run of the limiter alone |
| GatewayLimits.GatewayBound | gateway/src/proxy.rs:312-333 | the concurrent bound for whole gateway runs with cache swaps, from any first cache such as the empty one of `gateway/src/db.rs:84-90`, if from its first listing on every published cache gives the key limit L |
| GatewayLimits.RecordedExactly | gateway/src/proxy.rs:318-350 | the log of a key has one entry per request that passed the limiter, also if answered 413 or 503 later, and none for 429 or earlier answers |
| GatewayLimits.TokensNeverReject | gateway/src/proxy.rs:71-78 | in every run all deque and log entries hold 0 tokens, so no request of a key is rejected for tokens while each version gives the key no token limit or a positive one |
| GatewayLimits.RejectionSaysCount | gateway/src/proxy.rs:318-331 | a check in any run, with nothing lost and fewer than 2^31 recent requests, passes exactly below the limits; otherwise the answer is 429, and a rejection for requests names the number recorded in the last 61 s and the limit |
| GatewayLimits.PicksAreTurns | gateway/src/proxy.rs:359-368 | the route indices a run hands out by round robin are the turns of the cursor |
| GatewayLimits.GatewayRoundRobinIsFair | gateway/src/proxy.rs:177-183 | in a whole run, requests for a round-robin model with n routes are spread evenly |
| GatewayRequests.OneRoutePerRequest | gateway/src/proxy.rs:352-484 | in every run with swaps between phases, a forwarded request's context, address, port and TLS, substituted key, upstream path (the base URL's own, cut after the last character that is not a slash, and the endpoint) and rewritten model come from one route of one cache version; a body that names a model is looked up under it, and if the version read has routes for it the route is one of them, by priority the first, by weight the one whose slice holds the request id, else it is a first route of the version read at the fallback; an answered request sent nothing |
| GatewayRequests.ForwardedKeyWasPublished | gateway/src/proxy.rs:294-310 | 403 exactly when the version read at the key lookup lacks the hash; a forwarded request is attributed to the key that version names |
| GatewayRequests.AccountsAreExact | gateway/src/proxy.rs:281-309 | in every run the active gauge is the number of forwarded, unlogged requests (zero at rest), failures are the 401 and 403 answers, and auth result ok marks exactly the forwarded |
| GatewayRequests.StatusSaysWhy | gateway/src/proxy.rs:247-398 | in every run 200, 404, 405 and 401 are exactly the health checks, unknown paths, other methods and missing tokens, 403 exactly the hashes the version read lacks, 429 exactly the requests with a reason; 413 only for too large a body, which never goes further |
| GatewayRequests.RequestKeepsItsOwn | gateway/src/proxy.rs:223-245 | a request keeps the id, front and body it began with to the end of the run |
| GatewayRequests.OneRowPerLoggedRequest | gateway/src/proxy.rs:504-568 | each logged request but a health check has exactly one audit row, which tells its final context column by column, and, if the gateway answered it, the status of that answer (0 if nothing was written) |
| GatewayRequests.RowsSayWhatHappened | gateway/src/proxy.rs:541-563 | in every run each row has the key that the version read at the lookup names for the hash; the model of the body, if it was read; of a forwarded request the id, base URL and provider model of the one route that served it, and none otherwise; auth result, reason and status of the request |
| EndToEnd.LoadedCacheHasNoEmptyTargets | gateway/src/db.rs:139-161 | a loaded cache has no model with an empty list |
| GatewayRequests.NoUpstreamIff | gateway/src/proxy.rs:361-392 | within one cache version a request with a body of allowed size gets 503 exactly when the route map is empty, and is forwarded otherwise |
| GatewayRequests.NoUpstreamExactly | gateway/src/proxy.rs:372-392 | in every run over loaded caches a request is answered 503 if and only if it came to the fallback and the version read there has no route for any model |
| GatewayRequests.EveryRequestCanMove | gateway/src/proxy.rs:247-398 | in every reachable state each request not yet logged has an enabled step |
| EndToEnd.CachedRouteIsEnabledRow | gateway/src/db.rs:111-162 | every cached route is an enabled route row of an enabled policy for its model, with that row's weight and priority and the names, URL and key its provider model and provider have in the tables |
| EndToEnd.ForwardedKeyWasEnabled | gateway/src/proxy.rs:294-310 | a forwarded request belongs to a key enabled in the database version its cache was read from |
| EndToEnd.ForwardedRouteWasEnabled | gateway/src/proxy.rs:352-381 | a forwarded request is sent to the provider, as the tables have it, of an enabled route of an enabled policy; a body that names a model is looked up under it, and if found, the policy is one for that model |
| EndToEnd.PriorityReachesBest | gateway/src/proxy.rs:172-176 | a forwarded request for a model that is cached and routed by priority reaches a route row of lowest priority and then highest weight over all enabled rows of the model in the database |
| Deployment.AdminAlwaysEnabled | admin-api/src/repositories.rs:40-932 | in the system of gateway, refresh loop and audit writer, no admin operation is ever held up |
| Deployment.CachesAreLoaded | gateway/src/db.rs:241-262 | in every run of the system each cache the gateway has was loaded from versions of its own database |
| Deployment.RequestsFollowDatabase | gateway/src/proxy.rs:294-381 | in every run of the system a forwarded request belongs to a key enabled in some database version, and reaches an enabled route of an enabled policy of some version, of the model it asked for if found |
| Deployment.RetiredKeyIsForbidden | gateway/src/proxy.rs:294-309 | once a load begun after a rotation, disable or delete has been published, every request whose key lookup comes later with the old hash is answered 403, unless an operation brings the hash back |
| Deployment.LiveKeyIsAdmitted | gateway/src/proxy.rs:294-310 | once a load begun while a key was enabled with a hash has been published, every request whose lookup comes later with the hash gets past 403 and is attributed to that key, unless an operation ends it; so a rotated key works on with its new hash |
| RouteRetirement.RetiringTurnsOff | admin-api/src/repositories.rs:80-516 | disabling or deleting a policy, deleting its model, a provider or a provider model, and replacing a policy's routes without an enabled one turn off what depends on it |
| RouteRetirement.StaysOff | admin-api/src/repositories.rs:40-932 | it stays off under every operation but those that create it again or enable it |
| DeployedRoutes.RoutesAreFresh | gateway/src/db.rs:241-262 | a request handed its route after a publication is served from a database version no older than the start of that publication's load |
| DeployedRoutes.RetiredPartIsNotServed | gateway/src/proxy.rs:359-381 | once a load begun after a policy, provider, provider model or route was disabled or deleted has been published, every request handed a route later is served from a version in which nothing that needs it is served, and never by a deleted provider, unless an operation restores it |
| DeployedLimits.SystemBound | gateway/src/proxy.rs:312-333 | in every run of the system, if from the first database version with the key on its attached enabled policies give it requests-per-minute rules, all of value L, and at most k of its requests are ever between a passed check and their record, no 61 s hold more than L - 1 + k recorded requests |
| DeployedLimits.NoRequestRejectedForTokens | gateway/src/proxy.rs:333 | in every run of the system from a valid database no request is ever rejected for tokens, whatever token rules there are |
| DeployedAudit.LoggedRequestsAreOffered | gateway/src/proxy.rs:541-568 | in every run of the system the logged requests other than health checks are as many as the rows accepted plus the rows dropped, and the accepted rows are an order-preserving subsequence of theirs, flushed, collected or waiting in that order |
| DeployedAudit.OfferedRowsSayWhatHappened | gateway/src/proxy.rs:541-563 | in every run of the system each offered row has the id of its request, the key named at its lookup, the model its body asked for, the provider of the route that served it if one did, and no other reference |
| DeployedAudit.TableHoldsLoggedRequests | gateway/src/audit_writer.rs:94-125 | in every run of the system, whatever the admin API does, the audit table holds what it held before and, per new id, the first stored row; each stored row is one of a logged request |
| DeployedAudit.RequestedModelReachesRow | gateway/src/proxy.rs:352-360 | the model a body names reaches the audit row as it is, so one with a NUL makes a row the database cannot hold |
| DeployedAudit.OnlyRequestedModelsAreNoText | gateway/src/proxy.rs:541-568 | only a request whose body asks for a model with a NUL makes such a row, if the columns that are not modelled one by one have none |
| DeployedAudit.CleanBatchStoredIff | gateway/src/audit_writer.rs:82-125 | a batch none of whose requests asked for such a model is stored exactly when the database answers and no reference fails |
| CacheLoader.LoadKeyHashes | gateway/src/db.rs:94-105 | the map is exactly the enabled keys by hash, in any row order |
| CacheLoader.LoadModelRoutes | gateway/src/db.rs:111-162 | each model's list is the order-preserving sublist of its rows; the strategy is the first row's; models without rows are absent |
| CacheLoader.TargetsHoldEveryRow | gateway/src/db.rs:135-161 | list lengths sum to the row count and none is empty |
| CacheLoader.TargetHoldsServingRoutes | gateway/src/db.rs:107-162 | said of the tables alone: a model's list is a rearrangement of all its enabled route rows of enabled policies, by priority and then weight, each with its own numbers, provider model name and provider; the strategy is the first row's policy's; there is none exactly if there is no such row |
| CacheLoader.FirstRouteIsBest | gateway/src/db.rs:107-133 | the first route of a model comes from a route row of lowest priority and then highest weight over all enabled rows of the model's enabled policies, and its policy lends the strategy |
| CacheLoader.ModelHasTargetIff | gateway/src/db.rs:111-133 | a model is cached exactly when an enabled policy for it has an enabled route |
| CacheLoader.LoadRateLimits | gateway/src/db.rs:167-206 | each key's limit of a type is the value of the last row for it |
| CacheLoader.LastValueIsLast | gateway/src/db.rs:187-206 | a later row for the same key and type overwrites an earlier one |
| CacheLoader.LimitExactlyWhenRule | gateway/src/db.rs:167-206 | under any row order a key has a limit of a type exactly when an attached enabled policy has such a rule, and the value is one of theirs |
| CacheLoader.EachLimitHasItsRule | gateway/src/db.rs:167-206 | each of the four limits of a configuration is the value of an attached rule of just that type, and unset exactly without one |
| CacheLoader.OrderIndependentIff | gateway/src/db.rs:167-206 | the result is independent of row order exactly when those values agree |
| CacheLoader.LimitedKeysAreValid | gateway/src/db.rs:167-206 | read from one state, only valid keys have limits |
| CacheLoader.LoadFullCache | gateway/src/db.rs:208-214 | on an unchanging database the cache is the full view |
| CacheRefresh.PublicationsAgreeWithDatabase | gateway/src/db.rs:208-262 | in every interleaving of mutations, queries, publishes and failed loads, each published part is its view of some past state, the three states are in time order, and publishes never go backwards |
| CacheRefresh.QuietLoadIsFullView | gateway/src/db.rs:208-214 | a load without a mutation in between publishes one full view, with limited keys a subset of valid keys |
| KeyRetirement.RetiringEndsHash | admin-api/src/repositories.rs:774-837 | rotating, disabling or deleting a key leaves no enabled key with the old hash |
| KeyRetirement.RetiredHashLeavesCache | gateway/src/db.rs:241-262 | every load begun after that publishes a cache without the hash and without limits for it, unless an operation brings the hash back |
| KeyRetirement.LiveKeyIsListed | gateway/src/db.rs:94-105 | every load begun at or after a version in which a key is enabled with a hash lists the hash for that key, unless an operation ends it |
| KeyRetirement.RotatedKeyIsListed | admin-api/src/repositories.rs:789-829 | every load begun after an enabled key was rotated to a free hash lists the new hash for it, unless a later operation ends it |
| AuditPipeline.RowsAreConserved | gateway/src/audit_writer.rs:35-91 | in every run the accepted rows are, in order, those of flushed batches, the current batch and the queue; attempts are accepted or dropped; the queue holds at most 8192; batches have 1 to 256 rows; a stopped writer has left nothing behind |
| AuditPipeline.WriterDrainsAndStops | gateway/src/audit_writer.rs:62-91 | once all senders are gone the writer takes boundedly many steps, can always take the next one, and ends with every accepted row flushed |
| AuditPipeline.TableHoldsStoredRows | gateway/src/audit_writer.rs:94-125 | the table holds exactly what it held plus the rows of stored batches, first row per id, while admin operations run in between |
| AuditPipeline.FirstRowIsFirst | gateway/src/audit_writer.rs:121 | the row that counts for an id is the one no earlier row has |
| AuditPipeline.FlushStoresIff | gateway/src/audit_writer.rs:82-125 | a batch is stored as a whole exactly when the database answers, no new row refers to a deleted key or provider, and no row of it, new or not, holds a NUL character |
| AuditPipeline.OneNulLosesTheBatch | gateway/src/audit_writer.rs:94-125 | a batch of two unrelated rows, one with a requested model of one NUL character: the database answers and every reference holds, and both rows are lost |
| AuditPipeline.AuditWriter.TrySend | gateway/src/proxy.rs:564-567 | accepts exactly while fewer than 8192 rows wait, and never changes rows already queued |
| AuditPipeline.AuditWriter.InsertBatch | gateway/src/audit_writer.rs:82-125 | the batch is stored or lost as a whole and cleared |
| AuditPipeline.AuditWriter.CollectBatch | gateway/src/audit_writer.rs:66-80 | takes 1 to 256 rows from the front of the queue, in order |
| AuditPipeline.AuditWriter.RunToEnd | gateway/src/audit_writer.rs:62-91 | empties queue and batch, flushing every waiting row once, in order, in batches of 1 to 256 |
| Integrity.DeleteRemovesExactly | deploy/sql/002_mapping_policies.sql:19-56 | a delete removes exactly the doomed rows and, in a valid store, exactly what references them; audit rows stay, with exactly the references to removed rows nulled, also those reached through a cascade |
| Integrity.DeleteRefusedIff | deploy/sql/004_audit_log_fk_set_null.sql:1-34 | a delete is refused exactly when an audit row with a NO ACTION key refers to a doomed row; never when all are SET NULL |
| Integrity.DeleteValid | admin-api/src/repositories.rs:80-86 | cascades keep every constraint |
| Integrity.UpsertRouteValid | admin-api/src/repositories.rs:401-420 | an upsert of a route keeps every constraint |
| Integrity.UpsertLinkValid | admin-api/src/repositories.rs:895-914 | attaching keeps every constraint |
| Integrity.AttachGivesOneEnabledLink | admin-api/src/repositories.rs:895-914 | in a valid store attaching commits exactly when key and policy exist, ends with exactly one link between them, enabled, as old as the one that was there or else new, and nothing else changed; attaching again changes nothing |
| Integrity.DetachUndoesAttach | admin-api/src/repositories.rs:916-932 | detaching leaves no link between them, and undoes an attach that made one |
| Integrity.RotateKeyValid | admin-api/src/repositories.rs:789-829 | rotating a key keeps every constraint |
| Integrity.InsertAuditValid | gateway/src/audit_writer.rs:94-125 | an audit insert keeps every constraint |
| AdminOps.StepValid | admin-api/src/repositories.rs:40-932 | each admin operation and audit insert keeps every primary, unique, foreign key and check constraint; a failing one changes nothing |
| AdminEffects.RotateSetsHash | admin-api/src/repositories.rs:789-829 | rotating commits exactly for an existing key and a hash no other has; the key keeps name and flag and has the new hash, and every other key and table is as it was |
| AdminEffects.CreateAddsKey | admin-api/src/repositories.rs:727-772 | a new key needs a new id and hash, is enabled, and is the only change |
| AdminEffects.UpdateSetsNameAndFlag | admin-api/src/repositories.rs:774-787 | an update sets name and flag of an existing key and keeps its hash; an unknown id changes nothing |
| AdminEffects.ModelWrites | admin-api/src/repositories.rs:40-78 | a model is created under a new id and name, or changed to a name no other has, and nothing else |
| AdminEffects.ProviderWrites | admin-api/src/repositories.rs:132-202 | a provider gets the name, URL and key given; a change keeps the key if none is given |
| AdminEffects.ProviderModelWrites | admin-api/src/repositories.rs:271-306 | a provider model that is there under any id is left alone; a new one needs a new id and an existing provider |
| AdminEffects.PolicyOps | admin-api/src/repositories.rs:359-508 | a create stores its policy and the last entries listed; an update sets just the given fields and leaves omitted lists and all other tables |
| AdminEffects.AttachOp | admin-api/src/repositories.rs:895-914 | attaching commits exactly if key and policy exist and leaves one enabled link of the pair |
| AdminEffects.DetachOp | admin-api/src/repositories.rs:916-932 | detaching takes away the pair's links and no other row |
| AdminEffects.DeletesNamed | admin-api/src/repositories.rs:80-86 | each delete takes away the entity it names and what hangs on it: the policies of a model, the models of a provider, and exactly the routes, links and rules that need one of these |
| AdminOps.ReachableStoresAreValid | admin-api/src/repositories.rs:40-932 | so does every sequence of them |
| AdminOps.StepKeepsAudit | deploy/sql/004_audit_log_fk_set_null.sql:8-34 | no admin operation adds, removes or rewrites an audit row, apart from nulled references |
| AdminOps.AuditOutlivesEverything | deploy/sql/004_audit_log_fk_set_null.sql:1-34 | over any run an audit row stays, and no audit row ever blocks a delete |
| PolicyWrites.CreateKeepsLast | admin-api/src/repositories.rs:359-425 | a create commits exactly when its id is new, its model and provider models exist and no value is refused; for each limit type and provider model exactly the last requested entry is stored; other policies keep their rows |
| PolicyWrites.CreateInOrder | admin-api/src/repositories.rs:380-420 | without duplicates it stores the listed rows in order |
| PolicyWrites.UpdateReplacesExactly | admin-api/src/repositories.rs:427-508 | an update commits exactly when its lists have no duplicate and no refused value; it replaces the given lists row for row and leaves omitted fields and everything else alone |
| PolicyWrites.UpdateSetsGivenFields | admin-api/src/repositories.rs:432-450 | strategy and flag of the policy are set if given; model, time and every other policy stay |
| PolicyWrites.WrittenRows | admin-api/src/repositories.rs:451-505 | each listed rule and route becomes a row of the policy with its own type, value, provider model, numbers and flag, written now |
| PolicyWrites.CreateThenUpdateIsCreate | admin-api/src/repositories.rs:359-508 | creating and then updating to duplicate-free lists gives the tables of creating with those lists |
| PolicyReadBack.CreatedRouteReadsBack | admin-api/src/repositories.rs:664-676 | the last entry requested for a provider model reads back with the weight, priority and flag that were sent |
| PolicyReadBack.CreateThenUpdateReadsLikeCreate | admin-api/src/repositories.rs:338-508 | create-then-update reads back like creating with the new lists, but for the policy's creation time |
| Repository.Repository.CreateMappingPolicy | admin-api/src/repositories.rs:359-425 | the transaction ends in the specified store, or leaves it unchanged on failure |
| Repository.Repository.UpdateMappingPolicy | admin-api/src/repositories.rs:427-508 | the same for updates; a missing policy is an error after the commit |
| Repository.Repository.AttachApiKeyMappingPolicy | admin-api/src/repositories.rs:895-914 | in a valid store it succeeds exactly when key and policy exist, ends with exactly one link of the pair, enabled, with every other row as it was, and returns that link enabled; on failure nothing changes |
| Loaders.BulkAgreesWithSingle | admin-api/src/repositories.rs:518-662 | for any id list, also with repeats, the bulk rows of an id are those of its single query in the same order; unlisted ids have none |
| Loaders.LoadRoutesBulk | admin-api/src/repositories.rs:529-577 | the group of an id is what loading that id alone returns, absent meaning empty |
| Loaders.LoadRulesBulk | admin-api/src/repositories.rs:621-662 | the same for rules |
| Loaders.ListMappingPolicies | admin-api/src/repositories.rs:308-336 | listing all policies agrees with getting each one, and in a valid store loses none |
| Loaders.ReadsEveryRow | admin-api/src/repositories.rs:338-357 | in a valid store reading a policy returns all its routes and rules |
| Loaders.PolicyReadsTables | admin-api/src/repositories.rs:338-357 | in a valid store a policy reads back as its own row, all its routes by priority and age with the names of provider model and provider, and all its rules by age; no other policy's |
| KeyListing.ListApiKeys | admin-api/src/repositories.rs:678-718 | each key is listed with exactly its own linked policies |
| KeyListing.ListedLinksAddUp | admin-api/src/repositories.rs:840-893 | summed over the keys the listed links are as many as the link table has rows |
| KeyListing.ListedEntryIsLink | admin-api/src/repositories.rs:840-893 | every listed entry is a link of its key, as reading that one link returns it |
| KeyListing.LinkIsListed | admin-api/src/repositories.rs:840-893 | every link is listed under its key |
| KeyListing.KeyListsItsLinks | admin-api/src/repositories.rs:840-893 | in a valid store a key's list is its links, each once, newest first, each entry with the link's flag and its policy as read on its own |
| PolicyMigration.RoutesKeptIff | deploy/sql/002_mapping_policies.sql:74-134 | the new routes under an id are what its old ones meant, flag of the mapping included, in order, if and only if no two lead to one provider model, no orphan of the same id adds one, and no enabled one uses a disabled mapping |
| PolicyMigration.RoutesCarriedIff | deploy/sql/002_mapping_policies.sql:74-134 | leaving the mappings' flags aside, the first two conditions are exact |
| MigrationMeaning.PoliciesAreExactly | deploy/sql/002_mapping_policies.sql:58-118 | every config becomes the policy of its id with its model, flag and time, priority staying priority and all else weighted; every unreferenced mapping with a free id becomes a weighted one; and there is no other |
| MigrationMeaning.LinksAreExactly | deploy/sql/002_mapping_policies.sql:90-99 | every config becomes one link of its key to its policy, with its flag and time |
| MigrationMeaning.TranslatedRows | deploy/sql/002_mapping_policies.sql:76-87 | the join loses and repeats no route: each becomes one row with its own weight, priority, flag and time and the provider model of its mapping |
| MigrationMeaning.AccessPreservedIff | deploy/sql/002_mapping_policies.sql:58-134 | for every valid old database, what every key reaches through its links (model, strategy, flags, routes in force with weight, priority and order) is the same after as before if and only if every config is faithful and no enabled route of it uses a disabled mapping |
| MigrationMeaning.MeaningPreserved | deploy/sql/002_mapping_policies.sql:58-134 | if routes use mappings of their config's model and ids are disjoint, every route arrives with its own flag, weight and priority in order, and each key reaches through its links for each model what it reached before if and only if no enabled route uses a disabled mapping |
| MigrationMeaning.DisabledMappingComesBack | deploy/sql/002_mapping_policies.sql:76-88 | in such a database every enabled route on a disabled mapping is out of force before the migration and in force after it |
| MigrationMeaning.AccessGainedByMigration | deploy/sql/002_mapping_policies.sql:84 | a valid database in which a key gains a route |
| MigrationMeaning.NoRowLostIff | deploy/sql/001_init.sql:31-73 | every old route and every orphan offers one row; none is lost to ON CONFLICT exactly when no two meet, which the old UNIQUE constraints guarantee under the same condition |
| MigrationMeaning.NoRowLostInAnyOrderIff | deploy/sql/002_mapping_policies.sql:76-134 | the statements name no order: in every order of the offered rows none is lost exactly when no two meet |
| MigrationMeaning.RouteLostWhereModelsMeet | deploy/sql/002_mapping_policies.sql:76-88 | a database the old constraints allow, whose migration loses one of two routes in whatever order the join delivers them; in table order the second |
| MigrationMeaning.OrphanGetsOwnPolicyIff | deploy/sql/002_mapping_policies.sql:101-134 | a mapping becomes exactly one single-route policy 100/100 with its own model, flag and time and without keys if and only if no route refers to it and no config has its id |
| MigrationMeaning.MigratedStoreIsValid | deploy/sql/002_mapping_policies.sql:19-134 | all new keys and checks hold: no INSERT of the migration can fail |
| Migrations.LimitsBecomeRules | deploy/sql/003_rate_limit_rules.sql:22-54 | the rules of a policy are exactly one of the type and value its columns hold, written now, if both are set, and none if either is null or there is no such policy; the columns go and nothing else changes |
| Migrations.MovedLimitsAreValid | deploy/sql/003_rate_limit_rules.sql:25-49 | these rules are positive, one per policy and type, and of existing policies |
| Migrations.ListMigrates | admin-api/src/db.rs:54-62 | from every coherent database, new or half migrated, the list succeeds and leaves a migrated one; it fails exactly where 003 misses the limit columns |
| Migrations.ScriptKeepsCoherent | admin-api/src/db.rs:8-14 | every script keeps: the limit columns exist exactly while the rules table does not |
| Migrations.RerunChangesNothing | admin-api/src/db.rs:54-62 | on a migrated database the list changes no live row; it only creates the old tables again, empty |
| Migrations.RestartConverges | admin-api/src/db.rs:54-62 | stopped after any script and started again, it ends with the live tables of one run |
| Migrations.FreshStartIsEmpty | deploy/sql/001_init.sql:1-96 | a first start on an empty database gives the empty store |
| Migrations.UpgradePreserves | admin-api/src/db.rs:8-14 | the whole list on a database of the first schema succeeds, gives a valid store with the kept tables as they were, and preserves what keys reach through their links exactly under the condition of `AccessPreservedIff` |
| Migrations.HalfMigratedUpgrades | deploy/sql/003_rate_limit_rules.sql:22-54 | a database with policies and valid limit columns but no rules table becomes a valid live store with every other table as it was and, per policy, one rule of exactly the type and value its columns held, or none if either is null |
| Migrations.DeletesFreedBy004 | deploy/sql/004_audit_log_fk_set_null.sql:8-34 | with the first schema a delete fails exactly when an audit row names a doomed row; on a migrated database never |
| Migrations.Database.RunInit | deploy/sql/001_init.sql:3-96 | creates what is missing and touches no existing row |
| Migrations.Database.RunMovePolicies | deploy/sql/002_mapping_policies.sql:16-153 | under its guard, statement by statement, ends in the specified tables; otherwise changes nothing |
| Migrations.Database.RunMoveLimits | deploy/sql/003_rate_limit_rules.sql:22-62 | the same for the limit columns, or fails and changes nothing |
| Migrations.Database.RunReleaseAudit | deploy/sql/004_audit_log_fk_set_null.sql:6-35 | each audit foreign key still NO ACTION becomes SET NULL |
| Migrations.Database.RunInitSchema | admin-api/src/db.rs:54-62 | runs the scripts in order and stops at the first failure, keeping what the earlier ones did |
| Migrations.InsertTranslatedRoutes | deploy/sql/002_mapping_policies.sql:76-88 | the join and its conflict rule, as a nested loop |
| Migrations.FindOrphans | deploy/sql/002_mapping_policies.sql:113-117 | exactly the mappings no route refers to, in order |

## Left out

- HTTP, TLS, the proxy framework's callbacks, metrics export, the async runtime and the SQL client: only their phases, locks, queue, clock and tables are steps.
- JSON parsing and rewriting of the body (`gateway/src/proxy.rs:400-440`): what the library reads as `model` is a parameter, and the body is sent with the context's upstream model; padding and chunk delivery are not modelled.
- URL parsing is a parameter; environment configuration, bearer parsing, enum-to-string helpers, upstream model fetching and route handlers are not modelled.
- Hashing: keys carry their hash as a value. Generated ids are inputs that may already be taken, except the random id of a rate-limit rule, which is taken to be new and not stored.
- Columns that no modelled code decides on: `updated_at`, `last_used_at`, key prefix and suffix, and most audit columns, which are one value. Names are not trimmed.
- Row order: `ORDER BY` is a stable sort by row position in the admin loaders, where bulk and single queries are compared; in the gateway's route query ties come in any order; an unordered listing takes the order of its rows as an input. An upsert keeps the row's position.
- Sums of tokens wrap at 64 bits as in a release build; a debug build would stop instead. Only the recorded value 0 occurs in the gateway, the limiter is modelled for any.
- Per-day limits are stored and loaded; the code enforces none, so nothing is claimed about days, nor that several policies' limits combine to the minimum.
- Lock poisoning, reconnects, the length of the refresh and flush intervals: free choices of the machines. Forwarded requests that the framework drops without logging are not modelled.
- One gateway process on a database: several would each have their own limiter, cursors and cache.
- The audit channel after its receiver is gone; the listing of the last 100 audit rows; provider model counts.
- The rows 002 inserts come in the order of the old tables. The statements name none; whether a row is lost does not depend on it (`MigrationMeaning.NoRowLostInAnyOrderIff`), which one of two that meet does.
- A NUL character in an id of an admin request: the statement fails there, where the model finds no row. Names and base URLs with one are refused as in the database.
- Migrations: each script is one transaction. The three old tables exist together, as the scripts create and drop them; a database where only some of them exist is not modelled. Indexes have no effect on rows. The ON CONFLICT of 003 is not written out, since a policy has one pair of columns.
- Migration timestamps: the rules of 003 carry the time of the run; all else keeps the times of the old rows.
