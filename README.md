# Boost backend core in Dafny

A model of the Python backend of the Uzinex Boost rewards platform. Users earn and spend an internal
currency (UZT) through tasks, orders, payments and referrals. The model covers what moves or guards
that money:

- **The cache layer** (`cache_base.dfy`, `cache_docs.dfy`, `cache_utils.dfy`). This is the
  `CacheBackend` key builder with its `ttl`/`to_json`/`from_json` helpers, and the in-memory
  `MemoryCache` as a class over a value map and an expiry map. Time is an explicit `now`.
- **Guards on that cache** (`idempotency.dfy`, `rate_limit.dfy`). `IdempotencyManager` registers,
  checks and releases tokens and wraps an operation in its guard. `RateLimiter` is a counter
  whose window restarts at every hit, because each `check` re-applies the TTL; it has `check`,
  `reset`, `allow_once` and the retry-after time.
- **Domain caches** (`order_cache.dfy`, `task_cache.dfy`, `user_cache.dfy`). These are classes whose
  methods read and write documents in the shared backend.
- **The ledger** (`user_model.dfy`, `transactions.dfy`, `balance_service.dfy`).
  - `User.add_balance`/`deduct_balance`, the transaction table, and `BalanceService` with deposit,
    withdraw, transfer and adjust_balance.
  - Each service operation is a pure step on a `Ledger` value (users and transaction rows), and a
    class method is proved to perform that step.
  - The lemmas prove three things: every step keeps the books (a balance changes by exactly the sum
    of the rows it appends); no balance goes negative; and each step is allowed or refused exactly
    as the rules say.
- **The business rules** (`balance_rules.dfy`, `order_rules.dfy`, `payment_rules.dfy`,
  `referral_rules.dfy`, `task_rules.dfy`, `user_rules.dfy`, on `rule_base.dfy`). Each check returns
  `Allow` or the first reason it denies, so the order of the checks is part of every contract.
- **The services built on the ledger** (`payment_service.dfy`, `task_service.dfy`,
  `order_service.dfy`, `referral_service.dfy`). These cover the status machines of payments, tasks
  and orders and the referral bonuses. The lemmas prove what each transition does to the ledger,
  including the places where that is not what the code evidently intends (see "Findings").
- **The manual payment provider and the event dispatcher** (`manual_provider.dfy`,
  `dispatcher.dfy`). These are classes over their invoice store and their subscriber lists.
- **Pure helpers**:
  - `order_model.dfy`;
  - `time_utils.dfy` and `formatters.dfy` (durations, short names, event lines, ratios);
  - `crypto.dfy` (`compare_secure` over UTF-8 bytes);
  - `validators.dfy` (the regular expressions as matchers, with Python's `$`);
  - `payment_utils.dfy` and `pyvalues.dfy` (`str`/`int` conversions and the signature payload);
  - `security.dfy` and `webapp_auth.dfy` (the two Telegram Mini App init-data checks);
  - `contracts.dfy` (the bot's result objects and their `to_dict`).

Supporting modules have no source counterpart of their own:

- `wrappers.dfy`: Option and Result.
- `text.dfy`: split, join, strip and decimal conversion as Python does them.
- `sorting.dfy`: an insertion sort with uniqueness of sorted permutations.
- `durations.dfy`: timedelta as whole microseconds.

Modelling choices:

- Money is `real`, since Python floats are used as exact decimals here.
- Time is an `int` number of seconds, given as a parameter.
- Ids that the source draws from uuid or from a database sequence are fresh-id parameters or
  counters.
- Foreign computations become function parameters: HMAC and SHA-256 signing, JSON decoding of the
  user field, URL unquoting and the email regular expression.

## Model

| member | source | states |
|---|---|---|
| CacheBase.PartTexts | apps/backend/src/adapters/cache/base.py:72 | one text per part, each the part's str() |
| CacheBase.IntTextHasNoColon | apps/backend/src/adapters/cache/base.py:72 | the str() of an int never contains ":" |
| CacheBase.BuildKeySplits | apps/backend/src/adapters/cache/base.py:67-73 | splitting a key built from colon-free parts on ":" gives the namespace followed by every part's text |
| CacheBase.BuildKeyInjective | apps/backend/src/adapters/cache/base.py:67-73 | equal keys from colon-free parts have equal namespaces and equal part texts (so 1 and "1" collide) |
| CacheBase.BuildKeyEndsWithLast | apps/backend/src/adapters/cache/base.py:72-73 | a key ends with the str() of its last part |
| CacheBase.BuildKeysDifferInSecondPart | apps/backend/src/adapters/cache/base.py:67-73 | keys whose second parts start with different characters differ whatever follows |
| CacheBase.BuildKeyExample | apps/backend/src/adapters/cache/base.py:70 | build_key('user', 123, 'profile') is 'uzinex_boost:user:123:profile' |
| CacheBase.ToJson | apps/backend/src/adapters/cache/base.py:76-88 | from_json reads back every document to_json wrote |
| CacheBase.Ttl | apps/backend/src/adapters/cache/base.py:90-97 | None gives None, an int gives itself, a timedelta its whole seconds; `ttl_to_seconds` in the cache utilities (utils.py:46-52) is the same conversion |
| CacheBase.GetAfterSet | apps/backend/src/adapters/cache/base.py:124-137 | a value set with an expiry is read back until that expiry passes |
| CacheBase.SetWithoutExpireKeepsExpiry | apps/backend/src/adapters/cache/base.py:132-137 | set without expire stores the value and leaves every recorded expiry as it was |
| CacheBase.GetExpired | apps/backend/src/adapters/cache/base.py:124-130 | after the expiry, get returns None and removes both value and expiry |
| CacheBase.ExistsIgnoresExpiry | apps/backend/src/adapters/cache/base.py:146-148 | exists looks only at stored values, so an expired key nobody has read still exists |
| CacheBase.DeleteRemoves | apps/backend/src/adapters/cache/base.py:139-144 | delete returns 1 exactly when a value was stored, 0 otherwise, and leaves neither value nor expiry |
| CacheBase.IncrStoresResult | apps/backend/src/adapters/cache/base.py:150-156 | a missing key counts as 0; the new total is stored and returned; a truthy expire resets the expiry every call |
| CacheBase.IncrTwice | apps/backend/src/adapters/cache/base.py:150-156 | two increments add up, whatever expiry the first one set |
| CacheBase.IntOfDocInt | apps/backend/src/adapters/cache/base.py:152 | int() of a stored int gives it back |
| CacheBase.ExpireOnlyMovesExpiry | apps/backend/src/adapters/cache/base.py:158-163 | expire changes nothing for an absent key and only the expiry of a present one |
| CacheBase.OtherKeysUntouched | apps/backend/src/adapters/cache/base.py:124-163 | get, set, delete, incr and expire on one key leave every other key's reading unchanged |
| CacheBase.OperationsKeepTidy | apps/backend/src/adapters/cache/base.py:118-163 | no operation leaves an expiry recorded for a key without a value |
| CacheBase.MemoryCache.constructor | apps/backend/src/adapters/cache/base.py:118-122 | namespace "memory", empty store and expiry table |
| CacheBase.MemoryCache.Get | apps/backend/src/adapters/cache/base.py:124-130 | returns and leaves the state the pure get specifies |
| CacheBase.MemoryCache.Set | apps/backend/src/adapters/cache/base.py:132-137 | returns True; stores the value, records an expiry only for a truthy expire |
| CacheBase.MemoryCache.Delete | apps/backend/src/adapters/cache/base.py:139-144 | returns the 0/1 count and removes value and expiry |
| CacheBase.MemoryCache.Exists | apps/backend/src/adapters/cache/base.py:146-148 | true exactly when a value is stored |
| CacheBase.MemoryCache.Incr | apps/backend/src/adapters/cache/base.py:150-156 | returns old+amount (or the int() error) and stores it, resetting the expiry when expire is truthy |
| CacheBase.MemoryCache.Expire | apps/backend/src/adapters/cache/base.py:158-163 | True exactly for a present key, whose expiry is moved |
| CacheBase.MemoryCache.Close | apps/backend/src/adapters/cache/base.py:165-168 | both tables are emptied |
| CacheDocs.ReadDoc | apps/backend/src/adapters/cache/order_cache.py:76-80 | nothing stored reads as None; a stored document reads back as that document |
| CacheDocs.ReadDocAfterSet | apps/backend/src/adapters/cache/order_cache.py:63-80 | a document stored with a positive TTL reads back until the TTL runs out |
| CacheDocs.FieldOr | apps/backend/src/adapters/cache/order_cache.py:90 | dict.get gives the field or the default; a non-dict raises AttributeError |
| CacheDocs.Truncate | apps/backend/src/adapters/cache/order_cache.py:141-142 | int() of a float truncates toward zero |
| CacheDocs.IntOf | apps/backend/src/adapters/cache/order_cache.py:90 | int() of a decoded int is that int |
| CacheDocs.IntField | apps/backend/src/adapters/cache/order_cache.py:90 | int(doc.get(field, default)): the field's int, the default when absent, AttributeError on a non-dict |
| Durations.WholeSeconds | apps/backend/src/adapters/cache/base.py:96 | int(total_seconds()) is the whole seconds, truncated toward zero, with the duration's sign |
| Durations.WholeSecondsOfSeconds | apps/backend/src/adapters/cache/base.py:95-96 | a whole number of seconds survives total_seconds() and int() |
| OrderCache.StatsKeyIsNotActiveKey | apps/backend/src/adapters/cache/order_cache.py:63 | a stats key and an active-list key never collide |
| OrderCache.StatsDoc | apps/backend/src/adapters/cache/order_cache.py:64-70 | total, done and status always; owner_id exactly when it is truthy; no other field |
| OrderCache.StrList | apps/backend/src/adapters/cache/order_cache.py:99 | the id list becomes a JSON list of the same strs in the same order |
| OrderCache.Max1 | apps/backend/src/adapters/cache/order_cache.py:141 | max(1, total): at least 1 and at least total, total itself when positive |
| OrderCache.ScanStopsAtError | apps/backend/src/adapters/cache/order_cache.py:157-163 | once an exception is raised inside the loop the remaining ids change nothing |
| OrderCache.StatsRoundTrip | apps/backend/src/adapters/cache/order_cache.py:63-80 | get_order_stats after set_order_stats returns the stored document until the TTL runs out |
| OrderCache.UpdateDoneAfterSet | apps/backend/src/adapters/cache/order_cache.py:82-92 | update_done_count adds the increment to done, writes the document back with a fresh TTL and returns the new done; other fields stay |
| OrderCache.UpdateDoneWithoutStats | apps/backend/src/adapters/cache/order_cache.py:87-89 | with no stats cached it returns None and writes nothing |
| OrderCache.ActiveOrdersRoundTrip | apps/backend/src/adapters/cache/order_cache.py:94-109 | get_active_orders returns exactly the list cache_active_orders stored, including an empty one, and [] when nothing is cached |
| OrderCache.ActiveOrdersPassesDecoded | apps/backend/src/adapters/cache/order_cache.py:106-109 | only the raw text is tested: any stored document, even a falsy one such as null, comes back as decoded |
| OrderCache.InvalidationsAreIndependent | apps/backend/src/adapters/cache/order_cache.py:111-123 | invalidate_order removes only the stats, invalidate_user_orders only the owner's list |
| OrderCache.ProgressOfStats | apps/backend/src/adapters/cache/order_cache.py:134-143 | progress is done / max(1, total) * 100: total <= 0 divides by 1, done == total > 0 gives 100 |
| OrderCache.ProgressWithoutStats | apps/backend/src/adapters/cache/order_cache.py:138-140 | without stats the progress is None |
| OrderCache.SummaryWithoutList | apps/backend/src/adapters/cache/order_cache.py:150-152 | without a cached list the summary is all zeros |
| OrderCache.ScanWithoutStats | apps/backend/src/adapters/cache/order_cache.py:157-163 | ids without cached stats add nothing to the totals |
| OrderCache.SummaryCountsAllIds | apps/backend/src/adapters/cache/order_cache.py:145-170 | active_count counts every listed id even when none has stats; done and the average are then 0 |
| OrderCache.OrderCache.constructor | apps/backend/src/adapters/cache/order_cache.py:28-36 | keeps the backend, the namespace and the TTL |
| OrderCache.OrderCache.SetOrderStats | apps/backend/src/adapters/cache/order_cache.py:46-72 | returns True and stores the stats document under "<ns>:<id>:stats" with the TTL |
| OrderCache.OrderCache.GetOrderStats | apps/backend/src/adapters/cache/order_cache.py:74-80 | returns what the pure reader specifies and only touches the store as get does |
| OrderCache.OrderCache.UpdateDoneCount | apps/backend/src/adapters/cache/order_cache.py:82-92 | result and new store are those of the pure update_done_count |
| OrderCache.OrderCache.CacheActiveOrders | apps/backend/src/adapters/cache/order_cache.py:94-99 | returns True and stores the id list under "<ns>:user:<owner>:active" with the TTL |
| OrderCache.OrderCache.GetActiveOrders | apps/backend/src/adapters/cache/order_cache.py:101-109 | returns whatever from_json decodes from a truthy raw text, or [] when nothing (or a falsy text) is cached |
| OrderCache.OrderCache.InvalidateOrder | apps/backend/src/adapters/cache/order_cache.py:111-116 | deletes the stats key |
| OrderCache.OrderCache.InvalidateUserOrders | apps/backend/src/adapters/cache/order_cache.py:118-123 | deletes the owner's active-list key |
| OrderCache.OrderCache.RefreshTtl | apps/backend/src/adapters/cache/order_cache.py:129-132 | True exactly when the stats are cached; their expiry moves to now + TTL |
| OrderCache.OrderCache.GetProgressPercent | apps/backend/src/adapters/cache/order_cache.py:134-143 | returns the progress the pure function specifies |
| OrderCache.OrderCache.GetSummaryForUser | apps/backend/src/adapters/cache/order_cache.py:145-170 | zeros for a falsy active value; otherwise walks a list's items or a str's characters; result and store are those of the pure summary |
| OrderCache.OrderCache.ScanActiveIds | apps/backend/src/adapters/cache/order_cache.py:154-162 | the loop reads each id's stats, adds done/max(1, total) and done for truthy stats, and stops at the first exception; result and store are those of the pure scan |
| TaskCache.KeysAreDistinct | apps/backend/src/adapters/cache/task_cache.py:65-125 | the active-task, proof and given keys never collide with one another, so a given-marker key is never an active-task key whatever the users |
| TaskCache.ActiveDoc | apps/backend/src/adapters/cache/task_cache.py:66 | the active-task document is a truthy object with exactly task_id and order_id |
| TaskCache.ActiveTaskRoundTrip | apps/backend/src/adapters/cache/task_cache.py:60-158 | within the TTL the cached task reads back, is_task_active holds for its id and for no other, and get_user_summary reports has_active_task and both stored ids |
| TaskCache.ClearedTaskIsInactive | apps/backend/src/adapters/cache/task_cache.py:77-87 | after clear_active_task nothing is active and the summary is False/None/None |
| TaskCache.ProofLifecycle | apps/backend/src/adapters/cache/task_cache.py:93-114 | a proof reads back until its TTL runs out, delete_proof removes it, and neither touches the user's active task |
| TaskCache.GivenIsRemembered | apps/backend/src/adapters/cache/task_cache.py:120-131 | after mark_task_given, was_task_given holds for that user and order, and another order keeps its own answer |
| TaskCache.TaskCache.constructor | apps/backend/src/adapters/cache/task_cache.py:30-46 | keeps the backend, the namespace and both TTLs |
| TaskCache.TaskCache.CacheActiveTask | apps/backend/src/adapters/cache/task_cache.py:60-67 | returns True and stores the task document under the user's active key with the active TTL |
| TaskCache.TaskCache.GetActiveTask | apps/backend/src/adapters/cache/task_cache.py:69-75 | returns the decoded document, None when nothing truthy is stored, and the store changes only as get changes it |
| TaskCache.TaskCache.ClearActiveTask | apps/backend/src/adapters/cache/task_cache.py:77-80 | deletes the user's active key and nothing else |
| TaskCache.TaskCache.IsTaskActive | apps/backend/src/adapters/cache/task_cache.py:82-87 | True exactly when a task is active and its task_id equals the one asked about |
| TaskCache.TaskCache.CacheProof | apps/backend/src/adapters/cache/task_cache.py:93-99 | returns True and stores the proof document under the task's proof key with the proof TTL |
| TaskCache.TaskCache.GetProof | apps/backend/src/adapters/cache/task_cache.py:101-109 | returns the decoded proof, None when nothing truthy is stored |
| TaskCache.TaskCache.DeleteProof | apps/backend/src/adapters/cache/task_cache.py:111-114 | deletes the task's proof key and nothing else |
| TaskCache.TaskCache.MarkTaskGiven | apps/backend/src/adapters/cache/task_cache.py:120-126 | returns True and stores "1" under the user-and-order key with the active TTL |
| TaskCache.TaskCache.WasTaskGiven | apps/backend/src/adapters/cache/task_cache.py:128-131 | True exactly when the user-and-order key is stored |
| TaskCache.TaskCache.ClearGivenTasks | apps/backend/src/adapters/cache/task_cache.py:133-144 | on the in-memory backend, which has no keys listing, the store is unchanged |
| TaskCache.TaskCache.GetUserSummary | apps/backend/src/adapters/cache/task_cache.py:150-158 | the summary of the active task, or the decoding error |
| UserCache.ProfileKeyIsNotSessionKey | apps/backend/src/adapters/cache/user_cache.py:70-103 | a profile key and a session key never collide |
| UserCache.SessionDoc | apps/backend/src/adapters/cache/user_cache.py:104 | the session document is a truthy object with exactly user_id and data |
| UserCache.ProfileRoundTrip | apps/backend/src/adapters/cache/user_cache.py:57-144 | within the TTL a cached profile reads back unchanged, and the role, is_admin and is_active answers come from its own role and status fields |
| UserCache.EmptyProfile | apps/backend/src/adapters/cache/user_cache.py:129-173 | an empty profile is falsy for get_role and get_summary, which gives the short summary {user_id, is_active: False}, while is_active still asks it for status |
| UserCache.NullProfile | apps/backend/src/adapters/cache/user_cache.py:74-144 | a cached "null" decodes to None, so is_active is False and get_role None, as for a missing profile |
| UserCache.NoProfile | apps/backend/src/adapters/cache/user_cache.py:129-173 | with nothing cached: no role, not an admin, not active, the short summary |
| UserCache.UpdateBalanceKeepsOtherFields | apps/backend/src/adapters/cache/user_cache.py:146-156 | update_balance_in_cache replaces only the balance and keeps every other field |
| UserCache.UpdateBalanceWithoutProfile | apps/backend/src/adapters/cache/user_cache.py:150-152 | with no profile cached nothing is written |
| UserCache.SessionLifecycle | apps/backend/src/adapters/cache/user_cache.py:95-123 | a session reads back as {user_id, data} within its TTL; invalidating the session leaves the profile and the other way round |
| UserCache.UserCache.constructor | apps/backend/src/adapters/cache/user_cache.py:27-45 | keeps the backend, the namespace and both TTLs |
| UserCache.UserCache.SetProfile | apps/backend/src/adapters/cache/user_cache.py:57-71 | returns True and stores the profile under the profile key with the profile TTL |
| UserCache.UserCache.GetProfile | apps/backend/src/adapters/cache/user_cache.py:73-79 | returns the decoded profile, None when nothing truthy is stored |
| UserCache.UserCache.InvalidateProfile | apps/backend/src/adapters/cache/user_cache.py:81-84 | deletes the profile key and nothing else |
| UserCache.UserCache.RefreshProfileTtl | apps/backend/src/adapters/cache/user_cache.py:86-89 | True exactly when the profile key is stored; the key's expiry is renewed |
| UserCache.UserCache.CacheSession | apps/backend/src/adapters/cache/user_cache.py:95-105 | returns True and stores {user_id, data} under the session key with the session TTL |
| UserCache.UserCache.GetSession | apps/backend/src/adapters/cache/user_cache.py:107-113 | returns the decoded session, None when nothing truthy is stored |
| UserCache.UserCache.InvalidateSession | apps/backend/src/adapters/cache/user_cache.py:115-118 | deletes the session key and nothing else |
| UserCache.UserCache.IsSessionActive | apps/backend/src/adapters/cache/user_cache.py:120-123 | True exactly when the session key is stored |
| UserCache.UserCache.GetRole | apps/backend/src/adapters/cache/user_cache.py:129-134 | the profile's role, None without a truthy profile |
| UserCache.UserCache.IsAdmin | apps/backend/src/adapters/cache/user_cache.py:136-139 | True exactly when the role is "admin" |
| UserCache.UserCache.IsActive | apps/backend/src/adapters/cache/user_cache.py:141-144 | True exactly when a profile is cached and its status is "active"; False for nothing cached or a cached null, and AttributeError for any other non-dict document |
| UserCache.UserCache.UpdateBalanceInCache | apps/backend/src/adapters/cache/user_cache.py:146-156 | the new store and error are those of the pure read-modify-write |
| UserCache.UserCache.GetSummary | apps/backend/src/adapters/cache/user_cache.py:160-180 | the full summary from the profile's fields, or the short one without a profile |
| Idempotency.RegisterTwice | apps/backend/src/adapters/cache/idempotency.py:59-68 | of two registrations of one token the first succeeds and the second raises IdempotencyConflict with the key |
| Idempotency.ConflictWritesNothing | apps/backend/src/adapters/cache/idempotency.py:65-67 | a conflicting registration leaves the store as it was |
| Idempotency.RegisterStoresMarker | apps/backend/src/adapters/cache/idempotency.py:68 | a fresh registration stores "locked" with the manager's TTL |
| Idempotency.ReleaseThenRegister | apps/backend/src/adapters/cache/idempotency.py:70-75 | after release the token can be registered again |
| Idempotency.TokenOutlivesTtl | apps/backend/src/adapters/cache/idempotency.py:65-68 | on the in-memory backend the token stays registered past its TTL until a get finds it expired |
| Idempotency.GuardKeepsOnSuccessReleasesOnFailure | apps/backend/src/adapters/cache/idempotency.py:98-107 | the guard keeps the key when the block succeeds, releases it when the block raised, and never suppresses the exception |
| Idempotency.EnsureIdempotentSharesKey | apps/backend/src/adapters/cache/idempotency.py:121 | ensure_idempotent uses the key of a manager with the default "idempotency" namespace |
| Idempotency.IdempotencyManager.constructor | apps/backend/src/adapters/cache/idempotency.py:36-44 | keeps the backend, the namespace and the TTL |
| Idempotency.IdempotencyManager.Check | apps/backend/src/adapters/cache/idempotency.py:50-57 | True exactly when the token's key is stored |
| Idempotency.IdempotencyManager.Register | apps/backend/src/adapters/cache/idempotency.py:59-68 | conflict or registration, and the new store, as the pure register specifies |
| Idempotency.IdempotencyManager.Release | apps/backend/src/adapters/cache/idempotency.py:70-75 | deletes the token's key and nothing else |
| Idempotency.IdempotencyManager.Guard | apps/backend/src/adapters/cache/idempotency.py:80-107 | outcome and new store are those of register on entry and release-on-exception on exit |
| Idempotency.EnsureIdempotent | apps/backend/src/adapters/cache/idempotency.py:114-124 | registers under the backend's "idempotency" namespace, as register does |
| RateLimit.RetryAfter | apps/backend/src/adapters/cache/rate_limit.py:72-86 | the remaining TTL when get_ttl gives a non-zero value, otherwise the window |
| RateLimit.Checks | apps/backend/src/adapters/cache/rate_limit.py:60-73 | one outcome per check in a run of checks |
| RateLimit.ChecksCount | apps/backend/src/adapters/cache/rate_limit.py:60-73 | from a count of n the i-th check passes exactly when n + i + 1 <= limit, and otherwise raises RateLimitExceeded with the window and the key |
| RateLimit.SixthCheckFails | apps/backend/src/adapters/cache/rate_limit.py:35-36 | with the default limit 5 and window 10 a fresh counter lets five calls pass and rejects the sixth |
| RateLimit.RejectedCheckCounts | apps/backend/src/adapters/cache/rate_limit.py:69-73 | a rejected check has still incremented the counter |
| RateLimit.CheckRestartsWindow | apps/backend/src/adapters/cache/rate_limit.py:69 | every check restarts the window from the latest hit |
| RateLimit.ResetThenCheck | apps/backend/src/adapters/cache/rate_limit.py:88-93 | after reset the next check counts 1 |
| RateLimit.AllowOnceTwice | apps/backend/src/adapters/cache/rate_limit.py:95-106 | allow_once gives True and then False, and the refusal writes nothing |
| RateLimit.AllowOnceFeedsCheck | apps/backend/src/adapters/cache/rate_limit.py:101-105 | allow_once and check share the key: after allow_once a check counts 2 |
| RateLimit.RateLimiter.constructor | apps/backend/src/adapters/cache/rate_limit.py:31-47 | keeps the backend, the namespace, the window and the limit |
| RateLimit.RateLimiter.Check | apps/backend/src/adapters/cache/rate_limit.py:60-73 | the outcome and new store are those of the pure check |
| RateLimit.RateLimiter.GetTtlRemaining | apps/backend/src/adapters/cache/rate_limit.py:75-86 | None on a backend without get_ttl |
| RateLimit.RateLimiter.Reset | apps/backend/src/adapters/cache/rate_limit.py:88-93 | deletes the counter key and nothing else |
| RateLimit.RateLimiter.AllowOnce | apps/backend/src/adapters/cache/rate_limit.py:95-106 | the answer and new store are those of the pure allow_once |
| RateLimit.RateLimiter.Guard | apps/backend/src/adapters/cache/rate_limit.py:112-135 | the block runs only when the check passed, its exception is not suppressed, and the store changes as check changes it |
| UserModel.Deduct | apps/backend/src/db/models/user_model.py:97-102 | deduct_balance succeeds exactly when the balance covers the amount; it then takes exactly the amount and leaves a non-negative balance, and otherwise changes nothing |
| UserModel.DeductTwice | apps/backend/src/db/models/user_model.py:97-102 | two successful deductions take exactly their sum and the balance stays non-negative |
| UserModel.User.constructor | apps/backend/src/db/models/user_model.py:51 | a user holds the given balance |
| UserModel.User.AddBalance | apps/backend/src/db/models/user_model.py:93-95 | the balance rises by exactly the amount |
| UserModel.User.DeductBalance | apps/backend/src/db/models/user_model.py:97-102 | the answer and the new balance are those of the pure deduction |
| Transactions.UserRows | apps/backend/src/db/repositories/transaction_repository.py:52 | the user's rows: every row of the user and nothing else |
| Transactions.UserRowsAppend | apps/backend/src/db/repositories/transaction_repository.py:61-87 | appending rows appends the user's share of them to the user's rows |
| Transactions.History | apps/backend/src/db/repositories/transaction_repository.py:41-56 | get_by_user gives at most 50 of the user's rows, and all of them when there are no more than 50 |
| Transactions.SumForAppend | apps/backend/src/db/repositories/transaction_repository.py:92-120 | the user's net sum over appended rows is the sum of the two parts |
| BalanceRules.RecentWithdraws | apps/backend/src/domain/rules/balance_rules.py:71-74 | exactly the history's withdraw rows created in the last 24 hours |
| BalanceRules.RecentWithdrawsAppend | apps/backend/src/domain/rules/balance_rules.py:74 | a new row joins the recent withdrawals exactly when it is a withdraw inside the day |
| BalanceRules.AbsSum | apps/backend/src/domain/rules/balance_rules.py:79 | the sum of the absolute amounts is never negative |
| BalanceRules.AbsSumAppend | apps/backend/src/domain/rules/balance_rules.py:79 | a new row adds its absolute amount |
| BalanceRules.Newest | apps/backend/src/domain/rules/balance_rules.py:84-86 | the newest row's instant: no row is newer, and some row has it |
| BalanceRules.CanWithdraw | apps/backend/src/domain/rules/balance_rules.py:55-89 | allowed exactly when the amount is in [10 000, 5 000 000], fewer than 3 withdrawals in the last day, their absolute sum plus the amount at most 10 000 000, and 30 seconds since every row |
| BalanceRules.CanDeposit | apps/backend/src/domain/rules/balance_rules.py:96-104 | allowed exactly for amounts in [5 000, 5 000 000]; below the minimum is its own denial |
| BalanceRules.CanTransfer | apps/backend/src/domain/rules/balance_rules.py:110-121 | allowed exactly between two different users for at least 1 000; self-transfer is refused first, then a non-positive amount |
| BalanceRules.WithdrawBoundsBeforeHistory | apps/backend/src/domain/rules/balance_rules.py:64-68 | an amount out of bounds is denied before the history and the clock are looked at |
| BalanceRules.AllowedWithdrawKeepsDailyLimits | apps/backend/src/domain/rules/balance_rules.py:76-81 | after an allowed withdrawal is recorded the day holds at most 3 withdrawals summing to at most 10 000 000 |
| BalanceRules.CooldownAfterAnyRow | apps/backend/src/domain/rules/balance_rules.py:83-87 | within 30 seconds of the newest row of any type no withdrawal is allowed |
| OrderRules.CanCreateOrder | apps/backend/src/domain/rules/order_rules.py:56-72 | allowed exactly for a verified client, a price in [10 000, 50 000 000] and fewer than 10 active orders; an unverified client is refused first |
| OrderRules.CanAcceptOrder | apps/backend/src/domain/rules/order_rules.py:78-88 | allowed exactly for a verified performer with fewer than 5 active orders and a rating of at least 2.5; a missing rating raises only when the earlier checks pass |
| OrderRules.ValidateDeadline | apps/backend/src/domain/rules/order_rules.py:94-104 | allowed exactly when the deadline lies between now and 30 days ahead; too far is tested before the past |
| OrderRules.CalculateFee | apps/backend/src/domain/rules/order_rules.py:110-116 | fee and net add up to the price, the fee is 10 percent, and for a non-negative price 0 <= fee <= net <= price |
| OrderRules.CanCompleteOrder | apps/backend/src/domain/rules/order_rules.py:122-130 | allowed exactly for in_progress or review no later than 3 days past the deadline |
| OrderRules.CanCancelOrder | apps/backend/src/domain/rules/order_rules.py:136-144 | allowed exactly for an open order and the client or admin role; a closed order is refused first |
| OrderRules.DefaultDeadlineValid | apps/backend/src/domain/rules/order_rules.py:39 | the default 7-day deadline passes validate_deadline |
| OrderRules.CompletableIsCancellable | apps/backend/src/domain/rules/order_rules.py:122-144 | an order that can be completed can still be cancelled by its client |
| PaymentRules.ValidateMethod | apps/backend/src/domain/rules/payment_rules.py:56-77 | allowed exactly when the lower-cased, stripped method is supported, the user exists, and crypto is used only by a verified user; an unsupported method is refused first, by its normalised name |
| PaymentRules.ValidateAmount | apps/backend/src/domain/rules/payment_rules.py:83-91 | allowed exactly for amounts in [5 000, 10 000 000] |
| PaymentRules.RecentPayments | apps/backend/src/domain/rules/payment_rules.py:104 | exactly the payments created in the last 24 hours |
| PaymentRules.CheckActivityLimits | apps/backend/src/domain/rules/payment_rules.py:97-112 | allowed exactly when the day's payments sum to at most 20 000 000 and number at most 5 |
| PaymentRules.ValidateUserStatus | apps/backend/src/domain/rules/payment_rules.py:118-126 | allowed exactly for an active, unblocked user; inactivity is reported first |
| PaymentRules.RecentPaymentsOld | apps/backend/src/domain/rules/payment_rules.py:104 | payments all older than a day leave nothing recent |
| PaymentRules.RecentPaymentsAppend | apps/backend/src/domain/rules/payment_rules.py:104 | the recent payments of two lists are those of each, in order |
| PaymentRules.OldPaymentsIgnored | apps/backend/src/domain/rules/payment_rules.py:97-112 | payments older than a day never count against the limits |
| PaymentRules.MethodIsNormalised | apps/backend/src/domain/rules/payment_rules.py:65 | case and surrounding blanks do not matter: " Click " is the method click |
| PaymentRules.NormalisedMethodAllowed | apps/backend/src/domain/rules/payment_rules.py:65-77 | " Click " passes validate_method for any existing user, verified or not |
| ReferralRules.LevelRequirement | apps/backend/src/domain/rules/referral_rules.py:37-42 | a requirement exists exactly for levels 1 to 4, and it is positive |
| ReferralRules.CanInvite | apps/backend/src/domain/rules/referral_rules.py:61-67 | allowed exactly below 100 referrals |
| ReferralRules.CanReceiveSignupBonus | apps/backend/src/domain/rules/referral_rules.py:73-80 | allowed exactly from one hour after the referral joined |
| ReferralRules.CanReceiveTaskBonus | apps/backend/src/domain/rules/referral_rules.py:86-92 | allowed exactly from 3 days after the referral's first task |
| ReferralRules.CheckDailyBonusLimit | apps/backend/src/domain/rules/referral_rules.py:98-104 | allowed exactly while today's bonus sum is below 50 000 |
| ReferralRules.CheckBonusCooldown | apps/backend/src/domain/rules/referral_rules.py:110-116 | allowed exactly with no previous bonus or at least 12 hours after it |
| ReferralRules.CanLevelUp | apps/backend/src/domain/rules/referral_rules.py:122-135 | allowed exactly when the next level has a requirement and the active referrals meet it |
| ReferralRules.LevelsRiseOneStep | apps/backend/src/domain/rules/referral_rules.py:122-135 | a promotion goes from a level 0-3 to the next one, 1-4 |
| ReferralRules.TopLevelIsFinal | apps/backend/src/domain/rules/referral_rules.py:125-127 | from level 4 on, no promotion, whatever the activity |
| ReferralRules.RequirementsIncrease | apps/backend/src/domain/rules/referral_rules.py:37-42 | each level needs strictly more active referrals than the one before |
| ReferralRules.DailyLimitIgnoresPendingBonus | apps/backend/src/domain/rules/referral_rules.py:98-104 | the limit looks only at the sum so far: at 49 999 a 5 000 bonus still passes |
| TaskRules.CanCreateTask | apps/backend/src/domain/rules/task_rules.py:55-71 | allowed exactly for a verified creator, a reward in [2 000, 1 000 000] and fewer than 5 active tasks; an unverified creator is refused first |
| TaskRules.CanAcceptTask | apps/backend/src/domain/rules/task_rules.py:77-87 | allowed exactly for a verified user with fewer than 5 active tasks and a rating of at least 2.0; a missing rating raises only when the earlier checks pass |
| TaskRules.ValidateDeadline | apps/backend/src/domain/rules/task_rules.py:93-102 | allowed exactly for a deadline between now and 14 days ahead |
| TaskRules.CanCompleteTask | apps/backend/src/domain/rules/task_rules.py:108-118 | allowed exactly for in_progress or review no later than 2 days past the deadline |
| TaskRules.ValidateReward | apps/backend/src/domain/rules/task_rules.py:124-132 | allowed exactly for rewards in [2 000, 1 000 000] |
| TaskRules.CanApproveTask | apps/backend/src/domain/rules/task_rules.py:138-146 | allowed exactly for an admin or moderator and a task in review |
| TaskRules.CreateAgreesWithValidateReward | apps/backend/src/domain/rules/task_rules.py:55-132 | for a verified creator below the task limit, can_create_task decides exactly as validate_reward |
| TaskRules.DefaultDeadlineValid | apps/backend/src/domain/rules/task_rules.py:36-37 | the default 3-day deadline passes validate_deadline |
| UserRules.IsActive | apps/backend/src/domain/rules/user_rules.py:53-63 | allowed exactly for an active, unblocked user whose last login, if any, is at most 180 days old; the flag is checked first, then blocking |
| UserRules.IsVerified | apps/backend/src/domain/rules/user_rules.py:69-75 | allowed exactly for a verified user |
| UserRules.CanPublishOrder | apps/backend/src/domain/rules/user_rules.py:81-91 | allowed exactly when the user is verified or holds fewer than 2 orders, and a known rating is at least 3.5 |
| UserRules.CanTakeTask | apps/backend/src/domain/rules/user_rules.py:97-105 | allowed exactly for a verified user whose rating is None, 0.0 or at least 2.0 |
| UserRules.CanTransfer | apps/backend/src/domain/rules/user_rules.py:111-119 | allowed exactly for a verified, active, unblocked user; an unverified one is refused first |
| UserRules.TransferImpliesVerifiedAndActive | apps/backend/src/domain/rules/user_rules.py:53-119 | a user who may transfer is verified and fails is_active only for dormancy |
| UserRules.ZeroRatingPassesOnlyTaskCheck | apps/backend/src/domain/rules/user_rules.py:81-105 | a 0.0 rating passes can_take_task but fails can_publish_order |
| BalanceService.Credit | apps/backend/src/domain/services/balance_service.py:77 | the user's balance rises by the amount, the profile stays, and every other user is untouched |
| BalanceService.BalanceOf | apps/backend/src/domain/services/balance_service.py:52-59 | get_balance is the user's balance, and None exactly for an unknown user |
| BalanceService.RefusalsChangeNothing | apps/backend/src/domain/services/balance_service.py:64-228 | a refused deposit, withdraw, transfer or adjust_balance leaves users and rows as they were |
| BalanceService.BooksOfOneRow | apps/backend/src/domain/services/balance_service.py:77-86 | crediting a user and writing one row of that amount for them keeps the books |
| BalanceService.BooksOfTwoRows | apps/backend/src/domain/services/balance_service.py:150-165 | moving an amount between two users with one row each keeps the books |
| BalanceService.DepositKeepsBooks | apps/backend/src/domain/services/balance_service.py:64-93 | after deposit each balance differs from before by exactly the sum of that user's new rows |
| BalanceService.WithdrawKeepsBooks | apps/backend/src/domain/services/balance_service.py:98-128 | after withdraw each balance differs from before by exactly the sum of that user's new rows |
| BalanceService.TransferKeepsBooks | apps/backend/src/domain/services/balance_service.py:133-179 | after transfer each balance differs from before by exactly the sum of that user's new rows |
| BalanceService.AdjustKeepsBooks | apps/backend/src/domain/services/balance_service.py:207-228 | after adjust_balance each balance differs from before by exactly the sum of that user's new rows |
| BalanceService.BooksKeepBalanced | apps/backend/src/domain/services/balance_service.py:194-202 | when every balance is its opening balance plus the sum of the user's rows, every booked operation keeps it so |
| BalanceService.DepositOutcome | apps/backend/src/domain/services/balance_service.py:64-93 | deposit succeeds exactly when can_deposit allows and the user exists; it adds the amount and one row of +amount with the payment id, and reports the new balance |
| BalanceService.WithdrawOutcome | apps/backend/src/domain/services/balance_service.py:98-128 | withdraw refuses an unknown user first, succeeds exactly when can_withdraw allows and the balance covers the amount, and then writes one row of -amount and never overdraws |
| BalanceService.TransferOutcome | apps/backend/src/domain/services/balance_service.py:133-179 | can_transfer is consulted before any lookup; a success moves the amount from sender to receiver, keeps their total and every other user, and writes a transfer_out and a transfer_in row |
| BalanceService.GuardedStepsKeepNonNegative | apps/backend/src/domain/services/balance_service.py:98-179 | deposit, withdraw and transfer never make a balance negative |
| BalanceService.AdjustCanGoNegative | apps/backend/src/domain/services/balance_service.py:207-228 | adjust_balance has no balance check: -1 on a zero balance is accepted and leaves it negative |
| BalanceService.BalanceService.constructor | apps/backend/src/domain/services/balance_service.py:44-47 | a service over the given users and no rows |
| BalanceService.BalanceService.GetBalance | apps/backend/src/domain/services/balance_service.py:52-59 | the balance of the user, None for an unknown user |
| BalanceService.BalanceService.Deposit | apps/backend/src/domain/services/balance_service.py:64-93 | reply, users and rows are those of the deposit step |
| BalanceService.BalanceService.Withdraw | apps/backend/src/domain/services/balance_service.py:98-128 | reply, users and rows are those of the withdraw step |
| BalanceService.BalanceService.Transfer | apps/backend/src/domain/services/balance_service.py:133-179 | reply, users and rows are those of the transfer step |
| BalanceService.BalanceService.AdjustBalance | apps/backend/src/domain/services/balance_service.py:207-228 | reply, users and rows are those of the adjust_balance step |
| BalanceService.PayoutOutcome | apps/backend/src/domain/services/balance_service.py:64-93 | the settlement credit the services evidently need (deposit's booking without its amount rule) reaches every known user whatever the amount and coincides with deposit wherever deposit's rule allows |
| BalanceService.PayoutKeepsBooks | apps/backend/src/domain/services/balance_service.py:77-90 | that credit also changes the balance by exactly the one row it appends |
| PaymentService.ProfileOf | apps/backend/src/domain/services/payment_service.py:66-70 | the user's profile, present exactly for a known user |
| PaymentService.CreateOutcome | apps/backend/src/domain/services/payment_service.py:56-92 | create_payment succeeds exactly when validate_method allows; it then adds one "pending" record under a fresh id with metadata defaulting to {}, and otherwise changes nothing; the ledger is never touched |
| PaymentService.CompleteTwiceRefused | apps/backend/src/domain/services/payment_service.py:105-106 | a completed payment cannot be completed again, and the refusal changes nothing |
| PaymentService.CompleteMovesMoney | apps/backend/src/domain/services/payment_service.py:108-122 | completing deposits an "in" payment, withdraws an "out" payment and moves nothing for any other direction |
| PaymentService.RefundTwiceRefused | apps/backend/src/domain/services/payment_service.py:172-173 | a refunded payment is no longer "completed", so it cannot be refunded again |
| PaymentService.FailIgnoresStatus | apps/backend/src/domain/services/payment_service.py:140-162 | fail_payment marks even a completed payment "failed", moves no money, and defaults the reason |
| PaymentService.StepsTouchOneRecord | apps/backend/src/domain/services/payment_service.py:97-200 | completing, failing or refunding a payment leaves every other record as it was |
| PaymentService.CompleteAfterRefundCreditsAgain | apps/backend/src/domain/services/payment_service.py:105-116 | as written, a refunded "in" payment can be completed again and is credited a third time |
| PaymentService.CompleteAfterFailCreditsAgain | apps/backend/src/domain/services/payment_service.py:105-148 | as written, failing a completed "in" payment moves no money, and completing it again credits it a second time |
| PaymentService.PendingGuardSettlesOnce | apps/backend/src/domain/services/payment_service.py:105-106 | with completion limited to "pending", a payment that completed, was refunded or failed is never settled again |
| PaymentService.PaymentService.constructor | apps/backend/src/domain/services/payment_service.py:47-52 | a service over the ledger with no payments, ids starting at 1 |
| PaymentService.PaymentService.CreatePayment | apps/backend/src/domain/services/payment_service.py:56-92 | reply, table and next id are those of the create step |
| PaymentService.PaymentService.CompletePayment | apps/backend/src/domain/services/payment_service.py:97-135 | reply, table and ledger are those of the complete step |
| PaymentService.PaymentService.FailPayment | apps/backend/src/domain/services/payment_service.py:140-162 | reply and table are those of the fail step |
| PaymentService.PaymentService.RefundPayment | apps/backend/src/domain/services/payment_service.py:167-200 | reply, table and ledger are those of the refund step |
| TaskService.Start | apps/backend/src/domain/services/task_service.py:49-53 | a fresh service has no tasks, so ids are fresh and no open task has a performer |
| TaskService.CreateOutcome | apps/backend/src/domain/services/task_service.py:58-96 | create_task succeeds exactly for a known creator whom can_create_task allows and whose balance covers the reward; it then adds one "open" task under a fresh id with the 3-day default deadline and hands the reward to withdraw, and otherwise changes nothing |
| TaskService.CreateFollowsLifecycle | apps/backend/src/domain/services/task_service.py:84-90 | creation adds only "open" tasks and keeps the lifecycle invariant |
| TaskService.AcceptFollowsLifecycle | apps/backend/src/domain/services/task_service.py:101-125 | accept_task moves only an "open" task to "in_progress" and records its performer |
| TaskService.CompleteFollowsLifecycle | apps/backend/src/domain/services/task_service.py:130-148 | complete_task moves a task of its own performer only to "review" |
| TaskService.ApproveFollowsLifecycle | apps/backend/src/domain/services/task_service.py:153-174 | approve_task moves only a task in "review" to "approved" |
| TaskService.RejectFollowsLifecycle | apps/backend/src/domain/services/task_service.py:179-201 | reject_task moves only a task in "review" to "rejected" |
| TaskService.SettledIsFinal | apps/backend/src/domain/services/task_service.py:153-201 | "approved" and "rejected" have no way out |
| TaskService.AcceptAndCompleteMoveNoMoney | apps/backend/src/domain/services/task_service.py:101-148 | accepting and completing a task never touch a balance |
| TaskService.ApprovePaysPerformer | apps/backend/src/domain/services/task_service.py:165-168 | an approval passes the reward to deposit for the performer, who is known once the task has left "open" |
| TaskService.SettledOnce | apps/backend/src/domain/services/task_service.py:161-163 | once approved or rejected, a task can be neither approved nor rejected again |
| TaskService.CreateIgnoresRefusedWithdraw | apps/backend/src/domain/services/task_service.py:83 | as written, a 5 000 task is created for a creator holding 5 000 although withdraw refuses the amount, and no money moves |
| TaskService.SmallRewardNeverPaid | apps/backend/src/domain/services/task_service.py:168-195 | as written, a reward below 5 000 is neither paid on approval nor returned on rejection, since both go through the same refused deposit |
| TaskService.FundedTaskTakesReward | apps/backend/src/domain/services/task_service.py:79-83 | with creation refused when withdraw refuses, a created task has taken exactly its reward and left the creator non-negative |
| TaskService.SettlementPaysReward | apps/backend/src/domain/services/task_service.py:165-195 | with settlement paying whatever the size, approval credits the performer and rejection the creator with exactly the reward |
| TaskService.TaskService.constructor | apps/backend/src/domain/services/task_service.py:49-53 | a service over the ledger with no tasks |
| TaskService.TaskService.CreateTask | apps/backend/src/domain/services/task_service.py:58-96 | reply, tasks and ledger are those of the create step |
| TaskService.TaskService.AcceptTask | apps/backend/src/domain/services/task_service.py:101-125 | reply and tasks are those of the accept step |
| TaskService.TaskService.CompleteTask | apps/backend/src/domain/services/task_service.py:130-148 | reply and tasks are those of the complete step |
| TaskService.TaskService.ApproveTask | apps/backend/src/domain/services/task_service.py:153-174 | reply, tasks and ledger are those of the approve step |
| TaskService.TaskService.RejectTask | apps/backend/src/domain/services/task_service.py:179-201 | reply, tasks and ledger are those of the reject step |
| OrderService.Start | apps/backend/src/domain/services/order_service.py:47-51 | a fresh service has no orders, so ids are fresh and the table is consistent |
| OrderService.CreateOutcome | apps/backend/src/domain/services/order_service.py:56-99 | create_order succeeds exactly for a known client whom can_create_order allows and whose balance covers the price; it then adds one "open" order under a fresh id with the 7-day default deadline and hands the price to withdraw, and otherwise changes nothing |
| OrderService.CreateFollowsLifecycle | apps/backend/src/domain/services/order_service.py:85-91 | creation adds only "open" orders without a performer and keeps the table consistent |
| OrderService.AcceptFollowsLifecycle | apps/backend/src/domain/services/order_service.py:104-130 | accept_order moves only an "open" order to "in_progress" and records its performer |
| OrderService.CompleteFollowsLifecycle | apps/backend/src/domain/services/order_service.py:135-169 | complete_order moves an order only to "completed" |
| OrderService.CancelFollowsLifecycle | apps/backend/src/domain/services/order_service.py:174-198 | cancel_order moves an order only to "cancelled" |
| OrderService.ClosedIsFinal | apps/backend/src/domain/services/order_service.py:142-145 | once completed, an order can be neither completed nor cancelled again |
| OrderService.CancelledIsFinal | apps/backend/src/domain/services/order_service.py:181-184 | once cancelled, an order can be neither completed nor cancelled again |
| OrderService.CompletePaysNet | apps/backend/src/domain/services/order_service.py:150-156 | completing an order passes the price less the 10 percent fee to deposit for its performer when the performer id is truthy |
| OrderService.AcceptAndCancelMoveNoMoney | apps/backend/src/domain/services/order_service.py:104-198 | accepting, and cancelling as written, never touch a balance |
| OrderService.CancelOpenOrderRefundsNothing | apps/backend/src/domain/services/order_service.py:186-191 | as written, the status is set to "cancelled" before the "open" test, so a cancelled open order returns none of its price |
| OrderService.CreateIgnoresRefusedWithdraw | apps/backend/src/domain/services/order_service.py:82 | as written, a 6 000 000 order is created although withdraw refuses the amount, and no money moves |
| OrderService.FundedOrderTakesPrice | apps/backend/src/domain/services/order_service.py:77-82 | with creation refused when withdraw refuses, a created order has taken exactly its price and left the client non-negative |
| OrderService.CancelRefundsOpenOrder | apps/backend/src/domain/services/order_service.py:189-191 | with the "open" test made before the status changes, cancelling an open order returns exactly its price, and one already in progress returns nothing |
| OrderService.OrderService.constructor | apps/backend/src/domain/services/order_service.py:47-51 | a service over the ledger with no orders |
| OrderService.OrderService.CreateOrder | apps/backend/src/domain/services/order_service.py:56-99 | reply, orders and ledger are those of the create step |
| OrderService.OrderService.AcceptOrder | apps/backend/src/domain/services/order_service.py:104-130 | reply and orders are those of the accept step |
| OrderService.OrderService.CompleteOrder | apps/backend/src/domain/services/order_service.py:135-169 | reply, orders and ledger are those of the complete step |
| OrderService.OrderService.CancelOrder | apps/backend/src/domain/services/order_service.py:174-198 | reply and orders are those of the cancel step |
| ReferralService.CountByInviter | apps/backend/src/domain/services/referral_service.py:60-61 | the inviter's referral count never exceeds the number of records |
| ReferralService.CountByInviterAppend | apps/backend/src/domain/services/referral_service.py:66-70 | a new record raises the count of its own inviter by one and no other |
| ReferralService.RegisterOutcome | apps/backend/src/domain/services/referral_service.py:56-76 | register_referral adds exactly one record when the inviter has fewer than 100, and nothing otherwise |
| ReferralService.RegisterKeepsInviteLimit | apps/backend/src/domain/services/referral_service.py:56-76 | registration never takes an inviter past 100 referrals |
| ReferralService.SignupBonusCreditsRecord | apps/backend/src/domain/services/referral_service.py:81-114 | a signup bonus is granted exactly an hour after joining while today's sum is below 50 000, records 5 000 of type "signup" and credits the inviter exactly that; a refusal changes nothing |
| ReferralService.TaskBonusRecordedNotCredited | apps/backend/src/domain/services/referral_service.py:119-152 | as written, a granted task bonus records 3 000 but its deposit is refused, so the inviter is credited nothing |
| ReferralService.PaidTaskBonusCreditsRecord | apps/backend/src/domain/services/referral_service.py:133-140 | with the bonus paid without the deposit minimum, the inviter is credited exactly the 3 000 recorded and the books are kept |
| ReferralService.LevelUpOutcome | apps/backend/src/domain/services/referral_service.py:157-183 | check_level_up raises a known inviter exactly one level from the stored level (0 when missing), touches nothing else and keeps every level within 0-4 |
| ReferralService.ReferralService.constructor | apps/backend/src/domain/services/referral_service.py:47-51 | a service over the ledger with no referrals and no bonuses |
| ReferralService.ReferralService.RegisterReferral | apps/backend/src/domain/services/referral_service.py:56-76 | reply and records are those of the register step |
| ReferralService.ReferralService.Grant | apps/backend/src/domain/services/referral_service.py:89-104 | reply, bonuses and ledger are those of the shared grant step |
| ReferralService.ReferralService.GrantSignupBonus | apps/backend/src/domain/services/referral_service.py:81-114 | reply, bonuses and ledger are those of the signup-bonus step |
| ReferralService.ReferralService.GrantTaskBonus | apps/backend/src/domain/services/referral_service.py:119-152 | reply, bonuses and ledger are those of the task-bonus step |
| ReferralService.ReferralService.CheckLevelUp | apps/backend/src/domain/services/referral_service.py:157-183 | reply and the inviter's level are those of the level-up step |
| ManualProvider.ParseCallback | apps/backend/src/adapters/payments/manual.py:111-121 | the callback carries the invoice id, the status defaulting to "pending", the amount defaulting to 0 and a valid signature |
| ManualProvider.CreatedInvoiceIsPending | apps/backend/src/adapters/payments/manual.py:42-80 | a new invoice is pending, manual and in UZS with the user and amount given, no other invoice changes, and verify_payment of it raises PaymentPending |
| ManualProvider.DecisionsAreFinalForVerify | apps/backend/src/adapters/payments/manual.py:65-82 | after approval verify_payment raises AlreadyProcessed, after rejection Declined, and the rejection reason is kept |
| ManualProvider.DecisionsTouchOneInvoice | apps/backend/src/adapters/payments/manual.py:127-152 | approve and reject raise PaymentNotFound for an unknown id and otherwise change no other invoice |
| ManualProvider.ApproveOverridesDecline | apps/backend/src/adapters/payments/manual.py:127-138 | approve_invoice does not look at the prior status: a declined invoice can still be paid |
| ManualProvider.OperationsKeepKnownStatuses | apps/backend/src/adapters/payments/manual.py:82 | the provider writes only pending, paid and declined, so verify_payment never reaches the unknown-status error |
| ManualProvider.ManualPaymentProvider.constructor | apps/backend/src/adapters/payments/manual.py:34-36 | the provider starts with no invoices |
| ManualProvider.ManualPaymentProvider.CreateInvoice | apps/backend/src/adapters/payments/manual.py:42-59 | stores the new pending invoice under its id and returns it |
| ManualProvider.ManualPaymentProvider.VerifyPayment | apps/backend/src/adapters/payments/manual.py:65-82 | raises the error verify specifies for the stored status |
| ManualProvider.ManualPaymentProvider.GetStatus | apps/backend/src/adapters/payments/manual.py:88-95 | the stored status, or PaymentNotFound |
| ManualProvider.ManualPaymentProvider.Refund | apps/backend/src/adapters/payments/manual.py:101-105 | always raises UnsupportedOperation |
| ManualProvider.ManualPaymentProvider.ApproveInvoice | apps/backend/src/adapters/payments/manual.py:127-138 | True and the invoice marked paid, or PaymentNotFound with nothing changed |
| ManualProvider.ManualPaymentProvider.RejectInvoice | apps/backend/src/adapters/payments/manual.py:140-152 | True and the invoice marked declined with its reason, or PaymentNotFound with nothing changed |
| Dispatcher.Subscribe | apps/backend/src/domain/events/dispatcher.py:53-59 | a new event type gets a list, the handler is appended, and other event types are untouched |
| Dispatcher.FirstIndex | apps/backend/src/domain/events/dispatcher.py:100-101 | the position of the first occurrence of the handler |
| Dispatcher.RemoveFirst | apps/backend/src/domain/events/dispatcher.py:101 | list.remove drops exactly the first occurrence and keeps the rest in order |
| Dispatcher.Unsubscribe | apps/backend/src/domain/events/dispatcher.py:95-102 | the first occurrence is removed from that event type's list; an unknown handler or event type changes nothing |
| Dispatcher.SubscriberNames | apps/backend/src/domain/events/dispatcher.py:119-123 | get_subscribers maps each event type to its handlers' names in order |
| Dispatcher.SubscribeKeepsOrderAndDuplicates | apps/backend/src/domain/events/dispatcher.py:53-59 | handlers stay in subscription order and a handler subscribed twice is listed twice |
| Dispatcher.UnsubscribeUndoesSubscribe | apps/backend/src/domain/events/dispatcher.py:53-102 | unsubscribing a handler just subscribed restores the registry |
| Dispatcher.UnsubscribeRemovesFirstOnly | apps/backend/src/domain/events/dispatcher.py:101 | of two subscriptions of one handler, unsubscribe removes the earlier one |
| Dispatcher.EventDispatcher.constructor | apps/backend/src/domain/events/dispatcher.py:47 | the registry starts empty |
| Dispatcher.EventDispatcher.SubscribeHandler | apps/backend/src/domain/events/dispatcher.py:53-59 | the registry becomes that of subscribe |
| Dispatcher.EventDispatcher.UnsubscribeHandler | apps/backend/src/domain/events/dispatcher.py:95-102 | the registry becomes that of unsubscribe |
| Dispatcher.EventDispatcher.Clear | apps/backend/src/domain/events/dispatcher.py:108-113 | the registry becomes empty |
| Dispatcher.EventDispatcher.Publish | apps/backend/src/domain/events/dispatcher.py:66-90 | one delivery per registered handler, in order, none without handlers, and the registry is unchanged |
| Dispatcher.EventDispatcher.GetSubscribers | apps/backend/src/domain/events/dispatcher.py:119-123 | the names view of the registry |
| OrderModel.RemainingBudget | apps/backend/src/db/models/order_model.py:100-102 | remaining_budget is never negative: total minus spent while spent stays within the total and 0 once it exceeds it |
| OrderModel.CompletionRate | apps/backend/src/db/models/order_model.py:104-107 | completion_rate is 0 for an order with no actions |
| OrderModel.SpendingShrinksBudget | apps/backend/src/db/models/order_model.py:100-102 | spending more never raises what remains, and spending the whole budget leaves 0 |
| OrderModel.CompletionRateBounds | apps/backend/src/db/models/order_model.py:104-108 | with 0 <= completed <= max the rate lies in [0, 100] and is 100 exactly when every action is completed |
| TimeUtils.ClockOf | apps/backend/src/utils/time_utils.py:91-94 | the divmod chain splits whole seconds into days and hours < 24, minutes < 60, seconds < 60 that add back up to the total |
| TimeUtils.ClockIsUnique | apps/backend/src/utils/time_utils.py:91-94 | no other split has those bounds and that sum |
| TimeUtils.Units | apps/backend/src/utils/time_utils.py:96-105 | the parts list is never empty: the seconds part is there when nothing else was emitted |
| TimeUtils.UnitsExamples | apps/backend/src/utils/time_utils.py:96-105 | parts come in the order d h m s with zero parts left out (90061 s gives 1d 1h 1m 1s and 3600 s gives 1h) |
| TimeUtils.FormatTimedelta | apps/backend/src/utils/time_utils.py:83-107 | a zero delta gives "0s"; any other gives its parts joined by single spaces |
| Formatters.DurationUnits | apps/backend/src/utils/formatters.py:152-165 | format_duration prints one to three components ending in seconds that add back up to the input with minutes and seconds below 60 |
| Formatters.Show | apps/backend/src/utils/formatters.py:160-165 | each component is printed as its number followed by its unit letter |
| Formatters.FormatDurationExample | apps/backend/src/utils/formatters.py:155 | 3661 seconds print as "1h 1m 1s" |
| Formatters.ShortName | apps/backend/src/utils/formatters.py:104-114 | an empty name or one without a space comes back unchanged; a name of spaces only raises IndexError; a name that strips to one word gives that word; otherwise the first word then the second word's upper-cased initial and "." |
| Formatters.ShortNameOfTwoWords | apps/backend/src/utils/formatters.py:107-114 | two words joined by a space give the first word and the second's initial ('Feruz Dilov' gives 'Feruz D.') |
| Formatters.ShortNameOfPaddedWord | apps/backend/src/utils/formatters.py:112-113 | a single word padded with spaces comes back stripped |
| Formatters.ShortNameOfSpaces | apps/backend/src/utils/formatters.py:110-114 | a name of spaces passes the guard and then indexes an empty word list |
| Formatters.WordsOfTwoWords | apps/backend/src/utils/formatters.py:112 | str.split() of two words separated by one space gives exactly those two words |
| Formatters.FormatEvent | apps/backend/src/utils/formatters.py:143-149 | the text starts with "[" upper(event_type) "] " actor and has " → value" after it exactly when a value is given |
| Formatters.FormatEventExample | apps/backend/src/utils/formatters.py:146 | ('payment' 'User#5' '15 000 UZT') gives '[PAYMENT] User#5 → 15 000 UZT' |
| Formatters.FormatRatio | apps/backend/src/utils/formatters.py:130-137 | a zero total gives "0%"; otherwise the percentage times the total is the part times 100 |
| Formatters.FormatRatioExample | apps/backend/src/utils/formatters.py:133 | 25 of 100 is 25 percent |
| Crypto.CompareSecure | apps/backend/src/utils/crypto.py:96-108 | False for an empty argument or unequal lengths; otherwise the OR of the XORs of every byte pair of the UTF-8 encodings is zero; and the result is True exactly when a is non-empty and a == b |
| Crypto.DiffIsZero | apps/backend/src/utils/crypto.py:105-107 | the accumulator that each pair ORs its XOR into is zero exactly when the bytes visited so far agree |
| Crypto.XorIsZero | apps/backend/src/utils/crypto.py:107 | x ^ y is zero exactly when x == y |
| Crypto.OrIsZero | apps/backend/src/utils/crypto.py:107 | x OR y is zero exactly when both are zero |
| Crypto.Utf8 | apps/backend/src/utils/crypto.py:106 | str.encode gives each character one to four bytes below 256 whose count the lead byte tells |
| Crypto.CodePointOfUtf8 | apps/backend/src/utils/crypto.py:106 | a character's bytes decode back to it |
| Crypto.Encode | apps/backend/src/utils/crypto.py:106 | the encoding has at least as many bytes as the text has characters |
| Crypto.EncodePrefix | apps/backend/src/utils/crypto.py:106 | an encoding that starts another comes from a text that starts the other |
| Crypto.EqualLengthSameBytes | apps/backend/src/utils/crypto.py:102-106 | two texts of equal length are equal exactly when their encodings agree up to the shorter one (zip stops there) |
| Crypto.CompareSecureExample | apps/backend/src/utils/crypto.py:106-107 | "é" is two bytes and already differs from "e" at the first |
| PyValues.SafeInt | apps/backend/src/adapters/payments/utils.py:146-151 | safe_int is int(value) when that succeeds and the default when it raises; the cache utilities' safe_int (utils.py:112-117) is the same conversion |
| PyValues.ToInt | apps/backend/src/adapters/payments/utils.py:149 | int() raises TypeError exactly for None and ValueError exactly for text that is not a decimal integer |
| PyValues.SafeIntOfStr | apps/backend/src/adapters/payments/utils.py:146-151 | an int, or its decimal text, comes back whatever the default |
| PyValues.SafeIntFallsBack | apps/backend/src/adapters/payments/utils.py:150-151 | "abc", "" and None fall back to the default |
| PyValues.Str | apps/backend/src/adapters/payments/utils.py:139 | str() of a text is the text and of an int its decimal digits |
| PaymentUtils.ValidateCallbackFields | apps/backend/src/adapters/payments/utils.py:124-129 | True exactly when every required name is a key of the callback |
| PaymentUtils.ValidateCallbackFieldsMonotone | apps/backend/src/adapters/payments/utils.py:124-129 | more fields never invalidate a callback, and an empty required list is always satisfied |
| PaymentUtils.FieldText | apps/backend/src/adapters/payments/utils.py:139 | a missing field contributes "" and a present one str() of its value |
| PaymentUtils.FieldTexts | apps/backend/src/adapters/payments/utils.py:139 | one text per field in the order of the fields |
| PaymentUtils.SignaturePayloadSplits | apps/backend/src/adapters/payments/utils.py:132-139 | when no field text contains the bar separator the payload has exactly one bar fewer than there are fields and splits back into every field's text in order |
| PaymentUtils.OccurrencesOfJoin | apps/backend/src/adapters/payments/utils.py:139 | joining n separator-free texts with the bar puts exactly n - 1 separators in |
| PaymentUtils.SignaturePayloadExample | apps/backend/src/adapters/payments/utils.py:136-138 | merchant_id 123 and amount 15000 and transaction_id "tx_abc" give 123 then 15000 then tx_abc separated by bars |
| PaymentUtils.MissingFieldKeepsItsPlace | apps/backend/src/adapters/payments/utils.py:139 | a missing field becomes an empty text in its own position |
| PaymentUtils.SafeStr | apps/backend/src/adapters/payments/utils.py:154-158 | the default for None and str(value) otherwise |
| PaymentUtils.SafeStrThenSafeInt | apps/backend/src/adapters/payments/utils.py:146-158 | an int written by safe_str is read back by safe_int |
| CacheUtils.CleanPartsAreStripped | apps/backend/src/adapters/cache/utils.py:26-32 | every part that goes into a key is already stripped |
| CacheUtils.BuildCacheKeyDropsNone | apps/backend/src/adapters/cache/utils.py:31 | a None part is dropped together with its separator |
| CacheUtils.BuildCacheKeyAgreesWithBuildKey | apps/backend/src/adapters/cache/utils.py:26-32 | with at least one part and nothing to strip build_cache_key and CacheBackend.build_key give the same key |
| CacheUtils.BuildCacheKeyStrips | apps/backend/src/adapters/cache/utils.py:31-32 | where they disagree: build_cache_key strips a padded part that build_key keeps as is |
| CacheUtils.BuildCacheKeyOfNoParts | apps/backend/src/adapters/cache/utils.py:32 | with no parts build_cache_key is the bare namespace while build_key leaves a trailing ":" |
| CacheUtils.StripIsIdempotent | apps/backend/src/adapters/cache/utils.py:31 | stripping twice is stripping once |
| CacheUtils.LenientFromJson | apps/backend/src/adapters/cache/utils.py:76-83 | from_json(None) is None |
| CacheUtils.LenientFromJsonAgrees | apps/backend/src/adapters/cache/utils.py:76-83 | it agrees with CacheBackend.from_json wherever that succeeds and returns an undecodable int as it is where that raises |
| CacheUtils.LenientFromJsonOfToJson | apps/backend/src/adapters/cache/utils.py:76-83 | whatever to_json wrote decodes back to the same value |
| Validators.SiteHasNoColon | apps/backend/src/utils/validators.py:133-135 | no character the host, top-level-domain or path classes accept is a colon |
| Validators.SiteHasTld | apps/backend/src/utils/validators.py:133-135 | host, dot and top-level domain mean a dot after the first character followed by two ASCII letters |
| Validators.ValidateUrlColons | apps/backend/src/utils/validators.py:129-136 | in an accepted URL a colon can only be the one of an "http://" or "https://" scheme, so a port or another scheme is refused |
| Validators.ValidateUrlNeedsTld | apps/backend/src/utils/validators.py:129-136 | an accepted URL has a dot past its first character followed by two letters, so a bare host name is refused |
| Validators.ValidateUrlAccepts | apps/backend/src/utils/validators.py:129-136 | "https://example.com" and, with no scheme and a space in its path, "example.com/a b" are accepted |
| Validators.ValidateUrlRefuses | apps/backend/src/utils/validators.py:129-136 | "http://localhost:8000", "ftp://example.com" and "localhost" are refused |
| Validators.ValidateEmailGuard | apps/backend/src/utils/validators.py:31-37 | an empty address or one over 255 characters is refused before the pattern; within the limit the pattern alone decides |
| Validators.ValidateUsername | apps/backend/src/utils/validators.py:43-54 | holds exactly when the name less one trailing newline has 3 to 30 characters all letters or digits or "_" "." "-" |
| Validators.ValidateUsernameStrict | apps/backend/src/utils/validators.py:46-51 | the documented rule: 3 to 30 allowed characters and nothing else; it is the as-written check less a trailing newline |
| Validators.UsernameTrailingNewline | apps/backend/src/utils/validators.py:43 | "abc\n" passes the check as written and fails the documented rule |
| Validators.MatchRepeatMeans | apps/backend/src/utils/validators.py:43 | a repeated class followed by "$" matches exactly when some run of admissible length ends where "$" matches |
| Validators.MatchRepeatToEnd | apps/backend/src/utils/validators.py:43 | for a class without newline that is a run over the whole text less one trailing newline |
| Validators.Anchored | apps/backend/src/utils/validators.py:43 | "$" leaves the text less at most one trailing newline |
| Validators.ValidatePassword | apps/backend/src/utils/validators.py:60-73 | holds exactly when the text less one trailing newline has 8 to 64 characters and no newline and an upper-case letter and a lower-case letter and a digit and a listed special character |
| Validators.PasswordMeans | apps/backend/src/utils/validators.py:61 | each lookahead finds its class somewhere in the line and .{8,64}$ bounds the length |
| Validators.SeekInLine | apps/backend/src/utils/validators.py:61 | a lookahead .*[class] on one line finds any character of the class |
| Validators.PasswordAccepted | apps/backend/src/utils/validators.py:60-73 | "Passw0rd!" passes |
| Validators.PasswordWithoutDigit | apps/backend/src/utils/validators.py:61 | "Password!" has no digit and fails |
| Validators.ValidateAmountRange | apps/backend/src/utils/validators.py:79-90 | None and unconvertible input are refused and a number passes exactly when 0 < amount <= 1 000 000 000 |
| Validators.ValidatePhone | apps/backend/src/utils/validators.py:96-106 | holds exactly when the text less one trailing newline is "+998" followed by nine digits |
| Validators.PhoneMeans | apps/backend/src/utils/validators.py:96 | the pattern's matchers in terms of that text |
| Validators.ValidatePhoneStrict | apps/backend/src/utils/validators.py:99-103 | the documented rule: exactly "+998" and nine digits; it is the as-written check less a trailing newline |
| Validators.PhoneTrailingNewline | apps/backend/src/utils/validators.py:96 | "+998901234567\n" passes the check as written and fails the documented rule |
| Validators.ValidateIdMeans | apps/backend/src/utils/validators.py:112-116 | a valid id converts to a positive int; True counts as the int 1; text and None never pass |
| Validators.IsNonEmptyMeans | apps/backend/src/utils/validators.py:122-126 | None and "" and whitespace-only text are empty and any other character makes text non-empty |
| Validators.StripIsEmpty | apps/backend/src/utils/validators.py:126 | strip() leaves nothing exactly when every character is whitespace |
| Security.ValidateTelegramInitData | apps/backend/src/core/security.py:64-92 | the loop over the "&" segments builds exactly the check list and the dict and the hash that the fold Scan describes, and the outcome is InitDataResult |
| Security.InitDataSuccess | apps/backend/src/core/security.py:66-92 | empty init_data is refused with the 400; otherwise it succeeds exactly when a hash was sent and the signature of the check string equals it, and then returns the non-hash fields with values as received, every one of them covered by the signature |
| Security.ScanFacts | apps/backend/src/core/security.py:74-82 | the check list is the received segments that have "=" and a key other than "hash", unchanged and in order; the returned dict has no "hash" key and each of its pairs is one of those segments |
| Security.KeptCount | apps/backend/src/core/security.py:75-81 | a segment is checked as often as it was received when it is checked at all |
| Security.CheckStringIgnoresOrder | apps/backend/src/core/security.py:84 | sorting makes the check string independent of the order of the segments |
| Security.ScanIgnoresAndOverrides | apps/backend/src/core/security.py:75-79 | a segment without "=" changes nothing and of several hash fields the last one counts without entering the check list |
| Security.BuildUserPayload | apps/backend/src/core/security.py:122-127 | the payload has "sub" and at most "username" besides |
| Security.BuildUserPayloadRoundTrip | apps/backend/src/core/security.py:122-127 | the subject reads back as the user id, and "username" is present exactly when it is truthy and then unchanged |
| Security.SessionPayloadIdentifier | apps/backend/src/core/security.py:130-140 | a user without a truthy identifier raises ValueError, and a mapping falls back from a falsy "id" to "sub" |
| Security.SessionPayloadSubject | apps/backend/src/core/security.py:139-142 | an accepted identifier reads back from the subject, and an int identifier is never 0 |
| Security.SessionPayloadNeedsIdentifier | apps/backend/src/core/security.py:132-140 | a mapping with neither "id" nor "sub" is refused whatever else it has |
| Security.Get | apps/backend/src/core/security.py:133-137 | get(key) and getattr(obj key None) give None for an absent key |
| WebAppAuth.ValidateWebAppDataRefusals | apps/backend/src/adapters/telegram/webapp_auth.py:45-89 | empty init_data raises InvalidInitData; a missing or empty hash is a missing field; a signature mismatch raises InvalidInitData; a stale auth_date raises ExpiredInitData; a signed, fresh auth_date from year 10000 on makes `datetime.fromtimestamp` raise |
| WebAppAuth.CheckFieldsSuccess | apps/backend/src/adapters/telegram/webapp_auth.py:50-93 | it succeeds exactly when user and auth_date and hash are present and non-empty, the hash is ASCII and equals the signature of the data-check string, auth_date is an int at most max_age seconds old within the years 1 to 9999 that `datetime.fromtimestamp` accepts, and the user JSON has an id; the result is then valid with that id and username and auth_date |
| WebAppAuth.ValidateWebAppDataParses | apps/backend/src/adapters/telegram/webapp_auth.py:45-50 | with non-empty input parse_qsl either succeeds and the field checks decide, or a segment without "=" is refused |
| WebAppAuth.ParseQslFails | apps/backend/src/adapters/telegram/webapp_auth.py:50 | strict parsing fails exactly when some segment has no "=" |
| WebAppAuth.ParseQslDropsBlank | apps/backend/src/adapters/telegram/webapp_auth.py:50 | a field with a blank value is dropped as if it had not been sent |
| WebAppAuth.ToDict | apps/backend/src/adapters/telegram/webapp_auth.py:50 | dict() has exactly the names that occur among the pairs |
| WebAppAuth.ToDictLastWins | apps/backend/src/adapters/telegram/webapp_auth.py:50 | the last pair sent for a name is the one the dict keeps |
| WebAppAuth.SortedKeysFacts | apps/backend/src/adapters/telegram/webapp_auth.py:59 | the check pairs come in key order with one for every field except the hash |
| WebAppAuth.Lines | apps/backend/src/adapters/telegram/webapp_auth.py:59 | each check line is "key=value" for its key |
| WebAppAuth.DataCheckStringIgnoresHash | apps/backend/src/adapters/telegram/webapp_auth.py:59-60 | the hash does not sign itself: its value or its absence leaves the data-check string unchanged |
| WebAppAuth.LinesAgree | apps/backend/src/adapters/telegram/webapp_auth.py:59 | the lines depend only on the values of the listed keys |
| Contracts.SnapshotToDict | apps/backend/bot/app/service/contracts.py:23-36 | exactly the nine keys, with language_code exported under "language" and no "language_code" key |
| Contracts.SnapshotRoundTrip | apps/backend/bot/app/service/contracts.py:23-36 | every field of the snapshot comes back from its dictionary, so nothing is lost or mixed up |
| Contracts.AuthResultToDict | apps/backend/bot/app/service/contracts.py:47-54 | exactly ok and session_token and user, with ok always True |
| Contracts.AuthResultToDictFacts | apps/backend/bot/app/service/contracts.py:47-54 | the dictionary does not depend on raw_payload and gives back the token and the user |
| Contracts.NotificationToDict | apps/backend/bot/app/service/contracts.py:66-74 | exactly ok and user_id and message_type and text, with ok equal to delivered |
| Contracts.NotificationRoundTrip | apps/backend/bot/app/service/contracts.py:66-74 | every field comes back with delivered read from "ok" |
| Contracts.DepositToDict | apps/backend/bot/app/service/contracts.py:86-97 | ok and status always; payment_id exactly when it is not None; message exactly when it is a non-empty text; no other key |
| Contracts.DepositRoundTrip | apps/backend/bot/app/service/contracts.py:86-97 | the result comes back from its dictionary except that an empty message reads back as None |
| Contracts.OptText | apps/backend/bot/app/service/contracts.py:29-32 | None is exported as null |
| Contracts.OptTextRoundTrip | apps/backend/bot/app/service/contracts.py:29-32 | an optional text reads back from its exported value |

## Left out

- Concurrency. The `asyncio.Lock` of `MemoryCache` is modelled as a no-op. The exists-then-set sequences in `IdempotencyManager.register` and `RateLimiter.allow_once` are modelled as sequential calls, so their races are neither expressed nor claimed closed. `EventDispatcher.publish`'s `create_task`/`gather` runs the handlers one after another.
- `MemoryCache.get` calls `delete` while holding the same non-reentrant lock, which deadlocks. The model takes the evident intent: an expired key is removed and None is returned.
- `RedisCache` is not part of this model. It is a network client with reconnect loops and sleeps, and the model reaches the store only through the `MemoryCache` contract.
- `clear_given_tasks` on a backend with `keys` is not modelled. Only the in-memory backend is modelled, and it has no `keys`, so nothing is deleted.
- Floating point. Amounts are exact `real`s.
  - `round(x, 2)` in `calculate_fee`, `completion_rate`, `get_progress_percent`, the summaries and `ManualPaymentProvider.create_invoice` is dropped. `create_invoice` passes the amount through `normalize_amount` (base.py:148-153), which is `round(float(value), 2)` or 0.0 when the conversion fails; the model keeps the amount as given.
  - NaN and infinities in `validate_amount` are not modelled.
  - `compact_number`, `format_number`, `format_percent`, `uzs_to_uzt`/`uzt_to_uzs` and `normalize_amount` are not part of this model.
- Formatters.FormatRatio: returns the percentage as a number rather than the text `format_percent` prints, because that text depends on float rounding.
- OrderModel.CompletionRate: states only the zero case on its own. The bounds are in `CompletionRateBounds`, without the two-decimal rounding.
- Clocks and randomness.
  - `datetime.utcnow()`, `time.time()` and event-loop time are an explicit `now`.
  - uuid/secrets ids and database-generated ids are fresh-id parameters or counters.
  - `User.mark_active`, the pytz conversions and `humanize_datetime` are not part of this model.
- Cryptography. HMAC-SHA256 and the key derivation of both Mini App validators form one signing parameter. The model therefore does not capture the difference between them: `security.py` derives the key with HMAC("WebAppData", token), `webapp_auth.py` with SHA-256(token). JWT encoding/decoding, `hash_password`, `verify_password`, `generate_secure_token`, `decode_session_token` and `get_current_user` are not part of this model.
- JSON, regular expressions and URL decoding.
  - `json.dumps`/`json.loads` are an encode/decode pair on a `Json` value type; `from_json` of stored text that is not a document returns the text.
  - Every stored plain text (`VText`) is treated as text that is not JSON, although `json.loads` would read the "1" markers of `mark_task_given` and `allow_once` as the int 1. No `from_json` reads those keys, so nothing observable changes.
  - The email regular expression is a parameter; only its length guard is modelled.
  - `validate_url`'s pattern is spelled out, but its `\w` beyond ASCII, which Python takes from the Unicode tables, is a parameter.
  - URL unquoting in `parse_qsl` is a parameter.
  - The user id and username are read from the user JSON by parameters.
- Text. Character classes are ASCII as written in the patterns, except that `\d` is modelled as the ASCII digits. Python's `\d` also matches other Unicode digits. `str.upper` in `short_name` and `format_event` is ASCII-only, and lone surrogates in UTF-8 encoding are not modelled. `str.lower` in `validate_method`'s normalisation is ASCII-only too, so a method such as "CLIC\u212A" (Kelvin sign), which Python lowers to "click", is refused. `int()` of text accepts ASCII digits only, while Python also reads other Unicode decimal digits such as "١٢".
- The user attributes the rules read (`is_verified`, `is_active`, `is_blocked`, `rating`, `last_login`, `role`, `referral_level`) are assumed to exist. The ORM `User` model (user_model.py:36-66) defines none of them, so on real rows those reads would raise `AttributeError`.
- The rule layer's broken plumbing.
  - `BalanceRules._allow/_deny` call a missing `super().evaluate_result`. The model uses the evident result: allowed, or denied with a reason.
  - `PaymentRules.can_refund` does not exist. `refund_payment` takes the refund decision as a parameter.
  - `create_payment` calls `validate_method` without its `user_repo` argument, which raises `TypeError`. The model looks the user up in the ledger instead.
  - Repository counters that do not exist become parameters: active counts, referral counts and today's bonus sum.
- Repositories and payment rows are modelled by their evident intent, as in-memory tables. The repositories do not define most of the calls the services make.
  - `create_order`, `create_task` and `create_payment`, and `get_by_id` on the order, task and payment repositories, are absent. Only the generic `create`/`get` of the base repository exist.
  - `create_referral`, `add_bonus_record` and the `get_stats` of the order, task and referral repositories are absent. So are `get_by_client` and `get_by_performer`, which only read-only queries use.
  - On real rows these calls would raise `AttributeError`. The model inserts, looks up and updates the rows directly.
  - The payment statuses "completed", "failed" and "refunded" are not values of `PaymentStatus` (payment_model.py:40-43), which has only pending, verified and rejected. The `Payment` row (payment_model.py:69-82) has no `direction` column. The model keeps status as text and `direction` as a field of the row, as `payment_service.py` uses them.
- `Transactions.History`: keeps the user's last 50 rows in the order written rather than newest first. Its only caller, `can_withdraw`, filters by time and does not depend on order.
- Read-only repository queries are not part of this model: `get_transaction_history`, `get_balance_summary`, `get_payment_history`, `get_user_tasks`, `get_user_orders`, `get_user_referrals` and `get_global_stats`.
- Units of work. `commit`/`rollback`, event publishing and logging in the services are no-ops. Each step is one atomic value update. The source does not guarantee that atomicity, because rows commit one at a time and commit errors are swallowed.
- `OrderRepository.spend_budget` writes fields the `Order` model does not define. It is not part of this model.
- GetSummaryForUser: a listed id that is a float, a list or a dict ends the model's loop with `TypeError`, while `get_summary_for_user` formats it with `str()` and reads that id's stats, because Python's `str()` of floats and of nested containers is not modelled. A cached active value that is a dict is likewise reported as `TypeError`, where the source walks its keys in insertion order, which the model's map does not keep. A cached str is walked character by character, as in the source.
- `ManualPaymentProvider.parse_callback` takes a payload whose status and amount are already typed. Python's dynamic values in those fields are not modelled.
- The literal example of `build_cache_key` in its docstring, ('orders', 123, 'stats'), is not restated. The general agreement with `build_key` is proved instead.
- Transport and glue are not part of this model: FastAPI routes, aiogram handlers, Telegram clients, notifier, webhooks, config, logging, Pydantic schemas and migrations.

## Findings

| source | as written | input that shows it | evidently intended | confidence | as-written member | corrected member |
|---|---|---|---|---|---|---|
| apps/backend/src/domain/services/order_service.py:186-191 | the status is set to "cancelled" before the `== "open"` test, so the refund branch never runs | an open order of 10 000 cancelled by its client | cancelling an open order returns its price to the client | not executed | OrderService.CancelOpenOrderRefundsNothing | OrderService.CancelRefundsOpenOrder |
| apps/backend/src/domain/services/order_service.py:82-83 | the reply of `withdraw` is ignored, so an order is created even when the client is not debited | a verified client with 6 000 000 placing a 6 000 000 order (above the 5 000 000 withdrawal maximum) | a refused withdrawal refuses the order | not executed | OrderService.CreateIgnoresRefusedWithdraw | OrderService.FundedOrderTakesPrice |
| apps/backend/src/domain/services/task_service.py:83 | the reply of `withdraw` is ignored, so a task is created even when the creator is not debited | a verified creator with 5 000 funding a 5 000 task (below the 10 000 withdrawal minimum) | a refused withdrawal refuses the task | not executed | TaskService.CreateIgnoresRefusedWithdraw | TaskService.FundedTaskTakesReward |
| apps/backend/src/domain/services/task_service.py:169 | the reward is paid through `deposit`, whose 5 000 minimum is above the 2 000 minimum reward | an approved task with a reward of 2 000 | the performer, or on rejection the creator, receives the reward whatever its size | not executed | TaskService.SmallRewardNeverPaid | TaskService.SettlementPaysReward |
| apps/backend/src/domain/services/payment_service.py:140-148 | failing accepts a payment in any status, and completion then accepts the "failed" one | an incoming payment completed, failed and completed again is credited twice and never debited | only a "pending" payment can be completed, so a failed payment is never settled again | not executed | PaymentService.CompleteAfterFailCreditsAgain | PaymentService.PendingGuardSettlesOnce |
| apps/backend/src/domain/services/payment_service.py:105-108 | completion refuses only a "completed" payment | an incoming payment completed, refunded and completed again is credited three times | only a "pending" payment can be completed, so each payment settles at most once | not executed | PaymentService.CompleteAfterRefundCreditsAgain | PaymentService.PendingGuardSettlesOnce |
| apps/backend/src/domain/services/referral_service.py:133-140 | the 3 000 task bonus goes through `deposit`, whose minimum is 5 000, and its reply is ignored while the bonus record is still written | any granted task bonus | the inviter is credited the 3 000 that the record shows | not executed | ReferralService.TaskBonusRecordedNotCredited | ReferralService.PaidTaskBonusCreditsRecord |
| apps/backend/src/utils/validators.py:43 | `$` under `re.match` also matches before a final newline | "abc\n" is accepted as a username | 3 to 30 allowed characters and nothing else | not executed | Validators.UsernameTrailingNewline | Validators.ValidateUsernameStrict |
| apps/backend/src/utils/validators.py:96 | `$` under `re.match` also matches before a final newline | "+998901234567\n" is accepted as a phone number | exactly "+998" and nine digits | not executed | Validators.PhoneTrailingNewline | Validators.ValidatePhoneStrict |

The corrected definitions are `OrderService.CancelRefundStep`, `OrderService.CreateFundedStep`,
`TaskService.CreateFundedStep`, `TaskService.ApprovePaidStep`/`RejectPaidStep`,
`PaymentService.CompletePendingStep`, `ReferralService.TaskBonusPaidStep` and the two strict
validators. Each credits through `BalanceService.PayoutStep` where money moves; that step is
deposit's booking without deposit's amount rule.
