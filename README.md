# Billing and status-history engine of botber-backend, in Dafny

This project models the part of the botber-backend service that reconstructs and bills
the status history of hosted bot instances. It covers:

- **Billing** (`services/billing.py`). The reconstruction of `(start, end, status)` slices
  from an instance's status events, the prorated daily charge
  `ceil(rate * billable_seconds / (30 * 86400))`, billing one 24-hour period, catching one
  instance up with its schedule, and the sweep over all due instances, run under a
  store-wide lock with a transaction per instance.
- **Status statistics** (`services/status_stats.py`). A second reconstructor that stops at
  the window end, the clipping of the window to the instance's lifetime, and the
  per-status seconds map and uptime.
- **The token lock** (`core/locks.py`). Set-if-absent on acquire, compare-and-delete on
  release, over a key-value store whose entries expire.
- **The health poller** (`services/health_poller.py`). Turning the health endpoint's
  answer into a status, and recording a status change as exactly one event.
- **The knowledge-entry tasks** (`tasks/kb.py`). The scan that queues one poll per
  in-progress entry, and the poll that deletes, completes or keeps an entry.

Time is a whole number of seconds and a day is 86400 seconds. Instances, users, the
session's pending events, the lock store and the knowledge store are classes whose
methods change their fields. The reconstructions, the charge and the decisions are
functions, and the methods that loop are proved against them. Status strings are read
through one lookup, `Enums.ParseStatus`, which turns any unrecognised value into
`Unknown`.

Files, each a module:

- `Optional.dfy`
- `Enums.dfy`: statuses
- `Models.dfy`: records
- `History.dfy`: the slices and the event queries shared by billing and statistics
- `Billing.dfy`
- `StatusStats.dfy`
- `Locks.dfy`
- `HealthPoller.dfy`
- `KbTasks.dfy`

Three facts about the code as written shape the model:

- **The `unknown` member.** The core falls back to `InstanceStatus.unknown` in six places:
  - `services/billing.py:49`, `:57` and `:90`;
  - `services/status_stats.py:52` and `:75`;
  - `services/health_poller.py:19`.

  The enum in `app/models/enums.py:3-6` declares only `active`, `paused` and
  `not_enough_balance`, so each of those fallbacks raises. The model's `Enums.Status`
  has the member; see Findings.
- **The deactivation calls.** They (`services/billing.py:239-244`) run inside the
  `async with lock` block opened at `services/billing.py:209`. `Billing.ProcessDue`
  returns the ids to deactivate; the calls themselves are I/O and are left out.
- **The period that fails for insufficient balance.** `_bill_once_for_period` moves the
  schedule to the next day (`services/billing.py:145-146`) before it checks the balance
  (`services/billing.py:152-165`). The unpaid period is therefore never billed again: the
  next sweep starts at the following period (`Billing.BillOnce`,
  `Billing.CatchUpClosedForm`).

## Model

| member | source | states |
|---|---|---|
| Enums.ParseStatus | app/backend/app/services/billing.py:54-57 | A status string reads as the member with that value; any other string reads as `Unknown`, and no two strings naming different members read alike |
| Enums.StatusValueRoundTrip | app/backend/app/models/enums.py:3-6 | Every status is stored as one of the four status values and reads back as itself |
| Enums.ParseStatusAsWritten | app/backend/app/models/enums.py:3-6 | With the enum as written, the lookup succeeds exactly on the three declared values, giving the member with that value, and raises on everything else |
| Enums.InactiveRaisesAsWritten | app/backend/app/services/health_poller.py:16-19 | The string "inactive" raises with the enum as written, but reads as `Unknown` once the fallback member exists |
| Enums.ParseStatusExtendsAsWritten | app/backend/app/services/billing.py:54-57 | The lookup with the fallback agrees with the one as written wherever that one succeeds, and gives `Unknown` exactly where it raises |
| History.TilesAt | app/backend/app/services/billing.py:32-35 | Slices that tile a window start at its start and end at its end; each is non-empty and ends where the next one begins |
| History.TilesTotal | app/backend/app/services/status_stats.py:120-128 | Slices that tile `[a, b)` last `b - a` seconds in all |
| History.BillableWithinTotal | app/backend/app/services/status_stats.py:121-126 | The seconds spent in billable statuses lie between zero and the total length of the slices |
| History.BillableSet | app/backend/app/services/billing.py:21 | An empty configuration means "active" only; otherwise the billable set is exactly the configured values. Both `Billing.ProcessDue` and `StatusStats.ComputeStats` take the configured list through it |
| History.Fetch | app/backend/app/services/status_stats.py:104-115 | The query returns exactly the stored events timed within `[lo, hi]`; events without a time are never returned |
| History.FetchChronological | app/backend/app/services/status_stats.py:113 | The query keeps the events in time order |
| History.LatestAtOrBefore | app/backend/app/services/billing.py:73-85 | The event found is a stored event at or before `t`; nothing is found exactly when no stored event is at or before `t` |
| History.LatestIsLatest | app/backend/app/services/billing.py:81-82 | On a time-ordered history, no event at or before `t` is later than the one found |
| History.LatestIsLatestFor | app/backend/app/services/billing.py:81-82 | On a time-ordered history, a given event at or before `t` guarantees that something is found, no earlier than that event |
| History.StartingStatus | app/backend/app/services/billing.py:65-91 | With no stored event at or before `t`, the status is the stored one; otherwise it is the parsed `to_status` of the event the latest-event query returns |
| History.StartingStatusIsLatest | app/backend/app/services/billing.py:71-88 | On a time-ordered history with some event at or before `t`, the status at `t` is the parsed `to_status` of such an event that no other event at or before `t` follows in time |
| Locks.SetIfAbsent | app/backend/app/core/locks.py:15-16 | `SET NX EX` writes the entry exactly when the key holds no live entry (none, or one whose TTL has run out by `now`); a live entry and every other key are kept |
| Locks.DeleteIfOwned | app/backend/app/core/locks.py:26-32 | The release script removes the key exactly when it holds a live entry with the given token; otherwise the store is unchanged |
| Locks.Store.SetNx | app/backend/app/core/locks.py:16 | A non-positive TTL is rejected with an error reply and no write. Otherwise it reports success exactly when the key held no live entry, and the new store is the set-if-absent of the old one, the entry expiring at `now + ttl` |
| Locks.Store.EvalRelease | app/backend/app/core/locks.py:26-34 | Returns 1 exactly when the key held a live entry with the token; the new store is the compare-and-delete of the old one |
| Locks.RedisLock.constructor | app/backend/app/core/locks.py:6-9 | A new lock has its key and TTL and no token |
| Locks.RedisLock.Enter | app/backend/app/core/locks.py:11-19 | The fresh token is kept even when acquiring fails. With a non-positive TTL the store rejects the command and `__aenter__` raises (`None`). Otherwise acquiring succeeds exactly when the key held no live entry at `now`, an expired one included. On success the key holds the token until `now + ttl`; in every other case the store is unchanged |
| Locks.RedisLock.Exit | app/backend/app/core/locks.py:21-36 | With no token, or when the script errs, the store is unchanged; otherwise the key is removed only if it still holds a live entry with this lock's token |
| Locks.SecondAcquireFails | app/backend/app/core/locks.py:16-18 | Of two acquisitions of a free key, the second within the first one's TTL, the first wins and the second leaves the store unchanged |
| Locks.LapsedLockIsFree | app/backend/app/core/locks.py:16 | A holder that never releases blocks the key only until its TTL runs out; after that the next acquisition succeeds |
| Locks.LateReleaseKeepsSuccessor | app/backend/app/core/locks.py:25-32 | Holder A's entry expires and B acquires; A's late release within B's TTL leaves B's entry in place |
| Locks.ForeignReleaseIsNoOp | app/backend/app/core/locks.py:21-34 | A lock whose fresh token was never stored cannot remove anything, in particular not the holder's entry |
| Locks.AcquireReleaseRestores | app/backend/app/core/locks.py:11-34 | Acquiring a free key and releasing it with the same lock within the TTL restores the store, less any lapsed entry the key held |
| Locks.LockRoundTrip | app/backend/app/core/locks.py:11-36 | One `async with` block with a fresh token: a live entry held by another worker is left as it was; otherwise the lock is released when the release runs within the TTL, and stays until it lapses when the release errs or comes too late |
| Billing.FloorDiv | app/backend/app/services/billing.py:24 | Python's `//`: the quotient rounds toward minus infinity, for positive and negative divisors |
| Billing.CeilDiv | app/backend/app/services/billing.py:23-24 | For a positive divisor, the least `q` with `q * d >= n` |
| Billing.Charge | app/backend/app/services/billing.py:139-142 | The charge is never negative; it is zero when `rate * seconds` is not positive, and otherwise the least whole amount covering `rate * seconds / (30 * 86400)` |
| Billing.ChargeExample | app/backend/app/services/billing.py:139-142 | Twelve billable hours at a monthly rate of 300 cost 5 |
| Billing.ChargeAtMostDailyShare | app/backend/app/services/billing.py:134-142 | At most a day of billable time never costs more than a thirtieth of the monthly rate, rounded up |
| Billing.BillingSlicesTile | app/backend/app/services/billing.py:36-63 | From a cursor before the window end, the reconstructed slices tile the rest of the window; from one at or after the end there are none |
| Billing.PeriodsFromEvents | app/backend/app/services/billing.py:26-63 | The loop yields the reconstruction of its events; for a non-empty window the slices tile it and last exactly its length; an empty window yields no slice |
| Billing.PreWindowLastWins | app/backend/app/services/billing.py:43-50 | Among events at or before the window start, the last one with a non-empty `to_status` sets the starting status |
| Billing.PreWindowEventsOnlySetStatus | app/backend/app/services/billing.py:43-50 | Events at or before the window start add no slice; they only set the status the first slice starts with |
| Billing.LateEventsIgnored | app/backend/app/services/billing.py:43-50 | Events at or after the window end, or without a time, add no slice and change no status: one slice runs from the cursor to the window end |
| Billing.TieInsideWindowFirstWins | app/backend/app/services/billing.py:43-58 | Of two events at the same instant inside the window, the first opens the slice and sets its status, and the second is ignored |
| Billing.InWindowEventsOneSliceEach | app/backend/app/services/billing.py:51-58 | Events strictly inside the window at increasing times give one slice each, starting at the event time with the event's parsed status, after the opening slice in the start status |
| Billing.ClippedStart | app/backend/app/services/billing.py:104-112 | The window starts at the later of the period start and the creation time |
| Billing.PeriodBillableWithinPeriod | app/backend/app/services/billing.py:112-137 | For a period not wholly before creation, the clipped window is non-empty and tiled by its slices, and the billable seconds lie between zero and its length, which is at most a day |
| Billing.PeriodChargeBounded | app/backend/app/services/billing.py:134-142 | A period's charge is at most a thirtieth of a non-negative monthly rate, rounded up |
| Billing.SumBillable | app/backend/app/services/billing.py:133-137 | The loop yields the seconds the slices spend in a billable status, which `History.BillableWithinTotal` bounds by the slices' total length |
| Billing.ComputeCharge | app/backend/app/services/billing.py:112-142 | The charge computed from the fetched events is the prorated charge of the period's reconstructed slices, so `Billing.PeriodChargeBounded` bounds it |
| Billing.Debit | app/backend/app/services/billing.py:104-142 | A period costs a non-negative amount, and nothing when it ends at or before the instance was created |
| Billing.TariffNonNegative | app/backend/app/services/billing.py:139-142 | No period of an instance's price list costs a negative amount |
| Billing.BillOnce | app/backend/app/services/billing.py:93-169 | In every case the schedule moves to `period_end` and `period_end + 1 day`, the failing case included. A period wholly before creation charges nothing and changes nothing else. Otherwise the balance is debited by exactly the charge when it covers it. When it does not, the balance is kept, the status becomes `not_enough_balance`, exactly one event from the previous status is added if that status differed, and the result is false. The new ledger and events are those of `BillPeriod` with the instance's own price list |
| Billing.Scheduled | app/backend/app/services/billing.py:185-188 | An unset schedule starts a day after creation, or a day after `now` when the creation time is unknown; a set one is kept |
| Billing.CatchUpClosedForm | app/backend/app/services/billing.py:190-198 | Catching up from next charge `first` bills `n` whole-day periods, `n == 0` exactly when `first > now`. The last period billed ends at or before `now`. On success the next charge is past `now`, the status is kept and no event is added. On failure the instance is out of balance with the one out-of-balance event, and the last period was not covered. Every period before the failure was covered by the balance left at its turn, and the balance falls by exactly their charges |
| Billing.CatchUpBalance | app/backend/app/services/billing.py:152-168 | Catching up never raises the balance, and a balance that was not negative stays so |
| Billing.CatchUpIdempotent | app/backend/app/services/billing.py:191 | After a successful catch-up the instance is not due: catching up again at the same `now` bills nothing |
| Billing.BillUntilCaughtUp | app/backend/app/services/billing.py:171-198 | The instance and its user end as `CatchUp` from the scheduled ledger says (see `Billing.CatchUpClosedForm`): `ok` is whether every billed period was paid, `deactivate` is its negation, and the session gains exactly the catch-up's events |
| Billing.BillRow | app/backend/app/services/billing.py:229-237 | A failing transaction leaves the instance, its user and the session as they were and flags nothing. A committed one leaves them as the catch-up from the scheduled ledger says, and flags the instance exactly when the catch-up stopped unpaid |
| Billing.SweepRow | app/backend/app/services/billing.py:228-234 | One turn takes the sweep's state (billing fields, balances, session events, queue) one `SweepStep`: a due, committing row is caught up from its current ledger and queued exactly when that stopped unpaid; any other row changes nothing |
| Billing.TurnRow | app/backend/app/services/billing.py:228-234 | A row that is not due, or whose transaction fails, changes nothing and queues nothing. Otherwise the row ends as its catch-up, the session gains its events, and its external id is queued exactly when the catch-up stopped unpaid |
| Billing.BillDueRows | app/backend/app/services/billing.py:226-237 | The state after the loop is the `Sweep` fold of the rows, in query order, from the state before it; a failing row does not stop the loop |
| Billing.ProcessDue | app/backend/app/services/billing.py:200-237 | Taking the lock raises exactly when the TTL is not positive. The sweep runs exactly when it does not raise and the lock held no live entry. When the sweep does not run, nothing changes and any other holder's entry stays. When it runs, the rows end as the `Sweep` fold over the configured billable set says; the lock is released within its TTL, or left to expire when the release errs or comes too late |
| Billing.PriceListNonNegative | app/backend/app/services/billing.py:139-142 | No row's price list charges a negative amount |
| Billing.SweepBalancesNonNegative | app/backend/app/services/billing.py:152-168 | With no negative charge, no balance that was not negative turns negative in the sweep |
| Billing.SweepSettlesRows | app/backend/app/services/billing.py:191-198 | Every committed row ends caught up (next charge past `now`), or out of balance with its last period at or before `now` and the next a day later. Every other row keeps its billing fields |
| Billing.SweepKeeps | app/backend/app/services/billing.py:228-237 | An instance no remaining row names keeps its billing fields |
| Billing.SweepKeepsBalance | app/backend/app/services/billing.py:228-237 | A user no remaining row names keeps its balance |
| Billing.SweepIndependentRows | app/backend/app/services/billing.py:228-237 | With no instance or user shared between rows, every committed row ends exactly as its own catch-up from the starting state, and every other row keeps its entries |
| Billing.SweepFlags | app/backend/app/services/billing.py:233-234 | With no instance or user shared between rows, the queue gains exactly the committed rows whose catch-up stopped unpaid, in row order |
| Billing.SweepEvents | app/backend/app/services/billing.py:228-237 | With no instance or user shared between rows, the session gains exactly the committed rows' catch-up events, in row order |
| StatusStats.ClipWindow | app/backend/app/services/status_stats.py:14-31 | The start moves forward to the creation time when one is known; the end never changes |
| StatusStats.StatsSlicesTile | app/backend/app/services/status_stats.py:56-79 | From a cursor before the window end the slices tile the rest of the window; from one at or after it there are none |
| StatusStats.StaleEventsSkipped | app/backend/app/services/status_stats.py:65-68 | Events at or before the cursor add no slice and leave the status unchanged |
| StatusStats.NothingAfterBreak | app/backend/app/services/status_stats.py:69-70 | Nothing after the first event at or after the window end affects the result |
| StatusStats.AgreesWithBilling | app/backend/app/services/status_stats.py:56-79 | On a time-ordered history with every event after the window start, this reconstructor and the billing one give the same slices |
| StatusStats.BuildPeriods | app/backend/app/services/status_stats.py:56-79 | The loop yields the reconstruction of its events; for a non-empty window the slices tile it and last its length; an empty window yields none |
| StatusStats.AddTo | app/backend/app/services/status_stats.py:124 | Adding to a key raises only that key's value, by the amount added, and adds the key if it was missing |
| StatusStats.SecondsByStatusKeys | app/backend/app/services/status_stats.py:120-124 | Every key of `seconds_by_status` is one of the four status values |
| StatusStats.SecondsByStatusValues | app/backend/app/services/status_stats.py:122-124 | The map holds, under each status value, exactly the seconds the slices spend in that status |
| StatusStats.SecondsByStatusPresence | app/backend/app/services/status_stats.py:122-124 | A status value is a key exactly when some slice has that status |
| StatusStats.SecondsByStatusPartition | app/backend/app/services/status_stats.py:120-128 | The values of `seconds_by_status` sum to the total length of the slices |
| StatusStats.UptimeIsBillablePart | app/backend/app/services/status_stats.py:121-126 | The uptime equals the sum of the map's billable entries |
| StatusStats.Accumulate | app/backend/app/services/status_stats.py:120-126 | The loop yields the per-status seconds map and the seconds spent in billable statuses |
| StatusStats.Aggregate | app/backend/app/services/status_stats.py:120-126 | The loop builds the per-status map and the uptime; the map's values sum to the total length, and the uptime is its billable part |
| StatusStats.SegmentsOf | app/backend/app/services/status_stats.py:131-137 | One segment per slice, in order, each with `seconds = end - start` |
| StatusStats.ComputeStats | app/backend/app/services/status_stats.py:81-147 | An empty clipped window gives all zeros, an empty map, and segments only when asked. Otherwise the slices tile the window and the map covers exactly its length. Every key is a status value, and `0 <= uptime <= total`, the uptime being the billable part of the map for the configured billable set. Segments are given exactly when asked |
| HealthPoller.LowerChar | app/backend/app/services/health_poller.py:12 | Upper-case ASCII letters become their lower-case letter; every other character is kept; the result is never upper case |
| HealthPoller.Lower | app/backend/app/services/health_poller.py:12 | Lowering keeps the length and lowers each character |
| HealthPoller.LowerIdempotent | app/backend/app/services/health_poller.py:12 | Lowering twice is lowering once |
| HealthPoller.LowerOfStatusValue | app/backend/app/services/health_poller.py:13-14 | Status values are already lower case |
| HealthPoller.NormalizeStatus | app/backend/app/services/health_poller.py:11-19 | A missing answer gives `Unknown`; an answer whose lowered form is a status value gives that status; anything else gives `Unknown`; it never fails |
| HealthPoller.NormalizeIgnoresCase | app/backend/app/services/health_poller.py:12-17 | Answers that differ only in case give the same status; a status value in any case reads as that status |
| HealthPoller.NormalizeExamples | app/backend/app/services/health_poller.py:11-19 | "Active" reads as `Active`; " active" with a leading blank, the empty string and a missing answer read as `Unknown` |
| HealthPoller.TransitionEvents | app/backend/app/services/health_poller.py:21-26 | No event when the status is unchanged; otherwise exactly one, for this instance, from the previous value to the new one |
| HealthPoller.TransitionIdempotent | app/backend/app/services/health_poller.py:22-26 | Reporting the same new status twice records only one event |
| HealthPoller.HandleInstance | app/backend/app/services/health_poller.py:21-26 | The instance ends in the new status, and the session gains the transition's events: none if the status was already the new one |
| HealthPoller.ReportedStatus | app/backend/app/services/health_poller.py:34-42 | A failed health check means `Unknown`; an answer means its normalised status |
| HealthPoller.Check | app/backend/app/services/health_poller.py:34-42 | The instance moves to the reported status, or to `Unknown` when the check fails, with at most one event |
| KbTasks.Target | app/backend/app/tasks/kb.py:30-36 | An entry is polled exactly when it exists, is in progress, has a non-empty execution id, and its knowledge base and that base's instance exist |
| KbTasks.Decide | app/backend/app/tasks/kb.py:28-53 | An entry that is not polled is skipped. A timed-out entry (age strictly over the timeout) is deleted. Otherwise "done" with ids completes it with the first id, "unknown" or "failed" deletes it, and any other answer keeps it |
| KbTasks.PollOutcome | app/backend/app/tasks/kb.py:39-53 | A poll touches only its own entry. It leaves it deleted, completed (status done, first id stored, execution id cleared, other fields kept) or as it was; only a pollable entry changes |
| KbTasks.TimeoutIgnoresReply | app/backend/app/tasks/kb.py:38-44 | A timed-out entry is deleted whatever the knowledge service would answer |
| KbTasks.SecondPollSkips | app/backend/app/tasks/kb.py:31-32 | After a poll that acted, polling the same entry again does nothing |
| KbTasks.KnowledgeStore.Scan | app/backend/app/tasks/kb.py:16-22 | Exactly the in-progress entries are queued, each exactly once |
| KbTasks.KnowledgeStore.Poll | app/backend/app/tasks/kb.py:28-53 | The entries after the poll are the decision applied to the entries before it; knowledge bases and instances are unchanged |

## Findings

| source | as written | input that shows it | evidently intended | confidence | as-written member | corrected member |
|---|---|---|---|---|---|---|
| app/backend/app/models/enums.py:3-6 | `InstanceStatus` has no `unknown` member, yet billing.py:49, billing.py:57, billing.py:90, status_stats.py:52, status_stats.py:75 and health_poller.py:19 fall back to `InstanceStatus.unknown`, so the fallback itself raises | the health endpoint answers "inactive" (a value migration 003 adds to the database type): `_normalize_status` raises, and so does the handler's `_handle_instance(db, inst, InstanceStatus.unknown)`, aborting the whole poll before its commit; a stored event with `to_status` "inactive" in a period's query window makes that instance's billing roll back on every sweep, so its schedule never advances | an `unknown` member, so that any unrecognised value reads as `unknown` | high (not executed) | Enums.InactiveRaisesAsWritten | Enums.ParseStatusExtendsAsWritten |

## Left out

- Database queries, transactions and commits. Each event query is the function `History.Fetch` over the stored, time-ordered history. The session is the list of events added to it. A rollback is a restored snapshot of the rolled-back instance, its user and the session's events.
- `Billing.BillDueRows`: which instance transactions fail is an input set of instance ids (`failing`). Exceptions are not modelled, so neither is the point inside the transaction where one is raised.
- The instances fetched by the sweep are given as rows in query order. Its `WHERE next_charge_at <= now` is the predicate `Billing.Due`.
- The best-effort `ext_deactivate_instance` calls (services/billing.py:239-244). They are network I/O; the model only returns the ids to deactivate.
- Clocks, `uuid` tokens and the lock TTL (`BILLING_LOCK_TTL_SECONDS`, 240 at core/config.py:57) are parameters; a non-positive TTL is modelled as the store's rejection of `SET … EX`, which makes `__aenter__` raise. Tokens are assumed distinct; `Billing.ProcessDue` requires its fresh token to be unused in the store. The time the lock is released (`releasedAt`) is a parameter too, since the sweep's duration is not modelled.
- `UserBotInstance.instance_id` is read at services/billing.py:234, services/health_poller.py:37 and tasks/kb.py:44. The ORM class in app/models/bot_instance.py:7-26 does not declare it; the column comes from migration 002 (app/backend/alembic/versions/002_add_instance_id_to_user_bot_instances.py:14-17). `Models.Instance.externalId` stands for it.
- `async_session` is imported at services/billing.py:9 and used at services/billing.py:213 and services/health_poller.py:30. app/db/session.py defines only `AsyncSessionLocal`. The model takes the session as a `Models.Session` argument.
- `get_redis`: core/locks.py imports it at line 3 and awaits it at lines 14 and 24, but core/redis.py defines no such function; its only connection factory is the synchronous `redis_client()` at line 11. The `Locks.Store` argument of `Locks.RedisLock.Enter` and `Locks.RedisLock.Exit` stands in for the connection it would return, and connection errors are not modelled.
- `KBEntryStatus` is imported at tasks/kb.py:8, but app/models/enums.py does not declare it. `Enums.KbEntryStatus` stands for it, with the four values of the `kb_entry_status` database type (app/backend/alembic/versions/006_kb_enums.py:18). The `status` and `execution_id` fields of knowledge entries likewise come from the migrations, not from the ORM class.
- `kb_status` is imported at tasks/kb.py:9, but services/external_client.py does not define it. The knowledge service is the function parameter `kbStatus`.
- `settings.KB_POLL_TIMEOUT_SECONDS` is read at tasks/kb.py:39, but app/core/config.py does not define it. The timeout is the parameter `timeout`.
- `Billing.BillDueRows`, `Billing.SweepIndependentRows`, `Billing.SweepFlags`, `Billing.SweepEvents`: when two rows share a user, a later row is billed from the balance the earlier one left. The `Sweep` fold states this, but the closed forms per row are proved only for rows that share no instance or user.
- Concurrency and scheduling:
  - `poll_once` with its semaphore and `asyncio.gather`, and `run_poller`;
  - the Celery task wrappers and the dispatch of `poll_execution`: `Scan` returns the queued ids;
  - the same-user balance race between concurrent workers.
  The model is sequential.
- `HealthPoller.LowerChar`, `HealthPoller.Lower`: ASCII letters only, whereas Python's `str.lower` also lowers non-ASCII letters.
- `History.LatestAtOrBefore`, `History.Fetch`: for events tied at the same instant, the database may return them in any order. The model keeps them in stored order, and takes the one stored last as the latest. `Billing.TieInsideWindowFirstWins` relies on this order.
- Floating point: `uptime_percent` and its rounding.
- Date arithmetic: times are whole seconds and `timedelta(days=1)` is 86400. The code's datetimes carry microseconds. It truncates each slice's seconds separately with `int(...total_seconds())` (services/billing.py:137, services/status_stats.py:123). With sub-second times, the billable seconds may therefore fall short of the window length. The partition results (`History.TilesTotal`, `StatusStats.SecondsByStatusPartition`) hold only for whole-second times, which is all the model represents.
- Fixed-width integer overflow does not arise: Python integers are unbounded, as in the model.
