# baby-tracker: a verified model of the sync and migration core

baby-tracker is a Nuxt application for logging baby feedings. The server
keeps a PostgreSQL table `feeding_records`. The browser keeps an IndexedDB
copy (Dexie) with a `sync_queue` of local changes. This project models, in
Dafny, the parts of the repository that decide what is stored and what is
reported:

- the server handlers that add and backfill the `client_id` column
  (`auto-migrate`, `backfill-client-ids`, `run-migration`) and the one that
  reports migration progress (`migration-status`);
- the read handlers: the pull sync (`sync`), the feeding list
  (`GET /api/feedings`) and the two food-type rankings;
- the insert handler (`POST /api/feedings`);
- the browser's offline store (`useOfflineData`), the bridge that mirrors
  it into the shared feedings array (`useOfflineFeedings`), the array
  edits themselves (`useFeedings`), the auto-migration state
  (`useAutoMigration`), the toasts (`useToast`) and the refresh counter
  (`useFeedingRefresh`).

Tables are sequences of rows with integer millisecond timestamps and an
`Option<Uuid>` client id. Handlers that change state are methods of classes
(`ServerDb.Database`, `OfflineData.LocalStore`, `FeedingList.FeedingList`,
`OfflineFeedings.OfflineFeedings`, `AutoMigration.MigrationState`,
`Toasts.ToastList`, `Refresh.RefreshCounter`). The server's batched
backfill loop runs on values in module-level methods (`ServerDb.BackfillRows`,
`ServerDb.FillBatchRows`) and is proved against the functional definition
`Backfill.Run`. The read-only handlers are functions returning a
`Result`, and lemmas state what they return.

Inputs the code cannot compute are parameters:

- Generated UUIDs come from a supply `gen: nat -> Uuid`. Its values are
  distinct and not yet in the table (`ServerDb.FreshSupply`). Inserts take
  one fresh `cid`.
- Clock readings (`Date.now()`, `NOW()`) are a `now` parameter.
- Timestamp text is given by what parsing makes of it:
  `Missing | Unparseable | At(t)`.
- A database failure is `fail: Option<nat>`: the query with that 0-based
  index, in the order the handler issues them, throws. For the read
  handlers it is a `dbFails: bool`.
- A `fetch` of a server route is the handler's reply, or an exception.

## Behaviour of the code that the model keeps

- One migration run does not always give every row a client id. The loop
  re-reads `WHERE client_id IS NULL … LIMIT 100 OFFSET offset` and then
  advances `offset` by 100. Filled rows leave that set, so later rounds
  skip rows that are still null. Both backfill handlers report this case
  as `migration_status: 'partial'`
  (server/api/feedings/auto-migrate.post.ts:123 and
  server/api/feedings/backfill-client-ids.post.ts:105), and
  scripts/test-auto-migration.js:72-79 logs whether synced records have a
  client id. The model proves:
  - one run fills every null row exactly when there were at most 100
    (`Backfill.SingleRunCompletesIff`);
  - with 250 null rows it fills 150 and leaves 100, so the reply says
    `partial` (`Backfill.TwoHundredFiftyNullRows`).
- The browser store declares a `conflicts` table
  (app/composables/useOfflineData.js:16) and counts its unresolved
  entries, but nothing in the modelled code writes to it or drains
  `sync_queue`. Local changes only append to the queue. The conflict check
  of server/api/feedings/[client_id]/index.put.ts:28-58, which compares the
  stored `updated_at` with the client's, belongs to a route outside this
  model.

## Model

| member | source | states |
|---|---|---|
| Schema.Progress | server/api/feedings/migration-status.get.ts:65 | The percentage is `100·migrated/total` on the exact quotient, rounded half up: `2·total·p ≤ 200·migrated + total < 2·total·(p+1)`. It is 0 when the table is empty. (The source rounds a double; see Left out.) |
| Schema.ProgressBounds | server/api/feedings/migration-status.get.ts:65 | When `migrated ≤ total`: the percentage is at most 100, exactly 100 when every row is migrated, and 0 when none is. |
| Schema.CountsAddUp | server/api/feedings/auto-migrate.post.ts:118 | Non-null count plus null count is the table size. So `total − remaining` is the number of rows that have a client id. |
| MigrationStatus.StatusFromTable | server/api/feedings/migration-status.get.ts:15-67 | Without the column the status is `not_started` with zero counts. With it: counts add up; `no_data` iff the table is empty; `complete` iff rows exist and all have an id; `not_started` iff rows exist and none has one; `in_progress` iff some have and some lack one; the percentage is the rounded share, at most 100; `column_nullable` iff `is_nullable = 'YES'`. |
| Sync.PullErrors | server/api/feedings/sync.get.ts:9-58 | A missing `since` gives the 400 "since parameter is required for sync", checked first. An unparseable one gives the 400 "Invalid since timestamp format. Use ISO 8601 format.". A parsed one fails exactly when the query fails, with a 500. |
| Sync.PullContents | server/api/feedings/sync.get.ts:31-44 | A pull returns exactly the rows with `updated_at > since`, each as often as it occurs in the table, in non-decreasing `updated_at` order. `count` is their number and the parsed `since` instant is echoed. |
| Sync.PullCaughtUp | server/api/feedings/sync.get.ts:34 | When no row was updated after `since`, the pull returns no records and count 0. |
| Sync.PullMonotone | server/api/feedings/sync.get.ts:34 | A later watermark returns a subset of what an earlier one returns, and never a higher count. |
| FeedingQuery.ListDefaults | server/api/feedings/index.get.ts:6 | Omitting every parameter is the same as `sort=desc`, `limit=50`, `offset=0`, empty `search`. |
| FeedingQuery.ListErrors | server/api/feedings/index.get.ts:27-63 | The handler fails, with the 500 "Failed to fetch feedings", exactly when a query fails or `limit` or `offset` is not a non-negative integer. |
| FeedingQuery.ListPage | server/api/feedings/index.get.ts:18-56 | The ordered list is a permutation of the matching rows. It is ascending by `feeding_time` exactly for `sort=asc` and descending otherwise. The page is that list with `offset` rows dropped and at most `limit` kept. It holds only table rows whose food type or notes contain the search, ignoring case. `limit` and `offset` are echoed. |
| FeedingQuery.ListTotal | server/api/feedings/index.get.ts:40-49 | `total` is the number of matching rows. It depends on the search alone, not on sort, limit or offset. |
| FeedingQuery.ListTotalUnsearched | server/api/feedings/index.get.ts:40-49 | Without a search, `total` is the table size. |
| ServerDb.Database.CreateFeeding | server/api/feedings/index.post.ts:7-59 | A missing `feeding_time` gives "feeding_time is required" and nothing changes. The insert succeeds iff the time parses, the column exists, the generated id is unused and the database returns the row. Then exactly one row is added: the next key, the server-generated client id, the food type and notes defaulting to `''`, and both timestamps set to now. Every other failure gives "Failed to create feeding record" and nothing changes. The handler never throws. |
| FoodTypes.FoodTypesMembers | server/api/food-types/index.get.ts:6-36 | The result holds distinct names. There are `min(limit, number of groups)` of them. Each is a non-empty food type of some row, contains the search ignoring case, and has a positive count. |
| FoodTypes.FoodTypesRanked | server/api/food-types/index.get.ts:26 | Names are ordered by usage count descending, then by name ascending. Every group left out is used no more than each name kept. |
| FoodTypes.GroupListed | server/api/food-types/index.get.ts:10-23 | A group of the listing is a non-empty food type of some row, matches the search, and has a positive count. |
| FoodTypes.RankedListing | server/api/food-types/index.get.ts:10-30 | The listing is the first `limit` groups ranked by usage then name. The names are distinct and are groups. |
| FoodTypes.UsagePositive | server/api/food-types/index.get.ts:10 | A name is a group exactly when its `COUNT(*)` is positive. |
| FoodTypes.RecentMembers | server/api/food-types/recent.get.ts:6-22 | The result holds distinct names. There are `min(limit, number of groups)` of them. Each is the non-empty food type of some row created within the last 30 days. |
| FoodTypes.RecentRanked | server/api/food-types/recent.get.ts:15 | Names are ordered by usage count descending, then by latest `created_at` descending. Every group left out is used no more than each name kept. |
| FoodTypes.RankedRecent | server/api/food-types/recent.get.ts:9-17 | The recent list is the first `limit` recent groups ranked by usage then latest use. The names are distinct and are groups. |
| FoodTypes.LastUsedIsMax | server/api/food-types/recent.get.ts:15 | A group's `MAX(created_at)` is the creation time of one of its rows and is no earlier than any of them. |
| FoodTypes.FoodTypesErrors | server/api/food-types/index.get.ts:28-47 | Both food-type lists fail, with a 500, exactly when the query fails or `limit` is not a non-negative integer. |
| Text.Contains | server/api/feedings/index.get.ts:18-22 | True iff the needle occurs in the text at some position. |
| Backfill.PendingFacts | server/api/feedings/auto-migrate.post.ts:63-71 | The batch query reads every null row once, ordered by ascending `created_at`, and no other row. |
| Backfill.Stamp | server/api/feedings/backfill-client-ids.post.ts:76-84 | The records one batch reports are `{id, client_id, feeding_time}` of the batch's rows, in batch order. The `i`-th record carries generated id number `k + i`. |
| Backfill.AssignBatchNullCount | server/api/feedings/auto-migrate.post.ts:78-95 | Updating a batch of distinct null rows lowers the null count by the batch size. |
| Backfill.RunCount | server/api/feedings/auto-migrate.post.ts:62-98 | A run fills `FilledCount(nulls, expected, offset)` rows, a number that depends on the null count alone. The null count drops by exactly the number filled. |
| Backfill.FilledCountBound | server/api/feedings/auto-migrate.post.ts:62-98 | A run fills at most the null rows at or after `offset`. So it never fills more than the initial null count. |
| Backfill.SingleRunCompletesIff | server/api/feedings/auto-migrate.post.ts:62-98 | One run from offset 0 fills all `m` null rows iff `m ≤ 100`. It always fills at least `min(m, 100)`. |
| Backfill.TwoHundredFiftyNullRows | server/api/feedings/auto-migrate.post.ts:62-98 | With 250 null rows one run fills 150 and leaves 100 null. |
| ServerDb.AssignOnly | server/api/feedings/auto-migrate.post.ts:81-87 | `UPDATE … WHERE id = $2` on a table with a primary key changes the targeted row only. It sets that row's client id and `updated_at = NOW()`. |
| ServerDb.FillOne | server/api/feedings/auto-migrate.post.ts:78-87 | Filling one more null row with the next generated id keeps the table's constraints (primary key, unique `client_id`, serial key) and the backfill's bookkeeping (`Progressed`). |
| ServerDb.ApplyBatch | server/api/feedings/auto-migrate.post.ts:78-95 | The batch's `UPDATE`s, none failing, leave the table as `AssignBatch` says and append the `Stamp` records. The constraints and the bookkeeping (`Progressed`) hold. |
| ServerDb.FillBatchRows | server/api/feedings/auto-migrate.post.ts:78-95 | The batch fails iff one of its `UPDATE` queries fails. Without a failure the table is `AssignBatch` of the whole batch, with its `Stamp` records. With one, every other row of the batch is still updated (`AssignBatch` of the batch without the failing row), because all updates are issued before any is awaited. Either way the constraints hold and only the recorded rows changed. |
| ServerDb.BackfillRound | server/api/feedings/auto-migrate.post.ts:63-97 | One round selects a batch. It stops on an empty batch with nothing changed, and the table and records are then the outcome of the whole run. Otherwise it fills the batch and keeps the loop invariant for `offset + 100`. |
| ServerDb.BackfillRows | server/api/feedings/auto-migrate.post.ts:58-98 | The loop terminates. Without a failure its table and records are exactly `Run(rows, expected, 0, …)`. It keeps the constraints. Exactly the recorded rows changed: each had a null id, got the listed fresh id and `updated_at = now`, and is recorded once. |
| ServerDb.MigrateRows | server/api/feedings/auto-migrate.post.ts:44-129 | From the null count on: with no failure the reply is `Migrated`, and the table is one run of the loop. The reply's total, remaining and migrated counts are those of the final table. The percentage is the rounded share, and the status is `complete` iff nothing remains. With zero null rows no row changes. A failure reply carries the thrown message. |
| ServerDb.Database.AutoMigrate | server/api/feedings/auto-migrate.post.ts:4-148 | The DDL runs only when the column is absent. An existing column is left as it was, and a success leaves the column present. The reply is `MigratedReply` of one run, or carries the error message and is never thrown. With zero null rows no row changes. Only null rows were changed. |
| ServerDb.Database.BackfillBatches | server/api/feedings/backfill-client-ids.post.ts:43-88 | The loop on the stored table: the new table and the accumulated `updatedRecords` are one run of it. |
| ServerDb.Database.BackfillClientIds | server/api/feedings/backfill-client-ids.post.ts:4-121 | If the column is missing: a 400 and nothing changes. If no row is null: "nothing to backfill" and no writes. Otherwise the table and `updatedRecords` are one run. `updated_count` is their number and `records` their first 10. The status is `complete` iff no null row remains. Every other failure is a 500. |
| ServerDb.Database.RunMigration | server/api/feedings/run-migration.post.ts:3-92 | An existing column gives `already_exists` and no DDL. Otherwise, with no failure, the column is added and reported as `completed` with its name, type, `nullable = (is_nullable = 'YES')` and default. Every failure is the 500 "Failed to run database migration". Rows never change. |
| ServerDb.Database.RunMigrationTwice | server/api/feedings/run-migration.post.ts:13-21 | Running the migration a second time after a successful one reports `already_exists` and changes nothing. |
| OfflineData.ValidateFacts | app/composables/useOfflineData.js:173-189 | `isValid` iff there are no errors, iff the feeding time parses. A missing time gives exactly "Feeding time is required". An unparseable one gives exactly "Invalid feeding time format". |
| OfflineData.FindRecord | app/composables/useOfflineData.js:95-107 | None iff no record has that client id. Otherwise the result is a stored record with that client id. |
| OfflineData.ModifiedFacts | app/composables/useOfflineData.js:116-125 | `modify` on the record's client id replaces that one record and no other, and keeps the keys and client ids unique. |
| OfflineData.DeletedFacts | app/composables/useOfflineData.js:150-153 | After a delete no record has that client id, every other record stays, exactly one record goes, and the constraints hold. |
| OfflineData.ListingFacts | app/composables/useOfflineData.js:71-93 | With `since`, exactly the records updated after it. Without it, a permutation of all records. Always latest `feeding_time` first. |
| OfflineData.StatsFacts | app/composables/useOfflineData.js:205-217 | For the intended statistics: the unresolved-conflict count is at most the number of conflicts, and 0 iff every conflict is resolved. |
| OfflineData.CountEquals | app/composables/useOfflineData.js:209 | An index equality count rejects with a `DataError` exactly when the value is not a valid IndexedDB key (a boolean). Otherwise it counts matching keys, at most the index size. |
| OfflineData.StatsAsWrittenRejects | app/composables/useOfflineData.js:205-220 | `getDatabaseStats` as written rejects with a `DataError` on every store, where one unresolved conflict should give the count 1. |
| OfflineData.LocalStore.constructor | app/composables/useOfflineData.js:8-20 | A new database has three empty tables. |
| OfflineData.LocalStore.CreateRecord | app/composables/useOfflineData.js:43-69 | Appends one record: the given client id; `feeding_time` defaulting to now; `food_type` and `notes` defaulting to `''`; `updated_at` now. Appends one `create` queue entry carrying the record, with `retry_count` 0. No other table changes. |
| OfflineData.LocalStore.UpdateRecord | app/composables/useOfflineData.js:109-141 | An unknown client id gives "Record not found" and changes neither table. Otherwise the record becomes its old fields overlaid by the data, with a new `updated_at`, and one `update` entry carrying it is queued. |
| OfflineData.LocalStore.DeleteRecord | app/composables/useOfflineData.js:143-169 | An unknown client id gives "Record not found" and changes neither table. Otherwise the records with that id go, and one `delete` entry with payload `{client_id}` is queued. |
| OfflineData.LocalStore.ClearAll | app/composables/useOfflineData.js:193-203 | All three tables are empty and the statistics are all zero. |
| OfflineFeedings.Format | app/composables/useOfflineFeedings.js:25-33 | `id` and `client_id` are the record's client id. `created_at` and `updated_at` are its `updated_at`. The other fields are copied. |
| OfflineFeedings.ValidationMessageFacts | app/composables/useOfflineFeedings.js:50-53 | The thrown message is the one validation error: "Feeding time is required" or "Invalid feeding time format". |
| OfflineFeedings.LoadedFacts | app/composables/useOfflineFeedings.js:22-35 | Loading formats the stored records one for one: the same number, every record present, latest feeding first. |
| OfflineFeedings.OfflineFeedings.constructor | app/composables/useOfflineFeedings.js:2-14 | The bridge starts with no error and not loading. |
| OfflineFeedings.OfflineFeedings.LoadFeedings | app/composables/useOfflineFeedings.js:17-44 | The shared array becomes the formatted store listing. `error` is cleared and `isLoading` is false at the end. |
| OfflineFeedings.OfflineFeedings.AddFeeding | app/composables/useOfflineFeedings.js:47-78 | Invalid data gives the joined validation errors, and the store, its key counters and the array are unchanged. Otherwise one record and one queue entry are added, both key counters advance by one, and the formatted record goes to index 0. The conflicts and `isLoading` stay. |
| OfflineFeedings.OfflineFeedings.UpdateFeeding | app/composables/useOfflineFeedings.js:81-122 | Invalid data or an unknown id gives the error, with nothing changed. Otherwise the stored record is overlaid, one `update` is queued under the next queue key, which advances by one, and the array's element with that id is replaced and re-sorted newest first. The conflicts, the record key counter and `isLoading` stay on every branch. |
| OfflineFeedings.OfflineFeedings.RemoveFeeding | app/composables/useOfflineFeedings.js:125-139 | An unknown id gives "Record not found", with nothing changed. Otherwise the record and every array element with that id go, and one `delete` is queued under the next queue key, which advances by one. The conflicts, the record key counter and `isLoading` stay on every branch. |
| OfflineFeedings.OfflineFeedings.SetFeedings | app/composables/useOfflineFeedings.js:142-144 | The array is replaced wholesale. |
| OfflineFeedings.OfflineFeedings.QuickSave | app/composables/useOfflineFeedings.js:147-154 | Adds a feeding at now, with food type and notes defaulting to `''`, at the front of the array. One `create` is queued, both key counters advance by one, and the conflicts, `error` and `isLoading` stay. |
| OfflineFeedings.OfflineFeedings.SaveWithFood | app/composables/useOfflineFeedings.js:157-159 | Adds a feeding at now with the given food type, notes defaulting to `''`, at the front of the array. One `create` is queued, both key counters advance by one, and the conflicts, `error` and `isLoading` stay. |
| FeedingList.ReplacedAbsent | app/composables/useFeedings.js:11-13 | An update whose id no element has leaves the array unchanged. |
| FeedingList.ReplacedPresent | app/composables/useFeedings.js:11-21 | An update whose id is present yields a permutation of the old array with its first such element swapped for the new one, sorted newest first. |
| FeedingList.WithoutFacts | app/composables/useFeedings.js:24-26 | After a removal, exactly the elements with another id remain, each as often as before and in the original order. |
| FeedingList.FeedingList.constructor | app/composables/useFeedings.js:4 | The shared array starts empty. |
| FeedingList.FeedingList.Add | app/composables/useFeedings.js:6-9 | The new array is the feeding followed by the old array. |
| FeedingList.FeedingList.Update | app/composables/useFeedings.js:11-22 | `findIndex`, assignment and a stable sort give `Replaced` of the old array. |
| FeedingList.FeedingList.Remove | app/composables/useFeedings.js:24-26 | The new array is the old one without the elements with that id. |
| FeedingList.FeedingList.Set | app/composables/useFeedings.js:28-30 | The array is replaced wholesale. |
| AutoMigration.CacheStatus | app/composables/useAutoMigration.js:45-55 | Stores `{status, timestamp: now}` under the single cache key and leaves every other key alone. |
| AutoMigration.ClearCache | app/composables/useAutoMigration.js:184-191 | Removes the cache key only. |
| AutoMigration.CacheWindow | app/composables/useAutoMigration.js:26-51 | A cached status counts as recently completed iff it is `'complete'` and less than 24 hours old. |
| AutoMigration.ClearedNotRecent | app/composables/useAutoMigration.js:184-191 | After clearing, the cache never counts as recently completed. |
| AutoMigration.RecentEarlier | app/composables/useAutoMigration.js:35 | An entry recent now was recent at every earlier time. |
| AutoMigration.CheckFacts | app/composables/useAutoMigration.js:60-80 | A migration is needed unless the server answers successfully with status `complete`. An error reply gives `'unknown'`, an exception gives `'error'`, both with progress 0. |
| AutoMigration.CheckFromTable | app/composables/useAutoMigration.js:65-72 | Against the status handler: no migration is needed iff the column exists, the table is non-empty and every row has a client id. The progress is at most 100. |
| AutoMigration.ShownProgressBounds | app/composables/useAutoMigration.js:106 | The progress shown after success is the server's percentage, or 100 when that is 0. It always lies in 1..100. |
| AutoMigration.MigrationState.constructor | app/composables/useAutoMigration.js:8-16 | All flags are false, there is no error, progress is 0 and there is no message. |
| AutoMigration.MigrationState.RunAutoMigration | app/composables/useAutoMigration.js:85-127 | Returns true iff the server reports success. Success sets `isComplete`, the shown progress and message, and caches `'complete'`. Failure sets `hasError` and the error message and leaves the cache alone. `isMigrating` is false afterwards. |
| AutoMigration.MigrationState.Initialize | app/composables/useAutoMigration.js:132-179 | A recent cache entry gives true with no request. A server reporting no migration needed caches `'complete'` and gives true. On both of these branches `hasError`, `error` and `progress` stay. Otherwise the result is that of the run: on success no error, the shown progress, the completion message and the cache entry; on failure the error, its message, and `isComplete`, `progress` and the cache kept. `isChecking` is false at the end whenever the server was asked. |
| AutoMigration.MigrationState.ClearMigrationCache | app/composables/useAutoMigration.js:184-191 | Only the cache entry goes; the flags are unchanged. |
| Toasts.RemovedFacts | app/composables/useToast.js:13-18 | An unknown id leaves the list unchanged. Otherwise exactly the first toast with that id is removed, the rest keep their order, and the list is one shorter. |
| Toasts.ShowThenRemove | app/composables/useToast.js:6-18 | Removing the id of a toast just shown, when that id was new, restores the previous list. |
| Toasts.ToastList.constructor | app/composables/useToast.js:4 | The shared list starts empty. |
| Toasts.ToastList.ShowToast | app/composables/useToast.js:6-11 | Appends one `{id, message, type}`, with type defaulting to `info`, and returns the id. |
| Toasts.ToastList.RemoveToast | app/composables/useToast.js:13-18 | `findIndex` and `splice` give `Removed` of the old list. |
| Toasts.ToastList.ShowSuccess | app/composables/useToast.js:20 | Appends a `success` toast. |
| Toasts.ToastList.ShowError | app/composables/useToast.js:21 | Appends an `error` toast. |
| Toasts.ToastList.ShowInfo | app/composables/useToast.js:22 | Appends an `info` toast. |
| Refresh.RefreshCounter.constructor | app/composables/useFeedingRefresh.js:3 | The counter starts at 0. |
| Refresh.RefreshCounter.TriggerRefresh | app/composables/useFeedingRefresh.js:5-7 | Each trigger increases the counter by exactly 1. |
| Text.Join | app/composables/useOfflineFeedings.js:52 | Joining one part is that part, and joining none is `''`. |
| Seqs.FindIndex | app/composables/useToast.js:14 | The linear scan returns the first index whose element matches, or -1 when none does. |

## Left out

- Connection pool, timeouts and the health route (server/utils/database.ts, server/api/health.get.ts): I/O plumbing around a foreign library.
- Transactions: the handlers send the `BEGIN … COMMIT` DDL string and a best-effort `ROLLBACK`. The model applies the DDL as one atomic step. A failure before the DDL leaves the schema unchanged. A failure after it keeps the column.
- Concurrency: the `Promise.all` over one batch's `UPDATE`s is modelled as its updates applied one by one in batch order (`ServerDb.FillBatchRows`). They touch distinct rows, so the order does not change the table. When one update fails, the model still applies the batch's other updates, as the source does. It gives the rows after the failing one the id supply's next draws rather than the draws the source made for them; both are fresh, distinct ids.
- UUID generation, `Date`/luxon parsing and clock reads are parameters (see above). An insert's `feeding_time` is stored as the instant it denotes; ISO 8601 text and the local-to-UTC conversion are not modelled.
- Each operation reads the clock once. `createFeedingRecord` calls `getCurrentTimestamp()` up to three times; the model uses one reading for all of them. `initializeAutoMigration` reads the clock for the cache check and again when caching; the model uses two readings (`now`, `later`).
- ServerDb.Database.CreateFeeding: a `feeding_time` that luxon cannot parse becomes a failed insert (the model assumes the column is `NOT NULL`). The table's DDL is not part of this model.
- ServerDb.Database.RunMigration: the verification read after the DDL always finds the column, because the DDL always creates it. So the "column not found after migration" error is reachable only through a failing query.
- `ILIKE` wildcards: `%` and `_` inside a search string act as wildcards in SQL. The model matches the search as a plain substring, ignoring case for ASCII letters only.
- Collation: `ORDER BY food_type ASC` is lexicographic by character code. The ties between equal sort keys that SQL leaves unspecified are resolved by a stable sort over table order.
- `getFeedingRecords` with `limit` and `offset`: the offline bridge never passes them, so only `since` is modelled.
- IndexedDB, Dexie's async API, Vue/Nuxt reactivity (`ref`, `useState`, `readonly`, `onMounted`) and `localStorage` beyond a key-to-value map.
- `getMigrationStatus`: it copies the state's fields into a fresh object, so it is not modelled.
- `initializeAutoMigration`'s outer `catch`: `checkMigrationStatus` and `runAutoMigration` catch every exception themselves, so it cannot be reached.
- `cacheMigrationStatus` and `clearMigrationCache` catch `localStorage` exceptions. The model's storage does not throw.
- The `message` texts of the auto-migration state are a datatype with the numbers they show; number-to-text formatting is not modelled.
- Toast ids: `Date.now() + Math.random()` is floating-point arithmetic, so the id is a parameter.
- Refresh.RefreshCounter.TriggerRefresh: the value after n triggers is n by repeating its contract, and the `readonly` exposure that makes triggering the only way to write the counter is a Vue mechanism. Neither is stated as a member.
- Console logging, the UI pages, the PWA plugin and the configuration files.
- The test scripts (scripts/test-migration.js, scripts/test-auto-migration.js) drive HTTP only. One reports whether every synced record has a client id, which one run does not guarantee for more than 100 null rows (see above).
- The update and delete routes under server/api/feedings/[id]/ and server/api/feedings/[client_id]/ are not part of this model, and with them the `updated_at` conflict check of the `[client_id]` PUT route. No push, outbox drain or retry of `sync_queue` entries exists in the code modelled here.
- OfflineData.LocalStore.CreateRecord: requires the generated client id to be unused in the store, which a random UUID v4 is taken to be; the source does not check it.
- OfflineFeedings.OfflineFeedings.AddFeeding: requires the generated client id to be unused in the store, which a random UUID v4 is taken to be; the source does not check it.
- OfflineFeedings.OfflineFeedings.QuickSave: requires the generated client id to be unused in the store, which a random UUID v4 is taken to be; the source does not check it.
- OfflineFeedings.OfflineFeedings.SaveWithFood: requires the generated client id to be unused in the store, which a random UUID v4 is taken to be; the source does not check it.
- OfflineData.LocalStore.UpdateRecord: spreading `data` in `updateFeedingRecord` lets a field passed as `undefined` overwrite the stored one in JavaScript. The model treats an absent field as keeping the stored value, and OfflineFeedings.OfflineFeedings.UpdateFeeding inherits this.
- Schema.Progress: rounds the exact quotient `100 · migrated / total` half up, while the source rounds the double `migrated / total * 100`. The two differ where the double falls just below a half: for 23 of 40 rows the double is 57.49999999999999, so the source reports 57 and the model 58 (also 29 of 200 and 57 of 200). MigrationStatus.StatusFromTable, ServerDb.MigrateRows and ServerDb.Database.AutoMigrate report this percentage.
- OfflineData.ListingFacts: orders records by the instant of their `feeding_time`, while Dexie's `orderBy('feeding_time')` orders the stored text. The two orders differ when the texts use different offsets or formats (a local "2024-01-01T10:00" at UTC+2 sorts after "2024-01-01T09:30:00.000Z", although it is earlier). The local store's `feeding_time` is modelled as an instant, so OfflineData.Listing has the same gap.
- OfflineFeedings.OfflineFeedings.LoadFeedings: inherits the instant order of OfflineData.Listing described above, and so does OfflineFeedings.LoadedFacts.
- OfflineFeedings.LoadedFacts: the newest-first order it states is by instant, not by the stored text (see OfflineData.ListingFacts).
- ServerDb.Database.CreateFeeding: `nextId` stays unchanged on every failure. In PostgreSQL an `INSERT` that fails on the unique `client_id` index or a `NOT NULL` column has already used up its `serial` value, so later keys skip one. Only the numbering differs.
- Sync.PullCaughtUp, Sync.PullContents and Sync.PullMonotone: times are whole milliseconds. `NOW()` stores microseconds while `new Date(since).toISOString()` keeps milliseconds, so in the source a watermark copied from a returned row's `updated_at` can return that row again.
- Sync.PullContents: the reply's `since` is the parsed instant, while server/api/feedings/sync.get.ts:44 echoes the query text as given. The model keeps no timestamp text, so it echoes the instant that text denotes.

## Findings

| source | as written | input that shows it | evidently intended | confidence | as-written member | corrected member |
|---|---|---|---|---|---|---|
| app/composables/useOfflineData.js:209 | `conflicts.where('resolved').equals(false).count()`. A boolean is not a valid IndexedDB key, so the key range throws a `DataError` and `getDatabaseStats` rethrows it (lines 218-219). The `resolved` index also never holds a boolean. | any store, e.g. one with a single conflict whose `resolved` is `false` | the number of conflicts with `resolved` false (here 1), e.g. `filter(c => !c.resolved).count()` | medium, from the Indexed Database API's key rules; not executed | OfflineData.StatsAsWrittenRejects | OfflineData.StatsFacts |
