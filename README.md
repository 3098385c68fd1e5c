# Offline-first sync engine of the herbal collection app, in Dafny

This project models the part of the herbal collection app that moves field
records from a device to the canonical store:

- **the local record store** (`Database.IndexedDbService`): the IndexedDB
  object store `collections`, keyed on `id`, with indexes on `synced` and
  `timestamp`, as a class over a `map<string, CollectionRecord>` and an
  `isOpen` flag. Every operation fails with "Database not initialized" until
  `Init` has opened the database;
- **the sync service** (`Sync.SyncService`): the listener list, the status
  broadcasts, the single periodic interval, and the sync pass. The pass is a
  sequential loop over a snapshot of the pending records. It posts each one,
  marks it synced on an OK response and stops at the first failure.
  `lastSyncAt` is written only when every record went through;
- **the ingest endpoint and ledger step** (`Server`): the truthiness guard of
  `POST /api/collections`, its four replies, the deferred ledger job, the
  projection to the `logCollection` arguments (grams by `Math.floor`, Unix
  seconds by `Math.floor`), and the write-back of the transaction hash;
- **the status indicator** (`StatusIndicator`): the icon, text and colour
  chosen from a `SyncStatus`.

The network, the browser's `navigator.onLine`, the clock, the database
insert/update and the ledger client are inputs of the methods that use them.
`remote: CollectionRecord -> Response` answers each POST of a pass. `online`
and `onlineAtEnd` are the connectivity read at the start and at the end of the
pass. `now` is the clock. `insertOk`, `updateOk` and `SendOutcome` stand for
the external outcomes.

The key result is `Sync.PartialFailure`. It applies to a pass whose snapshot
lists the pending records, and whose first refused record has index k. Then
records 0..k-1 are synced and stamped, records k..n-1 are unchanged and
pending, nothing else in the store changes, and `n - k` records remain
pending. `Sync.SyncService.SyncPendingRecords` ties a real pass to it:
afterwards the store equals `MarkAll(old store, snapshot[..k], now)`,
exactly the records up to and including the refused one have been posted,
and the two broadcasts are the ones the source sends.

Three behaviours of the code worth noting:

- The server does a plain `insert` (`backend/server.js:70`). Whether a record
  posted a second time is accepted is up to the table, so its outcome is an
  input (`insertOk`).
- The ledger quantity is `Math.floor(q * 1000)` (`backend/server.js:151`).
  A negative quantity therefore rounds away from zero, and a negative value
  cannot be encoded as the `uint256` the contract takes
  (`backend/server.js:31`), so no transaction is sent for it.
- `init` runs its upgrade step only when the device holds a version below 1,
  and it never drops or changes a record. A version-1 store that lacks the
  `synced` index is never repaired. The pending query
  (`src/services/database.ts:72`) then always fails, so no pass and no
  status broadcast happens (`Scenario.MissingIndexPersists`).

`scenario.dfy` runs a record through save, pass, ingest and anchoring.
It also shows a pass in which one of two records is refused, and a device
whose store lacks the `synced` index. All of them use only the members'
contracts.

## Model

| member | source | states |
|---|---|---|
| CollectionTypes.DecimalText | src/components/StatusIndicator.tsx:32 | the rendered count is non-empty, all digits, with no leading zero |
| CollectionTypes.DecimalRoundTrip | src/components/StatusIndicator.tsx:47 | reading the rendered count back as decimal gives the count |
| CollectionTypes.DecimalTextInjective | src/components/StatusIndicator.tsx:47 | different counts render as different texts |
| Database.Collect | src/services/database.ts:53-78 | the listing has each selected record exactly once, as stored, with distinct ids, and its length is the number of selected ids |
| Database.MarkOne | src/services/database.ts:80-89 | the store after marking one id; its effect is stated by `MarkOneEffect` |
| Database.MarkOneEffect | src/services/database.ts:80-89 | marking an id changes only that record, only in `synced = 1` and `syncedAt = now`; the key set stays the same; the pending set loses exactly that id; an absent id changes nothing |
| Database.IndexedDbService.Queryable | src/services/database.ts:67-72 | the pending query can run: the connection is open and the store has the `synced` index |
| Database.IndexedDbService.constructor | src/services/database.ts:3-6 | a new service holds the device's persisted state and has no open connection |
| Database.IndexedDbService.Init | src/services/database.ts:8-38 | open failure and a newer on-device version are errors that change nothing; on success the store exists and version is 1; the store and both indexes are created only when the store is absent; an existing store only gains a missing `synced` index; records are never touched |
| Database.IndexedDbService.SaveRecord | src/services/database.ts:40-51 | before init: error, store unchanged; after: the store maps `r.id` to `r` and every other key is unchanged (last write wins) |
| Database.IndexedDbService.GetAllRecords | src/services/database.ts:53-64 | error exactly when not initialized; otherwise every stored record exactly once |
| Database.IndexedDbService.GetUnsyncedRecords | src/services/database.ts:66-78 | error exactly when not initialized ("Database not initialized") or when the store lacks the `synced` index (`store.index` throws); otherwise exactly the stored records with `synced == 0`, each once; length = pending count |
| Database.IndexedDbService.GetRecord | src/services/database.ts:91-100 | `Some` exactly when the id is stored, and then the stored record |
| Database.IndexedDbService.MarkAsSynced | src/services/database.ts:80-89 | before init: error, store unchanged; after: the store is the old one with that id marked (no-op and no error when the id is absent) |
| Sync.Accepted | src/services/sync.ts:108 | `response.ok`: a status from 200 to 299; its use is stated by `FirstFailure` |
| Sync.FailureMessage | src/services/sync.ts:109 | the error message of a refused record, `HTTP <status>: <statusText>`, or the network error's own message; it reaches the listeners through `SyncPendingRecords` |
| Sync.SyncingStatus | src/services/sync.ts:69-73 | the start status: online, syncing, the snapshot's length, no `lastSyncAt` and no error |
| Sync.StoredLastSync | src/services/sync.ts:37 | the stored value is reported exactly when it is a non-empty string |
| Sync.Without | src/services/sync.ts:27 | the callback no longer occurs in the result |
| Sync.WithoutCounts | src/services/sync.ts:27 | every other callback keeps its number of occurrences (the multiset is the old one with the callback's count set to 0); length drops by the callback's occurrences |
| Sync.WithoutAppend | src/services/sync.ts:27 | filtering distributes over concatenation, so the other listeners keep their order |
| Sync.WithoutAbsent | src/services/sync.ts:27 | a list without the callback is left as it is |
| Sync.WithoutIdempotent | src/services/sync.ts:26-28 | unsubscribing twice equals unsubscribing once |
| Sync.FirstFailure | src/services/sync.ts:75-77 | the stop index is at most n; every record before it is accepted; the record at it, if any, is refused |
| Sync.MarkAll | src/services/sync.ts:75-77 | the store after `markAsSynced` for each record of a list in order; its effect is stated by `MarkAllEffect` |
| Sync.MarkAllEffect | src/services/sync.ts:75-77 | marking a list stamps each listed record, leaves every other record, keeps the keys, and removes exactly the listed ids from the pending set |
| Sync.PartialFailure | src/services/sync.ts:63-96 | with the first refusal at k: records before k synced and stamped, records k..n-1 unchanged and pending, all other records unchanged, pending ids = ids of `snapshot[k..]`, pending count = n - k |
| Sync.PendingLeft | src/services/sync.ts:89-95 | after the first k records of a pending snapshot are marked, n - k records are pending (the re-read count of the error broadcast) |
| Sync.FullPassConverges | src/services/sync.ts:75-84 | if every record is accepted, the pass stops at n and nothing is pending afterwards |
| Sync.SyncService.CurrentStatus | src/services/sync.ts:31-41 | the listener status is never syncing and carries no error |
| Sync.SyncService.constructor | src/services/sync.ts:4-7 | the endpoint is `VITE_API_URL` (or the default) + `/collections`; no listeners, no interval, nothing posted or broadcast |
| Sync.SyncService.NotifyListeners | src/services/sync.ts:31-41 | when the pending query can run, one broadcast to the current listeners with `isSyncing = false`, the given connectivity, the pending count and the stored `lastSyncAt`; otherwise the read rejects and nothing is delivered |
| Sync.SyncService.Subscribe | src/services/sync.ts:20-25 | the callback is appended and the current status is broadcast at once |
| Sync.SyncService.Unsubscribe | src/services/sync.ts:26-28 | the listener list becomes `Without(old list, cb)` |
| Sync.SyncService.StartPeriodicSync | src/services/sync.ts:50-61 | afterwards exactly one interval is running, the new one, and it is the one held |
| Sync.SyncService.Init | src/services/sync.ts:9-18 | online: a fresh single interval; offline: nothing changes |
| Sync.SyncService.PostInOrder | src/services/sync.ts:75-113 | POSTs to the endpoint exactly the prefix up to and including the first refused record, in snapshot order; the store is the old one with the accepted prefix marked; returns the stop index |
| Sync.SyncService.RunPass | src/services/sync.ts:69-95 | over a snapshot of the pending records: the start broadcast, then the loop's posts, marks and stop index, then the completion or the error report with n - k pending |
| Sync.SyncService.FinishPass | src/services/sync.ts:79-95 | a full pass stamps `lastSyncAt` and delivers the idle status; a stopped pass leaves `lastSyncAt` and delivers the error status with the re-read pending count |
| Sync.SyncService.SyncPendingRecords | src/services/sync.ts:63-97 | offline, or the pending query cannot run: nothing is read, posted, written or broadcast. Otherwise the snapshot lists the pending records; the store is the old one with `snapshot[..k]` marked; the posts are the attempted prefix, each to the endpoint; `lastSyncAt` is set only when k = n. The broadcasts are the start status (`isSyncing`, count n) and then either the listener status or an error status with the failure message and count n - k |
| Sync.SyncService.OnIntervalTick | src/services/sync.ts:56-60 | offline: nothing changes; online: a pass |
| Sync.SyncService.OnOnline | src/services/sync.ts:43-48 | a pass and then a fresh single interval |
| Sync.SyncService.OnOffline | src/services/sync.ts:12 | the next broadcast reports `isOnline = false` |
| Server.HasRequiredFields | backend/server.js:61 | the guard: every required field present and truthy; stated by `FalsyFieldsRejected` and `ClientRecordValidity` |
| Server.FalsyFieldsRejected | backend/server.js:61-65 | a zero quantity, an empty required string or a missing required field fails the guard |
| Server.ClientRecordValidity | backend/server.js:61 | a posted client record passes the guard iff its id, collector, herb type and timestamp are non-empty and its quantity is not 0 |
| Server.EpochSeconds | backend/server.js:95 | the ledger time is ⌊ms / 1000⌋: `s*1000 <= ms < s*1000 + 1000` |
| Server.QuantityUnits | backend/server.js:151 | the ledger quantity is ⌊q·1000⌋: `u <= q*1000 < u + 1` |
| Server.ProjectionExamples | backend/server.js:151 | 1.2345 kg gives 1234, 0.5 kg gives 500, 1999 ms gives 1 s and -1 ms gives -1 s (rounding down, never to nearest) |
| Server.RowOf | backend/server.js:70-81 | the inserted row: the body's fields, `[]` for absent photos, the parsed time, the clock as `synced_at`, no hash yet; its use is stated by `PostCollection` |
| Server.JobOf | backend/server.js:89-96 | the job carries the record's id, herb type and quantity and the floor of its time in seconds |
| Server.CallOf | backend/server.js:148-155 | the call carries the job's fields unchanged except the quantity, which is ⌊q·1000⌋ |
| Server.Annotate | backend/server.js:163-166 | only rows whose id equals the record id change, and only in `blockchain_hash`; length unchanged |
| Server.Encodable | backend/server.js:31-34 | the call's quantity and time fit `uint256` (are not negative) |
| Server.Configured | backend/server.js:140 | both `CONTRACT_ADDRESS` and `PRIVATE_KEY` are set and non-empty |
| Server.IngestServer.constructor | backend/server.js:7-46 | a server started with its environment (contract address, key) over an existing table, with no queued job and no ledger call |
| Server.IngestServer.PostCollection | backend/server.js:56-104 | falsy field: 400, nothing stored or queued. Invalid date: 500, nothing stored. Insert error: 500 "Database error", no job. Otherwise one row appended; with both coordinates, exactly one job for that record and a success reply; without them, 500 and no job |
| Server.IngestServer.LogToBlockchain | backend/server.js:138-171 | unconfigured: no call, no update, no error. Bad key, or a negative quantity or time: nothing sent, `Failed`. Otherwise exactly one ledger call with the projected arguments; a failed send changes no row; the hash is written back only after it is mined, and only if the update takes. No outcome raises an error |
| Server.IngestServer.FireJob | backend/server.js:126-136 | the fired job leaves the queue and runs once, with each of `LogToBlockchain`'s outcomes on that job: skipped, failed before sending, failed after sending, anchored |
| StatusIndicator.StatusIcon | src/components/StatusIndicator.tsx:10-28 | the icon by priority: offline, syncing, error, nothing pending, else pending; stated by the lemmas below |
| StatusIndicator.StatusText | src/components/StatusIndicator.tsx:30-48 | the text by the same priority, with the count in decimal; stated by the lemmas below |
| StatusIndicator.StatusColor | src/components/StatusIndicator.tsx:50-55 | the background: red for offline or error first, then blue, green, yellow; stated by `RedExactly` |
| StatusIndicator.OfflineDominates | src/components/StatusIndicator.tsx:10-55 | offline: icon WifiOff, text "Offline • n pending", red background, whatever the other fields |
| StatusIndicator.SyncingBeatsError | src/components/StatusIndicator.tsx:15-37 | online and syncing: spinner and "Syncing...", even with an error or pending records |
| StatusIndicator.ErrorWhenIdle | src/components/StatusIndicator.tsx:19-41 | online, not syncing, error set: AlertCircle and "Sync error" |
| StatusIndicator.IdleText | src/components/StatusIndicator.tsx:43-47 | online, idle, no error: "All synced" iff nothing is pending, else "n pending sync" |
| StatusIndicator.RedExactly | src/components/StatusIndicator.tsx:50-55 | the background is red iff offline or an error is set |
| StatusIndicator.ColourAndTextDisagree | src/components/StatusIndicator.tsx:30-55 | a syncing status with an error shows "Syncing..." on a red background |
| StatusIndicator.CountTextsDetermineCount | src/components/StatusIndicator.tsx:30-48 | the two count texts determine the count they show |
| StatusIndicator.IconMatchesText | src/components/StatusIndicator.tsx:10-48 | each icon goes with exactly one text, so icon and text always take the same branch |
| Scenario.MissingIndexPersists | src/services/database.ts:18-35 | a version-1 store without the `synced` index opens unrepaired, its pending query fails, and a pass then changes nothing |
| Scenario.RefusedRecordStaysPending | src/services/sync.ts:75-77 | in a two-record pass where the remote refuses one record, the pass stops before the end and the refused record is still stored unchanged, in either snapshot order |

## Left out

- IndexedDB request errors other than a failed open and a missing `synced` index (a failing `put`, `get` or `getAll`) are not modelled. The database name, store name and key path are fixed and not modelled.
- IndexedDB transactions are not modelled. `markAsSynced` reads and writes in two transactions, which is atomic here because the model is sequential.
- The snapshot order is whatever `Collect` picks from the key set, so no order is assumed; IndexedDB's key order is not modelled.
- `Database.IndexedDbService.SaveRecord` does not require `synced == 0` of new records, because the store does not check it; the form sets it (`src/components/CollectionForm.tsx:76`).
- Concurrency is not modelled: an interval tick during an in-flight pass, the un-awaited `notifyListeners` calls, and ledger jobs running side by side. Each step is a method call, and `FireJob` may pick any queued job.
- Timers and events are explicit steps (`Init`, `OnIntervalTick`, `OnOnline`, `OnOffline`, `FireJob`). The 1000 ms and 30000 ms delays, the gas limit and event-listener registration are not modelled.
- There is one clock value (`now`) per call, so every mark of a pass and its `lastSyncAt` share one stamp.
- `localStorage` failures are not modelled, nor the ISO formatting and parsing of dates. Client timestamps stay opaque strings; server times are integer milliseconds from the `parseDate` input.
- The client's `remote` input is not tied to the server model; `scenario.dfy` links the two by hand. Request headers and JSON serialisation are left out.
- JavaScript numbers are reals: there is no NaN and no IEEE rounding of `quantity * 1000`. `Number.prototype.toString` is the `numberText` input. JSON values of the wrong type (a numeric `id`, say) are not modelled.
- Express/cors routing, `GET /api/collections`, the health route, console logging and the `data` field of the success reply are left out.
- Web3 details are not modelled except the `uint256` bound on quantity and time: the wallet and the gas value are left out, and every other rejection of the transaction is the `SendFailed` outcome.
- The Supabase update's result is never checked by the source; `updateOk` only says whether the write took.
- React rendering, icon class names and the "Last:" time line are left out. So are `CollectionForm.tsx`, `CollectionHistory.tsx`, `App.tsx`, `location.ts` and `deploy.js`, which are outside the sync engine.
- Sync.SyncService.OnIntervalTick: states only that offline ticks change nothing and online ticks run a pass; the pass's full effect is `SyncPendingRecords`'s contract.
- Sync.SyncService.OnOnline: states the interval reset and the snapshot; the pass's full effect is `SyncPendingRecords`'s contract.
