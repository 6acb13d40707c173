# Sync Bus model

This project models the peer-to-peer data-sync "Sync Bus" of the chat application. The bus exists in two versions, modelled as two classes.

- **`CoreSync.SyncBus`** (`src/database/core/sync.ts`, the array-based version):
  - a single module-level transport provider that start and reconnect replace;
  - a status machine driven by the transport's `status` and `synced` notifications;
  - a bulk load that pushes each of the five synchronized tables into a replicated array in batches of 50;
  - per-table array observers that call one bulk put per remote addition, report `syncing`, wait for the puts, report `synced` and emit one table event. Every installation of the observers handles every remote batch;
  - the mapping of awareness states to presence records, in which the local client is `current`.
- **`LibSync.SyncBus`** (`src/libs/sync/index.ts`, the keyed-map version):
  - a bulk load that writes every row into a replicated map under its id, tagged with the `_internalUpdate` marker;
  - `creating`/`updating`/`deleting` table hooks that mirror local writes into the map;
  - a map observer that applies remote `update`s to the local table, skipping local batches, marked values and values equal to the stored row.

Both run over `LocalStore.LocalDB`, a stand-in for the local table store. Each table is a map from primary key to row. `toArray`, `bulkPut`, `get` and `update` are map operations on it.

The replicated structures are plain fields:
- a `seq` per table for the array;
- a `map` per table for the keyed map.

A change batch carries its `local` origin flag and the peer's data:
- an array batch carries the number of items added and the array's contents once the peer's transaction is applied;
- a map batch carries the action per changed key and each changed key's new value (a key without one was removed).

`CoreSync.SyncBus.DeliverArrayBatch` and `LibSync.SyncBus.DeliverMapBatch` first apply a remote batch to the replicated structure, then run the installed observers on it.

Everything the array bus does to its collaborators is appended, in order, to its `trace` of effects:
- provider creation, destruction and disconnection;
- pushes;
- bulk-put calls and, separately, their completions;
- status, table-event and awareness callbacks.

The keyed-map bus records what its start does in the same way.

Liveness of providers is a function of the trace (`CoreSync.Live`: created minus destroyed). `CoreSync.SyncBus.SingleProvider` says that the live providers are exactly the one in the slot.

Optional callbacks (`?.`) are flags in `CoreSync.Params`. A missing callback adds nothing to the trace.

Three behaviours of the code are easy to miss; the model follows them:
- `connect` installs the table observers on every `status: connected` notification with no guard, so they accumulate (`observers: seq<Params>`).
- The array bulk load runs on every `synced: true` notification, not once.
- A remote `delete` never removes a row in the keyed-map version.

## Model

| member | source | states |
|---|---|---|
| SyncTypes.SyncedTablesExactlyOnce | src/database/core/sync.ts:112-118 | the bulk-load list has five entries, names every table and names none twice |
| LocalStore.PutAllAt | src/database/core/sync.ts:144 | a bulk put is an upsert by id: an id is present afterwards iff it was stored or listed; a listed id holds the last listed row with that id; every other row is unchanged |
| LocalStore.PutAllIdempotent | src/database/core/sync.ts:140-145 | putting the same rows twice leaves the table as putting them once |
| LocalStore.PutAllKeyedById | src/database/core/sync.ts:144 | a bulk put keeps every row stored under its own id |
| LocalStore.Merge | src/libs/sync/index.ts:106 | an update keeps the row's id, takes every field the changes carry and keeps the row's other fields |
| LocalStore.LocalDB.constructor | src/database/core/sync.ts:132 | the store starts with the given tables, every row keyed by its id |
| LocalStore.LocalDB.ToArray | src/libs/sync/index.ts:60 | listing a table yields every stored row exactly once, as stored |
| LocalStore.LocalDB.BulkPut | src/database/core/sync.ts:144 | the table becomes the upsert of the rows, one after another; other tables are unchanged |
| LocalStore.LocalDB.Get | src/libs/sync/index.ts:101 | present iff the id is stored, and then the stored row, whose id is the key |
| LocalStore.LocalDB.Update | src/libs/sync/index.ts:106 | an existing row is merged with the changes and 1 is returned; a missing row leaves the store unchanged and 0 is returned |
| CoreSync.BatchesShape | src/database/core/sync.ts:161-177 | ceil(n/50) batches, each non-empty and at most 50 rows, whose concatenation in order is the row list |
| CoreSync.BatchAt | src/database/core/sync.ts:167-173 | batch i is exactly the slice from 50 i to min(50 i + 50, n) that the loop pushes |
| CoreSync.BatchStep | src/database/core/sync.ts:167-176 | pushing batch i after the first i batches yields the first min(50 (i+1), n) rows |
| CoreSync.BatchesCover | src/database/core/sync.ts:165-167 | the ceil(n/50) batches reach the end of the rows |
| CoreSync.EmptyTablePushesNothing | src/database/core/sync.ts:165-167 | a table pushes no batch iff it has no rows |
| CoreSync.BulkPushesStep | src/database/core/sync.ts:113-117 | loading table i appends its pushes after those of the tables before it in the load order |
| CoreSync.BulkLoadKeepsLive | src/database/core/sync.ts:112-118 | the bulk load creates and destroys no provider |
| CoreSync.LiveQuiet | src/database/core/sync.ts:10 | effects other than provider creation and destruction leave the set of live providers unchanged |
| CoreSync.UpsertedIdempotent | src/database/core/sync.ts:140-145 | handling a remote batch twice equals handling it once; rows whose id is not in the array are untouched; every array element's id is stored |
| CoreSync.ObserverKeepsLive | src/database/core/sync.ts:135-153 | handling a remote batch creates and destroys no provider |
| CoreSync.RemoteBatchEmitsOneEvent | src/database/core/sync.ts:147-152 | one observer installation yields one table event for its own table (when its event callback is given) and none for any other table, however many items the batch added |
| CoreSync.BatchEventsPerInstallation | src/database/core/sync.ts:47-53 | a remote batch on a table yields as many table events as there are observer installations with an event callback, and none for any other table |
| CoreSync.StatusBracketsWrites | src/database/core/sync.ts:140-151 | with a status callback, every bulk put is called before `syncing`, every put completes between `syncing` and `synced`, and `synced` follows the last completion |
| CoreSync.PresenceListAt | src/database/core/sync.ts:86-93 | one presence record per awareness state, with its user and clientID, `current` iff its clientID is the local one |
| CoreSync.CurrentCountsLocalStates | src/database/core/sync.ts:86-93 | the number of `current` records equals the number of states carrying the local clientID |
| CoreSync.ExactlyOneCurrent | src/database/core/sync.ts:86-93 | when clientIDs are distinct and the local client is among the states, exactly one record is `current` |
| CoreSync.SyncBus.constructor | src/database/core/sync.ts:10-19 | a fresh bus has an empty provider slot, no observers, empty arrays and a trace in which no provider is live |
| CoreSync.SyncBus.Connect | src/database/core/sync.ts:29-97 | builds a provider from the channel, password and signaling (default server when none), publishes the local state, reports the local client alone as `current`, and destroys nothing |
| CoreSync.SyncBus.StartDataSync | src/database/core/sync.ts:21-27 | destroys the provider in the slot, if any, before connecting; the live set loses the old provider and gains the new one, so at most one provider stays live |
| CoreSync.SyncBus.Reconnect | src/database/core/sync.ts:99-106 | destroys the provider in the slot, if any, then connects with the same parameters; at most one provider stays live |
| CoreSync.SyncBus.Replace | src/database/core/sync.ts:21-27 | destroys the provider in the slot, if any, then builds a new one from the parameters, whose serial is not live yet; the live set loses exactly the old provider and gains exactly the new one |
| CoreSync.SyncBus.OnStatus | src/database/core/sync.ts:47-54 | on connect, installs one more observer set and reports `ready`; otherwise does nothing |
| CoreSync.SyncBus.InitObserve | src/database/core/sync.ts:120-125 | adds one observer per table, capturing the given callbacks |
| CoreSync.SyncBus.OnSynced | src/database/core/sync.ts:57-70 | when synced: `syncing`, the bulk load of all five tables, `synced`, with the provider unchanged; otherwise no status, disconnect, destroy and reconnect with the same parameters; at most one provider stays live |
| CoreSync.SyncBus.LoadSynced | src/database/core/sync.ts:61-65 | `syncing`, then the bulk load of every table with each array grown by exactly its table's rows, then `synced`; no provider is created or destroyed |
| CoreSync.SyncBus.InitSync | src/database/core/sync.ts:112-118 | loads every table in the listed order; each array grows by exactly the rows of its table |
| CoreSync.SyncBus.LoadDataFromDBtoYjs | src/database/core/sync.ts:156-185 | the table's array becomes old contents followed by every row of the table, pushed as the 50-row batches in order; no other array changes |
| CoreSync.SyncBus.PushBatches | src/database/core/sync.ts:162-176 | the table's array grows by exactly the given rows, and the trace gains one push per 50-row batch, in order |
| CoreSync.SyncBus.DeliverArrayBatch | src/database/core/sync.ts:135-153 | a local batch changes nothing; a remote one sets the table's array to the peer's contents, upserts them into the table once when any observer is installed, appends the effects of every installation in order, and keeps the live providers |
| CoreSync.SyncBus.DeliverToAll | src/database/core/sync.ts:135-153 | every observer installation handles a remote batch in installation order; the table is upserted from the array once if any installation exists, and the trace gains every installation's effects |
| CoreSync.SyncBus.DeliverTo | src/database/core/sync.ts:135-153 | one installation handles a remote batch: the table becomes the upsert of the array whether or not an earlier installation already upserted it, and no provider is created or destroyed |
| CoreSync.SyncBus.ObserveArrayChange | src/database/core/sync.ts:135-153 | a local batch writes nothing and reports nothing; a remote one upserts the array into the table (when something was added) and appends one bulk-put call per added item, `syncing`, the put completions, `synced` and the table event |
| CoreSync.SyncBus.IssuePuts | src/database/core/sync.ts:140-145 | appends one bulk-put call of the array's contents per added item, and nothing else |
| CoreSync.SyncBus.CompletePuts | src/database/core/sync.ts:144-149 | the awaited puts complete one after another; the table becomes the upsert of the array when there is at least one, other tables are unchanged, and one completion per put is recorded |
| CoreSync.SyncBus.OnAwarenessChange | src/database/core/sync.ts:86-94 | reports the presence list of all states and keeps the live providers |
| LibSync.Mark | src/libs/sync/index.ts:54-56 | the written value keeps the row's id and every other field, and carries the marker set to true |
| LibSync.PreloadedRows | src/libs/sync/index.ts:58-64 | after the bulk load, each row is stored under its own id, marked, with its other fields unchanged; keys the table lacks keep their value |
| LibSync.PreloadedMarked | src/libs/sync/index.ts:62-64 | every value the bulk load wrote passes the observer's marker test |
| LibSync.MarkedPutIsPreloaded | src/libs/sync/index.ts:60-64 | writing the marked rows of a listing one after another gives the same map whatever order the listing has |
| LibSync.ReconciledChangesOnlyWritten | src/libs/sync/index.ts:84-113 | the written keys are stored rows the batch reported; each takes the merge of its map value, every other row is unchanged, and no written key is one whose map value is missing |
| LibSync.RemoteUpdateReachesRow | src/libs/sync/index.ts:97-107 | a key the peer updated to an unmarked value that differs from the stored row gets that value merged into its row; unreported keys keep their map value |
| LibSync.RemovedKeysFail | src/libs/sync/index.ts:84-87 | the keys whose marker read fails are exactly the reported keys the peer removed from the map |
| LibSync.MarkedRemoteValuesIgnored | src/libs/sync/index.ts:87-89 | a batch whose values all carry the marker, as a peer's bulk load writes them, leaves the local table unchanged |
| LibSync.ReconciledStep | src/libs/sync/index.ts:84-113 | handling one more key changes at most that key's row |
| LibSync.MarkedNeverWritten | src/libs/sync/index.ts:87-89 | a key whose map value carries the marker never changes its row |
| LibSync.PreloadSuppressesEcho | src/libs/sync/index.ts:62-64 | right after the bulk load, no batch writes any row of the table back into it |
| LibSync.AddAndDeleteLeaveRow | src/libs/sync/index.ts:91-111 | keys reported as added or deleted leave their row unchanged |
| LibSync.EqualValueNotWritten | src/libs/sync/index.ts:101-104 | a map value equal to the stored row causes no write |
| LibSync.UpdateTakesMapValue | src/libs/sync/index.ts:97-107 | a written row keeps its id, takes every field of the map value and keeps the fields the value lacks; a value with the row's id and all its fields replaces it outright |
| LibSync.MergeIdempotent | src/libs/sync/index.ts:106 | applying the same changes to a row twice gives the row of applying them once |
| LibSync.ReconcileIdempotent | src/libs/sync/index.ts:97-107 | handling the same batch twice leaves the table as handling it once |
| LibSync.ChannelName | src/libs/sync/index.ts:39 | the room is the given name, or `abc` when the name is missing or empty |
| LibSync.StartLoadsFirst | src/libs/sync/index.ts:28-43 | start loads every table exactly once, all loads precede the init callback and the provider, the init callback appears iff given, and the provider joins the chosen room |
| LibSync.SyncBus.constructor | src/libs/sync/index.ts:15-20 | a fresh bus has an empty map per table, no hooks, no observers and an empty trace |
| LibSync.SyncBus.StartDataSync | src/libs/sync/index.ts:22-52 | every table's map becomes its preloaded form, every table is hooked and observed, and the trace gains the loads, the optional init call, the provider and the persistence in that order |
| LibSync.SyncBus.LoadAll | src/libs/sync/index.ts:28-34 | every table's map becomes its preloaded form, every table is hooked and observed, and the trace records one load per table in the listed order |
| LibSync.SyncBus.LoadStep | src/libs/sync/index.ts:29-33 | loading table i of the load order turns the first i preloaded maps into the first i + 1, hooks and observes that table, and records its load |
| LibSync.SyncBus.SetAllMarked | src/libs/sync/index.ts:62-64 | the table's map becomes the old map with each listed row written, marked, under its id, one after another; no other map changes |
| LibSync.SyncBus.InternalUpdateYMap | src/libs/sync/index.ts:54-56 | sets exactly one key of one map, to the marked value |
| LibSync.SyncBus.LoadDataFromDBtoYjs | src/libs/sync/index.ts:58-117 | the table's map becomes its preloaded form, other maps are unchanged, and the table's hooks and observer are installed |
| LibSync.SyncBus.Creating | src/libs/sync/index.ts:66-69 | once hooked, sets the map entry of the new row's key to the row; no other key changes |
| LibSync.SyncBus.Updating | src/libs/sync/index.ts:70-73 | once hooked, sets the map entry of the key to the value the hook receives; no other key changes |
| LibSync.SyncBus.Deleting | src/libs/sync/index.ts:74-77 | once hooked, removes the key's map entry; no other key changes |
| LibSync.SyncBus.DeliverMapBatch | src/libs/sync/index.ts:79-116 | a local batch changes nothing; a remote one applies the peer's values to the table's map and, when the observer is installed, reconciles the table against that map and returns the written and failed keys |
| LibSync.SyncBus.ReconcileKey | src/libs/sync/index.ts:84-107 | handling one key extends the reconciled table by that key; it reports a write iff the key qualifies and a failure iff its map value is missing |
| LibSync.SyncBus.ObserveMapChange | src/libs/sync/index.ts:79-116 | a local batch writes nothing; a remote one reconciles every reported key against the map and returns exactly the written keys and the keys whose value was missing |

## Left out

- Replicated-document internals: CRDT merging, propagation to peers and the assignment of transaction origins are library behaviour. A batch's `local` flag and the contents a peer's transaction leaves are inputs to the delivery methods.
- The transport and the persistence: WebRTC, the signaling server, peers and the IndexedDB persistence are I/O. Only the `status`, `synced` and awareness `change` notifications remain, as method calls. The provider and persistence constructions remain as trace entries, and the keyed-map version's `synced` log handlers are dropped.
- Local store internals: transactions and hook registration order are not modelled. Store operations are map updates.
- Asynchrony: `Promise.all` over tables and over keys runs one after another in the model. Tables are distinct and keys in a batch are distinct, so the final state is the same.
- Interleaving at awaits: each handler runs to completion in the model, but the source awaits inside them (src/database/core/sync.ts:62 and 149; src/libs/sync/index.ts:101, 106 and 115). Other notifications can run at those points, for example a remote batch's `syncing`/`synced` arriving during a bulk load's `syncing`. The observer installations of one batch also resume in whatever order their puts complete, while the model runs them one after another. The model does not capture these interleavings.
- Listing order: the store lists a table's rows in primary-key order. `LocalStore.LocalDB.ToArray` leaves the order free, and no property depends on it.
- Logging: `console.log` calls are dropped.
- `getYMap` (src/database/core/sync.ts:108-110) is a field lookup `arrays[t]`.
- Hook re-entry: the table writes made by the keyed-map observer would fire the table's own `updating` hook. The model does not chain that call.
- Array deletions and updates in a remote batch: the array observer reacts only to added items, so a batch is its origin flag, its added-item count and the array contents it leaves.
- Duplicate hook and observer installation in the keyed-map version: hooked and observed tables are sets. Loading a table twice in the source installs its hooks and observer twice. A local update then sets the map entry twice, sending two updates to peers, but the final map and table are the same as with one installation.
- LibSync.SyncBus.ObserveMapChange: a key whose map value is missing makes the marker read throw in the source (src/libs/sync/index.ts:85-87). The model reports that key as failed and writes nothing for it, rather than modelling the rejected promise.
- CoreSync.SyncBus.LoadDataFromDBtoYjs: returns the rows it read so that the callers' contracts can name them. The source returns nothing.
- CoreSync.SyncBus.InitSync: returns the rows read per table, for the same reason.
- CoreSync.SyncBus.OnSynced: returns those rows as well (empty when not synced).
