# Map server database coordinator

A Dafny model of the database side of the MMO map server
(`MapNetworkManager_DatabaseFunction.cs`): the routines that load storages,
parties and guilds into the server's caches, save characters and buildings, run
the periodic batch saves, and send a building's create or delete request when the
building appears or disappears.

The server keeps one pending set per kind of request (`loadingStorageIds`,
`loadingPartyIds`, `loadingGuildIds`, `savingCharacters`, `savingBuildings`).
A routine whose key is already pending does nothing, so at most one request per
key is ever in flight. UniTask resumes continuations on one thread, so the code
between two `await`s runs without interruption. Each routine is therefore
modelled as a **begin** step (guard, add the key, send the request) and a
**complete** step (store the response, remove the key). Each step is a pure
function on an immutable `State`. The state holds the pending sets, the caches
(`allStorageItems`, `parties`, `guilds`) and the live dictionaries
(`playerCharacters`, `buildingEntities`). It also holds an append-only log of
every request sent and every hand-off to the engine's own building create or
destroy, so the order of the two is visible.

Files, one module each:

- `option.dfy` (`Optional`): null as `None`.
- `domain.dfy` (`Domain`): ids, opaque payloads, live entities and their snapshots (`CloneTo`), de-duplication keys, requests, log events, per-key request counting.
- `coordinator.dfy` (`Coordinator`): the `State`, the frame predicate `Unchanged`, `Pending`, and `Dispatched` (requests sent for a key between two states).
- `loads.dfy` (`Loads`): `LoadStorageRoutine`, `LoadPartyRoutine`, `LoadGuildRoutine`.
- `saves.dfy` (`Saves`): `SaveCharacterRoutine`, `SaveBuildingRoutine`.
- `livesets.dfy` (`LiveSets`): enumerating a live dictionary once, skipping nulls.
- `batch.dfy` (`Batch`): `SaveCharactersRoutine`, `SaveBuildingsRoutine` and the drain of their saves.
- `lifecycle.dfy` (`Lifecycle`): the `CreateBuildingEntity` and `DestroyBuildingEntity` overrides.
- `traces.dfy` (`Traces`): arbitrary interleavings of all steps and the de-duplication theorem over them.

Two behaviours of the code are worth stating outright:

- **Failure does not release the key.** The routines have no `try`/`finally`. When the awaited call throws, the `Remove` (lines 24, 38, 52, 66, 101) never runs, and the key stays pending for the life of the process. The model's `RemoteFailure` step therefore changes nothing. `Traces.FailedLoadLocksKeyOut` proves, for a party load, that every later attempt for that key is dropped.
- **Storage loads have no validity guard.** Only party and guild ids are checked for positivity (lines 30, 44). Storage ids are not (line 14): a storage id is accepted whatever it holds.

## Model

| member | source | states |
|---|---|---|
| Loads.LoadStorageBegin | Scripts/MMOGame/Networking/Map/MapNetworkManager_DatabaseFunction.cs:12-21 | a storage id already loading leaves the whole state unchanged and sends nothing; any other id, with no positivity check, is added to the loading set, one read for it is sent, and nothing else changes |
| Loads.LoadStorageComplete | Scripts/MMOGame/Networking/Map/MapNetworkManager_DatabaseFunction.cs:23-24 | the response replaces whatever the cache held for the id, every other cache entry is kept, the id leaves the loading set, nothing is sent |
| Loads.StorageLoadedTwiceReadsOnce | Scripts/MMOGame/Networking/Map/MapNetworkManager_DatabaseFunction.cs:14-24 | two loads of one storage started back to back send exactly one read; after its response both see the response in the cache, the id is free again, and the other parts of the state are untouched |
| Loads.LoadPartyBegin | Scripts/MMOGame/Networking/Map/MapNetworkManager_DatabaseFunction.cs:28-36 | a party id that is not positive, or is already loading, is a no-op that sends nothing; a fresh positive id is added, one read is sent for it, nothing else changes |
| Loads.LoadPartyComplete | Scripts/MMOGame/Networking/Map/MapNetworkManager_DatabaseFunction.cs:37-38 | the party record replaces the cached one wholesale, other entries are kept, the id is released |
| Loads.PartyLoadRound | Scripts/MMOGame/Networking/Map/MapNetworkManager_DatabaseFunction.cs:30-38 | a fresh positive party id goes idle, pending, idle: one read is sent, its response is cached, and the loading set ends as it began |
| Loads.LoadGuildBegin | Scripts/MMOGame/Networking/Map/MapNetworkManager_DatabaseFunction.cs:42-50 | a guild id that is not positive, or is already loading, is a no-op that sends nothing; a fresh positive id is added, one read is sent for it, nothing else changes |
| Loads.LoadGuildComplete | Scripts/MMOGame/Networking/Map/MapNetworkManager_DatabaseFunction.cs:51-52 | the guild record replaces the cached one wholesale, other entries are kept, the id is released |
| Loads.GuildLoadRound | Scripts/MMOGame/Networking/Map/MapNetworkManager_DatabaseFunction.cs:44-52 | a fresh positive guild id goes idle, pending, idle with exactly one read and the response cached |
| Saves.SaveCharacterBegin | Scripts/MMOGame/Networking/Map/MapNetworkManager_DatabaseFunction.cs:56-65 | a null snapshot, or one whose id is already being saved, is a no-op; otherwise the id is added and exactly one update carrying that snapshot is sent, nothing else changes |
| Saves.SaveCharacterComplete | Scripts/MMOGame/Networking/Map/MapNetworkManager_DatabaseFunction.cs:66 | the acknowledged id leaves the saving set; nothing else changes and nothing is sent |
| Saves.CharacterSaveAcceptedAgainAfterCompletion | Scripts/MMOGame/Networking/Map/MapNetworkManager_DatabaseFunction.cs:58-66 | a second save of an id in flight is dropped outright; after the first completes the same id is accepted and a second update with the newer snapshot is sent |
| Saves.SaveBuildingBegin | Scripts/MMOGame/Networking/Map/MapNetworkManager_DatabaseFunction.cs:90-100 | a building id already being saved is a no-op; otherwise the id is added and one update with the scene name and snapshot is sent, nothing else changes |
| Saves.SaveBuildingComplete | Scripts/MMOGame/Networking/Map/MapNetworkManager_DatabaseFunction.cs:101 | the acknowledged building id leaves the saving set; nothing else changes |
| Saves.BuildingSaveAcceptedAgainAfterCompletion | Scripts/MMOGame/Networking/Map/MapNetworkManager_DatabaseFunction.cs:92-101 | a second save of a building in flight is dropped; after the first completes the id is accepted again |
| Batch.SubmitCharacters | Scripts/MMOGame/Networking/Map/MapNetworkManager_DatabaseFunction.cs:76-83 | walking the live characters, the reported count is the number of non-null entries; the saving set grows by exactly their ids; only the saving set and the log change |
| Batch.SubmitCharactersDispatch | Scripts/MMOGame/Networking/Map/MapNetworkManager_DatabaseFunction.cs:78-83 | the walk sends exactly one update per character id not already being saved and none for any other key; a duplicate id within one walk is sent once; every update it appends carries the `CloneTo` snapshot of a non-null character the walk visited |
| Batch.SubmitCharactersSnapshots | Scripts/MMOGame/Networking/Map/MapNetworkManager_DatabaseFunction.cs:80-81 | every request the walk appends is an update carrying the `CloneTo` snapshot of a non-null character it visited |
| Batch.SubmitCharactersSendsOnePerNewId | Scripts/MMOGame/Networking/Map/MapNetworkManager_DatabaseFunction.cs:78-83 | the walk appends exactly as many requests as there are distinct non-null ids in it that were not already being saved |
| Batch.SaveCharactersRoutine | Scripts/MMOGame/Networking/Map/MapNetworkManager_DatabaseFunction.cs:72-83 | the batch is skipped, changing nothing, exactly when some character save is pending; otherwise the saving set becomes the ids of the live non-null characters and the count equals the number of non-null entries, at most the dictionary's size |
| Batch.SaveCharactersDispatch | Scripts/MMOGame/Networking/Map/MapNetworkManager_DatabaseFunction.cs:74-83 | a batch that passes the gate is submitted and sends one update per distinct live character id and nothing for any other key; each update carries the snapshot of a live non-null character of the dictionary |
| Batch.SaveCharactersSendsAtMostCount | Scripts/MMOGame/Networking/Map/MapNetworkManager_DatabaseFunction.cs:74-84 | a batch that passes the gate sends exactly as many requests as there are distinct live character ids, no more than the count it reports |
| Batch.CharacterBatchStarts | Scripts/MMOGame/Networking/Map/MapNetworkManager_DatabaseFunction.cs:74-83 | a batch over a dictionary holding a live character leaves the dictionary as it was and marks exactly the live ids, at least one, as saving |
| Batch.CompleteCharacterSaves | Scripts/MMOGame/Networking/Map/MapNetworkManager_DatabaseFunction.cs:62-66 | acknowledging a sequence of character saves, in any order, removes exactly their ids from the saving set and changes nothing else |
| Batch.CharacterBatchGate | Scripts/MMOGame/Networking/Map/MapNetworkManager_DatabaseFunction.cs:74-84 | while a batch's saves are still draining, a second batch is a no-op; once all of them are acknowledged, the next batch runs |
| Batch.SubmitBuildings | Scripts/MMOGame/Networking/Map/MapNetworkManager_DatabaseFunction.cs:111-118 | walking the live buildings, the count is the number of non-null entries and the saving set grows by exactly their ids |
| Batch.SubmitBuildingsDispatch | Scripts/MMOGame/Networking/Map/MapNetworkManager_DatabaseFunction.cs:113-118 | the walk sends exactly one update per building id not already being saved and none for any other key; every update it appends carries the scene name and the `CloneTo` snapshot of a non-null building the walk visited |
| Batch.SubmitBuildingsSnapshots | Scripts/MMOGame/Networking/Map/MapNetworkManager_DatabaseFunction.cs:115-116 | every request the walk appends is an update for the current scene carrying the `CloneTo` snapshot of a non-null building it visited |
| Batch.SubmitBuildingsSendsOnePerNewId | Scripts/MMOGame/Networking/Map/MapNetworkManager_DatabaseFunction.cs:113-118 | the walk appends exactly as many requests as there are distinct non-null building ids in it that were not already being saved |
| Batch.SaveBuildingsRoutine | Scripts/MMOGame/Networking/Map/MapNetworkManager_DatabaseFunction.cs:107-118 | the batch is skipped exactly when some building save is pending; otherwise the saving set becomes the live non-null building ids and the count equals the number of non-null entries |
| Batch.SaveBuildingsDispatch | Scripts/MMOGame/Networking/Map/MapNetworkManager_DatabaseFunction.cs:109-118 | a batch that passes the gate is submitted and sends one update per distinct live building id and nothing for any other key; each update carries the scene name and the snapshot of a live non-null building of the dictionary |
| Batch.SaveBuildingsSendsAtMostCount | Scripts/MMOGame/Networking/Map/MapNetworkManager_DatabaseFunction.cs:109-119 | a batch that passes the gate sends exactly as many requests as there are distinct live building ids, no more than the count it reports |
| Batch.BuildingBatchStarts | Scripts/MMOGame/Networking/Map/MapNetworkManager_DatabaseFunction.cs:109-118 | a batch over a dictionary holding a live building leaves the dictionary as it was and marks exactly the live ids, at least one, as saving |
| Batch.CompleteBuildingSaves | Scripts/MMOGame/Networking/Map/MapNetworkManager_DatabaseFunction.cs:96-101 | acknowledging a sequence of building saves removes exactly their ids from the saving set |
| Batch.BuildingBatchGate | Scripts/MMOGame/Networking/Map/MapNetworkManager_DatabaseFunction.cs:109-119 | a second building batch while the first drains is a no-op; after all its saves are acknowledged the gate opens again |
| Lifecycle.BaseCreateBuildingEntity | Scripts/MMOGame/Networking/Map/MapNetworkManager_DatabaseFunction.cs:135 | the engine's create registers a building whose snapshot is the given save data under that data's id, replacing any earlier entry |
| Lifecycle.BaseDestroyBuildingEntity | Scripts/MMOGame/Networking/Map/MapNetworkManager_DatabaseFunction.cs:140 | the engine's destroy removes the id from the live building map and keeps every other entry |
| Lifecycle.CreateBuildingEntity | Scripts/MMOGame/Networking/Map/MapNetworkManager_DatabaseFunction.cs:125-136 | a building created in play sends its create request before the engine registers it; a restored one sends nothing; pending saves are neither consulted nor changed, and entries stay keyed by their own ids |
| Lifecycle.DestroyBuildingEntity | Scripts/MMOGame/Networking/Map/MapNetworkManager_DatabaseFunction.cs:138-146 | the building leaves the live map first and exactly one delete request for its id follows; nothing else changes |
| Lifecycle.GoneBuildingNotInBatch | Scripts/MMOGame/Networking/Map/MapNetworkManager_DatabaseFunction.cs:107-118 | with every live building keyed by its own id, a building batch over a map that no longer holds an id sends no update for that id |
| Lifecycle.DestroyedBuildingNotInLaterBatch | Scripts/MMOGame/Networking/Map/MapNetworkManager_DatabaseFunction.cs:138-146 | the building batch that runs right after a destroy sends no update for the destroyed id |
| Traces.Apply | Scripts/MMOGame/Networking/Map/MapNetworkManager_DatabaseFunction.cs:12-146 | every step of every routine only appends to the log, never rewrites what was sent |
| Traces.StepGuardsKey | Scripts/MMOGame/Networking/Map/MapNetworkManager_DatabaseFunction.cs:14-16 | no single step sends more than one request for a key, none sends one while the key is pending, and only the key's own completion removes it |
| Traces.AtMostOneRequestPerKey | Scripts/MMOGame/Networking/Map/MapNetworkManager_DatabaseFunction.cs:12-105 | over any interleaving of steps without the key's completion, at most one request for the key is sent, none if it was already pending, and the key stays pending from then on |
| Traces.FailedLoadLocksKeyOut | Scripts/MMOGame/Networking/Map/MapNetworkManager_DatabaseFunction.cs:30-38 | a run that starts a fresh party load, has its read throw, and then takes any steps that do not complete that load sends exactly one read for the id, and the id is still loading at the end |
| Traces.StepKeepsBuildingGone | Scripts/MMOGame/Networking/Map/MapNetworkManager_DatabaseFunction.cs:125-146 | only the two building hooks change the live building map, so no step other than a create of the same id brings a removed id back or breaks the keying |
| Traces.RunKeepsBuildingGone | Scripts/MMOGame/Networking/Map/MapNetworkManager_DatabaseFunction.cs:125-146 | over any run without a create of the id, a removed building id stays out of the live map and every entry stays keyed by its own id |
| Traces.DestroyedBuildingNotInAnyLaterBatch | Scripts/MMOGame/Networking/Map/MapNetworkManager_DatabaseFunction.cs:107-146 | after a destroy, a building batch started at any later point sends no update for the destroyed id, whatever ran in between, unless the id was created again |

## Left out

- The database client: the `DbServiceClient.*Async` calls, their request and response types, and `ToByteString` / `FromByteString` / `MakeListFromRepeatedByteString`. These are calls into code outside this model. Requests are logged as values, and a complete step receives the already decoded response.
- Scheduling: `UniTask.WhenAll` and fire-and-forget timing. A batch is its begin step plus the separate completions of the saves it started (`CompleteCharacterSaves`, `CompleteBuildingSaves`). The join has no effect on the state apart from logging.
- Logging (`LogInfo`, `Logging.Log`): it has no effect on the state.
- Dictionary enumeration order: it is unspecified. A batch step takes the order as a parameter, which must list every key of the live dictionary exactly once.
- The engine's `base.CreateBuildingEntity` / `base.DestroyBuildingEntity` beyond adding or removing the live entry. This includes instantiation failure and network destroy.
- `Assets.onlineScene.SceneName`: it is a constant `mapName` field.
- `CloneTo` deep copy: it becomes a value snapshot. Because the model's values are immutable, later changes to the live entity cannot reach a snapshot already sent.
- `SaveBuildingRoutine` with a null argument would throw a null reference exception. This is not modelled. Its only caller in this file (line 116) passes a fresh `CloneTo` result. `MapNetworkManager` is a partial class (line 10), and its other files are not part of this model, so callers there are not covered.
- The `userId` argument of `SaveCharacterRoutine` is kept, but the routine never reads it.
- `(EStorageType)` cast: the storage type stays an integer.
- Integer widths: party and guild ids are C# `int`. The model uses unbounded integers because the code does no arithmetic on them, and the only check is the comparison with zero.
- Timeouts, cancellation and retries: the code has none.
