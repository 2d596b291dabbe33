# File-system watcher: batch classification and disposal

This project models the `FileSystemWatcher` of coc.nvim (`src/model/fileSystemWatcher.ts`).
The watcher subscribes to Watchman with a glob pattern. For every change batch Watchman
delivers, it turns the batch's records into typed events on four emitters: create, change,
delete and rename. Each of the first three can be suppressed by an ignore flag.

- `classifier.dfy`, module `Classifier`: the meaning of one batch, as functions.
  - `FilesOnly` keeps the records whose Watchman type is `"f"`.
  - `FileEvent` and `FileEvents` give what the per-file loop fires.
  - `RenameEvent` gives the rename inferred from a two-record batch.
  - `BatchEvents` gives all of it, in firing order.
  - The lemmas tie this to a separate reference classification (`Classification`,
    `CountRecordsOfKind`): a missing file is a deletion, an empty existing file a creation,
    any other existing file a change. They also state the rename rule, the order of the events
    and the irrelevance of non-file records.
- `watcher.dfy`, module `FileSystemWatcher`: class `Watcher` with the source's fields.
  - `watchmanClient` and `subscription` are optional.
  - The ignore flags are public and mutable.
  - `listening` holds the copy of the flags that `listen` takes.
  - `fired` logs every emitter `fire`, in order.
  - `sent` logs every call made on the Watchman client.
  - `OnChange` is the subscribe callback. It is a `for` loop over the filtered records,
    whose body is `FireFileEvent`, followed by `InferRename`. Its postcondition equates the appended events with
    `BatchEvents`.
  - `Dispose` sends an unsubscribe request only under the source's guard.

Three facts about the source that the model keeps:
- `dispose` is not idempotent. It never clears `subscription`, so every call asks the client
  to unsubscribe again (`DisposeScenarios`).
- The guard of `dispose` at line 75 needs the client as well as a subscription name, and it
  tests the name for JavaScript truthiness, so an empty name sends nothing (`CanUnsubscribe`).
  Since a subscription only ever exists alongside a client, the guard comes down to holding a
  non-empty subscription name.
- The ignore flags are public fields that callers may reassign. `listen` copies them once, at
  lines 42-45, so a change made after that copy has no effect on classification
  (`FlagsCopiedAtListen`). The client promise resolves at most once, so the copy is taken at
  most once.

## Model

| member | source | states |
|---|---|---|
| `Classifier.FilesOnly` | src/model/fileSystemWatcher.ts:48 | the filtered list is no longer than the batch, and every record in it is a plain file |
| `Classifier.FilesOnlyMembers` | src/model/fileSystemWatcher.ts:48 | a record survives the filter if and only if it is in the batch and its type is `"f"` |
| `Classifier.FilesOnlyAppend` | src/model/fileSystemWatcher.ts:48 | filtering works record by record: filtering a concatenation concatenates the filtered parts, so the order is kept |
| `Classifier.FilesOnlyCount` | src/model/fileSystemWatcher.ts:48 | filtering does not change how many records classify as each kind |
| `Classifier.Classification` | src/model/fileSystemWatcher.ts:51-58 | a record on its own classifies as a deletion, a creation or a change, never as a rename |
| `Classifier.CountRecordsOfKind` | src/model/fileSystemWatcher.ts:48-58 | the number of file records of a kind is bounded by the batch size, and no record counts as a rename |
| `Classifier.FileEvent` | src/model/fileSystemWatcher.ts:50-59 | one record fires at most one event, and no event exactly when its kind's ignore flag is set; that event is of the record's kind (Deleted for a missing file, Created for an empty one, Changed otherwise), is for the record's own uri, and is never a rename |
| `Classifier.FileEvents` | src/model/fileSystemWatcher.ts:49-60 | the loop fires at most one event per filtered record and never a Renamed |
| `Classifier.FileEventsAppend` | src/model/fileSystemWatcher.ts:49-60 | the loop's events for a concatenation are the events of the first part followed by those of the second |
| `Classifier.FileEventsStep` | src/model/fileSystemWatcher.ts:49-60 | one more iteration appends exactly the events of the next record |
| `Classifier.FileEventsSplit` | src/model/fileSystemWatcher.ts:49-60 | the loop's events are those of the records before any record, then that record's own, then those of the records after it |
| `Classifier.FileEventsCount` | src/model/fileSystemWatcher.ts:49-60 | for each kind, the loop fires one event per record of that kind, or none if the kind is suppressed |
| `Classifier.RenameEvent` | src/model/fileSystemWatcher.ts:61-70 | a Renamed is inferred if and only if there are exactly two records, the first missing, the second present, with equal sizes; it goes from the first record's uri to the second's, and no flag enters |
| `Classifier.BatchEvents` | src/model/fileSystemWatcher.ts:47-70 | a batch fires at most one event more than it has file records, and at most one Renamed |
| `Classifier.BatchKindCount` | src/model/fileSystemWatcher.ts:47-70 | over the raw batch, each kind's event count is the number of file records of that kind (zero when its flag is set); exactly one Renamed fires when the filtered records form the rename window, none otherwise |
| `Classifier.RecordEvents` | src/model/fileSystemWatcher.ts:49-70 | the i-th file record fires its own event after the events of the records before it and before those of the records after it, and any rename follows all of them |
| `Classifier.RenameInference` | src/model/fileSystemWatcher.ts:61-70 | a batch contains a Renamed if and only if its file records form the rename window, under any flags; no event before the last is a Renamed, and when the window matches the last event is the Renamed from the first file record's uri to the second's |
| `Classifier.NonFileRecordIgnored` | src/model/fileSystemWatcher.ts:48-70 | inserting a non-file record anywhere in a batch changes none of its events; in particular it does not take a place in the two-record rename window |
| `Classifier.NoFileNoEvent` | src/model/fileSystemWatcher.ts:48-70 | a batch holding only directories and other non-file records fires nothing |
| `Classifier.SingleRecordScenarios` | src/model/fileSystemWatcher.ts:49-60 | a lone missing file fires one Deleted, a lone empty file fires one Created, and a suppressed creation fires nothing |
| `Classifier.RenameScenarios` | src/model/fileSystemWatcher.ts:49-70 | a missing file and a 100-byte file fire Deleted, Changed and Renamed; with sizes 100 and 150 they fire no Renamed |
| `Classifier.DirectoryInRenameScenario` | src/model/fileSystemWatcher.ts:48-70 | a directory between the two halves of a rename does not stop the rename, and with every flag set only the Renamed fires |
| `FileSystemWatcher.Watcher.constructor` | src/model/fileSystemWatcher.ts:22-29 | a new watcher keeps its pattern and flags, holds no client, no subscription and no flag copy, and has fired and sent nothing |
| `FileSystemWatcher.Watcher.OnClientResolved` | src/model/fileSystemWatcher.ts:30-34 | called while no client is held: an absent client changes nothing; a present client is stored, the current flags are copied and a subscribe request for the glob pattern is sent |
| `FileSystemWatcher.Watcher.Listen` | src/model/fileSystemWatcher.ts:41-46 | run once, with the client just stored and before any flags were copied, listening copies the three flags as they are at that moment and asks the client to subscribe to the glob pattern, leaving the watcher's invariant established |
| `FileSystemWatcher.Watcher.OnSubscribed` | src/model/fileSystemWatcher.ts:46 | once listening has started and before any subscription is held, the returned subscription name is stored, keeping the invariant that a subscription exists only with a client |
| `FileSystemWatcher.Watcher.OnChange` | src/model/fileSystemWatcher.ts:46-71 | the callback appends exactly `BatchEvents` of the batch under the copied flags, whatever the flag fields hold now; nothing else changes |
| `FileSystemWatcher.Watcher.FireFileEvent` | src/model/fileSystemWatcher.ts:50-59 | one iteration of the loop appends exactly `FileEvent` of its record under the copied flags |
| `FileSystemWatcher.Watcher.InferRename` | src/model/fileSystemWatcher.ts:61-70 | after the loop, the rename step appends exactly `RenameEvent` of the filtered records |
| `FileSystemWatcher.Watcher.Dispose` | src/model/fileSystemWatcher.ts:74-80 | one Unsubscribe request is sent if and only if a client is held and a non-empty subscription name is held, which under the watcher's invariant is the same as holding a non-empty subscription name; no other state changes |
| `FileSystemWatcher.FlagsCopiedAtListen` | src/model/fileSystemWatcher.ts:42-45 | setting the create flag after listening has started does not stop a Created for an empty file |
| `FileSystemWatcher.DisposeScenarios` | src/model/fileSystemWatcher.ts:74-80 | disposing a watcher without a client sends nothing; disposing before the subscribe returns sends no unsubscribe; disposing twice sends two unsubscribe requests |

## Left out

- The promise chain is not modelled: `clientPromise.then`, the `.catch`, and the awaited `client.subscribe`. Each step that the chain runs later is a method called when that step happens (`OnClientResolved`, `OnSubscribed`). A missing or failing promise means `OnClientResolved` is never called, and the watcher stays inert.
- The Watchman client is not part of this model. Its subscribe and unsubscribe transport, and the failure of either, are outside it. The model records the requests the watcher sends (`sent`) and takes the subscription name as a parameter.
- The `Emitter`/`Event` machinery of vscode-languageserver-protocol is left out: listener lists and fan-out. The four emitters share one log, tagged by event kind. The log keeps the relative order in which the four emitters fire.
- `path.join` and `Uri.file` normalisation is not modelled. A uri is the pair (root, name) it was built from, and no property relies on two pairs giving different uris.
- Logging is left out.
- The callback requires the flag copy (`FileSystemWatcher.Watcher.OnChange`), because Watchman can only call the callback after `listen` has begun. `OnChange` may still run after `Dispose`, and it fires as usual. The source's `dispose` only sends the unsubscribe request; it does not stop deliveries already under way.
- Record sizes are unbounded integers. A JavaScript number that is not an integer is not modelled.
