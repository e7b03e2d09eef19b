# Configuration hot-reload core, modelled in Dafny

This project models the core of a configuration hot-reload prototype for a
multi-camera monitoring service. Operators push a new root configuration
(MQTT broker settings plus a map of camera configurations). The
`ConfigManager` diffs it against the running configuration and sorts the
differences into a **hot** list (zones, detection or retention changed:
swapped into the running worker) and a **warm** list (cameras added,
removed, or with a changed capture source or enabled flag: workers are
created, stopped or restarted). It then walks both lists against the map of
camera workers and makes the new configuration the running one. Around that
sit the configuration schema with its range constraints and defaults, the
backup store that keeps the newest five timestamp-named snapshots, the
per-camera worker state machine, and the camera-map edits behind the
clone/delete/reorder/set routes.

Modules, one per source file or concern:

- `Schema` (`schema.dfy`): the records of `config_schema.py`, the range predicate `ValidRoot`, the list of violations `Errors`, and the defaults.
- `Worker` (`worker.dfy`): `CameraWorker` as a record of held configuration, running flag and thread-handle presence.
- `ConfigManager` (`config_manager.dfy`): change entries, `Diff`, `Apply` and their properties.
- `Storage` (`storage.dfy`): the canonical configuration and the backup directory as an abstract map from file name to document.
- `CameraEdits` (`camera_edits.dfy`): the camera-map logic of the camera routes in `main.py`, over an insertion-ordered dict.
- `Wrappers`, `Seqs`, `Lex`: Option/Result, sequence facts, and Python's code-point ordering of strings with a sort.

Behaviour of the code worth knowing, stated as the model has it:

- The two per-camera checks at `config_manager.py:38-41` are independent `if`s, so one camera can get both a warm and a hot entry (`ConfigManager.BothTiersForOneCamera`).
- A worker is created and started for every added camera, enabled or not (`ConfigManager.AddedWorkerRuns`). Disabling a camera counts as a source change, so its worker is gracefully restarted and ends up running (`ConfigManager.DisabledCameraKeepsRunning`).
- `ConfigManager` has no rollback, reset-to-disk or validate → backup → apply → persist orchestration. `main.py` only probes for such methods, so none is modelled.
- The reorder route reports the key list it built before deduplication, so a key requested twice is reported twice, though the new dict holds it once (`CameraEdits.ReportedOrderMayRepeat`).

The diff iterates Python sets of camera keys, whose order is unspecified.
`Diff` therefore picks keys in an arbitrary order. Its contract, and
everything derived from it, speaks of membership and counts, never of list
order.

## Model

| member | source | states |
|---|---|---|
| Schema.ErrorsEmptyIffValid | backend/app/config_schema.py:6-44 | The violation list is empty exactly when the port is in 1..65535, both thresholds are in [0, 1], mode is "motion" or "all", both day counts are positive and both capture times are in 0..15, for the broker and for every camera |
| Schema.CameraErrorsEmpty | backend/app/config_schema.py:16-40 | A camera reports no violation exactly when its detection and retention satisfy their range constraints |
| Schema.Validate | backend/app/config_schema.py:6-25 | The verdict is Accepted iff the configuration is valid; a rejection lists every violated field and never an empty list |
| Schema.DefaultRootIsValid | backend/app/config_schema.py:6-44 | The default root configuration has broker host "mqtt", port 1883, prefix "frigate" and no cameras, and it is valid |
| Schema.DefaultCameraIsValid | backend/app/config_schema.py:16-40 | A camera built from only a name and a capture source is enabled, has no zones, and its default detection and retention satisfy the range checks |
| Worker.NewWorker | backend/app/workers/camera_worker.py:7-10 | A new worker holds the given configuration, is not running and has no thread handle |
| Worker.Start | backend/app/workers/camera_worker.py:16-21 | After start the worker runs with its configuration unchanged; starting a running worker changes nothing; from a consistent state it also holds a thread handle |
| Worker.Stop | backend/app/workers/camera_worker.py:23-27 | After stop the worker is not running and holds no thread handle, whatever its prior state; its configuration is unchanged |
| Worker.ApplyUpdate | backend/app/workers/camera_worker.py:29-32 | Zones, detection and retention come from the new configuration; name, enabled flag, capture source and run state are untouched |
| Worker.GracefulRestart | backend/app/workers/camera_worker.py:34-37 | Afterwards the worker holds exactly the new configuration, runs, and holds a thread handle, whatever its prior state |
| Worker.TransitionsKeepConsistent | backend/app/workers/camera_worker.py:7-37 | Every transition keeps "running" and "thread handle present" in step |
| Worker.StartIdempotent | backend/app/workers/camera_worker.py:16-21 | Starting twice equals starting once |
| Worker.StopIdempotent | backend/app/workers/camera_worker.py:23-27 | Stopping twice is safe and equals stopping once |
| Worker.ApplyUpdateIdempotent | backend/app/workers/camera_worker.py:29-32 | Applying the same update twice equals applying it once |
| Worker.GracefulRestartForgetsPrior | backend/app/workers/camera_worker.py:34-37 | The restarted worker depends on the new configuration only: it equals a fresh worker started on it |
| ConfigManager.NewManager | backend/app/config_manager.py:7-12 | The running configuration is the initial one when given, else the default configuration |
| ConfigManager.ValidateConfig | backend/app/config_manager.py:14-19 | Validation accepts exactly the configurations satisfying the schema's range predicate |
| ConfigManager.CameraKeyOfComponent | backend/app/config_manager.py:48-49 | Splitting "camera:" + key at its first colon gives the key back, even when the key contains colons |
| ConfigManager.HotMembership | backend/app/config_manager.py:21-43 | The hot set holds the broker entry iff the broker settings differ, and a camera's data entry iff the camera is on both sides and its zones, detection or retention differ |
| ConfigManager.WarmMembership | backend/app/config_manager.py:30-39 | The warm set holds "remove" iff the key is only in the old map, "add" iff only in the new one, and the source entry iff the key is on both sides and enabled or the capture source differ |
| ConfigManager.HotEntryShape | backend/app/config_manager.py:24-41 | Every hot entry is the broker entry or the data entry of a camera on both sides |
| ConfigManager.WarmEntryShape | backend/app/config_manager.py:30-39 | Every warm entry names a camera and is its removal, its addition or its source change, under the matching condition |
| ConfigManager.CollectEach | backend/app/config_manager.py:30-33 | Walking a key set in any order lists one entry per key, without repeats |
| ConfigManager.ClassifyShared | backend/app/config_manager.py:35-41 | For keys on both sides, the source entries and the data entries are listed once each, decided independently |
| ConfigManager.Diff | backend/app/config_manager.py:21-43 | Both lists are free of repeats and hold exactly the hot and the warm entries between running and new configuration |
| ConfigManager.DiffCounts | backend/app/config_manager.py:21-43 | Counted in the lists: one broker entry iff the broker differs, one removal per key only in the old map, one addition per key only in the new one, one source entry and independently one data entry per shared key whose fields differ; otherwise none |
| ConfigManager.ClassificationUnique | backend/app/config_manager.py:21-43 | Any two diffs of the same pair hold the same entries, differing at most in order |
| ConfigManager.NoChangesAgainstSelf | backend/app/config_manager.py:21-43 | A configuration has no hot and no warm change against itself |
| ConfigManager.DiffSelfEmpty | backend/app/config_manager.py:21-43 | Diffing a configuration against itself yields empty hot and warm lists |
| ConfigManager.BothTiersForOneCamera | backend/app/config_manager.py:38-41 | A camera whose source and zones both changed gets a warm and a hot entry |
| ConfigManager.ApplyHot | backend/app/config_manager.py:48-51 | The hot pass updates in place exactly the present workers of cameras with a data change, and leaves every other key as it was |
| ConfigManager.ApplyWarm | backend/app/config_manager.py:53-66 | The warm pass stops and pops removed workers, inserts and starts a new worker per addition, restarts present workers of source changes, and touches nothing else |
| ConfigManager.Apply | backend/app/config_manager.py:45-69 | The running configuration becomes the new one; the returned changes are the diff against the old running configuration; each key's worker is as the per-key outcome says; removed workers are retired stopped; worker keys that matched the old camera keys match the new ones; re-applying the running configuration changes no worker and returns empty lists |
| ConfigManager.OutcomeKeys | backend/app/config_manager.py:53-63 | If the worker keys were the old camera keys, exactly the new camera keys have a worker afterwards |
| ConfigManager.OutcomeUnchangedConfig | backend/app/config_manager.py:45-69 | Applying the running configuration again leaves every worker as it was |
| ConfigManager.OutcomeUntouched | backend/app/config_manager.py:48-66 | A worker whose key no change entry names is left exactly as it was |
| ConfigManager.OutcomeOnlyPresent | backend/app/config_manager.py:48-66 | For a camera on both sides, hot updates and restarts never create a worker: one exists afterwards iff one existed before |
| ConfigManager.AddedWorkerRuns | backend/app/config_manager.py:59-63 | An added camera gets a running worker with a thread handle, holding its configuration, even when disabled |
| ConfigManager.DisabledCameraKeepsRunning | backend/app/config_manager.py:38-66 | Disabling a camera that has a worker yields a source change, after which the worker runs with the disabled configuration |
| Storage.LoadConfig | backend/app/storage.py:15-21 | Loading yields None exactly when no configuration is stored, and otherwise the stored configuration |
| Storage.SaveConfig | backend/app/storage.py:23-26 | Saving replaces the stored configuration, so loading returns it, and leaves the backups untouched |
| Storage.ListBackups | backend/app/storage.py:37-42 | The listing is empty when the backup directory does not exist, else it holds each "*.json" name once in ascending order, newest last |
| Storage.LoadBackup | backend/app/storage.py:44-51 | Loading yields a document exactly when the directory exists and holds the name, and that document is the one stored under the name; otherwise None |
| Storage.PruneBackups | backend/app/storage.py:53-60 | Only backup files are deleted; at most max_keep remain and none are deleted when there were no more; every deleted name sorts before every kept backup; kept files keep their content |
| Storage.CreateBackup | backend/app/storage.py:28-35 | The name is the timestamp plus ".json"; at most 5 backups remain, min(5, old count with the new name) of them; a repeated timestamp overwrites and does not grow the count; only backups are deleted, and every deleted one sorts before every kept one, so the newest are kept; if the name sorts last, loading it yields the saved document; the stored configuration is untouched |
| Storage.NewestSurvives | backend/app/storage.py:53-60 | A prune that keeps any backup keeps the newest one |
| Lex.SortNames | backend/app/storage.py:40-41 | Sorting returns the given names once each in strictly ascending code-point order |
| Lex.SortedUnique | backend/app/storage.py:40-41 | Two ascending listings of the same names are identical, so the listing is determined by the directory alone |
| CameraEdits.EnsureCameras | backend/app/main.py:252-254 | The document gets an empty cameras object when it has none and is otherwise unchanged |
| CameraEdits.Clone | backend/app/main.py:343-355 | Fails with not-found iff the source key is missing and with conflict iff the target exists without overwrite; on success the broker settings are kept |
| CameraEdits.CloneSpec | backend/app/main.py:351-355 | On success the target holds a copy of the source, named after the target when the source name is empty; other cameras are unchanged; a new target key goes last |
| CameraEdits.Delete | backend/app/main.py:369-375 | Fails with not-found iff the key (or the whole cameras object) is missing |
| CameraEdits.DeleteSpec | backend/app/main.py:371-375 | On success exactly the key is removed, the other cameras keep their values and their order |
| CameraEdits.Reorder | backend/app/main.py:389-400 | Fails with bad-request iff there are no cameras |
| CameraEdits.ReorderSpec | backend/app/main.py:394-400 | On success the same key-to-camera entries remain; the order is the existing requested keys at their first occurrence, then the unrequested keys in their original order; unknown keys are dropped |
| CameraEdits.AppendMissingIsFilter | backend/app/main.py:395-397 | Appending the missing keys of the camera dict adds exactly the not-yet-listed keys in dict order |
| CameraEdits.FromKeysSpec | backend/app/main.py:400 | A dict built from a key list holds each listed key once, at its first occurrence, with its camera |
| CameraEdits.ReportedOrderMayRepeat | backend/app/main.py:394-404 | A key requested twice is reported twice while the rebuilt dict holds it once |
| CameraEdits.SetCamera | backend/app/main.py:426-427 | Setting keeps the broker settings, creates the cameras object if absent, and keeps the dict well formed |
| CameraEdits.SetSpec | backend/app/main.py:426-427 | The key holds the new value; every other camera is unchanged; a new key goes last, an existing one keeps its place |
| CameraEdits.ReorderChangesNothing | backend/app/config_manager.py:21-43 | Relates the reorder edit (main.py:394-400) to the classifier of `ConfigManager.diff`: the reordered document is the same typed configuration, so that classifier finds no hot and no warm change. The route's own dry-run diff (main.py:403) is the before/after fallback and does not call this classifier |
| CameraEdits.DeleteIsOneRemoval | backend/app/config_manager.py:21-43 | Relates the delete edit (main.py:374-375) to the classifier of `ConfigManager.diff`: it finds exactly one warm removal of that key and no hot change. The route's own dry-run diff (main.py:378) is the before/after fallback and does not call this classifier |
| CameraEdits.CloneToFreshKeyIsOneAddition | backend/app/config_manager.py:21-43 | Relates a clone onto a fresh key (main.py:351-355) to the classifier of `ConfigManager.diff`: it finds exactly one warm addition of that key and no hot change. The route's own dry-run diff (main.py:358) is the before/after fallback and does not call this classifier |

## Left out

- HTTP routing, status-code plumbing, static mounting and the `apply`/dry-run flags of the camera routes: transport. The routes' errors appear as `EditError` values with their status codes.
- The adapters of `main.py:80-131`: `main.py:51` builds the `ConfigManager` modelled here, which has no `get_running_config`, `apply_config` or `diff_configs`. So the routes read the configuration through probing fallbacks, apply it through an adapter around `ConfigManager.apply`, and get their dry-run diff from a fallback returning `{"before": a, "after": b}`. Those fallbacks are not modelled. The camera edits are modelled on the document alone, and the lemmas linking them to `Diff` state what `ConfigManager`'s classifier would report; the routes do not call it.
- `main.py:51` passes the data directory as `ConfigManager`'s initial configuration, so the running configuration starts out as a path value and not a configuration. `NewManager` takes an optional typed configuration and does not model this.
- The WebSocket bus and its events: asynchronous I/O to clients.
- Rollback and reset-to-disk: the source's `ConfigManager` defines neither, and `main.py` only tests for them.
- Schema.Validate: covers the range constraints only. Structural checks, type coercion and the error JSON of the schema library are not modelled; a violation is reported as the path of the offending field.
- Floating point: thresholds are `real`, so NaN and rounding are not modelled. Only range checks and equality use them.
- File I/O and JSON encoding: the store is an abstract map. A stored file that fails to parse (where `load_config` and `load_backup` return None) is not modelled.
- Backup names are plain map keys: a name with path separators, a non-file directory entry, and Windows' case-insensitive path ordering are not modelled. Names are ordered by code point, as on POSIX.
- Storage.PruneBackups: a failed `unlink` is swallowed (`storage.py:57-60`), so more than `max_keep` backups can remain. The model has every deletion succeed, and the "at most `max_keep`" / "at most 5" clauses of `PruneBackups` and `CreateBackup` rest on that.
- `_ts` and `datetime.now()`: the timestamp is a parameter of `CreateBackup`.
- Storage.CreateBackup: its "at most 5 backups remain" clause assumes, as for `PruneBackups`, that every deletion succeeds.
- Storage.PruneBackups: `max_keep` is a natural number; a negative value, which would make the source index past the listing, is excluded. The only caller passes 5.
- Threads, `time.sleep` and the 2-second `join` timeout: the thread is reduced to "handle present". A join that times out leaves the thread alive, but its handle is dropped all the same.
- Aliasing between the running configuration and a worker's held configuration (updates in place): configurations are immutable values here.
- CameraEdits.Clone: a camera always has a `name` string, so "missing or falsy name" is modelled as the empty name.
- CameraEdits.SetCamera: the value is a typed camera record, so the route's "value must be an object" rejection cannot arise.
- CameraEdits.Reorder: requires a well-formed cameras dict (each key listed once, the listed keys are the entries), which every Python dict is.
