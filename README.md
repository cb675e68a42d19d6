# Covalent dispatcher core in Dafny

This project models the small, sequential decision and data-shaping routines
around task execution and file/asset handling in the Covalent workflow
orchestrator, and proves properties of them:

- **File locators** (`file_locator.dfy`). These model the `File` class of the
  file-transfer layer. They cover the constructor's argument check, the default
  `/tmp/{id}` path, and the mapping of URL schemes onto the closed scheme
  enumeration. They also cover the remote and directory flags and the derived
  file path with its trailing-slash rules.
- **Asset byte ranges** (`assets.py` → `assets.dfy`). This covers reading the
  Range header's start and end, and the check shared by the three download
  routes. It also covers the generator that streams a slice of an asset file
  in chunks. The file is modelled as a byte sequence and the generator as the
  sequence of chunks it yields.
- **The result service** (`data_manager.py` → `data_manager.dfy`):
  - the fixed-shape node-result record;
  - the registry of live dispatches, which keeps one status queue per dispatch.
    This is a class with two map fields, and a queue is the sequence of what
    was put on it;
  - node updates with their FAILED fallback;
  - the report a sub-workflow makes to its parent electron.
- **The runner** (`runner.py` → `runner.dfy`):
  - fetching a task's input values;
  - ordering its hooks;
  - the status decisions of running a task, from resolution through the
    RUNNING announcement to the final record;
  - the output filter of post-processing;
  - the outcome of post-processing a workflow.
- **Task input assembly** (`execution.py` → `execution.dfy`). The edges into a
  node become positional arguments, stably sorted by `arg_index`, and keyword
  arguments, where the last edge of a name wins. Each of them is then replaced
  by its parent's output.
- **The dispatcher caches** (`caches.py` → `caches.dfy`). This covers the key
  derivations and three caches that update a key-value store in place. A key
  derived from a dispatch and a node is shown to be unambiguous, even when the
  dispatch id contains the separator.

Two helper modules support these. `wrappers.dfy` defines Option, Result and
Outcome. `decimal.dfy` gives the decimal text of an integer and parses it
back.

External calls become inputs to the model:

- the data service's fetches (`Result<_, string>`, whose string is the
  exception's text);
- executor instantiation and execution;
- whether persisting an update raised;
- `resolve_electron_id`, the lookup of a parent electron's dispatch and node;
- the URL parser;
- clock readings and generated ids.

Python's exceptions become `Result`/`Outcome` values. A `KeyError` caught
inside `update_node_result` and one that propagates out of
`get_status_queue` are kept apart.

## Model

| member | source | states |
|---|---|---|
| FileLocator.SourcePath | covalent/_file_transfer/file.py:37-46 | A value that is neither a string nor None is rejected with AttributeError and its message, before anything else happens. None becomes `"/tmp/" + id`, and a string is kept as given. |
| FileLocator.TempFilepath | covalent/_file_transfer/file.py:62-63 | The temporary path is `/tmp/` followed by exactly the id. |
| FileLocator.NewFile | covalent/_file_transfer/file.py:30-59 | Construction fails with AttributeError exactly for a non-string. Otherwise it succeeds exactly when the parsed scheme resolves, and fails with ValueError when it does not. A built file carries the given id and override flags. Its scheme is the resolved one and its path is the normalised parsed path. |
| FileLocator.ConstructedFlags | covalent/_file_transfer/file.py:49-56 | A constructed file is remote iff the override was given or the parsed scheme is neither absent nor `file`. It is a directory iff the override was given or the parsed path is a directory. |
| FileLocator.IsRemote | covalent/_file_transfer/file.py:65-73 | Remote iff the override is set or the scheme is one of S3, Globus, HTTP, HTTPS, FTP. This is the same as "the scheme is not `file`", so a `file` path without the override is never remote. |
| FileLocator.Filepath | covalent/_file_transfer/file.py:79-88 | With `include_folder` the path never ends in '/'; for an already normalised path it is that path with its trailing '/' stripped. Without it, a directory's path always ends in '/'; for a normalised directory path it is the path itself if it ends in '/', else the path followed by '/'. Without it, a non-directory's normalised path is returned unchanged. The result never holds two consecutive separators. |
| FileLocator.CollapseAppendSlash | covalent/_file_transfer/file.py:82-84 | Appending '/' to a normalised path and normalising gives the path itself if it already ends in '/', else the path followed by one '/'. |
| FileLocator.IsDir | covalent/_file_transfer/file.py:90-92 | A directory iff the override is set or the path object is a directory path (empty or ending in '/'). |
| FileLocator.ResolveScheme | covalent/_file_transfer/file.py:105-120 | An absent scheme resolves to `file`. A scheme text is accepted iff it is one of the six supported names, and it resolves to the member with that name. Any other text fails with ValueError carrying the "Provided File scheme (...) is not supported." message. |
| FileLocator.ResolveSchemeName | covalent/_file_transfer/file.py:106-119 | Every scheme member's own name resolves back to that member. |
| FileLocator.GetFilepath | covalent/_file_transfer/file.py:97-103 | The stored path is normalised (no doubled separator), and it is a directory path iff the parsed path is one. |
| FileLocator.GetFilepathDropsScheme | covalent/_file_transfer/file.py:98-103 | In this model of the parser's result, whose path component excludes the scheme, the stored path depends only on that path component and never on the scheme. |
| Assets.ExtractByteRange | covalent_dispatcher/_service/assets.py:341-351 | The start is a natural number. The end is -1 exactly when the second group is empty, and is otherwise at least 0. |
| Assets.ExtractFormattedRange | covalent_dispatcher/_service/assets.py:341-351 | Round trip: the decimal digits of a start, and of an optional end, are read back as that start and that end, or as -1 when the end is absent. |
| Assets.RequestedRange | covalent_dispatcher/_service/assets.py:65-74 | Without a Range header the request is (0, -1). A range is refused with 400 "Invalid byte range" iff its end is non-negative and below its start. An accepted range reads to EOF or has start <= end. |
| Assets.IterateLines | covalent_dispatcher/_service/assets.py:330-333 | The chunks concatenate to the file from the start byte on. Each chunk is a line, and every chunk but the last ends with a newline. |
| Assets.ReadRange | covalent_dispatcher/_service/assets.py:334-338 | The read sizes add up to exactly `end - start`. All reads but the last ask for `chunk_size`, and the last asks for between 0 and `chunk_size`. The chunks concatenate to `file[start..min(end, len)]`. Within the file every chunk is as long as its read. A reversed range yields the rest of the file. |
| Assets.GenerateFileSlice | covalent_dispatcher/_service/assets.py:325-338 | A negative end streams the rest of the file line by line, with no sized reads. A non-negative end gives sized reads that total `end - start` and chunks that concatenate to the requested slice. The chunk-size bounds of ReadRange also hold. |
| Assets.ServeAssetSlice | covalent_dispatcher/_service/assets.py:58-97 | A route refuses the request with the 400 error iff the range check fails. Otherwise the streamed chunks concatenate to exactly the requested bytes: to EOF when the end is -1, else up to the (exclusive) end. |
| DataManager.GenerateNodeResult | covalent_dispatcher/_core/data_manager.py:55-83 | Each of the twelve fields of the record holds exactly the argument of the same name. |
| DataManager.GenerateNodeResultCovers | covalent_dispatcher/_core/data_manager.py:55-83 | Every node-result record is the one built from its own fields, so the record has no other content. |
| DataManager.GenerateNodeResultDefaults | covalent_dispatcher/_core/data_manager.py:55-83 | A node result built from the node id alone carries that id, and every other of its eleven fields is None. |
| DataManager.AfterUpdate | covalent_dispatcher/_core/data_manager.py:89-97 | If the update could not be applied, the status becomes FAILED and nothing else changes. Otherwise the record is unchanged. |
| DataManager.Enqueue | covalent_dispatcher/_core/data_manager.py:98-105 | A truthy status appends exactly one `(node_id, status)` entry to the end of that dispatch's queue. No status leaves it unchanged. Every other queue, and the set of queues, is unchanged. |
| DataManager.Registry.constructor | covalent_dispatcher/_core/data_manager.py:45-49 | Both maps start empty, which satisfies the registry invariant. |
| DataManager.Registry.GetResultObject | covalent_dispatcher/_core/data_manager.py:170-171 | Defined iff the dispatch is registered. It yields the stored object, whose id is the dispatch's. |
| DataManager.Registry.RegisterResultObject | covalent_dispatcher/_core/data_manager.py:174-177 | The loaded object is stored under its dispatch id, together with a fresh empty queue. The invariant (same keys in both maps) is kept. |
| DataManager.Registry.FinalizeDispatch | covalent_dispatcher/_core/data_manager.py:180-182 | Both maps lose exactly that id and no other entry changes. KeyError is raised iff the id was not registered, and then nothing changes. |
| DataManager.Registry.GetStatusQueue | covalent_dispatcher/_core/data_manager.py:185-186 | Defined iff the dispatch has a queue. Under the invariant, that is iff its result object is registered. |
| DataManager.Registry.UpdateNodeResult | covalent_dispatcher/_core/data_manager.py:87-105 | The final record is the input, with FAILED when the dispatch is unregistered or persisting failed. A truthy final status is put on the dispatch's queue. KeyError is raised iff such a status has no queue. The registry is unchanged. |
| DataManager.ParentStatus | covalent_dispatcher/_core/data_manager.py:199-201 | POSTPROCESSING_FAILED is reported as FAILED, and every other status passes through unchanged. |
| DataManager.ParentElectronUpdate | covalent_dispatcher/_core/data_manager.py:194-208 | There is an update iff `_electron_id` is truthy. It goes to the resolved dispatch and node. It carries the mapped status, end time, result and error, with no start time, stdout or stderr. |
| DataManager.Registry.UpdateParentElectron | covalent_dispatcher/_core/data_manager.py:194-211 | Without a parent electron nothing happens. Otherwise it succeeds iff the parent's dispatch is registered, and puts one entry on that queue. The entry holds the mapped status, or FAILED when persisting failed. |
| DataManager.Registry.PersistResult | covalent_dispatcher/_core/data_manager.py:189-211 | An unregistered dispatch raises KeyError and nothing changes. Without a parent electron nothing else happens. Otherwise it raises KeyError (naming the parent dispatch, queues unchanged) iff the resolved parent dispatch is unregistered. On success the parent's queue gains exactly one entry: the parent update carrying the mapped status, or FAILED when persisting failed. The registered dispatches never change. |
| Runner.TaskInputValues | covalent_dispatcher/_core/runner.py:51-63 | Succeeds iff every referenced node's fetch succeeds. The map's keys are exactly the positional and keyword node ids, each mapped to its fetched output. A failure carries the error of some failing fetch. |
| Runner.ResolveInputs | covalent_dispatcher/_core/runner.py:84-88 | Positions and keys are kept, and each entry is replaced by its node's value. |
| Runner.ResolveTask | covalent_dispatcher/_core/runner.py:78-92 | Resolution succeeds iff the callable, every input and the deps can all be fetched. The error reported is the callable's if its fetch failed; otherwise that of a failing input fetch if there is one; otherwise the deps fetch's. On success the invocation holds the fetched callable, the fetched inputs in place and the gathered hooks. |
| Runner.ResolvesUnique | covalent_dispatcher/_core/runner.py:78-92 | The fetched values determine the invocation: two resolutions of the same task are equal. |
| Runner.ErrorMessage | covalent_dispatcher/_core/runner.py:161-165 | The recorded error is the exception's traceback in debug mode, and its text otherwise. |
| Runner.RunTask | covalent_dispatcher/_core/runner.py:154-221 | COMPLETED iff the executor was built and returned without `exception_raised`, and FAILED otherwise. A failed instantiation gives exactly the FAILED record with its error, and the executor is not run. A raised exception records its text, or its traceback in debug mode. Every record ends at the given time. |
| Runner.ResolutionFailure | covalent_dispatcher/_core/runner.py:94-103 | The record for a task that could not be resolved: FAILED, started and ended at the given timestamp, with the given error and nothing else. |
| Runner.RunAbstractTask | covalent_dispatcher/_core/runner.py:67-123 | Unresolvable: exactly the resolution-failure record at the timestamp, whose error is the one resolution reports; the task is not run and no queue changes. Resolvable: it raises KeyError iff the dispatch is unregistered. Otherwise it announces RUNNING (FAILED if persisting failed) on the queue and returns the run of the resolved invocation. |
| Runner.RunAbstractTaskAndRecord | covalent_dispatcher/_core/runner.py:266-281 | Succeeds iff the dispatch is registered. An unresolvable task records exactly the FAILED resolution-failure record with the resolution error. A resolvable one records the run of its resolved invocation after the update fallback (FAILED iff the final update could not be applied). The queue gains the RUNNING announcement (for a resolvable task) followed by exactly one entry with the recorded status. |
| Runner.RecordedStatus | covalent_dispatcher/_core/runner.py:266-281 | The recorded status is COMPLETED iff the final update was applied, the executor was built, and it returned without `exception_raised`. |
| Runner.CallHooks | covalent_dispatcher/_core/runner.py:257-260 | One `DepsCall` hook per serialized entry, in order. |
| Runner.CallBeforeHooks | covalent_dispatcher/_core/runner.py:238-255 | The bash hook comes first if present, then the pip hook if present, then every `call_before` entry in order, and nothing else. |
| Runner.AppendCallHooks | covalent_dispatcher/_core/runner.py:252-255 | The loop appends exactly the call hooks of the entries, in order, after what was there. |
| Runner.GatherDeps | covalent_dispatcher/_core/runner.py:225-262 | The two hook lists are exactly the ordered before-hooks and the after-hooks. |
| Runner.GatherDepsCounts | tests/covalent_dispatcher_tests/_core/runner_db_integration_test.py:123-125 | With bash, pip, one before-entry and one after-entry, there are three before-hooks in that order and one after-hook. |
| Runner.KeptOutputs | covalent_dispatcher/_core/runner.py:315-319 | The filter keeps at most as many outputs as there are nodes. |
| Runner.KeptOutputsAppend | covalent_dispatcher/_core/runner.py:315-319 | The filter works item by item and keeps relative order: filtering a concatenation concatenates the filtered parts. |
| Runner.KeepsOutput | covalent_dispatcher/_core/runner.py:318 | A key is kept iff it does not start with the prefix separator, or it starts with the sublattice prefix. |
| Runner.KeepsElectron | covalent_dispatcher/_core/runner.py:318-319 | A node whose key is kept contributes exactly its output, in its place between the outputs kept before and after it. This includes sublattice nodes. |
| Runner.DropsNonElectron | covalent_dispatcher/_core/runner.py:318-319 | A node whose key starts with the prefix separator, but not with the sublattice prefix, contributes nothing. |
| Runner.KeptOutputsAllElectrons | covalent_dispatcher/_core/runner.py:318-319 | When no key is prefixed, every output is kept, in node order. |
| Runner.OrderedNodeOutputs | covalent_dispatcher/_core/runner.py:312-319 | The loop collects exactly the filtered outputs, in order. |
| Runner.OutcomeStatus | covalent_dispatcher/_core/runner.py:355-404 | The recorded dispatch status tells the outcomes apart: PENDING_POSTPROCESSING iff deferred to the client, POSTPROCESSING_FAILED iff post-processing failed, COMPLETED iff it succeeded. |
| Runner.PostprocessWorkflow | covalent_dispatcher/_core/runner.py:355-411 | The recorded status (`OutcomeStatus`) is PENDING_POSTPROCESSING for a `client` executor, and nothing is run. Otherwise it is COMPLETED with the run's output iff the run completed. If not, it is POSTPROCESSING_FAILED with "Post-processing failed: " followed by stderr and the error text, each missing part counting as empty. |
| Execution.IgnoredEdge | covalent_dispatcher/_core/execution.py:87-93 | A `wait_for` edge, or one whose type is neither `arg` nor `kwarg`, contributes neither a positional nor a keyword argument. |
| Execution.ArgEntriesAllArgs | covalent_dispatcher/_core/execution.py:89-90 | When every edge is a positional one, there is one entry per edge, in edge order: `(parent, arg_index)`. |
| Execution.KwargFoldKeys | covalent_dispatcher/_core/execution.py:91-93 | The keyword names are exactly the names of the keyword edges. |
| Execution.KwargLastWriter | covalent_dispatcher/_core/execution.py:91-93 | The last keyword edge of a name decides its parent, and earlier edges with that name are overwritten. |
| Execution.SortByIndex | covalent_dispatcher/_core/execution.py:95 | The sort keeps length and multiset: the same entries, rearranged. |
| Execution.SortByIndexSorted | covalent_dispatcher/_core/execution.py:95 | The sorted entries are non-decreasing in `arg_index`. |
| Execution.SortByIndexStable | covalent_dispatcher/_core/execution.py:95 | The sort is stable: for each index, the entries keep their relative order. It is a permutation, because the sort's own contract keeps the multiset. |
| Execution.ParentsPermutation | covalent_dispatcher/_core/execution.py:95-96 | Rearranging entries rearranges their parent ids the same way (same multiset). |
| Execution.AbstractInputsOf | covalent_dispatcher/_core/execution.py:80-96 | The positional arguments are one per positional edge, and as a multiset they are the parents of those edges. The keyword names are exactly the names of the keyword edges. |
| Execution.CollectAbstractInputs | covalent_dispatcher/_core/execution.py:80-93 | The nested loops build exactly the unsorted positional entries and the keyword map of the edges, in the order the graph reports them. |
| Execution.GetTaskInputs | covalent_dispatcher/_core/execution.py:63-106 | Succeeds iff every referenced output can be fetched. The positional arguments follow the sorted entries and the keyword arguments have the kwarg names, each replaced by its parent's fetched output. |
| Caches.PendingParentsKey | covalent_dispatcher/_core/dispatcher_modules/caches.py:28-29 | The key is the dispatch id, a colon, then the decimal node id, which contains no colon. |
| Caches.PendingParentsKeyInjective | covalent_dispatcher/_core/dispatcher_modules/caches.py:28-29 | Different (dispatch, node) pairs give different keys. |
| Caches.UnresolvedTasksKey | covalent_dispatcher/_core/dispatcher_modules/caches.py:32-33 | The key is the dispatch id itself. |
| Caches.TaskGroupsKey | covalent_dispatcher/_core/dispatcher_modules/caches.py:36-37 | The key is the pending-parents key of the same pair. |
| Caches.KeyValueStore.constructor | covalent_dispatcher/_core/dispatcher_modules/caches.py:41-42 | A store holds the given entries. |
| Caches.UnresolvedTasksCache.constructor | covalent_dispatcher/_core/dispatcher_modules/caches.py:41-42 | The cache uses the given store object, which other caches may share, and the given store increment. |
| Caches.UnresolvedTasksCache.GetUnresolved | covalent_dispatcher/_core/dispatcher_modules/caches.py:44-46 | The stored count under the dispatch's key, if any. |
| Caches.UnresolvedTasksCache.SetUnresolved | covalent_dispatcher/_core/dispatcher_modules/caches.py:48-50 | Inserts the value under the derived key, touches no other key, and reads back as that value. |
| Caches.UnresolvedTasksCache.Increment | covalent_dispatcher/_core/dispatcher_modules/caches.py:52-54 | The store's entries and the returned value are exactly what the store's increment gives on the derived key, by 1 unless another interval is given. |
| Caches.UnresolvedTasksCache.Decrement | covalent_dispatcher/_core/dispatcher_modules/caches.py:56-58 | The store's entries and the returned value are exactly what the store's increment gives by -1 on the same key. |
| Caches.UnresolvedTasksCache.Remove | covalent_dispatcher/_core/dispatcher_modules/caches.py:60-62 | Deletes exactly the derived key, after which nothing is read back. |
| Caches.PendingParentsCache.constructor | covalent_dispatcher/_core/dispatcher_modules/caches.py:66-67 | The cache uses the given store object, which other caches may share, and the given store increment. |
| Caches.PendingParentsCache.GetPending | covalent_dispatcher/_core/dispatcher_modules/caches.py:69-71 | The stored count under the group's key, if any. |
| Caches.PendingParentsCache.SetPending | covalent_dispatcher/_core/dispatcher_modules/caches.py:73-75 | Inserts under the derived key and reads back as that value. No other (dispatch, group) pair's count changes. |
| Caches.PendingParentsCache.Decrement | covalent_dispatcher/_core/dispatcher_modules/caches.py:77-79 | The store's entries and the returned value are exactly what the store's increment gives by -1 on the derived key. |
| Caches.PendingParentsCache.Remove | covalent_dispatcher/_core/dispatcher_modules/caches.py:81-83 | Deletes the derived key. No other pair's count changes. |
| Caches.SortedTaskGroups.constructor | covalent_dispatcher/_core/dispatcher_modules/caches.py:87-88 | The cache uses the given store object, which other caches may share. |
| Caches.SortedTaskGroups.GetTaskGroup | covalent_dispatcher/_core/dispatcher_modules/caches.py:90-92 | The stored node list under the group's key, if any. |
| Caches.SortedTaskGroups.SetTaskGroup | covalent_dispatcher/_core/dispatcher_modules/caches.py:94-96 | Inserts the sorted nodes under the derived key and reads them back. No other pair's list changes. |
| Caches.SortedTaskGroups.Remove | covalent_dispatcher/_core/dispatcher_modules/caches.py:98-100 | Deletes the derived key. No other pair's list changes. |

## Left out

- The ranges in this model follow the code, whose byte-range end is exclusive: a range yields `end - start` bytes. The "last-byte-pos" of a Range header is inclusive in section 2.1 of RFC 7233.
- Python's `f.read(n)` with a negative `n` reads to the end of the file. The model keeps this: when `0 <= end < start`, the generator yields the rest of the file. The routes' 400 check keeps such a range from reaching it.
- URL parsing (`furl`) is a function parameter. Its path normalisation is modelled only as collapsing runs of '/', and "." and ".." segments are not resolved. Its directory flag is modelled as "empty or ending in '/'".
- The scheme texts of the scheme enumeration are taken to be the lower-case scheme names. The enumeration's module is not part of this model. `mapped_strategy_type` and the transfer strategies are left out.
- `File.touch` is left out, because it is filesystem I/O.
- `File` is an immutable datatype, because its fields are assigned only by the constructor. Aliasing of `File` objects is therefore not modelled.
- The Range header's regular expression is left out, because it is not part of this model. A header is given as its two match groups: the start group is non-empty digit text, and the end group is digit text that may be empty.
- `_extract_checksum` is left out, because its pattern is not part of this model.
- `_copy_file_obj`, the upload routes, the database sessions and the asset-path lookups (with their 404 responses) are left out, because they are HTTP, database and file I/O.
- `covalent/_dispatcher_plugins/local.py` is not part of this model, because it is a network client.
- The executor's execution (`_execute`, `wrapper_fn`) is an input: whether it returned or raised, and what it returned.
- The `results_dir` fetch at the start of `_run_task` is taken not to raise.
- `resolve_electron_id` is a function parameter and is taken not to raise. Its database lookup, and a failure of that lookup, are not modelled.
- The concurrency machinery (`asyncio`, `dm_pool`, `run_in_executor`) is left out, and a status queue is the sequence of what was put on it. Persisting a node update is modelled only by whether it raised.
- `_post_process`'s deserialisation and invocation of the workflow function is left out, because it calls foreign objects. Its output filter is modelled.
- The prefix constants are taken to be `":"` and `":sublattice:"`. The defaults module is not part of this model.
- `_postprocess_workflow`'s POSTPROCESSING commit and its `update_dispatch_result` calls are left out, because they are persistence. `PostprocessWorkflow` returns the outcome those calls record.
- `postprocess_workflow`'s result-object lookup is left out.
- `initialize_result_object`, `get_unique_id` and `make_dispatch` are left out, because they are database deserialisation and uuid generation. `_register_result_object` receives the loaded object as an input.
- Keyword inputs are a map, so Python's dict iteration order over keyword arguments is not modelled. Fetching them in another order can change which failing fetch is reported first. `TaskInputValues` promises only that a failure carries the error of some failing fetch.
- The dispatcher caches' key-value store (`store.py`) is not part of this model. A store is an object holding a map. Its `insert` is modelled as a map update, its `get` as a lookup that yields nothing for a missing key, and its `remove` as deleting the key; whether `get` or `remove` of a missing key raises is not modelled. Its `increment` is a parameter of the caches, so the model promises nothing about what it does.
- The caches' constructors take the store as an argument. Python's default `_DictStore()` is evaluated once, so every cache of a class built without a store shares one store; the model expresses this by passing the same store object. A store shared between caches of different value types is not modelled, because a store here holds values of one type.
- Generated ids, timestamps and logging are inputs or are left out.
