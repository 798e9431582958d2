# KoolKode BPMN process engine: the persistence core, in Dafny

This project models the part of the KoolKode BPMN engine that keeps live
process executions and the relational store in step. It covers four PHP
classes:

- **`ProcessEngine`** holds a PDO connection, a tracked set of executions
  (`$this->executions`, UUID to `ExecutionInfo`) and the execution depth.
  - `performExecution` opens a transaction on the outermost call and runs a
    sync pass over the tracked set. It then runs the callback, runs a second
    sync pass, and commits, or rolls back on an exception. The opener empties
    the tracked set in its `finally` block.
  - `syncExecution` classifies an execution against its clean snapshot as
    NEW, MODIFIED, REMOVED or UNCHANGED. It then inserts, updates or deletes
    the execution's row and recurses into the children.
  - `findExecution` answers from the tracked set. Otherwise it loads every row
    of the execution's process, builds one `VirtualExecution` per row, links
    parents and registers each object with its own serialisation as its clean
    snapshot.
  - `registerExecution`, `serializeExecution`, `syncExecutionState`,
    `setDelegateTaskFactory` and `createDelegateTask` are covered as well.
- **`BinaryData`** wraps a string and a compression level. `encode`
  compresses. `decode` dispatches on a leading `1` (raw) or `2` (hexadecimal)
  marker and uncompresses.
- **`CreateMessageSubscriptionCommand`** inserts one event-subscription row
  for an execution and its process instance.
- **`CreateUserTaskCommand`** inserts one user-task row at the execution's
  current node, reads the task back and notifies a `UserTaskCreatedEvent`.

## Modules

| file | module | what it holds |
|---|---|---|
| `wrappers.dfy` | `Wrappers` | `Option` for PHP's NULL, and `Result` |
| `store.dfy` | `Store` | the tables as maps, the connection with its transaction and the log of statements sent, each SQL statement the core issues |
| `ordered_maps.dfy` | `OrderedMaps` | a PHP string-keyed array: insertion order, assignment, `unset` |
| `executions.dfy` | `Executions` | live `VirtualExecution` objects as an arena of handles with parent and child links, acyclicity by a rank witness, `getRootExecution`, `serializeExecution` |
| `synchronization.dfy` | `Synchronization` | `syncExecution`, the child loop and the sync pass, as functions |
| `sync_properties.dfy` | `SyncProperties` | what a synchronisation writes, in which order, and that it is a no-op on settled executions |
| `unit_of_work.dfy` | `UnitOfWork` | `performExecution` as a function, and its transaction properties |
| `reconstruction.dfy` | `Reconstruction` | the fetch loop and the parent loop of `findExecution`, and the shape of the tree they build |
| `finding.dfy` | `Finding` | `findExecution` as a function, and what it promises |
| `engine.dfy` | `Engine` | the `ProcessEngine` class and the loops of its methods as imperative code, each proved equal to the functions above |
| `binary_data.dfy` | `Binary` | `BinaryData`, with `hex2bin` modelled in full |
| `commands.dfy` | `Commands` | the two command classes, and each command run through `performExecution` |

### How the model is shaped

- Live execution objects are a map from handle to execution. The UUID is a
  field, so two objects can carry the same id, as two PHP objects can.
- The `ExecutionInfo` objects visited by `foreach` over a copy of
  `$this->executions` are shared with the live array. The model carries the
  infos unset during a pass as `retired`, so the pass still visits them.
- PHP's `catch (\Exception)` does not catch an `\Error`. A `Throwable`
  therefore records which of the two it is, and only an exception triggers
  the rollback.
- The callback of `performExecution` is a function from the engine state it
  is handed to the state it leaves and a value or a throwable. It may write
  any table, find or register executions, or call `performExecution` again
  (`UnitOfWork.Nested`). The two commands are such callbacks.
- The engine methods of class `Engine.ProcessEngine` update its fields in
  place. Each ensures clause ties the new fields to the specification
  function. The properties are proved about those functions.

## Model

| member | source | states |
|---|---|---|
| Store.BeginTransaction | src/Engine/ProcessEngine.php:119-128 | BEGIN opens a transaction whose savepoint is the current tables and logs `Begin` |
| Store.CommitTransaction | src/Engine/ProcessEngine.php:144-148 | COMMIT keeps the tables, closes the transaction and logs `Commit` |
| Store.RollbackTransaction | src/Engine/ProcessEngine.php:152-158 | ROLLBACK puts back the tables of the savepoint, closes the transaction and logs `Rollback` |
| Store.RollbackRestores | src/Engine/ProcessEngine.php:152-158 | whatever statements follow BEGIN in the same transaction, ROLLBACK restores every table to what it was before BEGIN, closes the transaction and leaves BEGIN in the log where it was sent |
| Store.InsertExecutionRow | src/Engine/ProcessEngine.php:362-368 | the INSERT raises an exception exactly when the id is already stored, and then leaves the tables as they were; otherwise it adds exactly that row |
| Store.UpdateExecutionRow | src/Engine/ProcessEngine.php:331-352 | the UPDATE sets every column but `definition_id` on the row with that id; every other row and table is unchanged; a missing id matches nothing |
| Store.DeleteExecutionRow | src/Engine/ProcessEngine.php:313-318 | the DELETE removes the row with that id and keeps every other row as it was |
| Store.InsertSubscriptionRow | src/Runtime/Command/CreateMessageSubscriptionCommand.php:33-45 | the INSERT raises a duplicate-key exception exactly when the key is taken, and then changes no table; otherwise it adds exactly that row |
| Store.InsertTaskRow | src/Task/Command/CreateUserTaskCommand.php:43-55 | the INSERT raises a duplicate-key exception exactly when the key is taken, and then changes no table; otherwise it adds exactly that row |
| OrderedMaps.Get | src/Engine/ProcessEngine.php:175 | `isset($this->executions[$ref])` is false exactly when no entry has the key; otherwise the value is that entry's |
| OrderedMaps.Put | src/Engine/ProcessEngine.php:256 | after `$m[$k] = $v` the key maps to `$v` and every other key to its old value |
| OrderedMaps.PutKeys | src/Engine/ProcessEngine.php:256 | assigning to a tracked id keeps its place in iteration order; a new id goes last |
| OrderedMaps.PutDistinct | src/Engine/ProcessEngine.php:256 | assignment never makes a key occur twice |
| OrderedMaps.Remove | src/Engine/ProcessEngine.php:320 | after `unset` the key is absent, every other key keeps its value, and the other entries keep their order |
| Executions.Root | src/Engine/ProcessEngine.php:276 | `getRootExecution()` ends at an execution without a parent, and a parentless execution is its own root |
| Executions.Serialize | src/Engine/ProcessEngine.php:266-285 | the row carries the execution's id and definition id; `pid`, `node` and `transition` are NULL exactly when the execution has none; `process_id` is the root's id |
| Executions.ChildRowPointsToParent | src/Engine/ProcessEngine.php:268-276 | a child's row names its parent's id as `pid` and lies in the same process as the parent's row |
| Executions.RootRowIsItsProcess | src/Engine/ProcessEngine.php:268-276 | a root execution's row has no `pid` and is its own process |
| Synchronization.Refresh | src/Engine/ProcessEngine.php:354 | `$info->update($data)` makes the written row the clean snapshot of that same info object, whether live or already unset |
| Synchronization.Unset | src/Engine/ProcessEngine.php:320 | the id is no longer tracked and the connection is untouched |
| Synchronization.SyncExecution | src/Engine/ProcessEngine.php:297-380 | a synchronisation stays in the same transaction, only appends execution-table writes, leaves the other tables alone and keeps every info reachable |
| Synchronization.SyncChildren | src/Engine/ProcessEngine.php:373-379 | the child loop does the same |
| Synchronization.SyncEach | src/Engine/ProcessEngine.php:130-133 | the loop over a copy of the tracked set does the same |
| Synchronization.SyncAll | src/Engine/ProcessEngine.php:139-142 | a whole sync pass does the same |
| SyncProperties.SyncConfined | src/Engine/ProcessEngine.php:297-380 | a synchronisation writes only rows of the execution and its descendants, and changes only their tracked infos |
| SyncProperties.RemovedConfined | src/Engine/ProcessEngine.php:302-323 | the same for a REMOVED execution |
| SyncProperties.WrittenConfined | src/Engine/ProcessEngine.php:325-379 | the same for a NEW or MODIFIED execution |
| SyncProperties.SyncChildrenConfined | src/Engine/ProcessEngine.php:373-379 | the child loop writes only rows of the children and their descendants |
| SyncProperties.WriteComesFirst | src/Engine/ProcessEngine.php:325-379 | a NEW or MODIFIED execution gets exactly one INSERT or UPDATE, sent before any statement about its descendants; only that one when children are not synced; the written row becomes its clean snapshot |
| SyncProperties.DeleteComesLast | src/Engine/ProcessEngine.php:302-323 | a REMOVED execution's descendants are synchronised first, its DELETE is the last statement, and it leaves the tracked set |
| SyncProperties.UnchangedWritesOnlyBelow | src/Engine/ProcessEngine.php:297-380 | an UNCHANGED execution gets no statement; only its descendants may be written; without children nothing happens |
| SyncProperties.SettledSyncIsNoOp | src/Engine/ProcessEngine.php:297-380 | synchronising an execution whose subtree is tracked with current clean snapshots sends nothing and changes nothing |
| SyncProperties.SettledChildrenAreNoOp | src/Engine/ProcessEngine.php:373-379 | the child loop over settled children sends nothing |
| SyncProperties.SettledEachIsNoOp | src/Engine/ProcessEngine.php:130-133 | the loop over a settled tracked set sends nothing |
| SyncProperties.SettledPassIsNoOp | src/Engine/ProcessEngine.php:139-142 | a whole sync pass over a settled tracked set sends nothing: unchanged data is never written |
| SyncProperties.RegisterCleanWritesNothing | src/Engine/ProcessEngine.php:249-264 | registering an execution with its own current row as snapshot only tracks it |
| SyncProperties.RegisterInsertsNew | src/Engine/ProcessEngine.php:249-264 | an execution the classifier does not call NEW is only tracked; one it calls NEW is inserted by the first statement and its info then holds the inserted row |
| UnitOfWork.SyncAllKeeps | src/Engine/ProcessEngine.php:130-133 | a sync pass only appends execution writes and keeps every info pointing to a live execution |
| UnitOfWork.PreSync | src/Engine/ProcessEngine.php:130-133 | the pre-sync pass appends only execution writes to the connection as opened |
| UnitOfWork.CallbackInput | src/Engine/ProcessEngine.php:117-137 | the callback is handed the connection and tracked set the pre-sync pass left, one level deeper, so that no performExecution it runs can open a transaction |
| UnitOfWork.CallbackPhase | src/Engine/ProcessEngine.php:135-150 | the try block continues the callback's connection with execution writes only, keeps the callback's objects acyclic and every info pointing into them |
| UnitOfWork.PerformExecution | src/Engine/ProcessEngine.php:115-169 | the execution depth is the same after the call; a call that does not open the transaction stays in the one it found and only appends statements |
| UnitOfWork.Settle | src/Engine/ProcessEngine.php:144-168 | only the opener's `finally` empties the tracked set; a call that does not open the transaction sends no COMMIT or ROLLBACK |
| UnitOfWork.OpenerBracketed | src/Engine/ProcessEngine.php:117-168 | an opener's statements are BEGIN, the pre-sync writes, the callback's statements, the post-sync writes, and then the closing statement |
| UnitOfWork.NotOpenerLeavesTransaction | src/Engine/ProcessEngine.php:115-169 | a call that does not open the transaction neither begins nor ends one: the passes append only execution writes around whatever the callback sent, and the tracked set is as the passes and the callback left it |
| UnitOfWork.OpenerCommitsOnSuccess | src/Engine/ProcessEngine.php:115-169 | the opening call, when everything succeeds, sends BEGIN, the pre-sync writes, the callback's statements, the post-sync writes, then COMMIT; the rows the callback wrote are committed, the callback's value is returned and the tracked set is emptied |
| UnitOfWork.OpenerRollsBackOnException | src/Engine/ProcessEngine.php:152-168 | when the opening call's try block raises an exception, ROLLBACK follows the callback's statements and the writes, every table is as before the call whatever the callback wrote, and the tracked set is emptied |
| UnitOfWork.ErrorLeavesTransactionOpen | src/Engine/ProcessEngine.php:152-168 | an `\Error` skips the catch block: no ROLLBACK, the transaction stays open with the callback's statements in it, but the tracked set is emptied |
| UnitOfWork.PreSyncFailureEscapes | src/Engine/ProcessEngine.php:130-135 | a failure in the pre-sync pass reaches the caller before the try block: the callback never runs, an opened transaction stays open and the tracked set is kept |
| UnitOfWork.CallbackThrowableRethrown | src/Engine/ProcessEngine.php:137-160 | a throwable from the callback is rethrown unchanged and the post-sync pass does not run |
| UnitOfWork.AsCallbackResult | src/Engine/ProcessEngine.php:137 | what a performExecution run inside a callback hands back to it: its state, and its value or its throwable |
| UnitOfWork.NestedIsSound | src/Engine/ProcessEngine.php:119-168 | a performExecution run from inside a callback is one level deep: it begins and ends no transaction, only appends statements and gives back the depth it found |
| Reconstruction.HandleMap | src/Engine/ProcessEngine.php:227 | every entry of `$executions` names one of the objects the fetch loop builds |
| Reconstruction.HandleMapAt | src/Engine/ProcessEngine.php:227 | the id fetched at position `i` names the `i`-th new object |
| Reconstruction.HandleMapKeys | src/Engine/ProcessEngine.php:227 | exactly the fetched ids are keys of `$executions` |
| Reconstruction.Loaded | src/Engine/ProcessEngine.php:199-234 | the fetch loop builds one object per fetched row, on consecutive new handles |
| Reconstruction.LoadedAt | src/Engine/ProcessEngine.php:199-234 | the object for position `i` holds that row's data and its cached definition, with no links yet |
| Reconstruction.ParentsOfGet | src/Engine/ProcessEngine.php:206-209 | a fetched id has a `$parents` entry exactly when its row has a parent id, and the entry is that id |
| Reconstruction.ParentsOfDistinct | src/Engine/ProcessEngine.php:206-209 | `$parents` has each child id once, each entry taken from the child's stored row |
| Reconstruction.LinkOneAt | src/Engine/ProcessEngine.php:238 | `setParentExecution` changes only the child, which gets the parent, and the parent, which gets the child appended |
| Reconstruction.LinkAllKeeps | src/Engine/ProcessEngine.php:236-239 | the parent loop keeps the tree well linked and acyclic, changes only links, and leaves objects no fetched id names untouched |
| Reconstruction.LinkAllParent | src/Engine/ProcessEngine.php:236-239 | each fetched object ends up pointing to the object of its stored parent id when that row was fetched, and keeps the parent it had otherwise |
| Reconstruction.NextHandle | src/Engine/ProcessEngine.php:227 | a new object's handle is above every handle in use |
| Reconstruction.RebuiltShape | src/Engine/ProcessEngine.php:199-239 | the rebuilt tree is acyclic, keeps every object in use as it was, and adds exactly one object per fetched row |
| Reconstruction.RebuiltAt | src/Engine/ProcessEngine.php:199-239 | the object built for the row at position `i` holds that row's data; it has a parent exactly when the row's `pid` was fetched too, at some position `j`, and the parent is then the object built for `j`, which carries that id |
| Finding.RegisterAll | src/Engine/ProcessEngine.php:241-244 | the register loop only appends execution writes and keeps every info pointing to a live object |
| Finding.RegisterClean | src/Engine/ProcessEngine.php:243 | registering an object with its own serialisation only tracks it |
| Finding.RegisterAllClean | src/Engine/ProcessEngine.php:241-244 | under the classifier's contract the register loop writes nothing, throws nothing and tracks each object under its id with its serialisation as snapshot |
| Finding.CleanInfos | src/Engine/ProcessEngine.php:241-244 | the infos the loop stores: each object under its own id, with the matching snapshot |
| Finding.SnapshotAt | src/Engine/ProcessEngine.php:243 | the snapshot for each object is its serialisation |
| Finding.FetchedJoined | src/Engine/ProcessEngine.php:183-191 | every row the query returns has a stored definition |
| Finding.FindExecution | src/Engine/ProcessEngine.php:171-247 | findExecution keeps the state valid and the depth, appends only execution writes, frees no object, and a found object is the one tracked under the id |
| Finding.FindCached | src/Engine/ProcessEngine.php:175-178 | a tracked id is answered from the tracked set: nothing is read, written or built |
| Finding.FindTwice | src/Engine/ProcessEngine.php:171-247 | once found, an id stays tracked: asking again returns the same object and changes nothing |
| Finding.RebuiltIds | src/Engine/ProcessEngine.php:199-234 | each new object carries the id of the row it was built from |
| Finding.FindUntracked | src/Engine/ProcessEngine.php:180-246 | for an untracked id the connection is unchanged, the tree is the rebuilt one and the tracked set gains the registered infos |
| Finding.PutAllFetched | src/Engine/ProcessEngine.php:241-244 | after the register loop each fetched id maps to its own info and every other id keeps its info |
| Finding.FindRebuildsProcess | src/Engine/ProcessEngine.php:180-246 | an untracked lookup writes nothing, keeps the objects in use, builds one object per row of the process and tracks each under its id with its serialisation as clean snapshot |
| Finding.FindSnapshotAt | src/Engine/ProcessEngine.php:241-244 | the clean snapshot registered for each fetched row is the serialisation of the object built for it |
| Finding.FindFindsStoredRow | src/Engine/ProcessEngine.php:180-246 | an untracked id is found exactly when its row is stored with a stored definition; the object returned is new and carries that id; otherwise the lookup fails with "not found" |
| Engine.SyncExecutionOn | src/Engine/ProcessEngine.php:297-380 | the recursive method computes `Synchronization.SyncExecution` |
| Engine.SyncChildExecutionsOn | src/Engine/ProcessEngine.php:373-379 | the child loop computes `Synchronization.SyncChildren` |
| Engine.SyncPass | src/Engine/ProcessEngine.php:130-133 | the foreach loop over a copy of the tracked set computes `Synchronization.SyncAll` |
| Engine.SyncStateOn | src/Engine/ProcessEngine.php:287-295 | computes syncExecutionState's step and keeps the infos pointing into the tree |
| Engine.RegisterOn | src/Engine/ProcessEngine.php:256-263 | computes registerExecution's step and keeps the infos pointing into the tree |
| Engine.TryOn | src/Engine/ProcessEngine.php:135-168 | calls the callback, lowers the depth it hands back, runs the post-sync pass if it returned, then commits, rolls back or neither: computes `UnitOfWork.Try` |
| Engine.SettleOn | src/Engine/ProcessEngine.php:144-168 | computes the commit, rollback and `finally` steps |
| Engine.PerformOn | src/Engine/ProcessEngine.php:115-169 | opens the transaction if it is the outermost call, runs the pre-sync pass and raises the depth for the callback: computes `UnitOfWork.PerformExecution` |
| Engine.NextHandleOf | src/Engine/ProcessEngine.php:227 | the loop over the handles in use finds the next free handle |
| Engine.FetchOn | src/Engine/ProcessEngine.php:199-234 | the fetch loop, with its definition cache, builds the objects, `$executions` and `$parents` as specified |
| Engine.LinkOn | src/Engine/ProcessEngine.php:236-239 | the parent loop computes `Reconstruction.LinkAll` |
| Engine.RegisterAllOn | src/Engine/ProcessEngine.php:241-244 | the register loop computes `Finding.RegisterAll` and stops at the first throwable |
| Engine.FindOn | src/Engine/ProcessEngine.php:171-247 | the method computes `Finding.FindExecution` |
| Engine.ProcessEngine.constructor | src/Engine/ProcessEngine.php:48-58 | a new engine has its connection and transaction flag (true by default), nothing tracked, depth 0 and no delegate task factory |
| Engine.ProcessEngine.SetDelegateTaskFactory | src/Engine/ProcessEngine.php:100-103 | sets the factory, NULL included, and nothing else |
| Engine.ProcessEngine.CreateDelegateTask | src/Engine/ProcessEngine.php:105-113 | a RuntimeException exactly when there is no factory; otherwise what the factory builds for the type name |
| Engine.ProcessEngine.SyncExecutionState | src/Engine/ProcessEngine.php:287-295 | an untracked execution is left alone; a tracked one is synchronised without its children; the fields become the result |
| Engine.ProcessEngine.FindExecution | src/Engine/ProcessEngine.php:171-247 | the engine's new state and the answer are those of `Finding.FindExecution` |
| Engine.ProcessEngine.RegisterExecution | src/Engine/ProcessEngine.php:249-264 | a non-VirtualExecution raises InvalidArgumentException and changes nothing; otherwise the fields become `Synchronization.Register`'s result |
| Engine.ProcessEngine.PerformExecution | src/Engine/ProcessEngine.php:115-169 | for any callback that keeps `UnitOfWork.SoundCallback`, the engine's new state and outcome are those of `UnitOfWork.PerformExecution`, the depth is as before and the factory and events are untouched |
| Binary.Make | src/Engine/BinaryData.php:24-28 | the object holds the data and the level, 1 by default |
| Binary.ToStringMake | src/Engine/BinaryData.php:24-33 | `__toString` gives back the data the object was built with; the default level is 1 |
| Binary.Encode | src/Engine/BinaryData.php:35-38 | `encode` returns false exactly when the level is outside what gzcompress accepts (-1 to 9); otherwise, when zlib keeps its contract, uncompressing the encoding gives the data back |
| Binary.HexDigit | src/Engine/BinaryData.php:50 | a hexadecimal digit's value is below 16 |
| Binary.HexToBin | src/Engine/BinaryData.php:50 | `hex2bin` succeeds only on an even length and then yields half as many bytes |
| Binary.HexRoundTrip | src/Engine/BinaryData.php:50 | `hex2bin` undoes `bin2hex` |
| Binary.Decode | src/Engine/BinaryData.php:40-56 | NULL and "" decode to NULL; decode throws exactly when the input is non-empty and starts with neither `1` nor `2`; a non-empty input never decodes to NULL |
| Binary.DecodeRaw | src/Engine/BinaryData.php:51-52 | a `1`-framed input uncompresses exactly what follows the marker |
| Binary.DecodeHex | src/Engine/BinaryData.php:49-50 | a `2`-framed `bin2hex` payload uncompresses the payload itself |
| Binary.DecodeBadHex | src/Engine/BinaryData.php:49-50 | malformed hexadecimal after `2` reaches `gzuncompress` as the empty string |
| Binary.FramedRoundTrip | src/Engine/BinaryData.php:35-56 | whatever `encode` produced (at an accepted level), framed by hand either way, decodes to the original data |
| Binary.EncodeUnframed | src/Engine/BinaryData.php:35-56 | `encode` adds no marker: decoding its raw output throws unless the first compressed byte happens to be `1` or `2` |
| Commands.RootOfChild | src/Runtime/Command/CreateMessageSubscriptionCommand.php:41 | an execution and its parent have the same root |
| Commands.SubscriptionFor | src/Runtime/Command/CreateMessageSubscriptionCommand.php:39-44 | the row names the execution, its root execution as process instance, the message flag (not the signal flag), the message and the time |
| Commands.SubscriptionSharesInstance | src/Runtime/Command/CreateMessageSubscriptionCommand.php:41 | a child's subscription names the same process instance as its parent's |
| Commands.CreateMessageSubscriptionCommand.constructor | src/Runtime/Command/CreateMessageSubscriptionCommand.php:25-29 | the command keeps the message and the execution |
| Commands.CreateMessageSubscriptionCommand.ExecuteCommand | src/Runtime/Command/CreateMessageSubscriptionCommand.php:31-51 | exactly one subscription INSERT is sent; nothing else of the engine changes; the new state is the one `Commands.SubscriptionCallback` hands back |
| Commands.SubscriptionCallbackSound | src/Runtime/Command/CreateMessageSubscriptionCommand.php:31-51 | run as a callback, the command keeps `UnitOfWork.SoundCallback`: it only appends its INSERT, in the same transaction |
| Commands.RunSubscription | src/Runtime/Command/CreateMessageSubscriptionCommand.php:31-51 | the engine running the command through performExecution keeps the state valid and the depth |
| Commands.SubscriptionCommitted | src/Runtime/Command/CreateMessageSubscriptionCommand.php:33-45 | run by the outermost call and returning normally, the subscription row is committed: the table is as before plus that row, the other non-execution tables unchanged |
| Commands.SubscriptionDuplicateRollsBack | src/Runtime/Command/CreateMessageSubscriptionCommand.php:33-45 | a subscription id already taken raises a duplicate-key exception, which the outermost call rolls back and rethrows: every table is as before |
| Commands.SubscriptionOnlyInserts | src/Runtime/Command/CreateMessageSubscriptionCommand.php:33-45 | with a fresh id the subscription adds exactly its row; the other tables and the transaction stay as they were |
| Commands.TaskFor | src/Task/Command/CreateUserTaskCommand.php:43-55 | the task row exists exactly when the execution is at a node; it names the execution, the node, the name, the documentation and the time; otherwise an `\Error` |
| Commands.CreateUserTaskCommand.constructor | src/Task/Command/CreateUserTaskCommand.php:33-38 | the command keeps the name, the execution and the documentation, NULL by default |
| Commands.CreateUserTaskCommand.ExecuteCommand | src/Task/Command/CreateUserTaskCommand.php:40-70 | without a node nothing is sent; a duplicate id raises after the INSERT; otherwise the task read back by its id is the inserted row, it is returned, and exactly one UserTaskCreated event is appended; the new state is the one `Commands.TaskCallback` hands back |
| Commands.TaskCallbackSound | src/Task/Command/CreateUserTaskCommand.php:40-70 | run as a callback, the command keeps `UnitOfWork.SoundCallback` |
| Commands.RunTask | src/Task/Command/CreateUserTaskCommand.php:40-70 | the engine running the command through performExecution keeps the state valid and the depth |
| Commands.TaskCommitted | src/Task/Command/CreateUserTaskCommand.php:43-55 | run by the outermost call and returning normally, the execution was at a node, the task row for it is committed under the new id and that id is returned |
| Commands.TaskWithoutNodeLeavesTransactionOpen | src/Task/Command/CreateUserTaskCommand.php:53 | an execution at no node raises an `\Error` before the INSERT; performExecution catches only exceptions, so the outermost call sends no ROLLBACK and the transaction stays open |
| Commands.TaskOnlyInserts | src/Task/Command/CreateUserTaskCommand.php:43-55 | with a fresh id the task adds exactly its row and writes no execution row |

## Left out

- I/O and time: the random UUIDs and `time()` are parameters of `executeCommand`. The order in which the database returns the rows of the `findExecution` query is the parameter `fetched`.
- zlib and PHP serialisation: `gzcompress`, `gzuncompress`, `serialize` and `unserialize` are uninterpreted functions. `Binary.ZlibContract` states the one property the model relies on.
- `ExecutionInfo`, `VirtualExecution` and `AbstractEngine` are not part of this model:
  - `ExecutionInfo::getState` is an uninterpreted classifier. The properties that need its behaviour assume `Executions.ClassifierContract`.
  - `findNode($id)->getId() == $id` is assumed.
  - `AbstractEngine::performExecution` is taken to raise the depth by one before the callback and lower it by one afterwards; the model raises it on the state handed to the callback and lowers the depth the callback hands back.
  - AbstractEngine runs a command's `executeCommand` inside performExecution; `Commands.SubscriptionCallback` and `Commands.TaskCallback` model that wiring.
- The stored rows are assumed keyed by their id (`Reconstruction.Keyed`). Their parent ids are assumed acyclic (`Reconstruction.StoredAcyclic`), as the engine writes them.
- The SELECT of `findExecution` is not logged as a statement; only writes and transaction statements are.
- The debug logging, `prepareQuery`, `getLastInsertId` and the repository and runtime services are left out: they compute nothing the core relies on. `notify` is modelled as an append to the engine's event list.
- PHP casts (`(string)`, `(int)`, `(float)`) are the parameters' types here. PDO is assumed to run in exception error mode.
- Store: the only statement that fails is an INSERT whose primary key is taken. A COMMIT, ROLLBACK, UPDATE or DELETE that fails (a deadlock, a deferred constraint, a lost connection) is not modelled. So the path where a failing COMMIT inside the try block is caught, rolled back and rethrown is not reachable, and `UnitOfWork.OpenerCommitsOnSuccess` covers every run that returns only under that assumption.
- Commands.CreateUserTaskCommand.ExecuteCommand: the task service is not part of this model. Its query `createTaskQuery()->taskId($id)->findOne()` is assumed to return exactly the row just inserted, as the task. The UUID object bound as the task id (line 49) is taken to be the same key as the binary ids the other INSERTs bind.
- Commands.TaskFor: `eid` is bound to `$this->execution->getId()` (CreateUserTaskCommand.php line 50), the UUID object, where the subscription INSERT and `serializeExecution` bind `getId()->toBinary()`. The model has one form of an execution id, so a task row's `executionId` is taken to be the same key as the execution's row id; how PDO converts the UUID object is not modelled.
- Reconstruction.LinkOne: a parent id whose row was not fetched leaves `$executions[$pid]` undefined; PHP passes NULL, and `setParentExecution(NULL)` is assumed to leave the child a root. `VirtualExecution` is not part of this model.
- Binary.Encode: PHP 5 and 7 warn and return false for a level outside -1 to 9, which the model follows; PHP 8 throws a ValueError instead, which is not modelled.
- Binary.Encode: the model does not state `decode(encode(x)) == x`, because `encode` writes no marker and the two do not round-trip. `Binary.FramedRoundTrip` states the round trip for a marker added by hand. `Binary.EncodeUnframed` states what happens without one.
- Binary.Decode: `hex2bin`'s false reaches `gzuncompress` as the empty string, as PHP converts it. The warnings PHP emits are not modelled.
- UnitOfWork.PerformExecution: the callback is arbitrary code. The model assumes what `UnitOfWork.SoundCallback` states: the callback leaves the objects acyclic with every tracked info pointing into them, only appends statements in the transaction it was handed, and gives the depth back as it found it. A callback that commits or rolls back the engine's own transaction, or throws with the depth still raised, is not modelled.
- UnitOfWork.PerformExecution: the engine state a callback sees and hands back is the connection, the tracked set, the objects and the depth. The events it notifies and a delegate task factory it sets are not part of that state, so `Engine.ProcessEngine.PerformExecution` keeps them unchanged.
- Commands.TaskCallback: reading the task back and the `UserTaskCreatedEvent` are not part of the state a callback hands back; `Commands.CreateUserTaskCommand.ExecuteCommand` models both. The callback's value is the task id, where `executeCommand` returns the task object read back by that id.
- Reconstruction.NextHandle: PHP allocates object identities itself. The model gives each new object the next handle above every handle in use.
