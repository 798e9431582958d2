/**
 * Two commands run by the engine. CreateMessageSubscriptionCommand subscribes
 * an execution to a message: one row in the event-subscription table.
 * CreateUserTaskCommand creates a user task at the execution's current node:
 * one row in the user-task table, read back and announced to listeners.
 * The random UUID and the clock are parameters of executeCommand.
 */
module Commands {
  import opened Wrappers
  import opened Store
  import opened Executions
  import opened UnitOfWork
  import opened Engine

  /** The root of an execution does not depend on which ranking proves the tree acyclic. */
  lemma {:induction false} RootAnyRank(t: Tree, rank: map<Handle, nat>, rank': map<Handle, nat>, h: Handle)
    requires Linked(t) && Ranked(t, rank) && Ranked(t, rank') && h in t
    ensures Root(t, rank, h) == Root(t, rank', h)
    decreases rank[h]
  {
    if t[h].parent.Some? {
      RootAnyRank(t, rank, rank', t[h].parent.value);
    }
  }

  /** An execution and its parent belong to the same process instance. */
  lemma RootOfChild(t: Tree, rank: map<Handle, nat>, h: Handle)
    requires Linked(t) && Ranked(t, rank) && h in t && t[h].parent.Some?
    ensures t[h].parent.value in t && Root(t, rank, h) == Root(t, rank, t[h].parent.value)
  {
  }

  /**
   * The row executeCommand inserts: the execution's id, its root execution's
   * id as process instance, the message flag, the message name and the time.
   */
  function SubscriptionFor(t: Tree, ghost rank: map<Handle, nat>, h: Handle, message: string, now: int): (row: SubscriptionRow)
    requires Linked(t) && Ranked(t, rank) && h in t
    ensures row.executionId == t[h].id && row.name == message && row.createdAt == now
    ensures row.flags == SubFlagMessage && row.flags != SubFlagSignal
    ensures exists r :: r in t && t[r].parent.None? && row.processInstanceId == t[r].id
    ensures t[h].parent.None? ==> row.processInstanceId == t[h].id
  {
    SubscriptionRow(t[h].id, t[Root(t, rank, h)].id, SubFlagMessage, message, now)
  }

  /** A child's subscription names the same process instance as its parent's would. */
  lemma SubscriptionSharesInstance(t: Tree, rank: map<Handle, nat>, h: Handle, message: string, message': string, now: int, now': int)
    requires Linked(t) && Ranked(t, rank) && h in t && t[h].parent.Some?
    ensures t[h].parent.value in t
    ensures SubscriptionFor(t, rank, h, message, now).processInstanceId
         == SubscriptionFor(t, rank, t[h].parent.value, message', now').processInstanceId
  {
    RootOfChild(t, rank, h);
  }

  class CreateMessageSubscriptionCommand {
    const message: string
    const execution: Handle

    /** new CreateMessageSubscriptionCommand($message, $execution); the string cast is the parameter's type here. */
    constructor(message: string, execution: Handle)
      ensures this.message == message && this.execution == execution
    {
      this.message := message;
      this.execution := execution;
    }

    /**
     * executeCommand($engine): insert the subscription row under the fresh
     * id `subId` at time `now`; nothing else of the engine changes.
     */
    method ExecuteCommand(engine: ProcessEngine, subId: Id, now: int) returns (failure: Option<Throwable>)
      requires engine.Valid() && execution in engine.tree
      modifies engine
      ensures engine.executions == old(engine.executions) && engine.tree == old(engine.tree) && engine.Valid()
      ensures var w := InsertSubscriptionRow(old(engine.conn), subId, SubscriptionFor(engine.tree, RankOf(engine.tree), execution, message, now));
        engine.conn == w.conn && failure == w.failure
      ensures engine.executionDepth == old(engine.executionDepth) && engine.events == old(engine.events)
      ensures engine.delegateTaskFactory == old(engine.delegateTaskFactory)
      ensures var r := SubscriptionCallback(message, execution, subId, now)(old(engine.State()));
        engine.State() == r.state && (failure.Some? <==> r.Threw?)
    {
      var row := SubscriptionFor(engine.tree, RankOf(engine.tree), execution, message, now);
      var w := InsertSubscriptionRow(engine.conn, subId, row);
      engine.conn := w.conn;
      failure := w.failure;
    }
  }

  /**
   * executeCommand run as a performExecution callback, which is how the
   * engine runs a command (AbstractEngine::executeCommand is not part of
   * this model): the row goes into the connection the callback is handed and
   * a duplicate key is thrown. The command holds its execution object, so
   * the execution is always among the engine's objects; the last branch
   * only makes the function total.
   */
  ghost function SubscriptionCallback(message: string, execution: Handle, subId: Id, now: int): Callback
  {
    (s: EngineState) => if Acyclic(s.tree) && execution in s.tree then
           var w := InsertSubscriptionRow(s.conn, subId, SubscriptionFor(s.tree, RankOf(s.tree), execution, message, now));
           if w.failure.Some? then Threw(s.(conn := w.conn), w.failure.value) else Returned(s.(conn := w.conn), "")
         else Returned(s, "")
  }

  lemma SubscriptionCallbackSound(message: string, execution: Handle, subId: Id, now: int)
    ensures SoundCallback(SubscriptionCallback(message, execution, subId, now))
  {
    var cb := SubscriptionCallback(message, execution, subId, now);
    forall s | ValidState(s) && s.depth > 0
      ensures SoundAt(cb, s)
    {
      if execution in s.tree {
        var c := s.conn;
        var c' := cb(s).state.conn;
        assert c'.statements[..|c.statements|] == c.statements;
      }
    }
  }

  /** The engine running the subscription command: performExecution with its callback. */
  ghost function RunSubscription(x: Ext, handleTransactions: bool, s: EngineState, message: string, execution: Handle, subId: Id, now: int): (r: (EngineState, Outcome))
    requires ValidState(s)
    ensures ValidState(r.0) && r.0.depth == s.depth
  {
    SubscriptionCallbackSound(message, execution, subId, now);
    PerformExecution(x, handleTransactions, s, SubscriptionCallback(message, execution, subId, now))
  }

  /**
   * Run by the call that opens the transaction and returning normally, the
   * command's row is committed: the table holds exactly the rows it held
   * before plus the new one, and no other non-execution table changed.
   */
  lemma SubscriptionCommitted(x: Ext, handleTransactions: bool, s: EngineState, message: string, execution: Handle, subId: Id, now: int)
    requires ValidState(s) && Opens(handleTransactions, s) && execution in s.tree
    requires RunSubscription(x, handleTransactions, s, message, execution, subId, now).1.Value?
    ensures var s' := RunSubscription(x, handleTransactions, s, message, execution, subId, now).0;
      && subId !in s.conn.db.subscriptions
      && s'.conn.db.subscriptions == s.conn.db.subscriptions[subId := SubscriptionFor(s.tree, RankOf(s.tree), execution, message, now)]
      && s'.conn.db.tasks == s.conn.db.tasks && s'.conn.db.definitions == s.conn.db.definitions
      && !s'.conn.inTransaction
  {
    var cb := SubscriptionCallback(message, execution, subId, now);
    SubscriptionCallbackSound(message, execution, subId, now);
    OpenerCommitsOnSuccess(x, handleTransactions, s, cb);
    var inner := CallbackInput(x, handleTransactions, s);
    assert inner.conn.db.subscriptions == s.conn.db.subscriptions;
  }

  /**
   * A subscription id already taken: the INSERT raises, the opener rolls
   * back, every table is as before and the exception reaches the caller.
   */
  lemma SubscriptionDuplicateRollsBack(x: Ext, handleTransactions: bool, s: EngineState, message: string, execution: Handle, subId: Id, now: int)
    requires ValidState(s) && Opens(handleTransactions, s) && execution in s.tree
    requires subId in s.conn.db.subscriptions
    requires PreSync(x, handleTransactions, s).failure.None?
    ensures var (s', out) := RunSubscription(x, handleTransactions, s, message, execution, subId, now);
      && out == Thrown(Throwable(true, DuplicateKey(subId)))
      && s'.conn.db == s.conn.db && !s'.conn.inTransaction && s'.executions == []
  {
    var cb := SubscriptionCallback(message, execution, subId, now);
    SubscriptionCallbackSound(message, execution, subId, now);
    var inner := CallbackInput(x, handleTransactions, s);
    assert inner.conn.db.subscriptions == s.conn.db.subscriptions;
    assert cb(inner).Threw?;
    CallbackThrowableRethrown(x, handleTransactions, s, cb);
    OpenerRollsBackOnException(x, handleTransactions, s, cb);
  }

  /** A subscription adds exactly its row: every other table, and the transaction, stay as they were. */
  lemma SubscriptionOnlyInserts(c: Conn, subId: Id, row: SubscriptionRow)
    requires subId !in c.db.subscriptions
    ensures var w := InsertSubscriptionRow(c, subId, row);
      && w.failure.None?
      && w.conn.db.subscriptions.Keys == c.db.subscriptions.Keys + {subId}
      && w.conn.db.subscriptions[subId] == row
      && (forall k :: k in c.db.subscriptions ==> w.conn.db.subscriptions[k] == c.db.subscriptions[k])
      && w.conn.db.executions == c.db.executions && w.conn.db.tasks == c.db.tasks
      && w.conn.inTransaction == c.inTransaction
  {
  }

  /** What executeCommand returns: the task as read back, or the throwable that stopped it. */
  datatype TaskResult = Created(taskId: Id, task: TaskRow) | NotCreated(error: Throwable)

  /**
   * The row executeCommand inserts, or the \Error raised by getNode()->getId()
   * when the execution is at no node, before anything is sent.
   */
  function TaskFor(e: Exec, name: string, documentation: Option<string>, now: int): (r: Result<TaskRow, Throwable>)
    ensures r.Ok? <==> e.node.Some?
    ensures r.Ok? ==> r.value.executionId == e.id && r.value.activity == e.node.value
    ensures r.Ok? ==> r.value.name == name && r.value.documentation == documentation && r.value.createdAt == now
    ensures r.Err? ==> r.error == Throwable(false, NodeMissing)
  {
    match e.node
    case None => Err(Throwable(false, NodeMissing))
    case Some(node) => Ok(TaskRow(e.id, name, documentation, node, now))
  }

  class CreateUserTaskCommand {
    const name: string
    const execution: Handle
    const documentation: Option<string>

    /** new CreateUserTaskCommand($name, $execution, $documentation = NULL); NULL stays NULL. */
    constructor(name: string, execution: Handle, documentation: Option<string> := None)
      ensures this.name == name && this.execution == execution && this.documentation == documentation
    {
      this.name := name;
      this.execution := execution;
      this.documentation := documentation;
    }

    /**
     * executeCommand($engine): insert the task row under the fresh id
     * `taskId` at time `now`, read the task back by that id, notify a
     * UserTaskCreatedEvent and return the task.
     */
    method ExecuteCommand(engine: ProcessEngine, taskId: Id, now: int) returns (result: TaskResult)
      requires engine.Valid() && execution in engine.tree
      modifies engine
      ensures engine.Valid()
      ensures engine.executions == old(engine.executions) && engine.tree == old(engine.tree)
      ensures engine.executionDepth == old(engine.executionDepth) && engine.delegateTaskFactory == old(engine.delegateTaskFactory)
      ensures match TaskFor(engine.tree[execution], name, documentation, now)
        case Err(error) =>
          result == NotCreated(error) && engine.conn == old(engine.conn) && engine.events == old(engine.events)
        case Ok(row) =>
          var w := InsertTaskRow(old(engine.conn), taskId, row);
          && engine.conn == w.conn
          && (w.failure.Some? ==> result == NotCreated(w.failure.value) && engine.events == old(engine.events))
          && (w.failure.None? ==>
                && taskId in engine.conn.db.tasks && result == Created(taskId, engine.conn.db.tasks[taskId])
                && result.task == row
                && engine.events == old(engine.events) + [UserTaskCreated(taskId, result.task)])
      ensures var r := TaskCallback(name, execution, documentation, taskId, now)(old(engine.State()));
        engine.State() == r.state && (result.Created? <==> r.Returned?)
    {
      var row := TaskFor(engine.tree[execution], name, documentation, now);
      if row.Err? {
        return NotCreated(row.error);
      }
      var w := InsertTaskRow(engine.conn, taskId, row.value);
      engine.conn := w.conn;
      if w.failure.Some? {
        return NotCreated(w.failure.value);
      }
      var task := engine.conn.db.tasks[taskId];
      engine.events := engine.events + [UserTaskCreated(taskId, task)];
      result := Created(taskId, task);
    }
  }

  /**
   * The task command as a performExecution callback: the \Error of an
   * execution at no node is thrown before anything is sent, a duplicate key
   * is thrown after the INSERT, and otherwise the task id is returned.
   * Reading the row back and the event announced are not part of the state
   * a callback hands back.
   */
  ghost function TaskCallback(name: string, execution: Handle, documentation: Option<string>, taskId: Id, now: int): Callback
  {
    (s: EngineState) => if execution in s.tree then
           match TaskFor(s.tree[execution], name, documentation, now)
           case Err(error) => Threw(s, error)
           case Ok(row) =>
             var w := InsertTaskRow(s.conn, taskId, row);
             if w.failure.Some? then Threw(s.(conn := w.conn), w.failure.value) else Returned(s.(conn := w.conn), taskId)
         else Returned(s, "")
  }

  lemma TaskCallbackSound(name: string, execution: Handle, documentation: Option<string>, taskId: Id, now: int)
    ensures SoundCallback(TaskCallback(name, execution, documentation, taskId, now))
  {
    var cb := TaskCallback(name, execution, documentation, taskId, now);
    forall s | ValidState(s) && s.depth > 0
      ensures SoundAt(cb, s)
    {
      var c := s.conn;
      var c' := cb(s).state.conn;
      assert c'.statements[..|c.statements|] == c.statements;
    }
  }

  /** The engine running the task command: performExecution with its callback. */
  ghost function RunTask(x: Ext, handleTransactions: bool, s: EngineState, name: string, execution: Handle, documentation: Option<string>, taskId: Id, now: int): (r: (EngineState, Outcome))
    requires ValidState(s)
    ensures ValidState(r.0) && r.0.depth == s.depth
  {
    TaskCallbackSound(name, execution, documentation, taskId, now);
    PerformExecution(x, handleTransactions, s, TaskCallback(name, execution, documentation, taskId, now))
  }

  /**
   * Run by the call that opens the transaction and returning normally, the
   * task row for the execution's node is committed under the new id, which
   * is what the call returns.
   */
  lemma TaskCommitted(x: Ext, handleTransactions: bool, s: EngineState, name: string, execution: Handle, documentation: Option<string>, taskId: Id, now: int)
    requires ValidState(s) && Opens(handleTransactions, s) && execution in s.tree
    requires RunTask(x, handleTransactions, s, name, execution, documentation, taskId, now).1.Value?
    ensures var (s', out) := RunTask(x, handleTransactions, s, name, execution, documentation, taskId, now);
      var row := TaskFor(s.tree[execution], name, documentation, now);
      && row.Ok? && taskId !in s.conn.db.tasks && out.value == taskId
      && s'.conn.db.tasks == s.conn.db.tasks[taskId := row.value]
      && s'.conn.db.subscriptions == s.conn.db.subscriptions
      && !s'.conn.inTransaction
  {
    var cb := TaskCallback(name, execution, documentation, taskId, now);
    TaskCallbackSound(name, execution, documentation, taskId, now);
    OpenerCommitsOnSuccess(x, handleTransactions, s, cb);
    var inner := CallbackInput(x, handleTransactions, s);
    assert inner.conn.db.tasks == s.conn.db.tasks;
  }

  /**
   * An execution at no node: the \Error escapes performExecution's catch of
   * exceptions, so the opener sends no ROLLBACK and the transaction it began
   * stays open, though the tracked set is emptied.
   */
  lemma TaskWithoutNodeLeavesTransactionOpen(x: Ext, handleTransactions: bool, s: EngineState, name: string, execution: Handle, documentation: Option<string>, taskId: Id, now: int)
    requires ValidState(s) && Opens(handleTransactions, s) && execution in s.tree
    requires s.tree[execution].node.None?
    requires PreSync(x, handleTransactions, s).failure.None?
    ensures var (s', out) := RunTask(x, handleTransactions, s, name, execution, documentation, taskId, now);
      && out == Thrown(Throwable(false, NodeMissing))
      && s'.conn.inTransaction && s'.executions == []
      && s'.conn.db.tasks == s.conn.db.tasks
  {
    var cb := TaskCallback(name, execution, documentation, taskId, now);
    TaskCallbackSound(name, execution, documentation, taskId, now);
    var inner := CallbackInput(x, handleTransactions, s);
    assert cb(inner) == Threw(inner, Throwable(false, NodeMissing));
    CallbackThrowableRethrown(x, handleTransactions, s, cb);
    ErrorLeavesTransactionOpen(x, handleTransactions, s, cb);
  }

  /** Creating a task adds exactly its row and writes no execution row. */
  lemma TaskOnlyInserts(c: Conn, taskId: Id, row: TaskRow)
    requires taskId !in c.db.tasks
    ensures var w := InsertTaskRow(c, taskId, row);
      && w.failure.None?
      && w.conn.db.tasks.Keys == c.db.tasks.Keys + {taskId}
      && w.conn.db.tasks[taskId] == row
      && (forall k :: k in c.db.tasks ==> w.conn.db.tasks[k] == c.db.tasks[k])
      && w.conn.db.executions == c.db.executions && w.conn.db.subscriptions == c.db.subscriptions
      && (forall i :: 0 <= i < |w.conn.statements| ==> !w.conn.statements[i].IsExecutionWrite() || i < |c.statements|)
  {
  }
}
