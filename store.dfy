/**
 * The relational store behind the engine, reduced to what the engine relies
 * on: three tables as maps from primary key to row, a definitions table read
 * through the join in findExecution, one connection-level transaction taken
 * as a snapshot of the tables, and the statements sent to the connection in
 * the order they were sent. The connection is assumed to report failures as
 * exceptions (PDO's exception error mode); the only failure modelled is an
 * INSERT whose primary key is taken.
 */
module Store {
  import opened Wrappers

  /** A UUID in the string form the engine uses as array key. */
  type Id = string

  /** One byte of a PHP binary string. */
  newtype Byte = x: int | 0 <= x < 256

  type Bytes = seq<Byte>

  /** A row of the execution table; also the array built by serializeExecution. */
  datatype Row = Row(
    id: Id,
    pid: Option<Id>,
    process: Id,
    def: Id,
    state: int,
    active: real,
    node: Option<string>,
    transition: Option<string>,
    bkey: Option<string>,
    vars: Bytes)

  /** A row of the event-subscription table, without its key. */
  datatype SubscriptionRow = SubscriptionRow(
    executionId: Id, processInstanceId: Id, flags: int, name: string, createdAt: int)

  /** A row of the user-task table, without its key. */
  datatype TaskRow = TaskRow(
    executionId: Id, name: string, documentation: Option<string>, activity: string, createdAt: int)

  datatype Db = Db(
    executions: map<Id, Row>,
    definitions: map<Id, Bytes>,
    subscriptions: map<Id, SubscriptionRow>,
    tasks: map<Id, TaskRow>)

  datatype Statement =
    | Begin | Commit | Rollback
    | InsertExecution(row: Row)
    | UpdateExecution(row: Row)
    | DeleteExecution(id: Id)
    | InsertSubscription(subId: Id, sub: SubscriptionRow)
    | InsertTask(taskId: Id, task: TaskRow)
  {
    /** A write to the execution table. */
    predicate IsExecutionWrite() {
      InsertExecution? || UpdateExecution? || DeleteExecution?
    }

    /** The execution id an execution-table write is about. */
    function Target(): Id
      requires IsExecutionWrite()
    {
      if DeleteExecution? then id else row.id
    }
  }

  /** What a PHP caller can catch: `isException` tells \Exception from \Error. */
  datatype Reason =
    | DuplicateKey(key: Id)
    | UntrackedChild(key: Id)
    | ExecutionNotFound(key: Id)
    | UnsupportedExecution(className: string)
    | NoDelegateTaskFactory
    | UndecodableData
    | NodeMissing

  datatype Throwable = Throwable(isException: bool, reason: Reason)

  /** A connection: the tables, the open transaction with the tables as they were when it began, the statements sent. */
  datatype Conn = Conn(db: Db, inTransaction: bool, savepoint: Db, statements: seq<Statement>)

  /** The outcome of one statement: the connection afterwards and the exception it raised, if any. */
  datatype Written = Written(conn: Conn, failure: Option<Throwable>)

  /** The new connection differs from the old only in its tables and in the statements appended. */
  ghost predicate SameTransaction(c: Conn, c': Conn) {
    c'.inTransaction == c.inTransaction && c'.savepoint == c.savepoint
  }

  function BeginTransaction(c: Conn): (r: Conn)
    ensures r.inTransaction && r.db == c.db && r.savepoint == c.db
    ensures r.statements == c.statements + [Begin]
  {
    Conn(c.db, true, c.db, c.statements + [Begin])
  }

  function CommitTransaction(c: Conn): (r: Conn)
    ensures !r.inTransaction && r.db == c.db
    ensures r.statements == c.statements + [Commit]
  {
    c.(inTransaction := false, statements := c.statements + [Commit])
  }

  function RollbackTransaction(c: Conn): (r: Conn)
    ensures !r.inTransaction && r.db == c.savepoint
    ensures r.statements == c.statements + [Rollback]
  {
    c.(db := c.savepoint, inTransaction := false, statements := c.statements + [Rollback])
  }

  /** INSERT INTO execution: a duplicate primary key raises and leaves the table as it was. */
  function InsertExecutionRow(c: Conn, row: Row): (r: Written)
    ensures SameTransaction(c, r.conn)
    ensures r.conn.statements == c.statements + [InsertExecution(row)]
    ensures r.failure.Some? <==> row.id in c.db.executions
    ensures r.failure.Some? ==> r.failure.value.isException && r.conn.db == c.db
    ensures r.failure.None? ==> r.conn.db == c.db.(executions := c.db.executions[row.id := row])
  {
    var c' := c.(statements := c.statements + [InsertExecution(row)]);
    if row.id in c.db.executions then Written(c', Some(Throwable(true, DuplicateKey(row.id))))
    else Written(c'.(db := c.db.(executions := c.db.executions[row.id := row])), None)
  }

  /** INSERT INTO event_subscription: a duplicate primary key raises and leaves the table as it was. */
  function InsertSubscriptionRow(c: Conn, subId: Id, sub: SubscriptionRow): (r: Written)
    ensures SameTransaction(c, r.conn)
    ensures r.conn.statements == c.statements + [InsertSubscription(subId, sub)]
    ensures r.failure.Some? <==> subId in c.db.subscriptions
    ensures r.failure.Some? ==> r.failure.value == Throwable(true, DuplicateKey(subId)) && r.conn.db == c.db
    ensures r.failure.None? ==> r.conn.db == c.db.(subscriptions := c.db.subscriptions[subId := sub])
  {
    var c' := c.(statements := c.statements + [InsertSubscription(subId, sub)]);
    if subId in c.db.subscriptions then Written(c', Some(Throwable(true, DuplicateKey(subId))))
    else Written(c'.(db := c.db.(subscriptions := c.db.subscriptions[subId := sub])), None)
  }

  /** INSERT INTO user_task: a duplicate primary key raises and leaves the table as it was. */
  function InsertTaskRow(c: Conn, taskId: Id, task: TaskRow): (r: Written)
    ensures SameTransaction(c, r.conn)
    ensures r.conn.statements == c.statements + [InsertTask(taskId, task)]
    ensures r.failure.Some? <==> taskId in c.db.tasks
    ensures r.failure.Some? ==> r.failure.value == Throwable(true, DuplicateKey(taskId)) && r.conn.db == c.db
    ensures r.failure.None? ==> r.conn.db == c.db.(tasks := c.db.tasks[taskId := task])
  {
    var c' := c.(statements := c.statements + [InsertTask(taskId, task)]);
    if taskId in c.db.tasks then Written(c', Some(Throwable(true, DuplicateKey(taskId))))
    else Written(c'.(db := c.db.(tasks := c.db.tasks[taskId := task])), None)
  }

  /**
   * UPDATE execution ... WHERE id: every column but the definition id is set;
   * a missing row is not an error, the statement just matches nothing.
   */
  function UpdateExecutionRow(c: Conn, row: Row): (r: Conn)
    ensures SameTransaction(c, r)
    ensures r.statements == c.statements + [UpdateExecution(row)]
    ensures r.db.executions.Keys == c.db.executions.Keys
    ensures row.id in c.db.executions ==> r.db.executions[row.id] == row.(def := c.db.executions[row.id].def)
    ensures forall k :: k in c.db.executions && k != row.id ==> r.db.executions[k] == c.db.executions[k]
    ensures r.db.definitions == c.db.definitions && r.db.subscriptions == c.db.subscriptions && r.db.tasks == c.db.tasks
  {
    var c' := c.(statements := c.statements + [UpdateExecution(row)]);
    if row.id in c.db.executions then
      var stored := row.(def := c.db.executions[row.id].def);
      c'.(db := c.db.(executions := c.db.executions[row.id := stored]))
    else c'
  }

  /** DELETE FROM execution WHERE id. */
  function DeleteExecutionRow(c: Conn, id: Id): (r: Conn)
    ensures SameTransaction(c, r)
    ensures r.statements == c.statements + [DeleteExecution(id)]
    ensures id !in r.db.executions
    ensures forall k :: k != id ==> (k in r.db.executions <==> k in c.db.executions)
    ensures forall k :: k in r.db.executions ==> r.db.executions[k] == c.db.executions[k]
    ensures r.db.definitions == c.db.definitions && r.db.subscriptions == c.db.subscriptions && r.db.tasks == c.db.tasks
  {
    c.(db := c.db.(executions := c.db.executions - {id}), statements := c.statements + [DeleteExecution(id)])
  }

  /** `c'` continues `c` in the same transaction: statements were only appended, of any kind. */
  ghost predicate Extends(c: Conn, c': Conn) {
    && SameTransaction(c, c')
    && |c.statements| <= |c'.statements|
    && c'.statements[..|c.statements|] == c.statements
  }

  /**
   * Whatever statements follow BEGIN in the same transaction, ROLLBACK
   * restores every table to what it was before BEGIN, closes the
   * transaction, and the log still shows BEGIN where it was sent.
   */
  lemma RollbackRestores(c: Conn, c': Conn)
    requires Extends(BeginTransaction(c), c')
    ensures var r := RollbackTransaction(c');
      && r.db == c.db && !r.inTransaction
      && r.statements[..|c.statements| + 1] == c.statements + [Begin]
  {
    var n := |c.statements|;
    assert RollbackTransaction(c').statements[..n + 1] == c'.statements[..n + 1];
  }
}
