/**
 * performExecution: transaction boundaries, the sync passes before and
 * after the callback, the execution depth, and when the tracked set is
 * emptied.
 *
 * The callback is arbitrary code run by AbstractEngine::performExecution,
 * which raises the execution depth before it and lowers it again afterwards.
 * Here the callback is a function from the engine state it is handed (the
 * depth already raised) to the state it leaves behind and a returned value
 * or a throwable. Inside, it may run commands that write any table,
 * register or find executions, or call performExecution again; what the
 * engine relies on is stated once, as `SoundCallback`.
 */
module UnitOfWork {
  import opened Wrappers
  import opened Store
  import opened Executions
  import opened OrderedMaps
  import opened Synchronization

  /** The engine's state: connection, tracked executions, live objects, execution depth. */
  datatype EngineState = EngineState(conn: Conn, executions: Tracked, tree: Tree, depth: nat)

  datatype CallbackResult = Returned(state: EngineState, value: string) | Threw(state: EngineState, error: Throwable)

  type Callback = EngineState -> CallbackResult

  /** What performExecution hands back to its caller: the callback's value, or a throwable. */
  datatype Outcome = Value(value: string) | Thrown(error: Throwable)

  ghost predicate ValidState(s: EngineState) {
    Acyclic(s.tree) && TrackedIn(s.executions, s.tree)
  }

  /**
   * What the callback does to the state it is handed: the objects stay
   * acyclic and every tracked info points into them, statements of any kind
   * are only appended within the same transaction, and the depth is as it
   * found it.
   */
  ghost predicate SoundAt(cb: Callback, s: EngineState) {
    var r := cb(s).state;
    ValidState(r) && Extends(s.conn, r.conn) && r.depth == s.depth
  }

  /** The callback behaves so in every valid state one level or more deep. */
  ghost predicate SoundCallback(cb: Callback) {
    forall s {:trigger SoundAt(cb, s)} | ValidState(s) && s.depth > 0 :: SoundAt(cb, s)
  }

  lemma TrackedInLarger(tracked: Tracked, t: Tree, t': Tree)
    requires TrackedIn(tracked, t) && t.Keys <= t'.Keys
    ensures TrackedIn(tracked, t')
  {
  }

  /** Whether this call begins the transaction (and so alone may end it). */
  ghost predicate Opens(handleTransactions: bool, s: EngineState) {
    s.depth == 0 && handleTransactions && !s.conn.inTransaction
  }

  /** The connection part of `Follows`: same transaction, only execution-table writes appended. */
  ghost predicate Appends(c: Conn, c': Conn) {
    && Extends(c, c')
    && (forall i :: |c.statements| <= i < |c'.statements| ==> c'.statements[i].IsExecutionWrite())
    && c'.db.definitions == c.db.definitions
    && c'.db.subscriptions == c.db.subscriptions
    && c'.db.tasks == c.db.tasks
  }

  /** A sync pass only appends execution writes and keeps every tracked info pointing into the tree. */
  lemma SyncAllKeeps(x: Ext, t: Tree, c: Conn, tracked: Tracked)
    requires Acyclic(t) && TrackedIn(tracked, t)
    ensures Appends(c, SyncAll(x, t, RankOf(t), c, tracked).pass.conn)
    ensures TrackedIn(SyncAll(x, t, RankOf(t), c, tracked).pass.tracked, t)
  {
    var s := SyncAll(x, t, RankOf(t), c, tracked);
    assert InfosIn(Pass(c, tracked, map[]), t);
    assert InfosIn(s.pass, t);
  }

  /** After a successful pre-sync pass: the callback, then the post-sync pass if it returned. */
  datatype Phase = Phase(conn: Conn, tracked: Tracked, tree: Tree, outcome: Outcome)

  /** The connection once the transaction, if this call opens it, has begun. */
  ghost function StartConn(handleTransactions: bool, s: EngineState): Conn {
    if Opens(handleTransactions, s) then BeginTransaction(s.conn) else s.conn
  }

  /** The sync pass before the callback runs (outside the try block). */
  ghost function PreSync(x: Ext, handleTransactions: bool, s: EngineState): (r: Step)
    requires ValidState(s)
    ensures Appends(StartConn(handleTransactions, s), r.pass.conn)
    ensures TrackedIn(r.pass.tracked, s.tree)
  {
    SyncAllKeeps(x, s.tree, StartConn(handleTransactions, s), s.executions);
    SyncAll(x, s.tree, RankOf(s.tree), StartConn(handleTransactions, s), s.executions)
  }

  /**
   * The state the callback is handed: the connection and tracked set the
   * pre-sync pass left, one level deeper, so that a performExecution the
   * callback runs never opens or ends a transaction.
   */
  ghost function CallbackInput(x: Ext, handleTransactions: bool, s: EngineState): (r: EngineState)
    requires ValidState(s)
    ensures ValidState(r) && r.depth == s.depth + 1 && r.tree == s.tree
    ensures forall ht :: !Opens(ht, r)
  {
    var pre := PreSync(x, handleTransactions, s);
    EngineState(pre.pass.conn, pre.pass.tracked, s.tree, s.depth + 1)
  }

  /**
   * The try block: the callback runs on `s`; if it returned, the post-sync
   * pass runs over the objects and the tracked set the callback left, and
   * appends only execution writes after the callback's own statements.
   */
  ghost function CallbackPhase(x: Ext, cb: Callback, s: EngineState): (r: Phase)
    requires ValidState(s) && s.depth > 0 && SoundCallback(cb)
    ensures r.tree == cb(s).state.tree && Acyclic(r.tree) && TrackedIn(r.tracked, r.tree)
    ensures Appends(cb(s).state.conn, r.conn)
    ensures Extends(s.conn, r.conn)
  {
    assert SoundAt(cb, s);
    match cb(s)
    case Threw(s', e) =>
      Phase(s'.conn, s'.executions, s'.tree, Thrown(e))
    case Returned(s', v) =>
      SyncAllKeeps(x, s'.tree, s'.conn, s'.executions);
      var post := SyncAll(x, s'.tree, RankOf(s'.tree), s'.conn, s'.executions);
      ExtendsTrans(s.conn, s'.conn, post.pass.conn);
      Phase(post.pass.conn, post.pass.tracked, s'.tree,
            if post.failure.Some? then Thrown(post.failure.value) else Value(v))
  }

  lemma ExtendsTrans(c: Conn, c': Conn, c'': Conn)
    requires Extends(c, c') && Extends(c', c'')
    ensures Extends(c, c'')
  {
    var n, n' := |c.statements|, |c'.statements|;
    assert c''.statements[..n] == c''.statements[..n'][..n];
  }

  /**
   * performExecution($callback). The depth the callback hands back, lowered
   * again, is the depth afterwards; a call that did not open the transaction
   * leaves it as it found it.
   */
  ghost function PerformExecution(x: Ext, handleTransactions: bool, s: EngineState, cb: Callback): (r: (EngineState, Outcome))
    requires ValidState(s) && SoundCallback(cb)
    ensures ValidState(r.0) && r.0.depth == s.depth
    ensures !Opens(handleTransactions, s) ==> Extends(s.conn, r.0.conn)
  {
    var opens := Opens(handleTransactions, s);
    var pre := PreSync(x, handleTransactions, s);
    if pre.failure.Some? then
      (EngineState(pre.pass.conn, pre.pass.tracked, s.tree, s.depth), Thrown(pre.failure.value))
    else
      var inner := CallbackInput(x, handleTransactions, s);
      assert SoundAt(cb, inner);
      ExtendsTrans(StartConn(handleTransactions, s), inner.conn, CallbackPhase(x, cb, inner).conn);
      Try(x, opens, inner, cb)
  }

  /** The try, catch and finally blocks, handed the state the callback runs on. */
  ghost function Try(x: Ext, opens: bool, inner: EngineState, cb: Callback): (r: (EngineState, Outcome))
    requires ValidState(inner) && inner.depth > 0 && SoundCallback(cb)
  {
    assert SoundAt(cb, inner);
    Settle(opens, CallbackPhase(x, cb, inner), cb(inner).state.depth - 1)
  }

  /**
   * The end of the call once the pre-sync pass succeeded: the opener commits
   * on success and rolls back on an exception (not on an \Error); either way
   * its `finally` empties the tracked set.
   */
  ghost function Settle(opens: bool, ph: Phase, depth: nat): (r: (EngineState, Outcome))
    ensures r.0.tree == ph.tree && r.0.depth == depth && r.1 == ph.outcome
    ensures r.0.executions == if opens then [] else ph.tracked
    ensures !opens ==> r.0.conn == ph.conn
  {
    var c := if !opens then ph.conn
             else if ph.outcome.Value? then CommitTransaction(ph.conn)
             else if ph.outcome.error.isException then RollbackTransaction(ph.conn)
             else ph.conn;
    (EngineState(c, if opens then [] else ph.tracked, ph.tree, depth), ph.outcome)
  }

  /** Only execution writes follow index `from` in `stmts`, up to the last statement, which is `last`. */
  ghost predicate WritesThen(stmts: seq<Statement>, from: nat, last: Statement) {
    && from < |stmts| && stmts[|stmts| - 1] == last
    && forall i :: from <= i < |stmts| - 1 ==> stmts[i].IsExecutionWrite()
  }

  /**
   * The statements an opener's call sends, in order: BEGIN and the pre-sync
   * pass's execution writes make the connection `inner` the callback is
   * handed; the callback's own statements make `cbc`; then only execution
   * writes, and `last`.
   */
  ghost predicate Bracketed(c: Conn, inner: Conn, cbc: Conn, c': Conn, last: Statement) {
    && |c.statements| < |inner.statements| <= |cbc.statements| <= |c'.statements|
    && inner.statements[..|c.statements| + 1] == c.statements + [Begin]
    && (forall i :: |c.statements| < i < |inner.statements| ==> inner.statements[i].IsExecutionWrite())
    && cbc.statements[..|inner.statements|] == inner.statements
    && c'.statements[..|cbc.statements|] == cbc.statements
    && WritesThen(c'.statements, |cbc.statements|, last)
  }

  lemma AppendsTrans(c: Conn, c': Conn, c'': Conn)
    requires Appends(c, c') && Appends(c', c'')
    ensures Appends(c, c'')
  {
    var n, n' := |c.statements|, |c'.statements|;
    assert c''.statements[..n] == c''.statements[..n'][..n];
  }

  /** How an opener's call ends once the pre-sync pass succeeded: the phase's statements, then `last`. */
  lemma OpenerBracketed(x: Ext, handleTransactions: bool, s: EngineState, cb: Callback, c': Conn, last: Statement)
    requires ValidState(s) && SoundCallback(cb) && Opens(handleTransactions, s)
    requires PreSync(x, handleTransactions, s).failure.None?
    requires var inner := CallbackInput(x, handleTransactions, s);
      c'.statements == CallbackPhase(x, cb, inner).conn.statements + [last]
    ensures var inner := CallbackInput(x, handleTransactions, s);
      Bracketed(s.conn, inner.conn, cb(inner).state.conn, c', last)
  {
    var inner := CallbackInput(x, handleTransactions, s);
    assert SoundAt(cb, inner);
    var cbc := cb(inner).state.conn;
    var ph := CallbackPhase(x, cb, inner);
    var n, m := |s.conn.statements|, |cbc.statements|;
    assert inner.conn.statements[..n + 1] == BeginTransaction(s.conn).statements;
    PrefixBeforeLast(ph.conn.statements, last, m);
  }

  lemma PrefixBeforeLast(stmts: seq<Statement>, last: Statement, m: nat)
    requires m <= |stmts|
    ensures (stmts + [last])[..m] == stmts[..m]
  {
  }

  /**
   * A call that finds a transaction already open (or runs nested, or does not
   * handle transactions) neither begins nor ends one: BEGIN, COMMIT and
   * ROLLBACK appear only if the callback sent them, and the tracked set is
   * left as the passes and the callback left it.
   */
  lemma NotOpenerLeavesTransaction(x: Ext, handleTransactions: bool, s: EngineState, cb: Callback)
    requires ValidState(s) && SoundCallback(cb) && !Opens(handleTransactions, s)
    ensures var pre := PreSync(x, handleTransactions, s);
      var r := PerformExecution(x, handleTransactions, s, cb).0;
      && Appends(s.conn, pre.pass.conn)
      && (pre.failure.Some? ==> r.conn == pre.pass.conn && r.executions == pre.pass.tracked)
      && (pre.failure.None? ==>
            var inner := CallbackInput(x, handleTransactions, s);
            && Extends(inner.conn, cb(inner).state.conn)
            && Appends(cb(inner).state.conn, r.conn)
            && r.executions == CallbackPhase(x, cb, inner).tracked)
  {
    var pre := PreSync(x, handleTransactions, s);
    if pre.failure.None? {
      var inner := CallbackInput(x, handleTransactions, s);
      assert SoundAt(cb, inner);
    }
  }

  /**
   * When this call opens the transaction and everything succeeds: BEGIN, the
   * pre-sync writes, the callback's statements, the post-sync writes, then
   * COMMIT; the callback's value is returned, the rows it wrote outside the
   * execution table are committed, and the tracked set is emptied.
   */
  lemma OpenerCommitsOnSuccess(x: Ext, handleTransactions: bool, s: EngineState, cb: Callback)
    requires ValidState(s) && SoundCallback(cb) && Opens(handleTransactions, s)
    requires PerformExecution(x, handleTransactions, s, cb).1.Value?
    ensures PreSync(x, handleTransactions, s).failure.None?
    ensures var (s', out) := PerformExecution(x, handleTransactions, s, cb);
      var inner := CallbackInput(x, handleTransactions, s);
      var cbc := cb(inner).state.conn;
      && cb(inner).Returned? && out.value == cb(inner).value
      && Bracketed(s.conn, inner.conn, cbc, s'.conn, Commit)
      && !s'.conn.inTransaction
      && s'.conn.db.subscriptions == cbc.db.subscriptions && s'.conn.db.tasks == cbc.db.tasks
      && s'.executions == []
  {
    var inner := CallbackInput(x, handleTransactions, s);
    var ph := CallbackPhase(x, cb, inner);
    OpenerBracketed(x, handleTransactions, s, cb, CommitTransaction(ph.conn), Commit);
  }

  /**
   * When this call opened the transaction and the callback or the post-sync
   * pass raised an exception: ROLLBACK follows the writes, every table is as
   * it was before the call, whatever the callback wrote, the same exception
   * is rethrown and the tracked set is emptied.
   */
  lemma OpenerRollsBackOnException(x: Ext, handleTransactions: bool, s: EngineState, cb: Callback)
    requires ValidState(s) && SoundCallback(cb) && Opens(handleTransactions, s)
    requires PreSync(x, handleTransactions, s).failure.None?
    requires PerformExecution(x, handleTransactions, s, cb).1.Thrown?
    requires PerformExecution(x, handleTransactions, s, cb).1.error.isException
    ensures var s' := PerformExecution(x, handleTransactions, s, cb).0;
      var inner := CallbackInput(x, handleTransactions, s);
      && s'.conn.db == s.conn.db
      && !s'.conn.inTransaction
      && Bracketed(s.conn, inner.conn, cb(inner).state.conn, s'.conn, Rollback)
      && s'.executions == []
  {
    var inner := CallbackInput(x, handleTransactions, s);
    var ph := CallbackPhase(x, cb, inner);
    OpenerBracketed(x, handleTransactions, s, cb, RollbackTransaction(ph.conn), Rollback);
  }

  /**
   * An \Error (not an exception) from the callback or the post-sync pass
   * skips the catch block: no ROLLBACK is sent and the transaction stays
   * open, but `finally` still empties the tracked set.
   */
  lemma ErrorLeavesTransactionOpen(x: Ext, handleTransactions: bool, s: EngineState, cb: Callback)
    requires ValidState(s) && SoundCallback(cb) && Opens(handleTransactions, s)
    requires PreSync(x, handleTransactions, s).failure.None?
    requires PerformExecution(x, handleTransactions, s, cb).1.Thrown?
    requires !PerformExecution(x, handleTransactions, s, cb).1.error.isException
    ensures var s' := PerformExecution(x, handleTransactions, s, cb).0;
      var inner := CallbackInput(x, handleTransactions, s);
      && Extends(BeginTransaction(s.conn), s'.conn)
      && Appends(cb(inner).state.conn, s'.conn)
      && s'.conn.inTransaction
      && s'.executions == []
  {
    var inner := CallbackInput(x, handleTransactions, s);
    assert SoundAt(cb, inner);
    ExtendsTrans(BeginTransaction(s.conn), inner.conn, CallbackPhase(x, cb, inner).conn);
  }

  /**
   * A failure in the sync pass before the callback is raised outside the
   * try block: the callback never runs, the throwable reaches the caller,
   * nothing is rolled back or committed (an opened transaction stays open)
   * and the tracked set is not emptied.
   */
  lemma PreSyncFailureEscapes(x: Ext, handleTransactions: bool, s: EngineState, cb: Callback)
    requires ValidState(s) && SoundCallback(cb)
    requires PreSync(x, handleTransactions, s).failure.Some?
    ensures var (s', out) := PerformExecution(x, handleTransactions, s, cb);
      && out == Thrown(PreSync(x, handleTransactions, s).failure.value)
      && s'.tree == s.tree
      && s'.executions == PreSync(x, handleTransactions, s).pass.tracked
      && Appends(StartConn(handleTransactions, s), s'.conn)
      && (Opens(handleTransactions, s) || s.conn.inTransaction ==> s'.conn.inTransaction)
  {
  }

  /**
   * A throwable from the callback is rethrown unchanged and the post-sync
   * pass does not run: a call that did not open the transaction ends with
   * the connection, objects and tracked set the callback left.
   */
  lemma CallbackThrowableRethrown(x: Ext, handleTransactions: bool, s: EngineState, cb: Callback)
    requires ValidState(s) && SoundCallback(cb)
    requires PreSync(x, handleTransactions, s).failure.None?
    requires cb(CallbackInput(x, handleTransactions, s)).Threw?
    ensures var (s', out) := PerformExecution(x, handleTransactions, s, cb);
      var r := cb(CallbackInput(x, handleTransactions, s));
      && out == Thrown(r.error)
      && s'.tree == r.state.tree
      && (!Opens(handleTransactions, s) ==> s'.conn == r.state.conn && s'.executions == r.state.executions)
  {
  }

  /** What a performExecution run inside a callback hands back to it. */
  function AsCallbackResult(r: (EngineState, Outcome)): (cr: CallbackResult)
    ensures cr.state == r.0
    ensures cr.Returned? <==> r.1.Value?
    ensures cr.Returned? ==> cr.value == r.1.value
    ensures cr.Threw? ==> cr.error == r.1.error
  {
    match r.1
    case Value(v) => Returned(r.0, v)
    case Thrown(e) => Threw(r.0, e)
  }

  /** A callback that itself calls performExecution($inner). */
  ghost function Nested(x: Ext, handleTransactions: bool, inner: Callback): Callback
    requires SoundCallback(inner)
  {
    s => if ValidState(s) then AsCallbackResult(PerformExecution(x, handleTransactions, s, inner)) else Returned(s, "")
  }

  /**
   * Nesting is sound: a performExecution run from inside a callback is one
   * level deep, so it neither begins nor ends a transaction, and it gives
   * the depth back as it found it.
   */
  lemma NestedIsSound(x: Ext, handleTransactions: bool, inner: Callback)
    requires SoundCallback(inner)
    ensures SoundCallback(Nested(x, handleTransactions, inner))
  {
    forall s | ValidState(s) && s.depth > 0
      ensures SoundAt(Nested(x, handleTransactions, inner), s)
    {
      assert !Opens(handleTransactions, s);
    }
  }
}
