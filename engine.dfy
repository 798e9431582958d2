/**
 * The ProcessEngine object: its connection, the tracked executions, the live
 * execution objects and the execution depth, with the methods that keep the
 * execution table in step with the live objects. Each method is proved equal
 * to the corresponding function of Synchronization or UnitOfWork.
 */
module Engine {
  import opened Wrappers
  import opened Store
  import opened OrderedMaps
  import opened Executions
  import opened Synchronization
  import opened UnitOfWork
  import opened Reconstruction
  import opened Finding

  /** ProcessEngine::SUB_FLAG_SIGNAL and SUB_FLAG_MESSAGE: the kinds of event subscription. */
  const SubFlagSignal: int := 1
  const SubFlagMessage: int := 2

  /** Identity of a delegate task object built by the factory. */
  type TaskHandle = nat

  /** DelegateTaskFactoryInterface::createDelegateTask($typeName). */
  datatype DelegateTaskFactory = DelegateTaskFactory(create: string -> TaskHandle)

  datatype TaskOrError = Task(task: TaskHandle) | Refused(error: Throwable)

  /** What registerExecution is handed: a VirtualExecution, or an Execution of some other class. */
  datatype Candidate = Virtual(handle: Handle) | Foreign(className: string)

  /** Events handed to the dispatcher by notify(). */
  datatype Event = UserTaskCreated(taskId: Id, task: TaskRow)

  /**
   * syncExecution($execution, $info, $syncChildExecutions). The connection,
   * the tracked array and the enclosing foreach's copy travel together as a
   * Pass; the calling engine method stores the result back into its fields.
   */
  method SyncExecutionOn(x: Ext, t: Tree, ghost rank: map<Handle, nat>, p: Pass, h: Handle, ref: InfoRef, syncChildren: bool)
      returns (s: Step)
    requires Linked(t) && Ranked(t, rank) && h in t && Resolves(p, ref)
    ensures s == SyncExecution(x, t, rank, p, h, ref, syncChildren)
    decreases Above(rank, rank[h]), 1
  {
    var data := Serialize(x, t, rank, h);
    var status := x.classify(Deref(p, ref).clean, data);
    if status == Removed {
      SyncRemovedCase(x, t, rank, p, h, ref, syncChildren);
      s := SyncChildExecutionsOn(x, t, rank, p, h);
      if s.failure.None? {
        s := Step(Unset(s.pass.(conn := DeleteExecutionRow(s.pass.conn, data.id)), t[h].id), None);
      }
    } else {
      s := Step(p, None);
      if status == Modified {
        SyncModifiedCase(x, t, rank, p, h, ref, syncChildren);
        s := Step(Refresh(p.(conn := UpdateExecutionRow(p.conn, data)), ref, data), None);
      } else if status == New {
        SyncNewCase(x, t, rank, p, h, ref, syncChildren);
        var w := InsertExecutionRow(p.conn, data);
        if w.failure.Some? {
          s := Step(p.(conn := w.conn), w.failure);
        } else {
          s := Step(Refresh(p.(conn := w.conn), ref, data), None);
        }
      } else {
        SyncUnchangedCase(x, t, rank, p, h, ref, syncChildren);
      }
      if s.failure.None? && syncChildren {
        s := SyncChildExecutionsOn(x, t, rank, s.pass, h);
      }
    }
  }

  /** foreach($execution->findChildExecutions() as $child): sync each child with its live info. */
  method SyncChildExecutionsOn(x: Ext, t: Tree, ghost rank: map<Handle, nat>, p: Pass, parent: Handle)
      returns (s: Step)
    requires Linked(t) && Ranked(t, rank) && parent in t
    ensures s == SyncChildren(x, t, rank, p, parent, t[parent].children)
    decreases Above(rank, rank[parent]), 0
  {
    var cs := t[parent].children;
    s := Step(p, None);
    var i := 0;
    while i < |cs|
      invariant 0 <= i <= |cs| && s.failure.None?
      invariant SyncChildren(x, t, rank, p, parent, cs) == SyncChildren(x, t, rank, s.pass, parent, cs[i..])
    {
      var key := t[cs[i]].id;
      if Get(s.pass.tracked, key).None? {
        return Step(s.pass, Some(Throwable(false, UntrackedChild(key))));
      }
      AboveShrinks(t, rank, parent, cs[i]);
      s := SyncExecutionOn(x, t, rank, s.pass, cs[i], Live(key), true);
      if s.failure.Some? {
        return;
      }
      assert cs[i..][1..] == cs[i + 1..];
      i := i + 1;
    }
  }

  /** foreach($this->executions as $info) syncExecution($info->getExecution(), $info), over a copy of the array. */
  method SyncPass(x: Ext, t: Tree, ghost rank: map<Handle, nat>, c: Conn, tracked: Tracked) returns (s: Step)
    requires Linked(t) && Ranked(t, rank) && TrackedIn(tracked, t)
    ensures s == SyncAll(x, t, rank, c, tracked)
  {
    ghost var p0 := Pass(c, tracked, map[]);
    var keys := Keys(tracked);
    forall k | k in keys ensures Resolvable(p0, k) {
      var j :| 0 <= j < |keys| && keys[j] == k;
      assert tracked[j].key == k;
    }
    s := Step(Pass(c, tracked, map[]), None);
    var i := 0;
    while i < |keys|
      invariant 0 <= i <= |keys| && s.failure.None?
      invariant InfosIn(s.pass, t) && forall k :: k in keys[i..] ==> Resolvable(s.pass, k)
      invariant SyncAll(x, t, rank, c, tracked) == SyncEach(x, t, rank, s.pass, keys[i..])
    {
      var ref := Visit(s.pass, keys[i]);
      s := SyncExecutionOn(x, t, rank, s.pass, Deref(s.pass, ref).exec, ref, true);
      if s.failure.Some? {
        return;
      }
      assert keys[i..][1..] == keys[i + 1..];
      i := i + 1;
    }
  }

  /** syncExecutionState over the engine's state. */
  method SyncStateOn(x: Ext, t: Tree, ghost rank: map<Handle, nat>, c: Conn, tracked: Tracked, h: Handle) returns (s: Step)
    requires Linked(t) && Ranked(t, rank) && h in t && TrackedIn(tracked, t)
    ensures s == SyncState(x, t, rank, c, tracked, h)
    ensures TrackedIn(s.pass.tracked, t)
  {
    s := Step(Pass(c, tracked, map[]), None);
    if Get(tracked, t[h].id).Some? {
      assert InfosIn(s.pass, t);
      s := SyncExecutionOn(x, t, rank, s.pass, h, Live(t[h].id), false);
    }
  }

  /** registerExecution of a VirtualExecution over the engine's state. */
  method RegisterOn(x: Ext, t: Tree, ghost rank: map<Handle, nat>, c: Conn, tracked: Tracked, h: Handle, clean: Option<Row>) returns (s: Step)
    requires Linked(t) && Ranked(t, rank) && h in t && TrackedIn(tracked, t)
    ensures s == Register(x, t, rank, c, tracked, h, clean)
    ensures TrackedIn(s.pass.tracked, t)
  {
    s := Step(Pass(c, Put(tracked, t[h].id, Info(h, clean)), map[]), None);
    assert InfosIn(s.pass, t);
    if x.classify(clean, Serialize(x, t, rank, h)) == New {
      s := SyncExecutionOn(x, t, rank, s.pass, h, Live(t[h].id), true);
    }
  }

  /**
   * The body of performExecution over the engine's state: BEGIN if this is
   * the outermost call, the pre-sync pass, then the callback handed the
   * state one level deeper.
   */
  method PerformOn(x: Ext, handleTransactions: bool, s: EngineState, callback: Callback) returns (r: EngineState, outcome: Outcome)
    requires ValidState(s) && SoundCallback(callback)
    ensures (r, outcome) == PerformExecution(x, handleTransactions, s, callback)
  {
    var opens := s.depth == 0 && handleTransactions && !s.conn.inTransaction;
    var pre := SyncPass(x, s.tree, RankOf(s.tree), if opens then BeginTransaction(s.conn) else s.conn, s.executions);
    assert pre == PreSync(x, handleTransactions, s);
    if pre.failure.Some? {
      return EngineState(pre.pass.conn, pre.pass.tracked, s.tree, s.depth), Thrown(pre.failure.value);
    }

    var inner := EngineState(pre.pass.conn, pre.pass.tracked, s.tree, s.depth + 1);
    assert inner == CallbackInput(x, handleTransactions, s);
    r, outcome := TryOn(x, opens, inner, callback);
  }

  /**
   * The try, catch and finally blocks, handed the state after the pre-sync
   * pass one level deeper: the callback runs and the depth is lowered again
   * (AbstractEngine's part); the post-sync pass runs over the objects and
   * tracked set the callback left, if it returned; then commit, or roll back
   * on an exception, and the opener forgets the tracked set.
   */
  method TryOn(x: Ext, opens: bool, inner: EngineState, callback: Callback) returns (r: EngineState, outcome: Outcome)
    requires ValidState(inner) && inner.depth > 0 && SoundCallback(callback)
    ensures (r, outcome) == Try(x, opens, inner, callback)
  {
    assert SoundAt(callback, inner);
    var result := callback(inner);
    var depth := result.state.depth - 1;
    var s := result.state;
    var ph;
    if result.Threw? {
      ph := Phase(s.conn, s.executions, s.tree, Thrown(result.error));
    } else {
      var post := SyncPass(x, s.tree, RankOf(s.tree), s.conn, s.executions);
      ph := Phase(post.pass.conn, post.pass.tracked, s.tree,
                  if post.failure.Some? then Thrown(post.failure.value) else Value(result.value));
    }
    assert ph == CallbackPhase(x, callback, inner);
    r, outcome := SettleOn(opens, ph, depth);
  }

  /** The catch and finally blocks: commit or roll back if this call opened the transaction, then forget the tracked set. */
  method SettleOn(opens: bool, ph: Phase, depth: nat) returns (r: EngineState, outcome: Outcome)
    ensures (r, outcome) == Settle(opens, ph, depth)
  {
    var conn, executions := ph.conn, ph.tracked;
    outcome := ph.outcome;
    if opens {
      if outcome.Value? {
        conn := CommitTransaction(conn);
      } else if outcome.error.isException {
        conn := RollbackTransaction(conn);
      }
      executions := [];
    }
    r := EngineState(conn, executions, ph.tree, depth);
  }

  /** The identity the next new execution object gets: one past every identity in use. */
  method NextHandleOf(t: Tree) returns (b: Handle)
    ensures b == NextHandle(t.Keys)
  {
    var rest := t.Keys;
    b := 0;
    while rest != {}
      invariant rest <= t.Keys
      invariant forall h :: h in t.Keys && h !in rest ==> h < b
      invariant b == 0 || (b - 1 in t.Keys && b - 1 !in rest)
      decreases rest
    {
      var h :| h in rest;
      if b <= h {
        b := h + 1;
      }
      rest := rest - {h};
    }
    NextHandleUnique(t.Keys, b);
  }

  /** One turn of the fetch loop extends the three collections by the row at position `i`. */
  lemma FetchStep(x: Ext, db: Db, fetched: seq<Id>, base: nat, defs: map<Id, Definition>, i: nat)
    requires forall i :: 0 <= i < |fetched| ==> Joined(db, fetched[i])
    requires i < |fetched| && CachedDefs(x, db, defs) && fetched[i] in db.executions && db.executions[fetched[i]].def in defs
    ensures var row := db.executions[fetched[i]];
      && Loaded(x, db, fetched[..i + 1], base) == Loaded(x, db, fetched[..i], base)[base + i := Load(x, defs, row)]
      && HandleMap(fetched[..i + 1], base) == HandleMap(fetched[..i], base)[fetched[i] := base + i]
      && ParentsOf(db, fetched[..i + 1]) ==
         if row.pid.Some? then Put(ParentsOf(db, fetched[..i]), fetched[i], row.pid.value) else ParentsOf(db, fetched[..i])
  {
    assert fetched[..i + 1][..i] == fetched[..i] && fetched[..i + 1][i] == fetched[i];
    assert AllDefs(x, db)[db.executions[fetched[i]].def] == defs[db.executions[fetched[i]].def];
  }

  /**
   * The fetch loop of findExecution: for each row in fetch order, the
   * definition unserialised once and cached, a new object at the next
   * identity, `$executions[$id]` and, for a row with a parent id, `$parents[$id]`.
   */
  method FetchOn(x: Ext, db: Db, fetched: seq<Id>, base: nat) returns (loaded: Tree, handles: map<Id, Handle>, parents: OMap<Id, Id>)
    requires forall i :: 0 <= i < |fetched| ==> Joined(db, fetched[i])
    ensures loaded == Loaded(x, db, fetched, base)
    ensures handles == HandleMap(fetched, base)
    ensures parents == ParentsOf(db, fetched)
  {
    var defs: map<Id, Definition> := map[];
    loaded, handles, parents := map[], map[], [];
    var i := 0;
    while i < |fetched|
      invariant 0 <= i <= |fetched|
      invariant CachedDefs(x, db, defs)
      invariant loaded == Loaded(x, db, fetched[..i], base)
      invariant handles == HandleMap(fetched[..i], base)
      invariant parents == ParentsOf(db, fetched[..i])
    {
      assert Joined(db, fetched[i]);
      var row := db.executions[fetched[i]];
      if row.def !in defs {
        defs := defs[row.def := x.unpackDefinition(db.definitions[row.def])];
      }
      FetchStep(x, db, fetched, base, defs, i);
      loaded := loaded[base + i := Load(x, defs, row)];
      handles := handles[fetched[i] := base + i];
      if row.pid.Some? {
        parents := Put(parents, fetched[i], row.pid.value);
      }
      i := i + 1;
    }
    assert fetched[..i] == fetched;
  }

  /** The parent loop of findExecution: each child gets its parent, and the parent the child, in `$parents` order. */
  method LinkOn(t0: Tree, handles: map<Id, Handle>, parents: OMap<Id, Id>) returns (t: Tree)
    requires forall k :: k in handles ==> handles[k] in t0
    requires forall e :: e in parents ==> e.key in handles
    ensures t == LinkAll(t0, handles, parents)
  {
    t := t0;
    var j := 0;
    while j < |parents|
      invariant 0 <= j <= |parents| && t.Keys == t0.Keys
      invariant LinkAll(t, handles, parents[j..]) == LinkAll(t0, handles, parents)
    {
      var e := parents[j];
      assert e in parents && parents[j..][0] == e && parents[j..][1..] == parents[j + 1..];
      if e.value in handles {
        var c, p := handles[e.key], handles[e.value];
        t := t[c := t[c].(parent := Some(p))];
        t := t[p := t[p].(children := t[p].children + [c])];
      }
      j := j + 1;
    }
  }

  /** The register loop of findExecution: each new object registered with its own serialisation; a throwable leaves the loop. */
  method RegisterAllOn(x: Ext, t: Tree, ghost rank: map<Handle, nat>, c: Conn, tracked: Tracked, hs: seq<Handle>)
      returns (conn: Conn, tracked': Tracked, failure: Option<Throwable>)
    requires Linked(t) && Ranked(t, rank) && TrackedIn(tracked, t)
    requires forall i :: 0 <= i < |hs| ==> hs[i] in t
    ensures var s := RegisterAll(x, t, rank, c, tracked, hs);
      conn == s.pass.conn && tracked' == s.pass.tracked && failure == s.failure
  {
    conn, tracked', failure := c, tracked, None;
    var k := 0;
    while k < |hs| && failure.None?
      invariant 0 <= k <= |hs| && TrackedIn(tracked', t)
      invariant failure.None? ==> RegisterAll(x, t, rank, c, tracked, hs) == RegisterAll(x, t, rank, conn, tracked', hs[k..])
      invariant failure.Some? ==> var s := RegisterAll(x, t, rank, c, tracked, hs);
        conn == s.pass.conn && tracked' == s.pass.tracked && failure == s.failure
    {
      RegisterAllCons(x, t, rank, conn, tracked', hs[k..]);
      assert hs[k..][0] == hs[k] && hs[k..][1..] == hs[k + 1..];
      var s := RegisterOn(x, t, rank, conn, tracked', hs[k], Some(Serialize(x, t, rank, hs[k])));
      conn, tracked', failure := s.pass.conn, s.pass.tracked, s.failure;
      k := k + 1;
    }
  }

  /**
   * findExecution($id) over the engine's state, the query returning the rows
   * `fetched` in that order: a tracked id is answered at once; otherwise the
   * fetch loop, the parent loop and the register loop, and the id looked up again.
   */
  method FindOn(x: Ext, s: EngineState, id: Id, fetched: seq<Id>) returns (r: EngineState, result: FindResult)
    requires ValidState(s) && Keyed(s.conn.db) && StoredAcyclic(s.conn.db) && Fetches(s.conn.db, id, fetched)
    ensures (r, result) == FindExecution(x, s, id, fetched)
  {
    var cached := Get(s.executions, id);
    if cached.Some? {
      FindCached(x, s, id, fetched);
      return s, Found(cached.value.exec);
    }
    var db := s.conn.db;
    FetchedJoined(db, id, fetched);
    var base := NextHandleOf(s.tree);
    var loaded, handles, parents := FetchOn(x, db, fetched, base);
    ParentsHandled(db, fetched, base);
    var t := LinkOn(s.tree + loaded, handles, parents);
    assert t == Rebuilt(x, db, s.tree, fetched);
    RebuiltShape(x, db, s.tree, fetched);
    TrackedInLarger(s.executions, s.tree, t);
    var hs := Fresh(base, |fetched|);
    var conn, tracked, failure := RegisterAllOn(x, t, RankOf(t), s.conn, s.executions, hs);
    FindUnfold(x, s, id, fetched, t, RegisterAll(x, t, RankOf(t), s.conn, s.executions, hs));
    r := EngineState(conn, tracked, t, s.depth);
    var found := Get(tracked, id);
    if failure.Some? {
      result := Failed(failure.value);
    } else if found.Some? {
      result := Found(found.value.exec);
    } else {
      result := Failed(Throwable(false, ExecutionNotFound(id)));
    }
  }

  class ProcessEngine {
    const ext: Ext
    const handleTransactions: bool
    var conn: Conn
    var executions: Tracked
    var tree: Tree
    var executionDepth: nat
    var delegateTaskFactory: Option<DelegateTaskFactory>
    var events: seq<Event>

    ghost function State(): EngineState
      reads this
    {
      EngineState(conn, executions, tree, executionDepth)
    }

    ghost predicate Valid()
      reads this
    {
      ValidState(State())
    }

    constructor(ext: Ext, conn: Conn, handleTransactions: bool := true)
      ensures Valid()
      ensures this.ext == ext && this.conn == conn && this.handleTransactions == handleTransactions
      ensures executions == [] && tree == map[] && executionDepth == 0
      ensures delegateTaskFactory == None && events == []
    {
      this.ext := ext;
      this.conn := conn;
      this.handleTransactions := handleTransactions;
      executions := [];
      tree := map[];
      executionDepth := 0;
      delegateTaskFactory := None;
      events := [];
      assert Ranked(map[], map[]);
    }

    method SetDelegateTaskFactory(factory: Option<DelegateTaskFactory>)
      modifies this
      ensures delegateTaskFactory == factory
      ensures conn == old(conn) && executions == old(executions) && tree == old(tree)
      ensures executionDepth == old(executionDepth) && events == old(events)
    {
      delegateTaskFactory := factory;
    }

    /** Without a factory a RuntimeException; otherwise whatever the factory builds. */
    method CreateDelegateTask(typeName: string) returns (r: TaskOrError)
      ensures delegateTaskFactory.None? <==> r.Refused?
      ensures r.Refused? ==> r.error == Throwable(true, NoDelegateTaskFactory)
      ensures r.Task? ==> r.task == delegateTaskFactory.value.create(typeName)
    {
      if delegateTaskFactory.None? {
        return Refused(Throwable(true, NoDelegateTaskFactory));
      }
      return Task(delegateTaskFactory.value.create(typeName));
    }

    /** syncExecutionState($execution): synchronise a tracked execution without its children. */
    method SyncExecutionState(h: Handle) returns (failure: Option<Throwable>)
      requires Valid() && h in tree
      modifies this
      ensures Valid()
      ensures tree == old(tree) && executionDepth == old(executionDepth)
      ensures delegateTaskFactory == old(delegateTaskFactory) && events == old(events)
      ensures var s := SyncState(ext, tree, RankOf(tree), old(conn), old(executions), h);
        conn == s.pass.conn && executions == s.pass.tracked && failure == s.failure
    {
      var s := SyncStateOn(ext, tree, RankOf(tree), conn, executions, h);
      conn, executions, failure := s.pass.conn, s.pass.tracked, s.failure;
    }

    /**
     * findExecution($id): the tracked object for the id, or the process
     * rebuilt from its stored rows (the query returning `fetched`) and the
     * object for the id among them; a throwable when there is none.
     */
    method FindExecution(id: Id, fetched: seq<Id>) returns (result: FindResult)
      requires Valid() && Keyed(conn.db) && StoredAcyclic(conn.db) && Fetches(conn.db, id, fetched)
      modifies this
      ensures Valid()
      ensures (State(), result) == Finding.FindExecution(ext, old(State()), id, fetched)
      ensures delegateTaskFactory == old(delegateTaskFactory) && events == old(events)
    {
      var r;
      r, result := FindOn(ext, EngineState(conn, executions, tree, executionDepth), id, fetched);
      conn, executions, tree, executionDepth := r.conn, r.executions, r.tree, r.depth;
    }

    /**
     * registerExecution($execution, $clean): only a VirtualExecution is
     * accepted; it is tracked under its id and synchronised if it is NEW.
     */
    method RegisterExecution(candidate: Candidate, clean: Option<Row>) returns (failure: Option<Throwable>)
      requires Valid() && (candidate.Virtual? ==> candidate.handle in tree)
      modifies this
      ensures Valid()
      ensures tree == old(tree) && executionDepth == old(executionDepth)
      ensures delegateTaskFactory == old(delegateTaskFactory) && events == old(events)
      ensures candidate.Foreign? ==>
        && failure == Some(Throwable(true, UnsupportedExecution(candidate.className)))
        && conn == old(conn) && executions == old(executions)
      ensures candidate.Virtual? ==>
        var s := Register(ext, tree, RankOf(tree), old(conn), old(executions), candidate.handle, clean);
        conn == s.pass.conn && executions == s.pass.tracked && failure == s.failure
    {
      if candidate.Foreign? {
        return Some(Throwable(true, UnsupportedExecution(candidate.className)));
      }
      var s := RegisterOn(ext, tree, RankOf(tree), conn, executions, candidate.handle, clean);
      conn, executions, failure := s.pass.conn, s.pass.tracked, s.failure;
    }

    /**
     * performExecution($callback): open the transaction if this is the
     * outermost call and sync; hand the callback the engine one level deeper
     * and lower the depth again; sync again if it returned; then commit, or
     * roll back on an exception. The opener empties the tracked set on the
     * way out.
     */
    method PerformExecution(callback: Callback) returns (outcome: Outcome)
      requires Valid() && SoundCallback(callback)
      modifies this
      ensures Valid() && executionDepth == old(executionDepth)
      ensures (State(), outcome) == UnitOfWork.PerformExecution(ext, handleTransactions, old(State()), callback)
      ensures delegateTaskFactory == old(delegateTaskFactory) && events == old(events)
    {
      var r;
      r, outcome := PerformOn(ext, handleTransactions, EngineState(conn, executions, tree, executionDepth), callback);
      conn, executions, tree, executionDepth := r.conn, r.executions, r.tree, r.depth;
    }
  }
}
