/**
 * syncExecution and the sync passes of performExecution, as functions of the
 * tracked set, the connection and the (unchanging) execution tree.
 *
 * PHP's foreach iterates a copy of the tracked array, but the ExecutionInfo
 * objects in that copy are shared with the live array: an update made through
 * one is seen through the other, and an info unset during the pass is still
 * visited through the copy. `retired` keeps those unset infos.
 */
module Synchronization {
  import opened Wrappers
  import opened Store
  import opened Executions
  import opened OrderedMaps

  /** An ExecutionInfo: the execution object and its clean snapshot (None until it is written). */
  datatype Info = Info(exec: Handle, clean: Option<Row>)

  /** `$this->executions`: execution id to info, in insertion order. */
  type Tracked = OMap<Id, Info>

  /** State threaded through a synchronisation. */
  datatype Pass = Pass(conn: Conn, tracked: Tracked, retired: map<Id, Info>)

  /** Where a synchronisation stopped: the state, and the throwable that stopped it early. */
  datatype Step = Step(pass: Pass, failure: Option<Throwable>)

  /** Which info object a call works on: the one the live array holds under a key, or an unset one. */
  datatype InfoRef = Live(key: Id) | Retired(key: Id)

  predicate Resolves(p: Pass, ref: InfoRef) {
    match ref
    case Live(k) => Get(p.tracked, k).Some?
    case Retired(k) => k in p.retired
  }

  function Deref(p: Pass, ref: InfoRef): Info
    requires Resolves(p, ref)
  {
    match ref
    case Live(k) => Get(p.tracked, k).value
    case Retired(k) => p.retired[k]
  }

  /** `$info->update($data)`: the written data becomes the clean snapshot. */
  function Refresh(p: Pass, ref: InfoRef, data: Row): (r: Pass)
    requires Resolves(p, ref)
    ensures Resolves(r, ref) && Deref(r, ref) == Deref(p, ref).(clean := Some(data))
    ensures r.conn == p.conn
  {
    var info := Deref(p, ref).(clean := Some(data));
    match ref
    case Live(k) => p.(tracked := Put(p.tracked, k, info))
    case Retired(k) => p.(retired := p.retired[k := info])
  }

  /** `unset($this->executions[$id])`; the info object lives on in the pass's copy. */
  function Unset(p: Pass, id: Id): (r: Pass)
    ensures Get(r.tracked, id).None?
    ensures r.conn == p.conn
  {
    match Get(p.tracked, id)
    case None => p
    case Some(info) => p.(tracked := Remove(p.tracked, id), retired := p.retired[id := info])
  }

  ghost predicate Resolvable(p: Pass, k: Id) {
    Get(p.tracked, k).Some? || k in p.retired
  }

  /** Every info object names a live execution. */
  ghost predicate InfosIn(p: Pass, t: Tree) {
    && (forall k :: Get(p.tracked, k).Some? ==> Get(p.tracked, k).value.exec in t)
    && (forall k :: k in p.retired ==> p.retired[k].exec in t)
  }

  /**
   * `p'` comes from `p` by synchronisation: same transaction, the statements
   * only extended and only with execution-table writes, the other tables
   * untouched, and every info still reachable.
   */
  ghost predicate Follows(t: Tree, p: Pass, p': Pass) {
    && SameTransaction(p.conn, p'.conn)
    && |p.conn.statements| <= |p'.conn.statements|
    && p'.conn.statements[..|p.conn.statements|] == p.conn.statements
    && (forall i :: |p.conn.statements| <= i < |p'.conn.statements| ==> p'.conn.statements[i].IsExecutionWrite())
    && p'.conn.db.definitions == p.conn.db.definitions
    && p'.conn.db.subscriptions == p.conn.db.subscriptions
    && p'.conn.db.tasks == p.conn.db.tasks
    && (forall k :: Resolvable(p, k) ==> Resolvable(p', k))
    && (InfosIn(p, t) ==> InfosIn(p', t))
  }

  lemma FollowsTrans(t: Tree, p: Pass, p': Pass, p'': Pass)
    requires Follows(t, p, p') && Follows(t, p', p'')
    ensures Follows(t, p, p'')
  {
    var n, n' := |p.conn.statements|, |p'.conn.statements|;
    assert p''.conn.statements[..n] == p''.conn.statements[..n'][..n];
  }

  lemma RefreshFollows(t: Tree, p: Pass, ref: InfoRef, data: Row)
    requires Resolves(p, ref)
    ensures Follows(t, p, Refresh(p, ref, data))
  {
    var r := Refresh(p, ref, data);
    assert r.conn.statements[..|p.conn.statements|] == p.conn.statements;
    if InfosIn(p, t) {
      forall k | Get(r.tracked, k).Some? ensures Get(r.tracked, k).value.exec in t {
        if ref.Live? && k == ref.key {
          assert Get(r.tracked, k).value.exec == Deref(p, ref).exec;
        }
      }
    }
  }

  lemma UnsetFollows(t: Tree, p: Pass, id: Id)
    ensures Follows(t, p, Unset(p, id))
  {
    var r := Unset(p, id);
    assert r.conn.statements[..|p.conn.statements|] == p.conn.statements;
  }

  /** One execution-table write on the connection, nothing else. */
  lemma WriteFollows(t: Tree, p: Pass, c: Conn, w: Statement)
    requires SameTransaction(p.conn, c) && c.statements == p.conn.statements + [w] && w.IsExecutionWrite()
    requires c.db.definitions == p.conn.db.definitions && c.db.subscriptions == p.conn.db.subscriptions
    requires c.db.tasks == p.conn.db.tasks
    ensures Follows(t, p, p.(conn := c))
  {
    assert c.statements[..|p.conn.statements|] == p.conn.statements;
  }

  /** syncExecution($execution, $info, $syncChildExecutions). */
  ghost function SyncExecution(x: Ext, t: Tree, rank: map<Handle, nat>, p: Pass, h: Handle, ref: InfoRef, children: bool): (s: Step)
    requires Linked(t) && Ranked(t, rank) && h in t && Resolves(p, ref)
    ensures Follows(t, p, s.pass)
    decreases Above(rank, rank[h]), 1
  {
    var data := Serialize(x, t, rank, h);
    match x.classify(Deref(p, ref).clean, data)
    case Removed =>
      var s := SyncChildren(x, t, rank, p, h, t[h].children);
      if s.failure.Some? then s
      else
        var p1 := s.pass.(conn := DeleteExecutionRow(s.pass.conn, data.id));
        WriteFollows(t, s.pass, p1.conn, DeleteExecution(data.id));
        FollowsTrans(t, p, s.pass, p1);
        UnsetFollows(t, p1, t[h].id);
        FollowsTrans(t, p, p1, Unset(p1, t[h].id));
        Step(Unset(p1, t[h].id), None)
    case Modified =>
      var p0 := p.(conn := UpdateExecutionRow(p.conn, data));
      WriteFollows(t, p, p0.conn, UpdateExecution(data));
      var p1 := Refresh(p0, ref, data);
      RefreshFollows(t, p0, ref, data);
      FollowsTrans(t, p, p0, p1);
      if children then
        var s := SyncChildren(x, t, rank, p1, h, t[h].children);
        FollowsTrans(t, p, p1, s.pass);
        s
      else Step(p1, None)
    case New =>
      var w := InsertExecutionRow(p.conn, data);
      WriteFollows(t, p, w.conn, InsertExecution(data));
      if w.failure.Some? then Step(p.(conn := w.conn), w.failure)
      else
        var p0 := p.(conn := w.conn);
        var p1 := Refresh(p0, ref, data);
        RefreshFollows(t, p0, ref, data);
        FollowsTrans(t, p, p0, p1);
        if children then
          var s := SyncChildren(x, t, rank, p1, h, t[h].children);
          FollowsTrans(t, p, p1, s.pass);
          s
        else Step(p1, None)
    case Unchanged =>
      if children then SyncChildren(x, t, rank, p, h, t[h].children) else Step(p, None)
  }

  /** SyncExecution of a REMOVED execution, without the proof steps its body carries. */
  lemma SyncRemovedCase(x: Ext, t: Tree, rank: map<Handle, nat>, p: Pass, h: Handle, ref: InfoRef, children: bool)
    requires Linked(t) && Ranked(t, rank) && h in t && Resolves(p, ref)
    requires x.classify(Deref(p, ref).clean, Serialize(x, t, rank, h)) == Removed
    ensures var sc := SyncChildren(x, t, rank, p, h, t[h].children);
      SyncExecution(x, t, rank, p, h, ref, children)
        == if sc.failure.Some? then sc
           else Step(Unset(sc.pass.(conn := DeleteExecutionRow(sc.pass.conn, t[h].id)), t[h].id), None)
  {
  }

  /** SyncExecution of a MODIFIED execution. */
  lemma SyncModifiedCase(x: Ext, t: Tree, rank: map<Handle, nat>, p: Pass, h: Handle, ref: InfoRef, children: bool)
    requires Linked(t) && Ranked(t, rank) && h in t && Resolves(p, ref)
    requires x.classify(Deref(p, ref).clean, Serialize(x, t, rank, h)) == Modified
    ensures var data := Serialize(x, t, rank, h);
      var p1 := Refresh(p.(conn := UpdateExecutionRow(p.conn, data)), ref, data);
      SyncExecution(x, t, rank, p, h, ref, children)
        == if children then SyncChildren(x, t, rank, p1, h, t[h].children) else Step(p1, None)
  {
  }

  /** SyncExecution of a NEW execution. */
  lemma SyncNewCase(x: Ext, t: Tree, rank: map<Handle, nat>, p: Pass, h: Handle, ref: InfoRef, children: bool)
    requires Linked(t) && Ranked(t, rank) && h in t && Resolves(p, ref)
    requires x.classify(Deref(p, ref).clean, Serialize(x, t, rank, h)) == New
    ensures var data := Serialize(x, t, rank, h);
      var w := InsertExecutionRow(p.conn, data);
      var p1 := Refresh(p.(conn := w.conn), ref, data);
      SyncExecution(x, t, rank, p, h, ref, children)
        == if w.failure.Some? then Step(p.(conn := w.conn), w.failure)
           else if children then SyncChildren(x, t, rank, p1, h, t[h].children) else Step(p1, None)
  {
  }

  /** SyncExecution of an UNCHANGED execution. */
  lemma SyncUnchangedCase(x: Ext, t: Tree, rank: map<Handle, nat>, p: Pass, h: Handle, ref: InfoRef, children: bool)
    requires Linked(t) && Ranked(t, rank) && h in t && Resolves(p, ref)
    requires x.classify(Deref(p, ref).clean, Serialize(x, t, rank, h)) == Unchanged
    ensures SyncExecution(x, t, rank, p, h, ref, children)
         == if children then SyncChildren(x, t, rank, p, h, t[h].children) else Step(p, None)
  {
  }

  /** The loop over findChildExecutions(), each child with the info the live array holds for its id. */
  ghost function SyncChildren(x: Ext, t: Tree, rank: map<Handle, nat>, p: Pass, parent: Handle, cs: seq<Handle>): (s: Step)
    requires Linked(t) && Ranked(t, rank) && parent in t
    requires forall c :: c in cs ==> c in t[parent].children
    ensures Follows(t, p, s.pass)
    decreases Above(rank, rank[parent]), 0, |cs|
  {
    if cs == [] then Step(p, None)
    else
      var c := cs[0];
      var key := t[c].id;
      if Get(p.tracked, key).None? then Step(p, Some(Throwable(false, UntrackedChild(key))))
      else
        AboveShrinks(t, rank, parent, c);
        var s := SyncExecution(x, t, rank, p, c, Live(key), true);
        if s.failure.Some? then s
        else
          var s' := SyncChildren(x, t, rank, s.pass, parent, cs[1..]);
          FollowsTrans(t, p, s.pass, s'.pass);
          s'
  }

  /** The info a pass visits under key `k`: the live one, or the one unset earlier in the same pass. */
  function Visit(p: Pass, k: Id): (r: InfoRef)
    ensures Resolvable(p, k) ==> Resolves(p, r)
  {
    if Get(p.tracked, k).Some? then Live(k) else Retired(k)
  }

  /** `foreach($this->executions as $info)` over the keys of the copy taken when the loop began. */
  ghost function SyncEach(x: Ext, t: Tree, rank: map<Handle, nat>, p: Pass, keys: seq<Id>): (s: Step)
    requires Linked(t) && Ranked(t, rank) && InfosIn(p, t)
    requires forall k :: k in keys ==> Resolvable(p, k)
    ensures Follows(t, p, s.pass)
    decreases |keys|
  {
    if keys == [] then Step(p, None)
    else
      var ref := Visit(p, keys[0]);
      var s := SyncExecution(x, t, rank, p, Deref(p, ref).exec, ref, true);
      if s.failure.Some? then s
      else
        var s' := SyncEach(x, t, rank, s.pass, keys[1..]);
        FollowsTrans(t, p, s.pass, s'.pass);
        s'
  }

  /** The infos all name live executions. */
  ghost predicate TrackedIn(tracked: Tracked, t: Tree) {
    forall k :: Get(tracked, k).Some? ==> Get(tracked, k).value.exec in t
  }

  /** One sync pass of performExecution over every tracked execution. */
  ghost function SyncAll(x: Ext, t: Tree, rank: map<Handle, nat>, c: Conn, tracked: Tracked): (s: Step)
    requires Linked(t) && Ranked(t, rank) && TrackedIn(tracked, t)
    ensures Follows(t, Pass(c, tracked, map[]), s.pass)
  {
    var p := Pass(c, tracked, map[]);
    forall k | k in Keys(tracked) ensures Resolvable(p, k) {
      var i :| 0 <= i < |tracked| && Keys(tracked)[i] == k;
      assert tracked[i].key == k;
    }
    SyncEach(x, t, rank, p, Keys(tracked))
  }

  /**
   * registerExecution($execution, $clean) for a VirtualExecution: track it
   * under its id with `clean` as snapshot (replacing any info already there),
   * then synchronise it, children included, if the classifier calls it NEW.
   */
  ghost function Register(x: Ext, t: Tree, rank: map<Handle, nat>, c: Conn, tracked: Tracked, h: Handle, clean: Option<Row>): (s: Step)
    requires Linked(t) && Ranked(t, rank) && h in t
  {
    var p := Pass(c, Put(tracked, t[h].id, Info(h, clean)), map[]);
    if x.classify(clean, Serialize(x, t, rank, h)) == New then SyncExecution(x, t, rank, p, h, Live(t[h].id), true)
    else Step(p, None)
  }

  /**
   * syncExecutionState($execution): an execution that is not tracked is left
   * alone; a tracked one is synchronised without its children.
   */
  ghost function SyncState(x: Ext, t: Tree, rank: map<Handle, nat>, c: Conn, tracked: Tracked, h: Handle): (s: Step)
    requires Linked(t) && Ranked(t, rank) && h in t
  {
    var p := Pass(c, tracked, map[]);
    if Get(tracked, t[h].id).Some? then SyncExecution(x, t, rank, p, h, Live(t[h].id), false)
    else Step(p, None)
  }
}
