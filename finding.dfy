/**
 * findExecution($id): a tracked execution is answered from the tracked set;
 * otherwise the whole process is rebuilt from its rows (Reconstruction) and
 * every new object is registered with its own serialisation as the clean
 * snapshot, after which the id is looked up in the tracked set again.
 */
module Finding {
  import opened Wrappers
  import opened Store
  import opened OrderedMaps
  import opened Executions
  import opened Synchronization
  import opened UnitOfWork
  import opened Reconstruction

  /** What findExecution hands back: the object found, or a throwable. */
  datatype FindResult = Found(exec: Handle) | Failed(error: Throwable)

  /** registerExecution only appends execution writes and keeps every info pointing to a live object. */
  lemma RegisterKeeps(x: Ext, t: Tree, rank: map<Handle, nat>, c: Conn, tracked: Tracked, h: Handle, clean: Option<Row>)
    requires Linked(t) && Ranked(t, rank) && h in t && TrackedIn(tracked, t)
    ensures Appends(c, Register(x, t, rank, c, tracked, h, clean).pass.conn)
    ensures TrackedIn(Register(x, t, rank, c, tracked, h, clean).pass.tracked, t)
  {
    var p := Pass(c, Put(tracked, t[h].id, Info(h, clean)), map[]);
    assert InfosIn(p, t);
    assert c.statements[..|c.statements|] == c.statements;
  }

  /**
   * The register loop of findExecution: the objects in fetch order, each
   * registered with its own serialisation as clean snapshot; the first
   * throwable leaves the loop.
   */
  ghost function RegisterAll(x: Ext, t: Tree, rank: map<Handle, nat>, c: Conn, tracked: Tracked, hs: seq<Handle>): (s: Step)
    requires Linked(t) && Ranked(t, rank) && TrackedIn(tracked, t)
    requires forall i :: 0 <= i < |hs| ==> hs[i] in t
    ensures Appends(c, s.pass.conn) && TrackedIn(s.pass.tracked, t)
    decreases |hs|
  {
    if hs == [] then
      assert c.statements[..|c.statements|] == c.statements;
      Step(Pass(c, tracked, map[]), None)
    else
      var s := Register(x, t, rank, c, tracked, hs[0], Some(Serialize(x, t, rank, hs[0])));
      RegisterKeeps(x, t, rank, c, tracked, hs[0], Some(Serialize(x, t, rank, hs[0])));
      if s.failure.Some? then s
      else
        var s' := RegisterAll(x, t, rank, s.pass.conn, s.pass.tracked, hs[1..]);
        AppendsTrans(c, s.pass.conn, s'.pass.conn);
        s'
  }

  /** Registering an object with its own serialisation as snapshot only tracks it. */
  lemma RegisterClean(x: Ext, t: Tree, rank: map<Handle, nat>, c: Conn, tracked: Tracked, h: Handle)
    requires ClassifierContract(x.classify)
    requires Linked(t) && Ranked(t, rank) && h in t
    ensures var d := Serialize(x, t, rank, h);
      Register(x, t, rank, c, tracked, h, Some(d)) == Step(Pass(c, Put(tracked, t[h].id, Info(h, Some(d))), map[]), None)
  {
    var d := Serialize(x, t, rank, h);
    assert x.classify(Some(d), d) != New;
  }

  /** The infos the register loop stores: each object under its id, with the matching snapshot. */
  function CleanInfos(t: Tree, hs: seq<Handle>, snaps: seq<Row>): (es: seq<Entry<Id, Info>>)
    requires |snaps| == |hs| && forall i :: 0 <= i < |hs| ==> hs[i] in t
    ensures |es| == |hs|
    ensures forall i :: 0 <= i < |hs| ==> es[i] == Entry(t[hs[i]].id, Info(hs[i], Some(snaps[i])))
    decreases |hs|
  {
    if hs == [] then []
    else [Entry(t[hs[0]].id, Info(hs[0], Some(snaps[0])))] + CleanInfos(t, hs[1..], snaps[1..])
  }

  /** The serialisation of each object, in order. */
  ghost function Snapshots(x: Ext, t: Tree, rank: map<Handle, nat>, hs: seq<Handle>): (rs: seq<Row>)
    requires Linked(t) && Ranked(t, rank)
    requires forall i :: 0 <= i < |hs| ==> hs[i] in t
    ensures |rs| == |hs|
    decreases |hs|
  {
    if hs == [] then [] else [Serialize(x, t, rank, hs[0])] + Snapshots(x, t, rank, hs[1..])
  }

  lemma {:induction false} SnapshotAt(x: Ext, t: Tree, rank: map<Handle, nat>, hs: seq<Handle>, i: nat)
    requires Linked(t) && Ranked(t, rank)
    requires forall i :: 0 <= i < |hs| ==> hs[i] in t
    requires i < |hs|
    ensures Snapshots(x, t, rank, hs)[i] == Serialize(x, t, rank, hs[i])
    decreases |hs|
  {
    if i > 0 {
      assert hs[1..][i - 1] == hs[i];
      SnapshotAt(x, t, rank, hs[1..], i - 1);
    }
  }

  /**
   * A classifier that keeps its contract never calls an object NEW against
   * its own serialisation, so the loop writes nothing, throws nothing, and
   * only tracks the objects.
   */
  lemma {:induction false} RegisterAllClean(x: Ext, t: Tree, rank: map<Handle, nat>, c: Conn, tracked: Tracked, hs: seq<Handle>)
    requires ClassifierContract(x.classify)
    requires Linked(t) && Ranked(t, rank) && TrackedIn(tracked, t)
    requires forall i :: 0 <= i < |hs| ==> hs[i] in t
    ensures RegisterAll(x, t, rank, c, tracked, hs) == Step(Pass(c, PutAll(tracked, CleanInfos(t, hs, Snapshots(x, t, rank, hs))), map[]), None)
    decreases |hs|
  {
    if hs != [] {
      var h := hs[0];
      var d := Serialize(x, t, rank, h);
      RegisterClean(x, t, rank, c, tracked, h);
      RegisterKeeps(x, t, rank, c, tracked, h, Some(d));
      RegisterAllClean(x, t, rank, c, Put(tracked, t[h].id, Info(h, Some(d))), hs[1..]);
      var snaps := Snapshots(x, t, rank, hs);
      assert snaps[0] == d && snaps[1..] == Snapshots(x, t, rank, hs[1..]);
      var es := CleanInfos(t, hs, snaps);
      assert es[0] == Entry(t[h].id, Info(h, Some(d)));
      assert es[1..] == CleanInfos(t, hs[1..], snaps[1..]);
    }
  }

  /** The handles base, base + 1, …: the objects the fetch loop builds, in fetch order. */
  function Fresh(base: nat, n: nat): (hs: seq<Handle>)
    ensures |hs| == n && forall i :: 0 <= i < n ==> hs[i] == base + i
    decreases n
  {
    if n == 0 then [] else Fresh(base, n - 1) + [base + n - 1]
  }

  /** Every fetched row has a stored definition. */
  lemma FetchedJoined(db: Db, id: Id, fetched: seq<Id>)
    requires Fetches(db, id, fetched)
    ensures forall i :: 0 <= i < |fetched| ==> Joined(db, fetched[i])
  {
    forall i | 0 <= i < |fetched| ensures Joined(db, fetched[i]) {
      assert fetched[i] in fetched;
    }
  }

  /**
   * findExecution($id), the database returning the rows of the query in
   * the order `fetched`. The stored rows are keyed by their id and their
   * parent ids have no cycle, as the engine writes them.
   */
  ghost function FindExecution(x: Ext, s: EngineState, id: Id, fetched: seq<Id>): (r: (EngineState, FindResult))
    requires ValidState(s) && Keyed(s.conn.db) && StoredAcyclic(s.conn.db) && Fetches(s.conn.db, id, fetched)
    ensures ValidState(r.0) && r.0.depth == s.depth && Appends(s.conn, r.0.conn)
    ensures s.tree.Keys <= r.0.tree.Keys
    ensures r.1.Found? ==> Get(r.0.executions, id).Some? && Get(r.0.executions, id).value.exec == r.1.exec
  {
    match Get(s.executions, id)
    case Some(info) =>
      assert s.conn.statements[..|s.conn.statements|] == s.conn.statements;
      (s, Found(info.exec))
    case None =>
      var db := s.conn.db;
      FetchedJoined(db, id, fetched);
      var t := Rebuilt(x, db, s.tree, fetched);
      RebuiltShape(x, db, s.tree, fetched);
      var hs := Fresh(NextHandle(s.tree.Keys), |fetched|);
      TrackedInLarger(s.executions, s.tree, t);
      var st := RegisterAll(x, t, RankOf(t), s.conn, s.executions, hs);
      var s' := EngineState(st.pass.conn, st.pass.tracked, t, s.depth);
      if st.failure.Some? then (s', Failed(st.failure.value))
      else match Get(st.pass.tracked, id)
        case Some(info) => (s', Found(info.exec))
        case None => (s', Failed(Throwable(false, ExecutionNotFound(id))))
  }

  /** One turn of the register loop: register the first object, stop on a throwable, else go on with the rest. */
  lemma RegisterAllCons(x: Ext, t: Tree, rank: map<Handle, nat>, c: Conn, tracked: Tracked, hs: seq<Handle>)
    requires Linked(t) && Ranked(t, rank) && TrackedIn(tracked, t)
    requires hs != [] && forall i :: 0 <= i < |hs| ==> hs[i] in t
    ensures var s := Register(x, t, rank, c, tracked, hs[0], Some(Serialize(x, t, rank, hs[0])));
      && TrackedIn(s.pass.tracked, t)
      && RegisterAll(x, t, rank, c, tracked, hs) == if s.failure.Some? then s else RegisterAll(x, t, rank, s.pass.conn, s.pass.tracked, hs[1..])
  {
    RegisterKeeps(x, t, rank, c, tracked, hs[0], Some(Serialize(x, t, rank, hs[0])));
  }

  /** findExecution for an untracked id, given the rebuilt tree and the outcome of the register loop. */
  lemma FindUnfold(x: Ext, s: EngineState, id: Id, fetched: seq<Id>, t: Tree, st: Step)
    requires ValidState(s) && Keyed(s.conn.db) && StoredAcyclic(s.conn.db) && Fetches(s.conn.db, id, fetched)
    requires Get(s.executions, id).None?
    requires forall i :: 0 <= i < |fetched| ==> Joined(s.conn.db, fetched[i])
    requires t == Rebuilt(x, s.conn.db, s.tree, fetched) && Acyclic(t)
    requires TrackedIn(s.executions, t) && forall i :: 0 <= i < |fetched| ==> Fresh(NextHandle(s.tree.Keys), |fetched|)[i] in t
    requires st == RegisterAll(x, t, RankOf(t), s.conn, s.executions, Fresh(NextHandle(s.tree.Keys), |fetched|))
    ensures FindExecution(x, s, id, fetched) ==
      (EngineState(st.pass.conn, st.pass.tracked, t, s.depth),
       if st.failure.Some? then Failed(st.failure.value)
       else if Get(st.pass.tracked, id).Some? then Found(Get(st.pass.tracked, id).value.exec)
       else Failed(Throwable(false, ExecutionNotFound(id))))
  {
  }

  /** A tracked id is answered from the tracked set: nothing is read, written or built. */
  lemma FindCached(x: Ext, s: EngineState, id: Id, fetched: seq<Id>)
    requires ValidState(s) && Keyed(s.conn.db) && StoredAcyclic(s.conn.db) && Fetches(s.conn.db, id, fetched)
    requires Get(s.executions, id).Some?
    ensures FindExecution(x, s, id, fetched) == (s, Found(Get(s.executions, id).value.exec))
  {
  }

  /** Once found, an id stays tracked: asking again returns the same object and changes nothing. */
  lemma FindTwice(x: Ext, s: EngineState, id: Id, fetched: seq<Id>, fetched': seq<Id>)
    requires ValidState(s) && Keyed(s.conn.db) && StoredAcyclic(s.conn.db) && Fetches(s.conn.db, id, fetched)
    requires var s' := FindExecution(x, s, id, fetched).0;
      Keyed(s'.conn.db) && StoredAcyclic(s'.conn.db) && Fetches(s'.conn.db, id, fetched')
    requires FindExecution(x, s, id, fetched).1.Found?
    ensures var r := FindExecution(x, s, id, fetched);
      FindExecution(x, r.0, id, fetched') == r
  {
    var r := FindExecution(x, s, id, fetched);
    FindCached(x, r.0, id, fetched');
  }

  /** The new object for position `i` carries the id of the row it was built from. */
  lemma RebuiltIdAt(x: Ext, db: Db, t: Tree, fetched: seq<Id>, base: nat, i: nat)
    requires Acyclic(t) && Keyed(db) && StoredAcyclic(db)
    requires forall i, j :: 0 <= i < j < |fetched| ==> fetched[i] != fetched[j]
    requires forall i :: 0 <= i < |fetched| ==> Joined(db, fetched[i])
    requires base == NextHandle(t.Keys) && i < |fetched|
    ensures base + i in Rebuilt(x, db, t, fetched) && Rebuilt(x, db, t, fetched)[base + i].id == fetched[i]
  {
    var t', h, e, pid := RebuiltAtLinked(x, db, t, fetched, i);
    IdFromBuilt(t', h, e, pid, fetched, base, fetched[i]);
  }

  /** An object built from a row carries the row's id. */
  lemma IdFromBuilt(t': Tree, h: Handle, e: Exec, pid: Option<Id>, ids: seq<Id>, base: nat, id: Id)
    requires BuiltFrom(t', h, e, pid, ids, base) && e.id == id
    ensures h in t' && t'[h].id == id
  {
  }

  /** The new object for position `i` is at handle `base + i` and carries the id fetched at `i`. */
  ghost predicate IdsAt(t: Tree, fetched: seq<Id>, base: nat) {
    forall i :: 0 <= i < |fetched| ==> base + i in t && t[base + i].id == fetched[i]
  }

  /** Each new object carries the id of the row it was built from. */
  lemma RebuiltIds(x: Ext, db: Db, t: Tree, fetched: seq<Id>, base: nat)
    requires Acyclic(t) && Keyed(db) && StoredAcyclic(db)
    requires forall i, j :: 0 <= i < j < |fetched| ==> fetched[i] != fetched[j]
    requires forall i :: 0 <= i < |fetched| ==> Joined(db, fetched[i])
    requires base == NextHandle(t.Keys)
    ensures IdsAt(Rebuilt(x, db, t, fetched), fetched, base)
  {
    var t' := Rebuilt(x, db, t, fetched);
    forall i | 0 <= i < |fetched|
      ensures base + i in t' && t'[base + i].id == fetched[i]
    {
      RebuiltIdAt(x, db, t, fetched, base, i);
    }
  }

  /** Under the classifier's contract an untracked id costs no write: the state is the rebuilt tree and the registered infos. */
  lemma FindUntracked(x: Ext, s: EngineState, id: Id, fetched: seq<Id>) returns (t: Tree, tracked: Tracked)
    requires ClassifierContract(x.classify)
    requires ValidState(s) && Keyed(s.conn.db) && StoredAcyclic(s.conn.db) && Fetches(s.conn.db, id, fetched)
    requires Get(s.executions, id).None?
    ensures forall i :: 0 <= i < |fetched| ==> Joined(s.conn.db, fetched[i])
    ensures t == Rebuilt(x, s.conn.db, s.tree, fetched) && Acyclic(t)
    ensures forall i :: 0 <= i < |fetched| ==> Fresh(NextHandle(s.tree.Keys), |fetched|)[i] in t
    ensures var hs := Fresh(NextHandle(s.tree.Keys), |fetched|);
      tracked == PutAll(s.executions, CleanInfos(t, hs, Snapshots(x, t, RankOf(t), hs)))
    ensures FindExecution(x, s, id, fetched) ==
      (EngineState(s.conn, tracked, t, s.depth),
       if Get(tracked, id).Some? then Found(Get(tracked, id).value.exec) else Failed(Throwable(false, ExecutionNotFound(id))))
  {
    FetchedJoined(s.conn.db, id, fetched);
    t := Rebuilt(x, s.conn.db, s.tree, fetched);
    RebuiltShape(x, s.conn.db, s.tree, fetched);
    TrackedInLarger(s.executions, s.tree, t);
    var hs := Fresh(NextHandle(s.tree.Keys), |fetched|);
    RegisterAllClean(x, t, RankOf(t), s.conn, s.executions, hs);
    tracked := PutAll(s.executions, CleanInfos(t, hs, Snapshots(x, t, RankOf(t), hs)));
  }

  /** Assigning entries keyed by the fetched ids, in fetch order: each id gets its entry, every other id keeps its info. */
  lemma PutAllFetched(tracked0: Tracked, es: seq<Entry<Id, Info>>, fetched: seq<Id>)
    requires |es| == |fetched| && forall i :: 0 <= i < |es| ==> es[i].key == fetched[i]
    requires forall i, j :: 0 <= i < j < |fetched| ==> fetched[i] != fetched[j]
    ensures forall i :: 0 <= i < |fetched| ==> Get(PutAll(tracked0, es), fetched[i]) == Some(es[i].value)
    ensures forall k :: k !in fetched ==> Get(PutAll(tracked0, es), k) == Get(tracked0, k)
  {
    forall i | 0 <= i < |fetched| ensures Get(PutAll(tracked0, es), fetched[i]) == Some(es[i].value) {
      PutAllAt(tracked0, es, i);
    }
    forall k | k !in fetched ensures Get(PutAll(tracked0, es), k) == Get(tracked0, k) {
      forall i | 0 <= i < |es| ensures es[i].key != k {
        assert fetched[i] in fetched;
      }
      PutAllOther(tracked0, es, k);
    }
  }

  /** The infos for the new objects are keyed by the fetched ids and hold the objects' handles. */
  lemma CleanInfosFetched(t: Tree, fetched: seq<Id>, base: nat, snaps: seq<Row>, es: seq<Entry<Id, Info>>)
    requires IdsAt(t, fetched, base)
    requires |snaps| == |fetched| && forall i :: 0 <= i < |fetched| ==> Fresh(base, |fetched|)[i] in t
    requires es == CleanInfos(t, Fresh(base, |fetched|), snaps)
    ensures |es| == |fetched|
    ensures forall i :: 0 <= i < |es| ==> es[i] == Entry(fetched[i], Info(base + i, Some(snaps[i])))
  {
    var hs := Fresh(base, |fetched|);
    forall i | 0 <= i < |es| ensures es[i] == Entry(fetched[i], Info(base + i, Some(snaps[i]))) {
      assert hs[i] == base + i;
    }
  }

  /** The objects an untracked lookup leaves behind: those in use as they were, and one per fetched row. */
  ghost predicate RebuildsTree(s: EngineState, fetched: seq<Id>, base: nat, t: Tree) {
    && (forall h :: h in s.tree ==> h in t && t[h] == s.tree[h])
    && (forall h :: h in t <==> h in s.tree || base <= h < base + |fetched|)
    && IdsAt(t, fetched, base)
  }

  /**
   * The infos an untracked lookup leaves behind: each fetched id tracks its new object
   * with the given snapshot as its clean state, other ids as they were.
   */
  ghost predicate TracksRows(s: EngineState, fetched: seq<Id>, base: nat, snaps: seq<Row>, tracked: Tracked)
    requires |snaps| == |fetched|
  {
    && (forall i :: 0 <= i < |fetched| ==> Get(tracked, fetched[i]) == Some(Info(base + i, Some(snaps[i]))))
    && (forall k :: k !in fetched ==> Get(tracked, k) == Get(s.executions, k))
  }

  lemma RebuildsTreeFrom(x: Ext, s: EngineState, fetched: seq<Id>, base: nat, t: Tree)
    requires Acyclic(s.tree) && Keyed(s.conn.db) && StoredAcyclic(s.conn.db)
    requires forall i, j :: 0 <= i < j < |fetched| ==> fetched[i] != fetched[j]
    requires forall i :: 0 <= i < |fetched| ==> Joined(s.conn.db, fetched[i])
    requires base == NextHandle(s.tree.Keys) && t == Rebuilt(x, s.conn.db, s.tree, fetched)
    ensures RebuildsTree(s, fetched, base, t)
  {
    RebuiltShape(x, s.conn.db, s.tree, fetched);
    RebuiltIds(x, s.conn.db, s.tree, fetched, base);
  }

  lemma TracksRowsFrom(s: EngineState, fetched: seq<Id>, base: nat, t: Tree, snaps: seq<Row>, tracked: Tracked)
    requires forall i, j :: 0 <= i < j < |fetched| ==> fetched[i] != fetched[j]
    requires IdsAt(t, fetched, base)
    requires |snaps| == |fetched| && forall i :: 0 <= i < |fetched| ==> Fresh(base, |fetched|)[i] in t
    requires tracked == PutAll(s.executions, CleanInfos(t, Fresh(base, |fetched|), snaps))
    ensures TracksRows(s, fetched, base, snaps, tracked)
  {
    var es := CleanInfos(t, Fresh(base, |fetched|), snaps);
    CleanInfosFetched(t, fetched, base, snaps, es);
    PutAllFetched(s.executions, es, fetched);
  }

  /**
   * An untracked lookup keeps the connection, rebuilds the process's objects from the fetched rows
   * and tracks each with its serialized form, taken in the rebuilt tree, as its clean state.
   */
  lemma FindRebuildsProcess(x: Ext, s: EngineState, id: Id, fetched: seq<Id>)
    requires ClassifierContract(x.classify)
    requires ValidState(s) && Keyed(s.conn.db) && StoredAcyclic(s.conn.db) && Fetches(s.conn.db, id, fetched)
    requires Get(s.executions, id).None?
    ensures var s' := FindExecution(x, s, id, fetched).0;
      var base := NextHandle(s.tree.Keys);
      && s'.conn == s.conn
      && RebuildsTree(s, fetched, base, s'.tree)
      && (forall i :: 0 <= i < |fetched| ==> Fresh(base, |fetched|)[i] in s'.tree)
      && TracksRows(s, fetched, base, Snapshots(x, s'.tree, RankOf(s'.tree), Fresh(base, |fetched|)), s'.executions)
  {
    var t, tracked := FindUntracked(x, s, id, fetched);
    var base := NextHandle(s.tree.Keys);
    var hs := Fresh(base, |fetched|);
    RebuildsTreeFrom(x, s, fetched, base, t);
    TracksRowsFrom(s, fetched, base, t, Snapshots(x, t, RankOf(t), hs), tracked);
  }

  /** The i-th fetched row's id tracks object `base + i` with that object's serialized form as its clean state. */
  ghost predicate CleanAsRebuilt(x: Ext, s': EngineState, fetched: seq<Id>, base: nat, i: nat)
    requires i < |fetched|
  {
    && Acyclic(s'.tree) && base + i in s'.tree
    && Get(s'.executions, fetched[i]) == Some(Info(base + i, Some(Serialize(x, s'.tree, RankOf(s'.tree), base + i))))
  }

  /** The clean state registered for the i-th fetched row is the serialized form of its new object. */
  lemma FindSnapshotAt(x: Ext, s: EngineState, id: Id, fetched: seq<Id>, i: nat)
    requires ClassifierContract(x.classify)
    requires ValidState(s) && Keyed(s.conn.db) && StoredAcyclic(s.conn.db) && Fetches(s.conn.db, id, fetched)
    requires Get(s.executions, id).None? && i < |fetched|
    ensures CleanAsRebuilt(x, FindExecution(x, s, id, fetched).0, fetched, NextHandle(s.tree.Keys), i)
  {
    FindRebuildsProcess(x, s, id, fetched);
    CleanAsRebuiltFrom(x, s, FindExecution(x, s, id, fetched).0, fetched, NextHandle(s.tree.Keys), i);
  }

  lemma CleanAsRebuiltFrom(x: Ext, s: EngineState, s': EngineState, fetched: seq<Id>, base: nat, i: nat)
    requires Acyclic(s'.tree) && i < |fetched|
    requires RebuildsTree(s, fetched, base, s'.tree)
    requires TracksRows(s, fetched, base, Snapshots(x, s'.tree, RankOf(s'.tree), Fresh(base, |fetched|)), s'.executions)
    ensures CleanAsRebuilt(x, s', fetched, base, i)
  {
    var snaps := Snapshots(x, s'.tree, RankOf(s'.tree), Fresh(base, |fetched|));
    SnapshotFrom(x, s'.tree, RankOf(s'.tree), base, |fetched|, snaps, i);
  }

  lemma SnapshotFrom(x: Ext, t: Tree, rank: map<Handle, nat>, base: nat, n: nat, snaps: seq<Row>, i: nat)
    requires Linked(t) && Ranked(t, rank) && forall j :: 0 <= j < n ==> Fresh(base, n)[j] in t
    requires i < n && snaps == Snapshots(x, t, rank, Fresh(base, n))
    ensures base + i in t && snaps[i] == Serialize(x, t, rank, base + i)
  {
    var hs := Fresh(base, n);
    SnapshotAt(x, t, rank, hs, i);
  }

  /** What findExecution promises for an id nobody tracks yet. */
  ghost predicate FindsStoredRow(s: EngineState, id: Id, r: (EngineState, FindResult)) {
    && (r.1.Found? <==> Joined(s.conn.db, id))
    && (r.1.Found? ==> r.1.exec !in s.tree && r.1.exec in r.0.tree && r.0.tree[r.1.exec].id == id)
    && (r.1.Failed? ==> r.1.error == Throwable(false, ExecutionNotFound(id)))
  }

  /**
   * An untracked id is found exactly when its row is stored with a stored definition; the object
   * returned is a new one carrying that id, and otherwise the lookup fails with "not found".
   */
  lemma FindFindsStoredRow(x: Ext, s: EngineState, id: Id, fetched: seq<Id>)
    requires ClassifierContract(x.classify)
    requires ValidState(s) && Keyed(s.conn.db) && StoredAcyclic(s.conn.db) && Fetches(s.conn.db, id, fetched)
    requires Get(s.executions, id).None?
    ensures FindsStoredRow(s, id, FindExecution(x, s, id, fetched))
  {
    var t, tracked := FindUntracked(x, s, id, fetched);
    FindRebuildsProcess(x, s, id, fetched);
    FindsStoredRowFrom(s, id, fetched, FindExecution(x, s, id, fetched), tracked,
      Snapshots(x, t, RankOf(t), Fresh(NextHandle(s.tree.Keys), |fetched|)));
  }

  lemma FindsStoredRowFrom(s: EngineState, id: Id, fetched: seq<Id>, r: (EngineState, FindResult), tracked: Tracked, snaps: seq<Row>)
    requires Fetches(s.conn.db, id, fetched) && Get(s.executions, id).None? && |snaps| == |fetched|
    requires r.0.executions == tracked
    requires r.1 == if Get(tracked, id).Some? then Found(Get(tracked, id).value.exec) else Failed(Throwable(false, ExecutionNotFound(id)))
    requires RebuildsTree(s, fetched, NextHandle(s.tree.Keys), r.0.tree)
    requires TracksRows(s, fetched, NextHandle(s.tree.Keys), snaps, tracked)
    ensures FindsStoredRow(s, id, r)
  {
    if Joined(s.conn.db, id) {
      assert Selected(s.conn.db, id, id);
      var i :| 0 <= i < |fetched| && fetched[i] == id;
      FoundFetched(s, fetched, NextHandle(s.tree.Keys), r.0.tree, tracked, snaps, i);
      FoundCase(s, id, r, NextHandle(s.tree.Keys) + i);
    } else {
      NotFetched(s, id, fetched, NextHandle(s.tree.Keys), tracked, snaps);
    }
  }

  lemma FoundCase(s: EngineState, id: Id, r: (EngineState, FindResult), h: Handle)
    requires Joined(s.conn.db, id) && r.1 == Found(h)
    requires h !in s.tree && h in r.0.tree && r.0.tree[h].id == id
    ensures FindsStoredRow(s, id, r)
  {
  }

  lemma FoundFetched(s: EngineState, fetched: seq<Id>, base: nat, t: Tree, tracked: Tracked, snaps: seq<Row>, i: nat)
    requires |snaps| == |fetched| && i < |fetched| && base == NextHandle(s.tree.Keys)
    requires RebuildsTree(s, fetched, base, t)
    requires TracksRows(s, fetched, base, snaps, tracked)
    ensures Get(tracked, fetched[i]) == Some(Info(base + i, Some(snaps[i])))
    ensures base + i !in s.tree && base + i in t && t[base + i].id == fetched[i]
  {
  }

  lemma NotFetched(s: EngineState, id: Id, fetched: seq<Id>, base: nat, tracked: Tracked, snaps: seq<Row>)
    requires Fetches(s.conn.db, id, fetched) && !Joined(s.conn.db, id) && |snaps| == |fetched|
    requires TracksRows(s, fetched, base, snaps, tracked)
    ensures Get(tracked, id) == Get(s.executions, id)
  {
    assert id !in fetched;
  }
}
