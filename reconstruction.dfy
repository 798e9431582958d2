/**
 * findExecution for an execution that is not tracked: the whole process is
 * rebuilt from its stored rows. One query returns every row of the process
 * the requested row belongs to, joined with its definition; every row
 * becomes a new VirtualExecution object, the objects are linked to their
 * parents by the stored parent id, and each is registered with its own
 * serialisation as the clean snapshot.
 *
 * The order in which the database returns the rows is not fixed by the
 * query; it is an input here (`fetched`). New objects get handles above
 * every handle in use, in the order they are built.
 */
module Reconstruction {
  import opened Wrappers
  import opened Store
  import opened OrderedMaps
  import opened Executions
  import opened Synchronization

  /** A stored row together with the definition the inner join finds for it. */
  ghost predicate Joined(db: Db, k: Id) {
    k in db.executions && db.executions[k].def in db.definitions
  }

  /** The query's WHERE clause and join: a row of the requested row's process, with a stored definition. */
  ghost predicate Selected(db: Db, id: Id, k: Id) {
    id in db.executions && Joined(db, k) && db.executions[k].process == db.executions[id].process
  }

  /** `fetched` lists the rows the query returns, each once, in the order the database returns them. */
  ghost predicate Fetches(db: Db, id: Id, fetched: seq<Id>) {
    && (forall i, j :: 0 <= i < j < |fetched| ==> fetched[i] != fetched[j])
    && (forall k :: k in fetched <==> Selected(db, id, k))
  }

  /** `r` ranks row `p` strictly below row `k`. */
  ghost predicate Below(r: map<Id, nat>, p: Id, k: Id) {
    p in r && k in r && r[p] < r[k]
  }

  /** `r` ranks every stored row strictly below the rows whose `pid` names it. */
  ghost predicate RanksRows(db: Db, r: map<Id, nat>) {
    && db.executions.Keys <= r.Keys
    && forall k, p {:trigger Below(r, p, k)} ::
         k in db.executions && p in db.executions && db.executions[k].pid == Some(p) ==> Below(r, p, k)
  }

  /**
   * The stored parent ids have no cycle, as the engine writes them: a row is
   * inserted after its parent row and deleted before it.
   */
  ghost predicate StoredAcyclic(db: Db) {
    exists r :: RanksRows(db, r)
  }

  /** The object built from a fetched row, before any parent is set. */
  function Load(x: Ext, defs: map<Id, Definition>, row: Row): Exec
    requires row.def in defs
  {
    Exec(row.id, None, [], defs[row.def], row.state, row.active, row.node, row.transition, row.bkey, x.unpackVars(row.vars))
  }

  /** The definitions the loop unserialises and caches, one per definition id. */
  ghost predicate CachedDefs(x: Ext, db: Db, defs: map<Id, Definition>) {
    forall d :: d in defs ==> d in db.definitions && defs[d] == x.unpackDefinition(db.definitions[d])
  }

  /** The definition cache as the definitions table sees it. */
  ghost function AllDefs(x: Ext, db: Db): (defs: map<Id, Definition>)
    ensures CachedDefs(x, db, defs) && defs.Keys == db.definitions.Keys
  {
    map d | d in db.definitions :: x.unpackDefinition(db.definitions[d])
  }

  /** `$executions`: each fetched id to the handle of the object built for it. */
  function HandleMap(fetched: seq<Id>, base: nat): (hs: map<Id, Handle>)
    ensures forall k :: k in hs ==> base <= hs[k] < base + |fetched|
    decreases |fetched|
  {
    if fetched == [] then map[]
    else
      var n := |fetched| - 1;
      HandleMap(fetched[..n], base)[fetched[n] := base + n]
  }

  lemma {:induction false} HandleMapAt(fetched: seq<Id>, base: nat, i: nat)
    requires forall i, j :: 0 <= i < j < |fetched| ==> fetched[i] != fetched[j]
    requires i < |fetched|
    ensures fetched[i] in HandleMap(fetched, base) && HandleMap(fetched, base)[fetched[i]] == base + i
    decreases |fetched|
  {
    var n := |fetched| - 1;
    if i < n {
      assert fetched[..n][i] == fetched[i] && fetched[i] != fetched[n];
      HandleMapAt(fetched[..n], base, i);
    }
  }

  /** Exactly the fetched ids have handles. */
  lemma {:induction false} HandleMapKeys(fetched: seq<Id>, base: nat, k: Id)
    ensures k in HandleMap(fetched, base) <==> k in fetched
    decreases |fetched|
  {
    if fetched != [] {
      var n := |fetched| - 1;
      HandleMapKeys(fetched[..n], base, k);
      assert fetched == fetched[..n] + [fetched[n]];
    }
  }

  /** The objects built by the fetch loop: the row at position `i` becomes handle `base + i`. */
  ghost function Loaded(x: Ext, db: Db, fetched: seq<Id>, base: nat): (t: Tree)
    requires forall i :: 0 <= i < |fetched| ==> Joined(db, fetched[i])
    ensures forall h :: h in t <==> base <= h < base + |fetched|
    decreases |fetched|
  {
    if fetched == [] then map[]
    else
      var n := |fetched| - 1;
      assert fetched[n] in fetched && Joined(db, fetched[n]);
      var row := db.executions[fetched[n]];
      assert row.def in AllDefs(x, db);
      Loaded(x, db, fetched[..n], base)[base + n := Load(x, AllDefs(x, db), row)]
  }

  lemma {:induction false} LoadedAt(x: Ext, db: Db, fetched: seq<Id>, base: nat, i: nat)
    requires forall i :: 0 <= i < |fetched| ==> Joined(db, fetched[i])
    requires i < |fetched|
    ensures fetched[i] in fetched
    ensures base + i in Loaded(x, db, fetched, base)
    ensures Loaded(x, db, fetched, base)[base + i] == Load(x, AllDefs(x, db), db.executions[fetched[i]])
    decreases |fetched|
  {
    var n := |fetched| - 1;
    if i < n {
      LoadedAt(x, db, fetched[..n], base, i);
    }
  }

  /** `$parents`: each fetched id with a stored parent id, to that parent id, in fetch order. */
  function ParentsOf(db: Db, fetched: seq<Id>): (ps: OMap<Id, Id>)
    requires forall i :: 0 <= i < |fetched| ==> fetched[i] in db.executions
    decreases |fetched|
  {
    if fetched == [] then []
    else
      var n := |fetched| - 1;
      var k := fetched[n];
      var ps := ParentsOf(db, fetched[..n]);
      if db.executions[k].pid.Some? then Put(ps, k, db.executions[k].pid.value) else ps
  }

  /** A fetched id has a parent entry exactly when its row has a parent id, and the entry is that id. */
  lemma {:induction false} ParentsOfGet(db: Db, fetched: seq<Id>, k: Id)
    requires forall i :: 0 <= i < |fetched| ==> fetched[i] in db.executions
    ensures Get(ParentsOf(db, fetched), k) == if k in fetched then db.executions[k].pid else None
    decreases |fetched|
  {
    if fetched != [] {
      var n := |fetched| - 1;
      ParentsOfGet(db, fetched[..n], k);
      assert fetched == fetched[..n] + [fetched[n]];
    }
  }

  lemma {:induction false} ParentsOfDistinct(db: Db, fetched: seq<Id>)
    requires forall i :: 0 <= i < |fetched| ==> fetched[i] in db.executions
    ensures Distinct(ParentsOf(db, fetched))
    ensures forall e :: e in ParentsOf(db, fetched) ==> e.key in fetched && db.executions[e.key].pid == Some(e.value)
    decreases |fetched|
  {
    if fetched != [] {
      var n := |fetched| - 1;
      var k := fetched[n];
      var ps := ParentsOf(db, fetched[..n]);
      ParentsOfDistinct(db, fetched[..n]);
      if db.executions[k].pid.Some? {
        PutDistinct(ps, k, db.executions[k].pid.value);
        forall e | e in Put(ps, k, db.executions[k].pid.value)
          ensures e.key in fetched && db.executions[e.key].pid == Some(e.value)
        {
          var i :| 0 <= i < |Put(ps, k, db.executions[k].pid.value)| && Put(ps, k, db.executions[k].pid.value)[i] == e;
          assert Get(Put(ps, k, db.executions[k].pid.value), e.key).Some?;
          GetDistinct(Put(ps, k, db.executions[k].pid.value), i);
          if e.key != k {
            assert Get(ps, e.key) == Some(e.value);
            var j :| 0 <= j < |ps| && ps[j] == Entry(e.key, e.value);
            assert ps[j] in ps;
          }
        }
      }
    }
  }

  /** Every parent entry is keyed by a fetched id, which has a handle. */
  lemma ParentsHandled(db: Db, fetched: seq<Id>, base: nat)
    requires forall i :: 0 <= i < |fetched| ==> fetched[i] in db.executions
    ensures forall e :: e in ParentsOf(db, fetched) ==> e.key in HandleMap(fetched, base)
  {
    ParentsOfDistinct(db, fetched);
    forall e | e in ParentsOf(db, fetched) ensures e.key in HandleMap(fetched, base) {
      HandleMapKeys(fetched, base, e.key);
    }
  }

  /**
   * `$executions[$id]->setParentExecution($executions[$pid])`: the child
   * points to its parent and is appended to the parent's children. A parent
   * id that was not fetched leaves `$executions[$pid]` undefined, and the
   * object stays a root.
   */
  ghost function LinkOne(t: Tree, hs: map<Id, Handle>, e: Entry<Id, Id>): (r: Tree)
    requires e.key in hs && hs[e.key] in t && (e.value in hs ==> hs[e.value] in t)
    ensures r.Keys == t.Keys
  {
    if e.value in hs then
      var c, p := hs[e.key], hs[e.value];
      var t1 := t[c := t[c].(parent := Some(p))];
      t1[p := t1[p].(children := t1[p].children + [c])]
    else t
  }

  /** The parent loop over `$parents`, in its order. */
  ghost function LinkAll(t: Tree, hs: map<Id, Handle>, ps: OMap<Id, Id>): (r: Tree)
    requires forall k :: k in hs ==> hs[k] in t
    requires forall e :: e in ps ==> e.key in hs
    ensures r.Keys == t.Keys
    decreases |ps|
  {
    if ps == [] then t
    else
      assert ps[0] in ps;
      LinkAll(LinkOne(t, hs, ps[0]), hs, ps[1..])
  }

  /** The two objects agree on everything but their parent and child links. */
  ghost predicate SameData(a: Exec, b: Exec) {
    a.(parent := b.parent, children := b.children) == b
  }

  /** No fetched id names the object `h`. */
  ghost predicate Untouched(hs: map<Id, Handle>, h: Handle) {
    forall k :: k in hs ==> hs[k] != h
  }

  /** What the parent loop may rely on: `hs` names objects carrying their ids (so distinct ids name distinct objects), ranked as the rows are. */
  ghost predicate LinkFrame(t: Tree, rank: map<Handle, nat>, hs: map<Id, Handle>, r: map<Id, nat>) {
    forall k :: k in hs ==> hs[k] in t && t[hs[k]].id == k && k in r && hs[k] in rank && rank[hs[k]] == r[k]
  }

  /** An entry the parent loop has still to process: the child has no parent yet, and the parent ranks lower. */
  ghost predicate Pending(t: Tree, hs: map<Id, Handle>, r: map<Id, nat>, e: Entry<Id, Id>)
    requires forall k :: k in hs ==> hs[k] in t
  {
    && e.key in hs && t[hs[e.key]].parent.None?
    && (e.value in hs ==> e.key in r && e.value in r && r[e.value] < r[e.key])
  }

  /** Linking `c` under `p` changes those two objects only. */
  lemma LinkOneAt(t: Tree, hs: map<Id, Handle>, e: Entry<Id, Id>, h: Handle)
    requires e.key in hs && hs[e.key] in t && e.value in hs && hs[e.value] in t && hs[e.key] != hs[e.value] && h in t
    ensures LinkOne(t, hs, e)[h] ==
      if h == hs[e.key] then t[h].(parent := Some(hs[e.value]))
      else if h == hs[e.value] then t[h].(children := t[h].children + [hs[e.key]])
      else t[h]
  {
  }

  lemma LinkOneLinked(t: Tree, hs: map<Id, Handle>, e: Entry<Id, Id>)
    requires Linked(t) && e.key in hs && hs[e.key] in t && e.value in hs && hs[e.value] in t
    requires hs[e.key] != hs[e.value] && t[hs[e.key]].parent.None?
    ensures Linked(LinkOne(t, hs, e))
  {
    var c, p := hs[e.key], hs[e.value];
    var t' := LinkOne(t, hs, e);
    forall h | h in t'
      ensures t'[h].parent.Some? ==> t'[h].parent.value in t'
      ensures forall cc :: cc in t'[h].children ==> cc in t' && t'[cc].parent == Some(h)
    {
      LinkOneAt(t, hs, e, h);
      forall cc | cc in t'[h].children ensures cc in t' && t'[cc].parent == Some(h) {
        if h == p && cc == c {
          LinkOneAt(t, hs, e, cc);
        } else {
          assert cc in t[h].children;
          assert cc != c;
          LinkOneAt(t, hs, e, cc);
        }
      }
    }
  }

  lemma LinkOneRanked(t: Tree, rank: map<Handle, nat>, hs: map<Id, Handle>, e: Entry<Id, Id>)
    requires Ranked(t, rank) && e.key in hs && hs[e.key] in t && e.value in hs && hs[e.value] in t
    requires hs[e.key] != hs[e.value] && rank[hs[e.value]] < rank[hs[e.key]]
    ensures Ranked(LinkOne(t, hs, e), rank)
  {
    var t' := LinkOne(t, hs, e);
    forall h | h in t' && t'[h].parent.Some? ensures t'[h].parent.value in rank && rank[t'[h].parent.value] < rank[h] {
      LinkOneAt(t, hs, e, h);
    }
  }

  lemma LinkOneKeeps(t: Tree, rank: map<Handle, nat>, hs: map<Id, Handle>, r: map<Id, nat>, e: Entry<Id, Id>)
    requires Linked(t) && Ranked(t, rank) && LinkFrame(t, rank, hs, r) && Pending(t, hs, r, e)
    ensures var t' := LinkOne(t, hs, e);
      && Linked(t') && Ranked(t', rank) && LinkFrame(t', rank, hs, r)
      && (forall h :: h in t ==> SameData(t'[h], t[h]))
      && (forall h :: h in t && h != hs[e.key] ==> t'[h].parent == t[h].parent)
      && (forall h :: h in t && Untouched(hs, h) ==> t'[h] == t[h])
      && t'[hs[e.key]].parent == (if e.value in hs then Some(hs[e.value]) else None)
  {
    if e.value in hs {
      var c, p := hs[e.key], hs[e.value];
      assert c != p by {
        assert rank[p] < rank[c];
      }
      LinkOneLinked(t, hs, e);
      LinkOneRanked(t, rank, hs, e);
      var t' := LinkOne(t, hs, e);
      forall h | h in t ensures SameData(t'[h], t[h]) && (h != c ==> t'[h].parent == t[h].parent) && (Untouched(hs, h) ==> t'[h] == t[h]) {
        LinkOneAt(t, hs, e, h);
      }
      forall k | k in hs ensures t'[hs[k]].id == k {
        LinkOneAt(t, hs, e, hs[k]);
      }
    }
  }

  /** An entry for another child is still pending once `e` is linked. */
  lemma PendingAfter(t: Tree, rank: map<Handle, nat>, hs: map<Id, Handle>, r: map<Id, nat>, e: Entry<Id, Id>, e': Entry<Id, Id>)
    requires Linked(t) && Ranked(t, rank) && LinkFrame(t, rank, hs, r) && Pending(t, hs, r, e)
    requires e'.key in hs && Pending(t, hs, r, e') && e'.key != e.key
    ensures Pending(LinkOne(t, hs, e), hs, r, e')
  {
    LinkOneKeeps(t, rank, hs, r, e);
    assert hs[e'.key] != hs[e.key] by {
      assert t[hs[e'.key]].id == e'.key;
    }
  }

  lemma PendingRest(t: Tree, rank: map<Handle, nat>, hs: map<Id, Handle>, r: map<Id, nat>, ps: OMap<Id, Id>)
    requires Linked(t) && Ranked(t, rank) && LinkFrame(t, rank, hs, r) && Distinct(ps) && ps != []
    requires forall i :: 0 <= i < |ps| ==> ps[i].key in hs && Pending(t, hs, r, ps[i])
    ensures var t1 := LinkOne(t, hs, ps[0]);
      && Linked(t1) && Ranked(t1, rank) && LinkFrame(t1, rank, hs, r) && Distinct(ps[1..])
      && forall i :: 0 <= i < |ps[1..]| ==> ps[1..][i].key in hs && Pending(t1, hs, r, ps[1..][i])
  {
    LinkOneKeeps(t, rank, hs, r, ps[0]);
    forall i | 0 <= i < |ps[1..]| ensures ps[1..][i].key in hs && Pending(LinkOne(t, hs, ps[0]), hs, r, ps[1..][i]) {
      assert ps[1..][i] == ps[i + 1];
      PendingAfter(t, rank, hs, r, ps[0], ps[i + 1]);
    }
  }

  /** The parent loop yields a well-linked, acyclic tree and changes only links. */
  lemma {:induction false} LinkAllKeeps(t: Tree, rank: map<Handle, nat>, hs: map<Id, Handle>, r: map<Id, nat>, ps: OMap<Id, Id>)
    requires Linked(t) && Ranked(t, rank) && LinkFrame(t, rank, hs, r) && Distinct(ps)
    requires forall i :: 0 <= i < |ps| ==> ps[i].key in hs && Pending(t, hs, r, ps[i])
    ensures var t' := LinkAll(t, hs, ps);
      && Linked(t') && Ranked(t', rank)
      && (forall h :: h in t ==> SameData(t'[h], t[h]))
      && (forall h :: h in t && Untouched(hs, h) ==> t'[h] == t[h])
    decreases |ps|
  {
    if ps != [] {
      LinkOneKeeps(t, rank, hs, r, ps[0]);
      PendingRest(t, rank, hs, r, ps);
      LinkAllKeeps(LinkOne(t, hs, ps[0]), rank, hs, r, ps[1..]);
    }
  }

  /** Each fetched object ends up pointing to the object of its stored parent id, if that row was fetched. */
  lemma {:induction false} LinkAllParent(t: Tree, rank: map<Handle, nat>, hs: map<Id, Handle>, r: map<Id, nat>, ps: OMap<Id, Id>, k: Id)
    requires Linked(t) && Ranked(t, rank) && LinkFrame(t, rank, hs, r) && Distinct(ps)
    requires forall i :: 0 <= i < |ps| ==> ps[i].key in hs && Pending(t, hs, r, ps[i])
    requires k in hs
    ensures LinkAll(t, hs, ps)[hs[k]].parent ==
      if Get(ps, k).Some? && Get(ps, k).value in hs then Some(hs[Get(ps, k).value]) else t[hs[k]].parent
    decreases |ps|
  {
    if ps != [] {
      LinkOneParent(t, rank, hs, r, ps[0], k);
      PendingRest(t, rank, hs, r, ps);
      LinkAllParent(LinkOne(t, hs, ps[0]), rank, hs, r, ps[1..], k);
      GetDistinctTail(ps, k);
    }
  }

  /** Linking one entry sets the parent of its child only. */
  lemma LinkOneParent(t: Tree, rank: map<Handle, nat>, hs: map<Id, Handle>, r: map<Id, nat>, e: Entry<Id, Id>, k: Id)
    requires Linked(t) && Ranked(t, rank) && LinkFrame(t, rank, hs, r) && Pending(t, hs, r, e)
    requires k in hs
    ensures LinkOne(t, hs, e)[hs[k]].parent ==
      if k == e.key && e.value in hs then Some(hs[e.value]) else t[hs[k]].parent
  {
    LinkOneKeeps(t, rank, hs, r, e);
    if k != e.key {
      assert hs[k] != hs[e.key] by {
        assert t[hs[k]].id == k;
      }
    }
  }

  /** In a map without repeated keys, the first entry is the only one for its key. */
  lemma GetDistinctTail(ps: OMap<Id, Id>, k: Id)
    requires Distinct(ps) && ps != []
    ensures Get(ps, k) == if k == ps[0].key then Some(ps[0].value) else Get(ps[1..], k)
    ensures k == ps[0].key ==> Get(ps[1..], k).None?
  {
    if k == ps[0].key {
      forall j | 0 <= j < |ps[1..]| ensures ps[1..][j].key != k {
        assert ps[1..][j] == ps[j + 1];
      }
    }
  }

  /** The primary key of every stored execution row is its id column. */
  ghost predicate Keyed(db: Db) {
    forall k :: k in db.executions ==> db.executions[k].id == k
  }

  /** One more than the largest handle in use: the first handle a new object can get. */
  ghost function NextHandle(hs: set<Handle>): (b: Handle)
    ensures forall h :: h in hs ==> h < b
    ensures hs == {} ==> b == 0
    ensures hs != {} ==> b - 1 in hs
    decreases hs
  {
    if hs == {} then 0
    else
      var k :| k in hs;
      var rest := NextHandle(hs - {k});
      assert forall h :: h in hs ==> h == k || h in hs - {k};
      if rest <= k then k + 1 else rest
  }

  /** Only one number is above every handle in use and one above some handle in use. */
  lemma NextHandleUnique(hs: set<Handle>, b: Handle)
    requires forall h :: h in hs ==> h < b
    requires hs == {} ==> b == 0
    requires hs != {} ==> b - 1 in hs
    ensures b == NextHandle(hs)
  {
  }

  /**
   * The tree after the fetch loop and the parent loop: the objects in use,
   * untouched, and one new object per fetched row, linked by stored parent id.
   */
  ghost function Rebuilt(x: Ext, db: Db, t: Tree, fetched: seq<Id>): Tree
    requires forall i :: 0 <= i < |fetched| ==> Joined(db, fetched[i])
  {
    var base := NextHandle(t.Keys);
    assert forall i :: 0 <= i < |fetched| ==> fetched[i] in db.executions by {
      forall k | k in fetched ensures k in db.executions {
        assert Joined(db, k);
      }
    }
    ParentsHandled(db, fetched, base);
    LinkAll(t + Loaded(x, db, fetched, base), HandleMap(fetched, base), ParentsOf(db, fetched))
  }

  /** The rows ranked by `r`, the objects in use by their own rank. */
  ghost function MergedRanks(t: Tree, rank: map<Handle, nat>, u: Tree, r: map<Id, nat>): (m: map<Handle, nat>)
    requires forall h :: h in u && h !in t ==> u[h].id in r
    ensures m.Keys == u.Keys
  {
    map h | h in u :: if h in t && h in rank then rank[h] else if h in t then 0 else r[u[h].id]
  }

  /** The new objects have no links yet, and carry ids of ranked rows. */
  lemma {:induction false} LoadedFresh(x: Ext, db: Db, fetched: seq<Id>, base: nat, r: map<Id, nat>, l: Tree)
    requires Keyed(db) && db.executions.Keys <= r.Keys
    requires forall i :: 0 <= i < |fetched| ==> Joined(db, fetched[i])
    requires l == Loaded(x, db, fetched, base)
    ensures forall h :: h in l ==> l[h].id in r && l[h].parent.None? && l[h].children == []
  {
    forall h | h in l ensures l[h].id in r && l[h].parent.None? && l[h].children == [] {
      LoadedAt(x, db, fetched, base, h - base);
      assert Joined(db, fetched[h - base]);
    }
  }

  /** Adding objects without links to an acyclic tree keeps it acyclic. */
  lemma LoadedLinked(t: Tree, l: Tree)
    requires Linked(t) && t.Keys !! l.Keys
    requires forall h :: h in l ==> l[h].parent.None? && l[h].children == []
    ensures Linked(t + l)
  {
    var u := t + l;
    forall h | h in u ensures (u[h].parent.Some? ==> u[h].parent.value in u) && (forall c :: c in u[h].children ==> c in u && u[c].parent == Some(h)) {
      if h in t {
        assert u[h] == t[h];
        forall c | c in u[h].children ensures c in u && u[c].parent == Some(h) {
          assert c in t && u[c] == t[c];
        }
      }
    }
  }

  lemma LoadedRanked(t: Tree, rank: map<Handle, nat>, l: Tree, r: map<Id, nat>)
    requires Ranked(t, rank) && t.Keys !! l.Keys
    requires forall h :: h in l ==> l[h].id in r && l[h].parent.None?
    ensures forall h :: h in t + l && h !in t ==> (t + l)[h].id in r && (t + l)[h].parent.None?
    ensures Ranked(t + l, MergedRanks(t, rank, t + l, r))
  {
    var u := t + l;
    forall h | h in u && h !in t ensures u[h].id in r && u[h].parent.None? {
      assert u[h] == l[h];
    }
    var m := MergedRanks(t, rank, u, r);
    forall h | h in u && u[h].parent.Some? ensures u[h].parent.value in m && m[u[h].parent.value] < m[h] {
      assert h in t && u[h] == t[h];
    }
  }

  /** The fetched ids name the new objects, ranked as their rows, and none of the objects in use. */
  lemma LoadedFrame(x: Ext, db: Db, t: Tree, fetched: seq<Id>, base: nat, u: Tree, hs: map<Id, Handle>)
    requires Keyed(db)
    requires forall i, j :: 0 <= i < j < |fetched| ==> fetched[i] != fetched[j]
    requires forall i :: 0 <= i < |fetched| ==> Joined(db, fetched[i])
    requires forall h :: h in t ==> h < base
    requires u == t + Loaded(x, db, fetched, base) && hs == HandleMap(fetched, base)
    ensures forall k :: k in hs ==> k in fetched
    ensures forall i :: 0 <= i < |fetched| ==> fetched[i] in hs && hs[fetched[i]] == base + i && base + i in u && base + i !in t && u[base + i].id == fetched[i]
  {
    forall i | 0 <= i < |fetched| ensures fetched[i] in hs && hs[fetched[i]] == base + i && base + i in u && base + i !in t && u[base + i].id == fetched[i] {
      LoadedFrameAt(x, db, t, fetched, base, u, hs, i);
    }
    forall k | k in hs ensures k in fetched {
      HandleMapKeys(fetched, base, k);
    }
  }

  lemma FrameOfNew(t: Tree, u: Tree, hs: map<Id, Handle>, rank: map<Handle, nat>, r: map<Id, nat>, fetched: seq<Id>, base: nat)
    requires forall k :: k in hs ==> k in fetched
    requires forall i :: 0 <= i < |fetched| ==> fetched[i] in hs && hs[fetched[i]] == base + i && base + i in u && base + i !in t && u[base + i].id == fetched[i]
    requires forall h :: h in u ==> h in rank && (h !in t ==> u[h].id in r && rank[h] == r[u[h].id])
    ensures LinkFrame(u, rank, hs, r)
    ensures forall h :: h in t ==> Untouched(hs, h)
  {
    forall k | k in hs ensures hs[k] in u && hs[k] !in t && u[hs[k]].id == k {
      var i :| 0 <= i < |fetched| && fetched[i] == k;
    }
  }

  lemma LoadedFrameAt(x: Ext, db: Db, t: Tree, fetched: seq<Id>, base: nat, u: Tree, hs: map<Id, Handle>, i: nat)
    requires Keyed(db)
    requires forall i, j :: 0 <= i < j < |fetched| ==> fetched[i] != fetched[j]
    requires forall i :: 0 <= i < |fetched| ==> Joined(db, fetched[i])
    requires forall h :: h in t ==> h < base
    requires u == t + Loaded(x, db, fetched, base) && hs == HandleMap(fetched, base)
    requires i < |fetched|
    ensures fetched[i] in hs && hs[fetched[i]] == base + i && base + i in u && base + i !in t && u[base + i].id == fetched[i]
  {
    HandleMapAt(fetched, base, i);
    LoadedAt(x, db, fetched, base, i);
    assert Joined(db, fetched[i]);
  }

  /** Every parent entry names a new object without a parent, and a parent row ranked lower. */
  lemma LoadedPending(x: Ext, db: Db, t: Tree, fetched: seq<Id>, r: map<Id, nat>)
    requires RanksRows(db, r)
    requires forall i :: 0 <= i < |fetched| ==> Joined(db, fetched[i])
    requires var u := t + Loaded(x, db, fetched, NextHandle(t.Keys));
      && (forall k :: k in HandleMap(fetched, NextHandle(t.Keys)) ==> HandleMap(fetched, NextHandle(t.Keys))[k] in u)
      && (forall h :: h in u && h !in t ==> u[h].parent.None?)
    ensures var ps := ParentsOf(db, fetched);
      && Distinct(ps)
      && forall i :: 0 <= i < |ps| ==>
           (ps[i].key in HandleMap(fetched, NextHandle(t.Keys)) &&
            Pending(t + Loaded(x, db, fetched, NextHandle(t.Keys)), HandleMap(fetched, NextHandle(t.Keys)), r, ps[i]))
  {
    var base := NextHandle(t.Keys);
    var u := t + Loaded(x, db, fetched, base);
    var hs := HandleMap(fetched, base);
    var ps := ParentsOf(db, fetched);
    assert forall i :: 0 <= i < |fetched| ==> fetched[i] in db.executions by {
      forall k | k in fetched ensures k in db.executions {
        assert Joined(db, k);
      }
    }
    ParentsOfDistinct(db, fetched);
    ParentsHandled(db, fetched, base);
    forall i | 0 <= i < |ps| ensures ps[i].key in hs && Pending(u, hs, r, ps[i]) {
      assert ps[i] in ps;
      assert hs[ps[i].key] !in t;
      HandleMapKeys(fetched, base, ps[i].value);
      assert ps[i].value in hs ==> Below(r, ps[i].value, ps[i].key);
    }
  }

  /** The state just before the parent loop, named: the loaded tree `u`, `$executions` as `hs`, `$parents` as `ps`. */
  ghost predicate Prepared(x: Ext, db: Db, t: Tree, fetched: seq<Id>, r: map<Id, nat>, base: nat, u: Tree, hs: map<Id, Handle>, ps: OMap<Id, Id>) {
    && Acyclic(t) && Keyed(db) && RanksRows(db, r)
    && (forall i, j :: 0 <= i < j < |fetched| ==> fetched[i] != fetched[j])
    && (forall i :: 0 <= i < |fetched| ==> Joined(db, fetched[i]))
    && base == NextHandle(t.Keys) && u == t + Loaded(x, db, fetched, base)
    && hs == HandleMap(fetched, base) && ps == ParentsOf(db, fetched)
  }

  lemma Prepare(x: Ext, db: Db, t: Tree, fetched: seq<Id>) returns (r: map<Id, nat>, base: nat, u: Tree, hs: map<Id, Handle>, ps: OMap<Id, Id>)
    requires Acyclic(t) && Keyed(db) && StoredAcyclic(db)
    requires forall i, j :: 0 <= i < j < |fetched| ==> fetched[i] != fetched[j]
    requires forall i :: 0 <= i < |fetched| ==> Joined(db, fetched[i])
    ensures Prepared(x, db, t, fetched, r, base, u, hs, ps)
  {
    r :| RanksRows(db, r);
    base := NextHandle(t.Keys);
    u := t + Loaded(x, db, fetched, base);
    hs := HandleMap(fetched, base);
    ps := ParentsOf(db, fetched);
  }

  /** `Rebuilt` is the parent loop run on the prepared state. */
  lemma RebuiltIs(x: Ext, db: Db, t: Tree, fetched: seq<Id>, base: nat, u: Tree, hs: map<Id, Handle>, ps: OMap<Id, Id>)
    requires forall i :: 0 <= i < |fetched| ==> Joined(db, fetched[i])
    requires base == NextHandle(t.Keys) && u == t + Loaded(x, db, fetched, base)
    requires hs == HandleMap(fetched, base) && ps == ParentsOf(db, fetched)
    ensures forall k :: k in hs ==> hs[k] in u
    ensures forall e :: e in ps ==> e.key in hs
    ensures Rebuilt(x, db, t, fetched) == LinkAll(u, hs, ps)
  {
    assert forall i :: 0 <= i < |fetched| ==> fetched[i] in db.executions;
    ParentsHandled(db, fetched, base);
  }

  /** What the parent loop needs of the tree it starts from: the objects of `t` as they were, and every entry pending. */
  ghost predicate ReadyToLink(t: Tree, u: Tree, rank: map<Handle, nat>, hs: map<Id, Handle>, r: map<Id, nat>, ps: OMap<Id, Id>) {
    && Linked(u) && Ranked(u, rank) && LinkFrame(u, rank, hs, r) && Distinct(ps)
    && (forall i :: 0 <= i < |ps| ==> ps[i].key in hs && Pending(u, hs, r, ps[i]))
    && (forall h :: h in t ==> h in u && u[h] == t[h] && Untouched(hs, h))
    && (forall k :: k in hs ==> u[hs[k]].parent.None?)
  }

  /** `u` extends `t` with unlinked objects whose ids the rows rank, and stays well linked. */
  ghost predicate GrownBy(t: Tree, u: Tree, r: map<Id, nat>) {
    && Linked(u)
    && (forall h :: h in t ==> h in u && u[h] == t[h])
    && (forall h :: h in u && h !in t ==> u[h].id in r && u[h].parent.None?)
  }

  /** Adding the loaded objects above the handles of `t` keeps the tree well linked and ranked. */
  lemma LoadedGrows(x: Ext, db: Db, t: Tree, fetched: seq<Id>, r: map<Id, nat>, base: nat, u: Tree)
    requires Acyclic(t) && Keyed(db) && RanksRows(db, r)
    requires forall i :: 0 <= i < |fetched| ==> Joined(db, fetched[i])
    requires base == NextHandle(t.Keys) && u == t + Loaded(x, db, fetched, base)
    ensures GrownBy(t, u, r) && Ranked(u, MergedRanks(t, RankOf(t), u, r))
  {
    var l := Loaded(x, db, fetched, base);
    LoadedFresh(x, db, fetched, base, r, l);
    assert t.Keys !! l.Keys by {
      forall h | h in t ensures h !in l {
        assert h < base;
      }
    }
    LoadedLinked(t, l);
    LoadedRanked(t, RankOf(t), l, r);
  }

  /** The facts about the grown tree, the handle map and the parent entries that make up ReadyToLink. */
  lemma ReadyOf(t: Tree, u: Tree, rank: map<Handle, nat>, hs: map<Id, Handle>, r: map<Id, nat>, ps: OMap<Id, Id>, fetched: seq<Id>, base: nat)
    requires GrownBy(t, u, r) && Ranked(u, rank) && LinkFrame(u, rank, hs, r) && Distinct(ps)
    requires forall h :: h in t ==> Untouched(hs, h)
    requires forall k :: k in hs ==> k in fetched
    requires forall i :: 0 <= i < |fetched| ==> fetched[i] in hs && hs[fetched[i]] == base + i && base + i !in t
    requires forall i :: 0 <= i < |ps| ==> ps[i].key in hs && Pending(u, hs, r, ps[i])
    ensures ReadyToLink(t, u, rank, hs, r, ps)
  {
    forall k | k in hs ensures u[hs[k]].parent.None? {
      var i :| 0 <= i < |fetched| && fetched[i] == k;
      assert hs[k] !in t;
    }
  }

  /** Before the parent loop: a well-linked tree, and every parent entry ready to be linked. */
  lemma LoadedReady(x: Ext, db: Db, t: Tree, fetched: seq<Id>, r: map<Id, nat>, base: nat, u: Tree, hs: map<Id, Handle>, ps: OMap<Id, Id>)
    requires Acyclic(t) && Keyed(db) && RanksRows(db, r)
    requires forall i, j :: 0 <= i < j < |fetched| ==> fetched[i] != fetched[j]
    requires forall i :: 0 <= i < |fetched| ==> Joined(db, fetched[i])
    requires base == NextHandle(t.Keys) && u == t + Loaded(x, db, fetched, base)
    requires hs == HandleMap(fetched, base) && ps == ParentsOf(db, fetched)
    ensures forall h :: h in u && h !in t ==> u[h].id in r
    ensures ReadyToLink(t, u, MergedRanks(t, RankOf(t), u, r), hs, r, ps)
  {
    LoadedGrows(x, db, t, fetched, r, base, u);
    assert forall h :: h in t ==> h < base;
    LoadedFrame(x, db, t, fetched, base, u, hs);
    var rank := MergedRanks(t, RankOf(t), u, r);
    FrameOfNew(t, u, hs, rank, r, fetched, base);
    LoadedPending(x, db, t, fetched, r);
    ReadyOf(t, u, rank, hs, r, ps, fetched, base);
  }

  /** The parent loop keeps the objects of `t` and yields an acyclic tree on the same handles. */
  lemma LinkedShape(t: Tree, u: Tree, rank: map<Handle, nat>, hs: map<Id, Handle>, r: map<Id, nat>, ps: OMap<Id, Id>)
    requires ReadyToLink(t, u, rank, hs, r, ps)
    ensures var t' := LinkAll(u, hs, ps);
      && Acyclic(t')
      && t'.Keys == u.Keys
      && (forall h :: h in t ==> t'[h] == t[h])
  {
    LinkAllKeeps(u, rank, hs, r, ps);
  }

  /**
   * The object at `h` of the tree `t'` holds the data of `e`, and has a
   * parent exactly when `pid` names one of `ids`: the object built for that
   * position `j`, at handle `base + j`, which carries the id `pid`.
   */
  ghost predicate BuiltFrom(t': Tree, h: Handle, e: Exec, pid: Option<Id>, ids: seq<Id>, base: nat) {
    && h in t' && SameData(t'[h], e)
    && (t'[h].parent.Some? <==> pid.Some? && pid.value in ids)
    && (forall j :: 0 <= j < |ids| && pid == Some(ids[j]) ==> t'[h].parent == Some(base + j))
    && (t'[h].parent.Some? ==> t'[h].parent.value in t' && Some(t'[t'[h].parent.value].id) == pid)
  }

  lemma UnionAt(t: Tree, l: Tree, base: nat, h: Handle)
    requires forall h' :: h' in t ==> h' < base
    requires base <= h && h in l
    ensures h in t + l && (t + l)[h] == l[h]
  {
  }

  lemma BuiltFromSame(t1: Tree, t2: Tree, h1: Handle, h2: Handle, e1: Exec, e2: Exec, p1: Option<Id>, p2: Option<Id>, ids: seq<Id>, base: nat)
    requires BuiltFrom(t1, h1, e1, p1, ids, base)
    requires t1 == t2 && h1 == h2 && e1 == e2 && p1 == p2
    ensures BuiltFrom(t2, h2, e2, p2, ids, base)
  {
  }

  /** After the parent loop, the object named `k` holds its data and points to the object of its parent entry, if that was fetched. */
  lemma LinkedAt(t: Tree, u: Tree, rank: map<Handle, nat>, hs: map<Id, Handle>, r: map<Id, nat>, ps: OMap<Id, Id>, k: Id, ids: seq<Id>, base: nat)
    requires ReadyToLink(t, u, rank, hs, r, ps) && k in hs
    requires forall v :: v in hs <==> v in ids
    requires forall j :: 0 <= j < |ids| ==> ids[j] in hs && hs[ids[j]] == base + j
    ensures hs[k] in u && BuiltFrom(LinkAll(u, hs, ps), hs[k], u[hs[k]], Get(ps, k), ids, base)
  {
    LinkAllKeeps(u, rank, hs, r, ps);
    LinkAllParent(u, rank, hs, r, ps, k);
    var t' := LinkAll(u, hs, ps);
    var pid := Get(ps, k);
    if pid.Some? && pid.value in hs {
      var p := hs[pid.value];
      assert SameData(t'[p], u[p]);
    }
    ParentAtHandle(t'[hs[k]].parent, hs, pid, ids, base);
  }

  /** The parent set from `$executions[$pid]` is the handle of the position where `pid` was fetched. */
  lemma ParentAtHandle(parent: Option<Handle>, hs: map<Id, Handle>, pid: Option<Id>, ids: seq<Id>, base: nat)
    requires parent == if pid.Some? && pid.value in hs then Some(hs[pid.value]) else None
    requires forall j :: 0 <= j < |ids| ==> ids[j] in hs && hs[ids[j]] == base + j
    ensures forall j :: 0 <= j < |ids| && pid == Some(ids[j]) ==> parent == Some(base + j)
  {
  }

  /** The parent loop run on the loaded tree: its shape. */
  lemma LoadedShape(x: Ext, db: Db, t: Tree, fetched: seq<Id>, r: map<Id, nat>, base: nat, u: Tree, hs: map<Id, Handle>, ps: OMap<Id, Id>)
    requires Prepared(x, db, t, fetched, r, base, u, hs, ps)
    ensures forall k :: k in hs ==> hs[k] in u
    ensures forall e :: e in ps ==> e.key in hs
    ensures var t' := LinkAll(u, hs, ps);
      && Acyclic(t')
      && t'.Keys == u.Keys
      && (forall h :: h in t ==> t'[h] == t[h])
  {
    LoadedReady(x, db, t, fetched, r, base, u, hs, ps);
    LinkedShape(t, u, MergedRanks(t, RankOf(t), u, r), hs, r, ps);
  }

  /** The parent loop run on the loaded tree: the object named `k`. */
  lemma LoadedLinkedAt(x: Ext, db: Db, t: Tree, fetched: seq<Id>, r: map<Id, nat>, base: nat, u: Tree, hs: map<Id, Handle>, ps: OMap<Id, Id>, k: Id)
    requires Prepared(x, db, t, fetched, r, base, u, hs, ps)
    requires k in hs
    ensures forall k :: k in hs ==> hs[k] in u
    ensures forall e :: e in ps ==> e.key in hs
    ensures hs[k] in u && BuiltFrom(LinkAll(u, hs, ps), hs[k], u[hs[k]], Get(ps, k), fetched, base)
  {
    LoadedReady(x, db, t, fetched, r, base, u, hs, ps);
    forall v ensures v in hs <==> v in fetched {
      HandleMapKeys(fetched, base, v);
    }
    forall j | 0 <= j < |fetched| ensures fetched[j] in hs && hs[fetched[j]] == base + j {
      HandleMapAt(fetched, base, j);
    }
    LinkedAt(t, u, MergedRanks(t, RankOf(t), u, r), hs, r, ps, k, fetched, base);
  }

  /** The rebuilt tree is acyclic, keeps every object in use as it was, and adds one object per fetched row. */
  lemma RebuiltShape(x: Ext, db: Db, t: Tree, fetched: seq<Id>)
    requires Acyclic(t) && Keyed(db) && StoredAcyclic(db)
    requires forall i, j :: 0 <= i < j < |fetched| ==> fetched[i] != fetched[j]
    requires forall i :: 0 <= i < |fetched| ==> Joined(db, fetched[i])
    ensures var t' := Rebuilt(x, db, t, fetched);
      && Acyclic(t')
      && (forall h :: h in t' <==> h in t || NextHandle(t.Keys) <= h < NextHandle(t.Keys) + |fetched|)
      && (forall h :: h in t ==> t'[h] == t[h])
  {
    var r, base, u, hs, ps := Prepare(x, db, t, fetched);
    LoadedShape(x, db, t, fetched, r, base, u, hs, ps);
  }

  /** The object built for position `i`, in terms of the parent loop's own state. */
  lemma RebuiltAtLinked(x: Ext, db: Db, t: Tree, fetched: seq<Id>, i: nat) returns (t': Tree, h: Handle, e: Exec, pid: Option<Id>)
    requires Acyclic(t) && Keyed(db) && StoredAcyclic(db)
    requires forall i, j :: 0 <= i < j < |fetched| ==> fetched[i] != fetched[j]
    requires forall i :: 0 <= i < |fetched| ==> Joined(db, fetched[i])
    requires i < |fetched|
    ensures fetched[i] in db.executions && db.executions[fetched[i]].def in AllDefs(x, db)
    ensures t' == Rebuilt(x, db, t, fetched) && h == NextHandle(t.Keys) + i
    ensures e == Load(x, AllDefs(x, db), db.executions[fetched[i]]) && pid == db.executions[fetched[i]].pid
    ensures BuiltFrom(t', h, e, pid, fetched, NextHandle(t.Keys))
  {
    var r, base, u, hs, ps := Prepare(x, db, t, fetched);
    RebuiltIs(x, db, t, fetched, base, u, hs, ps);
    var k := fetched[i];
    PreparedAt(x, db, t, fetched, r, base, u, hs, ps, i);
    LoadedLinkedAt(x, db, t, fetched, r, base, u, hs, ps, k);
    t', h, e, pid := LinkAll(u, hs, ps), hs[k], u[hs[k]], Get(ps, k);
  }

  /** Before the parent loop, position `i` has its handle, its loaded object and its parent entry. */
  lemma PreparedAt(x: Ext, db: Db, t: Tree, fetched: seq<Id>, r: map<Id, nat>, base: nat, u: Tree, hs: map<Id, Handle>, ps: OMap<Id, Id>, i: nat)
    requires Prepared(x, db, t, fetched, r, base, u, hs, ps) && i < |fetched|
    ensures fetched[i] in hs && hs[fetched[i]] == base + i
    ensures fetched[i] in db.executions && db.executions[fetched[i]].def in AllDefs(x, db)
    ensures base + i in u && u[base + i] == Load(x, AllDefs(x, db), db.executions[fetched[i]])
    ensures Get(ps, fetched[i]) == db.executions[fetched[i]].pid
  {
    var k := fetched[i];
    HandleMapAt(fetched, base, i);
    LoadedAt(x, db, fetched, base, i);
    assert k in fetched;
    ParentsOfGet(db, fetched, k);
    UnionAt(t, Loaded(x, db, fetched, base), base, base + i);
  }

  /**
   * The object built for the row at position `i` holds that row's data, and
   * points to the object built for its stored parent id when that row was
   * fetched too; otherwise it is a root.
   */
  lemma RebuiltAt(x: Ext, db: Db, t: Tree, fetched: seq<Id>, i: nat)
    requires Acyclic(t) && Keyed(db) && StoredAcyclic(db)
    requires forall i, j :: 0 <= i < j < |fetched| ==> fetched[i] != fetched[j]
    requires forall i :: 0 <= i < |fetched| ==> Joined(db, fetched[i])
    requires i < |fetched|
    ensures fetched[i] in db.executions && db.executions[fetched[i]].def in AllDefs(x, db)
    ensures BuiltFrom(Rebuilt(x, db, t, fetched), NextHandle(t.Keys) + i,
                      Load(x, AllDefs(x, db), db.executions[fetched[i]]), db.executions[fetched[i]].pid,
                      fetched, NextHandle(t.Keys))
  {
    var t', h, e, pid := RebuiltAtLinked(x, db, t, fetched, i);
    BuiltFromSame(t', Rebuilt(x, db, t, fetched), h, NextHandle(t.Keys) + i,
                  e, Load(x, AllDefs(x, db), db.executions[fetched[i]]), pid, db.executions[fetched[i]].pid,
                  fetched, NextHandle(t.Keys));
  }
}
