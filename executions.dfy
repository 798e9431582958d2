/**
 * The live execution objects (VirtualExecution) as an arena: each object has a
 * handle, a parent link and an ordered list of child handles; the UUID is a
 * field, so two objects may carry the same id, as two PHP objects can.
 */
module Executions {
  import opened Wrappers
  import opened Store

  /** Identity of a live execution object. */
  type Handle = nat

  type Vars = map<string, string>

  /** A process definition, as unserialised from its stored blob. */
  datatype Definition = Definition(id: Id, nodes: set<string>, transitions: set<string>)

  /**
   * One VirtualExecution. `node` and `transition` are the ids of the
   * definition's node and transition objects (findNode(i).getId() == i is assumed).
   */
  datatype Exec = Exec(
    id: Id,
    parent: Option<Handle>,
    children: seq<Handle>,
    definition: Definition,
    state: int,
    active: real,
    node: Option<string>,
    transition: Option<string>,
    businessKey: Option<string>,
    vars: Vars)

  type Tree = map<Handle, Exec>

  /** ExecutionInfo::getState's answer. */
  datatype SyncStatus = New | Modified | Removed | Unchanged

  /**
   * Code outside the modelled files, as uninterpreted functions: the
   * classifier ExecutionInfo::getState(clean, data), gzcompress(serialize(vars), 1),
   * unserialize(gzuncompress(vars)) and unserialize(gzuncompress(definition)).
   */
  datatype Ext = Ext(
    classify: (Option<Row>, Row) -> SyncStatus,
    packVars: Vars -> Bytes,
    unpackVars: Bytes -> Vars,
    unpackDefinition: Bytes -> Definition)

  /**
   * What the classifier is assumed to do (ExecutionInfo is not part of this
   * model): an execution never persisted is NEW, one whose data equals its
   * clean snapshot is UNCHANGED, one whose data differs is MODIFIED, except
   * that any of them may be REMOVED, and whether it is REMOVED depends only on
   * the current data (the execution has terminated), not on the snapshot.
   */
  ghost predicate ClassifierContract(classify: (Option<Row>, Row) -> SyncStatus) {
    && (forall d :: classify(None, d) == New || classify(None, d) == Removed)
    && (forall d :: classify(Some(d), d) == Unchanged || classify(Some(d), d) == Removed)
    && (forall c, d :: c != d ==> classify(Some(c), d) == Modified || classify(Some(c), d) == Removed)
    && (forall c, c', d :: classify(c, d) == Removed ==> classify(c', d) == Removed)
  }

  /** Parent and child links are consistent and stay inside the arena. */
  ghost predicate Linked(t: Tree) {
    forall h :: h in t ==>
      && (t[h].parent.Some? ==> t[h].parent.value in t)
      && (forall c :: c in t[h].children ==> c in t && t[c].parent == Some(h))
  }

  /** `rank` strictly increases from parent to child: a witness that the links have no cycle. */
  ghost predicate Ranked(t: Tree, rank: map<Handle, nat>) {
    && rank.Keys == t.Keys
    && forall h :: h in t && t[h].parent.Some? ==>
         t[h].parent.value in rank && rank[t[h].parent.value] < rank[h]
  }

  ghost predicate Acyclic(t: Tree) {
    Linked(t) && exists rank :: Ranked(t, rank)
  }

  /** One fixed witness per tree, so that every use of a tree ranks it alike. */
  ghost function RankOf(t: Tree): (rank: map<Handle, nat>)
    requires Acyclic(t)
    ensures Ranked(t, rank)
  {
    var rank :| Ranked(t, rank); rank
  }

  /** The handles ranked above `n`: shrinks on every step from parent to child. */
  ghost function Above(rank: map<Handle, nat>, n: nat): set<Handle> {
    set h | h in rank.Keys && rank[h] > n
  }

  lemma AboveShrinks(t: Tree, rank: map<Handle, nat>, h: Handle, c: Handle)
    requires Linked(t) && Ranked(t, rank) && h in t && c in t[h].children
    ensures Above(rank, rank[c]) < Above(rank, rank[h])
  {
    assert c in Above(rank, rank[h]) - Above(rank, rank[c]);
  }

  /** getRootExecution(): follow parent links up to the execution without a parent. */
  function Root(t: Tree, ghost rank: map<Handle, nat>, h: Handle): (r: Handle)
    requires Linked(t) && Ranked(t, rank) && h in t
    ensures r in t && t[r].parent.None?
    ensures t[h].parent.None? ==> r == h
    decreases rank[h]
  {
    match t[h].parent
    case None => h
    case Some(p) => Root(t, rank, p)
  }

  /** serializeExecution: the row an execution is written as. */
  function Serialize(x: Ext, t: Tree, ghost rank: map<Handle, nat>, h: Handle): (r: Row)
    requires Linked(t) && Ranked(t, rank) && h in t
    ensures r.id == t[h].id && r.def == t[h].definition.id
    ensures r.pid.None? <==> t[h].parent.None?
    ensures r.node.None? <==> t[h].node.None?
    ensures r.transition.None? <==> t[h].transition.None?
    ensures r.process == t[Root(t, rank, h)].id
  {
    var e := t[h];
    Row(
      e.id,
      match e.parent case None => None case Some(p) => Some(t[p].id),
      t[Root(t, rank, h)].id,
      e.definition.id,
      e.state,
      e.active,
      e.node,
      e.transition,
      e.businessKey,
      x.packVars(e.vars))
  }

  /**
   * A child's row names its parent's id as `pid` and lies in the same
   * process as its parent's row.
   */
  lemma {:induction false} ChildRowPointsToParent(x: Ext, t: Tree, rank: map<Handle, nat>, h: Handle, c: Handle)
    requires Linked(t) && Ranked(t, rank) && h in t && c in t[h].children
    ensures Serialize(x, t, rank, c).pid == Some(t[h].id)
    ensures Serialize(x, t, rank, c).process == Serialize(x, t, rank, h).process
  {
    assert t[c].parent == Some(h);
    assert Root(t, rank, c) == Root(t, rank, h);
  }

  /** A root execution's row is its own process. */
  lemma RootRowIsItsProcess(x: Ext, t: Tree, rank: map<Handle, nat>, h: Handle)
    requires Linked(t) && Ranked(t, rank) && h in t && t[h].parent.None?
    ensures Serialize(x, t, rank, h).process == Serialize(x, t, rank, h).id
    ensures Serialize(x, t, rank, h).pid.None?
  {
  }

  /** Every execution reachable through findChildExecutions(), transitively. */
  ghost function Descendants(t: Tree, rank: map<Handle, nat>, h: Handle): (d: set<Handle>)
    requires Linked(t) && Ranked(t, rank) && h in t
    ensures d <= t.Keys
    decreases Above(rank, rank[h]), 1
  {
    DescendantsAmong(t, rank, h, t[h].children)
  }

  /** The children in `cs` and their descendants. */
  ghost function DescendantsAmong(t: Tree, rank: map<Handle, nat>, parent: Handle, cs: seq<Handle>): (d: set<Handle>)
    requires Linked(t) && Ranked(t, rank) && parent in t
    requires forall c :: c in cs ==> c in t[parent].children
    ensures d <= t.Keys
    decreases Above(rank, rank[parent]), 0, |cs|
  {
    if cs == [] then {}
    else
      AboveShrinks(t, rank, parent, cs[0]);
      {cs[0]} + Descendants(t, rank, cs[0]) + DescendantsAmong(t, rank, parent, cs[1..])
  }

  /** The UUIDs of a set of executions. */
  ghost function IdsOf(t: Tree, hs: set<Handle>): set<Id> {
    set h | h in hs && h in t :: t[h].id
  }
}
