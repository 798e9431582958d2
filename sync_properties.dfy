/**
 * What a synchronisation promises: which rows it may write, in which order,
 * and that it writes nothing for executions already in step with the store.
 */
module SyncProperties {
  import opened Wrappers
  import opened Store
  import opened Executions
  import opened OrderedMaps
  import opened Synchronization

  /** The ids of an execution and of everything below it. */
  ghost function SubtreeIds(t: Tree, rank: map<Handle, nat>, h: Handle): set<Id>
    requires Linked(t) && Ranked(t, rank) && h in t
  {
    {t[h].id} + IdsOf(t, Descendants(t, rank, h))
  }

  /** The statements sent between `p` and `p'` are writes about `ids`. */
  ghost predicate WritesOnly(p: Pass, p': Pass, ids: set<Id>) {
    forall i :: |p.conn.statements| <= i < |p'.conn.statements| ==>
      p'.conn.statements[i].IsExecutionWrite() && p'.conn.statements[i].Target() in ids
  }

  /** Between `p` and `p'`, only the writes and the tracked entries of `ids` changed. */
  ghost predicate Confined(p: Pass, p': Pass, ids: set<Id>) {
    && WritesOnly(p, p', ids)
    && (forall k :: k !in ids ==> Get(p'.tracked, k) == Get(p.tracked, k))
    && (forall k :: k !in ids ==> (k in p'.retired <==> k in p.retired))
    && (forall k :: k !in ids && k in p.retired ==> p'.retired[k] == p.retired[k])
  }

  lemma ConfinedTrans(t: Tree, p: Pass, p': Pass, p'': Pass, a: set<Id>, b: set<Id>, c: set<Id>)
    requires AppendsTo(p, p') && AppendsTo(p', p'')
    requires Confined(p, p', a) && Confined(p', p'', b) && a + b <= c
    ensures Confined(p, p'', c)
  {
    var n, n' := |p.conn.statements|, |p'.conn.statements|;
    forall i | n <= i < |p''.conn.statements|
      ensures p''.conn.statements[i].IsExecutionWrite() && p''.conn.statements[i].Target() in c
    {
      if i < n' {
        assert p''.conn.statements[i] == p''.conn.statements[..n'][i];
      }
    }
  }

  lemma WriteConfined(t: Tree, p: Pass, c: Conn, w: Statement)
    requires c.statements == p.conn.statements + [w] && w.IsExecutionWrite()
    ensures Confined(p, p.(conn := c), {w.Target()})
  {
  }

  lemma RefreshConfined(p: Pass, ref: InfoRef, data: Row)
    requires Resolves(p, ref)
    ensures Confined(p, Refresh(p, ref, data), {ref.key})
  {
  }

  lemma UnsetConfined(p: Pass, id: Id)
    ensures Confined(p, Unset(p, id), {id})
  {
  }

  lemma {:induction false} SyncConfined(x: Ext, t: Tree, rank: map<Handle, nat>, p: Pass, h: Handle, ref: InfoRef, children: bool)
    requires Linked(t) && Ranked(t, rank) && h in t && Resolves(p, ref)
    ensures Confined(p, SyncExecution(x, t, rank, p, h, ref, children).pass, SubtreeIds(t, rank, h) + {ref.key})
    decreases Above(rank, rank[h]), 2
  {
    var data := Serialize(x, t, rank, h);
    match x.classify(Deref(p, ref).clean, data)
    case Removed => RemovedConfined(x, t, rank, p, h, ref, children);
    case Modified => WrittenConfined(x, t, rank, p, h, ref, children);
    case New => WrittenConfined(x, t, rank, p, h, ref, children);
    case Unchanged =>
      var ids := SubtreeIds(t, rank, h) + {ref.key};
      if children {
        SyncChildrenConfined(x, t, rank, p, h, t[h].children);
        var s := SyncChildren(x, t, rank, p, h, t[h].children);
        ConfinedTrans(t, p, s.pass, s.pass, IdsOf(t, Descendants(t, rank, h)), {}, ids);
      } else {
        ConfinedTrans(t, p, p, p, {}, {}, ids);
      }
  }

  lemma {:induction false} RemovedConfined(x: Ext, t: Tree, rank: map<Handle, nat>, p: Pass, h: Handle, ref: InfoRef, children: bool)
    requires Linked(t) && Ranked(t, rank) && h in t && Resolves(p, ref)
    requires x.classify(Deref(p, ref).clean, Serialize(x, t, rank, h)) == Removed
    ensures Confined(p, SyncExecution(x, t, rank, p, h, ref, children).pass, SubtreeIds(t, rank, h) + {ref.key})
    decreases Above(rank, rank[h]), 1
  {
    var ids := SubtreeIds(t, rank, h) + {ref.key};
    var below := IdsOf(t, Descendants(t, rank, h));
    var data := Serialize(x, t, rank, h);
    var sc := SyncChildren(x, t, rank, p, h, t[h].children);
    SyncChildrenConfined(x, t, rank, p, h, t[h].children);
    if sc.failure.None? {
      var p1 := sc.pass.(conn := DeleteExecutionRow(sc.pass.conn, data.id));
      WriteFollows(t, sc.pass, p1.conn, DeleteExecution(data.id));
      WriteConfined(t, sc.pass, p1.conn, DeleteExecution(data.id));
      ConfinedTrans(t, p, sc.pass, p1, below, {t[h].id}, ids);
      UnsetFollows(t, p1, t[h].id);
      FollowsTrans(t, p, sc.pass, p1);
      UnsetConfined(p1, t[h].id);
      ConfinedTrans(t, p, p1, Unset(p1, t[h].id), ids, {t[h].id}, ids);
    } else {
      ConfinedTrans(t, p, sc.pass, sc.pass, below, {}, ids);
    }
  }

  lemma {:induction false} WrittenConfined(x: Ext, t: Tree, rank: map<Handle, nat>, p: Pass, h: Handle, ref: InfoRef, children: bool)
    requires Linked(t) && Ranked(t, rank) && h in t && Resolves(p, ref)
    requires x.classify(Deref(p, ref).clean, Serialize(x, t, rank, h)) in {New, Modified}
    ensures Confined(p, SyncExecution(x, t, rank, p, h, ref, children).pass, SubtreeIds(t, rank, h) + {ref.key})
    decreases Above(rank, rank[h]), 1
  {
    var ids := SubtreeIds(t, rank, h) + {ref.key};
    var below := IdsOf(t, Descendants(t, rank, h));
    var data := Serialize(x, t, rank, h);
    var s := SyncExecution(x, t, rank, p, h, ref, children);
    var isNew := x.classify(Deref(p, ref).clean, data) == New;
    var w := if isNew then InsertExecutionRow(p.conn, data) else Written(UpdateExecutionRow(p.conn, data), None);
    var stmt := if isNew then InsertExecution(data) else UpdateExecution(data);
    var p0 := p.(conn := w.conn);
    WriteFollows(t, p, w.conn, stmt);
    WriteConfined(t, p, w.conn, stmt);
    if w.failure.None? {
      var p1 := Refresh(p0, ref, data);
      RefreshFollows(t, p0, ref, data);
      RefreshConfined(p0, ref, data);
      ConfinedTrans(t, p, p0, p1, {t[h].id}, {ref.key}, ids);
      if children {
        FollowsTrans(t, p, p0, p1);
        SyncChildrenConfined(x, t, rank, p1, h, t[h].children);
        ConfinedTrans(t, p, p1, s.pass, ids, below, ids);
      }
    } else {
      ConfinedTrans(t, p, p0, p0, {t[h].id}, {}, ids);
    }
  }

  lemma {:induction false} SyncChildrenConfined(x: Ext, t: Tree, rank: map<Handle, nat>, p: Pass, parent: Handle, cs: seq<Handle>)
    requires Linked(t) && Ranked(t, rank) && parent in t
    requires forall c :: c in cs ==> c in t[parent].children
    ensures Confined(p, SyncChildren(x, t, rank, p, parent, cs).pass, IdsOf(t, DescendantsAmong(t, rank, parent, cs)))
    decreases Above(rank, rank[parent]), 0, |cs|
  {
    var ids := IdsOf(t, DescendantsAmong(t, rank, parent, cs));
    if cs == [] {
      ConfinedTrans(t, p, p, p, {}, {}, ids);
    } else {
      var c := cs[0];
      var key := t[c].id;
      if Get(p.tracked, key).None? {
        ConfinedTrans(t, p, p, p, {}, {}, ids);
      } else {
        AboveShrinks(t, rank, parent, c);
        var s := SyncExecution(x, t, rank, p, c, Live(key), true);
        SyncConfined(x, t, rank, p, c, Live(key), true);
        AmongSplit(t, rank, parent, cs);
        if s.failure.Some? {
          ConfinedTrans(t, p, s.pass, s.pass, SubtreeIds(t, rank, c) + {key}, {}, ids);
        } else {
          var s' := SyncChildren(x, t, rank, s.pass, parent, cs[1..]);
          SyncChildrenConfined(x, t, rank, s.pass, parent, cs[1..]);
          ConfinedTrans(t, p, s.pass, s'.pass, SubtreeIds(t, rank, c) + {key}, IdsOf(t, DescendantsAmong(t, rank, parent, cs[1..])), ids);
        }
      }
    }
  }

  /** The first child's subtree and the remaining children's descendants are among the children's descendants. */
  lemma AmongSplit(t: Tree, rank: map<Handle, nat>, parent: Handle, cs: seq<Handle>)
    requires Linked(t) && Ranked(t, rank) && parent in t && cs != []
    requires forall c :: c in cs ==> c in t[parent].children
    ensures cs[0] in t
    ensures SubtreeIds(t, rank, cs[0]) <= IdsOf(t, DescendantsAmong(t, rank, parent, cs))
    ensures IdsOf(t, DescendantsAmong(t, rank, parent, cs[1..])) <= IdsOf(t, DescendantsAmong(t, rank, parent, cs))
  {
  }

  /** The statements sent from `p` to `p'`. */
  ghost function Sent(p: Pass, p': Pass): seq<Statement>
    requires |p.conn.statements| <= |p'.conn.statements|
  {
    p'.conn.statements[|p.conn.statements|..]
  }

  ghost predicate AllAbout(ss: seq<Statement>, ids: set<Id>) {
    forall i :: 0 <= i < |ss| ==> ss[i].IsExecutionWrite() && ss[i].Target() in ids
  }

  /** The statements of `s` continue those of `p`. */
  ghost predicate AppendsTo(p: Pass, s: Pass) {
    |p.conn.statements| <= |s.conn.statements| && s.conn.statements[..|p.conn.statements|] == p.conn.statements
  }

  lemma WritesOnlyAllAbout(p: Pass, s: Pass, ids: set<Id>)
    requires AppendsTo(p, s) && WritesOnly(p, s, ids)
    ensures AllAbout(Sent(p, s), ids)
  {
    var n := |p.conn.statements|;
    forall i | 0 <= i < |Sent(p, s)| ensures Sent(p, s)[i].IsExecutionWrite() && Sent(p, s)[i].Target() in ids {
      assert Sent(p, s)[i] == s.conn.statements[n + i];
    }
  }

  /** One statement, then whatever follows. */
  lemma SentAfterOne(p: Pass, p1: Pass, s: Pass, w: Statement)
    requires p1.conn.statements == p.conn.statements + [w] && AppendsTo(p1, s)
    ensures AppendsTo(p, s) && Sent(p, s) == [w] + Sent(p1, s)
  {
    var n := |p.conn.statements|;
    assert s.conn.statements[..n] == s.conn.statements[..n + 1][..n];
    assert s.conn.statements[n] == s.conn.statements[..n + 1][n];
  }

  /** Whatever precedes, then one statement. */
  lemma SentBeforeOne(p: Pass, p1: Pass, s: Pass, w: Statement)
    requires s.conn.statements == p1.conn.statements + [w] && AppendsTo(p, p1)
    ensures AppendsTo(p, s) && Sent(p, s) == Sent(p, p1) + [w]
  {
  }

  lemma UnfoldWritten(x: Ext, t: Tree, rank: map<Handle, nat>, p: Pass, h: Handle, ref: InfoRef, children: bool)
    requires Linked(t) && Ranked(t, rank) && h in t && Resolves(p, ref)
    requires x.classify(Deref(p, ref).clean, Serialize(x, t, rank, h)) in {New, Modified}
    requires SyncExecution(x, t, rank, p, h, ref, children).failure.None?
    ensures
      var data := Serialize(x, t, rank, h);
      var isNew := x.classify(Deref(p, ref).clean, data) == New;
      var c := if isNew then InsertExecutionRow(p.conn, data).conn else UpdateExecutionRow(p.conn, data);
      var p1 := Refresh(p.(conn := c), ref, data);
      && (isNew ==> InsertExecutionRow(p.conn, data).failure.None?)
      && p1.conn.statements == p.conn.statements + [if isNew then InsertExecution(data) else UpdateExecution(data)]
      && SyncExecution(x, t, rank, p, h, ref, children) ==
           if children then SyncChildren(x, t, rank, p1, h, t[h].children) else Step(p1, None)
  {
  }

  lemma UnfoldRemoved(x: Ext, t: Tree, rank: map<Handle, nat>, p: Pass, h: Handle, ref: InfoRef, children: bool)
    requires Linked(t) && Ranked(t, rank) && h in t && Resolves(p, ref)
    requires x.classify(Deref(p, ref).clean, Serialize(x, t, rank, h)) == Removed
    requires SyncExecution(x, t, rank, p, h, ref, children).failure.None?
    ensures
      var sc := SyncChildren(x, t, rank, p, h, t[h].children);
      var p1 := sc.pass.(conn := DeleteExecutionRow(sc.pass.conn, t[h].id));
      && sc.failure.None?
      && SyncExecution(x, t, rank, p, h, ref, children) == Step(Unset(p1, t[h].id), None)
  {
  }

  /**
   * A NEW or MODIFIED execution: exactly one write for it, sent before any
   * statement about its descendants (so a parent row is inserted before its
   * children's); no child is visited when `children` is false; and the
   * written row is the info's clean snapshot once the call returns, unless a
   * descendant carries the same key.
   */
  lemma {:induction false} WriteComesFirst(x: Ext, t: Tree, rank: map<Handle, nat>, p: Pass, h: Handle, ref: InfoRef, children: bool)
    requires Linked(t) && Ranked(t, rank) && h in t && Resolves(p, ref)
    requires x.classify(Deref(p, ref).clean, Serialize(x, t, rank, h)) in {New, Modified}
    requires SyncExecution(x, t, rank, p, h, ref, children).failure.None?
    ensures
      var s := SyncExecution(x, t, rank, p, h, ref, children);
      var data := Serialize(x, t, rank, h);
      var below := IdsOf(t, Descendants(t, rank, h));
      && AppendsTo(p, s.pass)
      && Sent(p, s.pass)[..1] == [if x.classify(Deref(p, ref).clean, data) == New then InsertExecution(data) else UpdateExecution(data)]
      && AllAbout(Sent(p, s.pass)[1..], below)
      && (!children ==> |Sent(p, s.pass)| == 1)
      && (ref.key !in below ==> Resolves(s.pass, ref) && Deref(s.pass, ref).clean == Some(data))
  {
    var data := Serialize(x, t, rank, h);
    var below := IdsOf(t, Descendants(t, rank, h));
    var isNew := x.classify(Deref(p, ref).clean, data) == New;
    var c := if isNew then InsertExecutionRow(p.conn, data).conn else UpdateExecutionRow(p.conn, data);
    var p1 := Refresh(p.(conn := c), ref, data);
    var w := if isNew then InsertExecution(data) else UpdateExecution(data);
    UnfoldWritten(x, t, rank, p, h, ref, children);
    var s := SyncExecution(x, t, rank, p, h, ref, children);
    if children {
      SyncChildrenConfined(x, t, rank, p1, h, t[h].children);
      assert Follows(t, p1, s.pass);
      SentAfterOne(p, p1, s.pass, w);
      WritesOnlyAllAbout(p1, s.pass, below);
    } else {
      SentAfterOne(p, p1, p1, w);
    }
  }

  /**
   * A REMOVED execution: its children are synchronised first, then its own
   * row is deleted by the last statement, and it leaves the tracked set.
   */
  lemma {:induction false} DeleteComesLast(x: Ext, t: Tree, rank: map<Handle, nat>, p: Pass, h: Handle, ref: InfoRef, children: bool)
    requires Linked(t) && Ranked(t, rank) && h in t && Resolves(p, ref)
    requires x.classify(Deref(p, ref).clean, Serialize(x, t, rank, h)) == Removed
    requires SyncExecution(x, t, rank, p, h, ref, children).failure.None?
    ensures
      var s := SyncExecution(x, t, rank, p, h, ref, children);
      && AppendsTo(p, s.pass)
      && |Sent(p, s.pass)| >= 1
      && Sent(p, s.pass)[|Sent(p, s.pass)| - 1] == DeleteExecution(t[h].id)
      && AllAbout(Sent(p, s.pass)[..|Sent(p, s.pass)| - 1], IdsOf(t, Descendants(t, rank, h)))
      && Get(s.pass.tracked, t[h].id).None?
  {
    UnfoldRemoved(x, t, rank, p, h, ref, children);
    var sc := SyncChildren(x, t, rank, p, h, t[h].children);
    var p1 := sc.pass.(conn := DeleteExecutionRow(sc.pass.conn, t[h].id));
    var s := SyncExecution(x, t, rank, p, h, ref, children);
    SyncChildrenConfined(x, t, rank, p, h, t[h].children);
    assert Follows(t, p, sc.pass);
    assert s.pass.conn == p1.conn;
    SentBeforeOne(p, sc.pass, s.pass, DeleteExecution(t[h].id));
    WritesOnlyAllAbout(p, sc.pass, IdsOf(t, Descendants(t, rank, h)));
    assert Sent(p, s.pass)[..|Sent(p, s.pass)| - 1] == Sent(p, sc.pass);
  }

  /** An UNCHANGED execution: no statement about it; only its descendants may be written. */
  lemma {:induction false} UnchangedWritesOnlyBelow(x: Ext, t: Tree, rank: map<Handle, nat>, p: Pass, h: Handle, ref: InfoRef, children: bool)
    requires Linked(t) && Ranked(t, rank) && h in t && Resolves(p, ref)
    requires x.classify(Deref(p, ref).clean, Serialize(x, t, rank, h)) == Unchanged
    ensures
      var s := SyncExecution(x, t, rank, p, h, ref, children);
      && AppendsTo(p, s.pass)
      && AllAbout(Sent(p, s.pass), IdsOf(t, Descendants(t, rank, h)))
      && (!children ==> s == Step(p, None))
  {
    var s := SyncExecution(x, t, rank, p, h, ref, children);
    if children {
      assert s == SyncChildren(x, t, rank, p, h, t[h].children);
      SyncChildrenConfined(x, t, rank, p, h, t[h].children);
      WritesOnlyAllAbout(p, s.pass, IdsOf(t, Descendants(t, rank, h)));
    }
  }

  /**
   * `h` and everything below it are tracked under their own ids with their
   * current rows as clean snapshots, and none of them has terminated.
   */
  ghost predicate Settled(x: Ext, t: Tree, rank: map<Handle, nat>, tracked: Tracked, h: Handle)
    requires Linked(t) && Ranked(t, rank) && h in t
  {
    forall n :: (n == h || n in Descendants(t, rank, h)) ==>
      && Get(tracked, t[n].id).Some?
      && Get(tracked, t[n].id).value.clean == Some(Serialize(x, t, rank, n))
      && x.classify(None, Serialize(x, t, rank, n)) != Removed
  }

  lemma {:induction false} DescendantsAmongHas(t: Tree, rank: map<Handle, nat>, parent: Handle, cs: seq<Handle>, i: nat)
    requires Linked(t) && Ranked(t, rank) && parent in t
    requires forall c :: c in cs ==> c in t[parent].children
    requires i < |cs|
    ensures cs[i] in t && cs[i] in DescendantsAmong(t, rank, parent, cs)
    ensures Descendants(t, rank, cs[i]) <= DescendantsAmong(t, rank, parent, cs)
    decreases i
  {
    if i > 0 {
      DescendantsAmongHas(t, rank, parent, cs[1..], i - 1);
    }
  }

  lemma ChildSettled(x: Ext, t: Tree, rank: map<Handle, nat>, tracked: Tracked, h: Handle, c: Handle)
    requires Linked(t) && Ranked(t, rank) && h in t && c in t[h].children
    requires Settled(x, t, rank, tracked, h)
    ensures c in t && Settled(x, t, rank, tracked, c)
  {
    var i :| 0 <= i < |t[h].children| && t[h].children[i] == c;
    DescendantsAmongHas(t, rank, h, t[h].children, i);
  }

  /**
   * Idempotence: synchronising executions that are already in step with the
   * store sends no statement and changes nothing, provided the classifier
   * behaves as assumed.
   */
  lemma {:induction false} SettledSyncIsNoOp(x: Ext, t: Tree, rank: map<Handle, nat>, p: Pass, h: Handle, ref: InfoRef, children: bool)
    requires ClassifierContract(x.classify)
    requires Linked(t) && Ranked(t, rank) && h in t && Resolves(p, ref)
    requires Settled(x, t, rank, p.tracked, h) && Deref(p, ref).clean == Some(Serialize(x, t, rank, h))
    ensures SyncExecution(x, t, rank, p, h, ref, children) == Step(p, None)
    decreases Above(rank, rank[h]), 1
  {
    var d := Serialize(x, t, rank, h);
    assert x.classify(None, d) != Removed;
    assert x.classify(Some(d), d) == Unchanged;
    if children {
      SettledChildrenAreNoOp(x, t, rank, p, h, t[h].children);
    }
  }

  lemma {:induction false} SettledChildrenAreNoOp(x: Ext, t: Tree, rank: map<Handle, nat>, p: Pass, parent: Handle, cs: seq<Handle>)
    requires ClassifierContract(x.classify)
    requires Linked(t) && Ranked(t, rank) && parent in t
    requires forall c :: c in cs ==> c in t[parent].children
    requires Settled(x, t, rank, p.tracked, parent)
    ensures SyncChildren(x, t, rank, p, parent, cs) == Step(p, None)
    decreases Above(rank, rank[parent]), 0, |cs|
  {
    if cs != [] {
      var c := cs[0];
      ChildSettled(x, t, rank, p.tracked, parent, c);
      AboveShrinks(t, rank, parent, c);
      SettledSyncIsNoOp(x, t, rank, p, c, Live(t[c].id), true);
      SettledChildrenAreNoOp(x, t, rank, p, parent, cs[1..]);
    }
  }

  /** Every tracked info is clean for its own execution, whose subtree is settled. */
  ghost predicate AllSettled(x: Ext, t: Tree, rank: map<Handle, nat>, tracked: Tracked)
    requires Linked(t) && Ranked(t, rank)
  {
    forall k :: Get(tracked, k).Some? ==>
      var info := Get(tracked, k).value;
      && info.exec in t
      && info.clean == Some(Serialize(x, t, rank, info.exec))
      && Settled(x, t, rank, tracked, info.exec)
  }

  lemma {:induction false} SettledEachIsNoOp(x: Ext, t: Tree, rank: map<Handle, nat>, p: Pass, keys: seq<Id>)
    requires ClassifierContract(x.classify)
    requires Linked(t) && Ranked(t, rank) && p.retired == map[] && AllSettled(x, t, rank, p.tracked)
    requires InfosIn(p, t) && forall k :: k in keys ==> Resolvable(p, k)
    ensures SyncEach(x, t, rank, p, keys) == Step(p, None)
    decreases |keys|
  {
    if keys != [] {
      var ref := Visit(p, keys[0]);
      SettledSyncIsNoOp(x, t, rank, p, Deref(p, ref).exec, ref, true);
      SettledEachIsNoOp(x, t, rank, p, keys[1..]);
    }
  }

  /** A whole sync pass over a settled tracked set sends nothing: no writes on unchanged data. */
  lemma SettledPassIsNoOp(x: Ext, t: Tree, rank: map<Handle, nat>, c: Conn, tracked: Tracked)
    requires ClassifierContract(x.classify)
    requires Linked(t) && Ranked(t, rank) && AllSettled(x, t, rank, tracked)
    ensures TrackedIn(tracked, t)
    ensures SyncAll(x, t, rank, c, tracked) == Step(Pass(c, tracked, map[]), None)
  {
    var p := Pass(c, tracked, map[]);
    var keys := Keys(tracked);
    forall k | k in keys ensures Resolvable(p, k) {
      var j :| 0 <= j < |keys| && keys[j] == k;
      assert tracked[j].key == k;
    }
    SettledEachIsNoOp(x, t, rank, p, keys);
  }

  /**
   * Registering an execution with its own current row as snapshot (what
   * findExecution does for every execution it loads) sends nothing: the
   * execution is tracked and nothing else changes.
   */
  lemma RegisterCleanWritesNothing(x: Ext, t: Tree, rank: map<Handle, nat>, c: Conn, tracked: Tracked, h: Handle)
    requires ClassifierContract(x.classify)
    requires Linked(t) && Ranked(t, rank) && h in t
    ensures var clean := Some(Serialize(x, t, rank, h));
      Register(x, t, rank, c, tracked, h, clean) == Step(Pass(c, Put(tracked, t[h].id, Info(h, clean)), map[]), None)
  {
    var d := Serialize(x, t, rank, h);
    assert x.classify(Some(d), d) != New;
  }

  /**
   * Registering an execution the classifier does not call NEW only tracks it;
   * one it calls NEW is inserted by the first statement sent, and its info
   * then holds the inserted row (unless a descendant carries the same id).
   */
  lemma RegisterInsertsNew(x: Ext, t: Tree, rank: map<Handle, nat>, c: Conn, tracked: Tracked, h: Handle, clean: Option<Row>)
    requires Linked(t) && Ranked(t, rank) && h in t
    requires Register(x, t, rank, c, tracked, h, clean).failure.None?
    ensures var s := Register(x, t, rank, c, tracked, h, clean);
      var d := Serialize(x, t, rank, h);
      var p := Pass(c, Put(tracked, t[h].id, Info(h, clean)), map[]);
      && (x.classify(clean, d) != New ==> s.pass == p && Get(s.pass.tracked, t[h].id) == Some(Info(h, clean)))
      && (x.classify(clean, d) == New ==>
            && AppendsTo(p, s.pass) && Sent(p, s.pass)[..1] == [InsertExecution(d)]
            && (t[h].id !in IdsOf(t, Descendants(t, rank, h)) ==>
                 Get(s.pass.tracked, t[h].id).Some? && Get(s.pass.tracked, t[h].id).value.clean == Some(d)))
  {
    var d := Serialize(x, t, rank, h);
    var p := Pass(c, Put(tracked, t[h].id, Info(h, clean)), map[]);
    if x.classify(clean, d) == New {
      assert Deref(p, Live(t[h].id)).clean == clean;
      WriteComesFirst(x, t, rank, p, h, Live(t[h].id), true);
    }
  }
}
