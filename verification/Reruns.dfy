/** What running a query a second time gives: loading an edge restricts its subquery in place, and the
    restriction stays. */
module Reruns {
  import opened Collections
  import opened EagerEqualsNaive
  import opened Logs
  import opened Storage
  import opened QueryTrees

  /** No groups subquery at any depth: its join would be added a second time. */
  ghost predicate NoGroups(w: Subqueries)
    decreases w
  {
    forall e :: e in w.of ==> !e.kind.M2M? && NoGroups(w.of[e].withs)
  }

  function KeyColumn(e: Edge): string {
    if e.kind.M2O? then "id" else e.column
  }

  /** The rows an edge was restricted to by an earlier run. */
  function CollectedIn(e: Edge, keys: seq<int>): Row -> bool {
    r => Holds(KeyIn(KeyColumn(e), keys), r, None)
  }

  lemma LoadTwice(e: Edge, s: Settings, first: seq<int>, keys: seq<int>)
    requires !e.kind.M2M?
    ensures
      var once, plain := LoadSettings(e, s, first), LoadSettings(e, s, keys);
      LoadSettings(e, once, keys) ==
        plain.(predicates := s.predicates + [KeyIn(KeyColumn(e), first)] + [KeyIn(KeyColumn(e), keys)])
  {
  }

  /** Of the rows that a fresh builder reads, a builder that was run before reads those with a key collected
      then, in the same order. */
  lemma RerunFilters(db: Database, e: Edge, s: Settings, first: seq<int>, keys: seq<int>)
    requires !e.kind.M2M? && Unpaged(s)
    ensures Rows(db, LoadSettings(e, LoadSettings(e, s, first), keys)) ==
            Filter(Rows(db, LoadSettings(e, s, keys)), CollectedIn(e, first))
  {
    LoadTwice(e, s, first, keys);
    var p, k := KeyIn(KeyColumn(e), first), KeyIn(KeyColumn(e), keys);
    var plain, twice := LoadSettings(e, s, keys), LoadSettings(e, LoadSettings(e, s, first), keys);
    forall r: Row
      ensures HoldsAll(twice.predicates, r, None) <==> HoldsAll(plain.predicates, r, None) && CollectedIn(e, first)(r)
    {
      HoldsAllPlus(s.predicates, p, r, None);
      HoldsAllPlus(s.predicates, k, r, None);
      HoldsAllPlus(s.predicates + [p], k, r, None);
    }
    FilterOfFilter(db.table(s.typ, s.order), (r: Row) => HoldsAll(plain.predicates, r, None), CollectedIn(e, first),
                   (r: Row) => HoldsAll(twice.predicates, r, None));
  }

  /** Of the settings, the loaded graph depends on the selected columns and the rows alone. */
  lemma BatchSettings(db: Database, s: Settings, s': Settings, w: Subqueries)
    requires s.typ == s'.typ && s.fields == s'.fields && Rows(db, s) == Rows(db, s')
    ensures Batch(db, s, w) == Batch(db, s', w)
    ensures Read(db, s, w.of.Keys) == Read(db, s', w.of.Keys)
  {
    var rows, rows' := Read(db, s, w.of.Keys), Read(db, s', w.of.Keys);
    forall row
      ensures Project(row, s, w.of.Keys) == Project(row, s', w.of.Keys)
    {
    }
    assert rows == rows';
    hide Project, Rows;
    assert forall i :: 0 <= i < |rows| ==> Batch(db, s, w)[i] == Batch(db, s', w)[i];
  }

  // ---------------------------------------------------------------- one edge

  /** Every row that a fresh builder finds has a key that the first run collected. */
  ghost predicate AllCollected(later: Database, q: QueryTree, e: Edge, first: seq<int>, keys: seq<int>) {
    forall r :: r in Rows(later, LoadSettings(e, q.settings, keys)) ==> CollectedIn(e, first)(r)
  }

  lemma CollectedRows(later: Database, q: QueryTree, e: Edge, first: seq<int>, keys: seq<int>, left: Subqueries)
    requires !e.kind.M2M? && Unpaged(q.settings) && AllCollected(later, q, e, first, keys)
    ensures
      var anew, again := LoadSettings(e, q.settings, keys), LoadSettings(e, LoadSettings(e, q.settings, first), keys);
      && Batch(later, again, left) == Batch(later, anew, left)
      && Read(later, again, left.of.Keys) == Read(later, anew, left.of.Keys)
  {
    var anew, again := LoadSettings(e, q.settings, keys), LoadSettings(e, LoadSettings(e, q.settings, first), keys);
    RerunFilters(later, e, q.settings, first, keys);
    FilterAll(Rows(later, anew), CollectedIn(e, first));
    LoadTwice(e, q.settings, first, keys);
    BatchSettings(later, again, anew, left);
  }

  ghost predicate LoadsTheSame(db: Database, q: QueryTree, q': QueryTree, e: Edge, keys: seq<int>) {
    if e.kind.M2O? then forall k :: k in keys ==> OneOf(db, q', e, keys, Some(k)) == OneOf(db, q, e, keys, Some(k))
    else forall k :: k in keys ==> ListOf(db, q', e, keys, k) == ListOf(db, q, e, keys, k)
  }

  /** Sequences are equal when all their picks are. */
  lemma {:induction false} PicksDecide<T>(xs: seq<T>, ys: seq<T>, keys: seq<Option<int>>)
    requires |xs| == |ys| == |keys| && forall k :: k in keys ==>
        k.Some? && PickKey(xs, keys, k.value) == PickKey(ys, keys, k.value)
    ensures xs == ys
  {
    if xs != [] {
      var n := |xs| - 1;
      var key := keys[n];
      assert key in keys;
      assert PickKey(xs, keys, key.value) == PickKey(xs[..n], keys[..n], key.value) + [xs[n]];
      assert PickKey(ys, keys, key.value) == PickKey(ys[..n], keys[..n], key.value) + [ys[n]];
      EqualPushes(PickKey(xs[..n], keys[..n], key.value), xs[n], PickKey(ys[..n], keys[..n], key.value), ys[n]);
      forall k | k in keys[..n]
        ensures k.Some? && PickKey(xs[..n], keys[..n], k.value) == PickKey(ys[..n], keys[..n], k.value)
      {
        assert k in keys;
        if k != key {
          assert PickKey(xs, keys, k.value) == PickKey(xs[..n], keys[..n], k.value);
          assert PickKey(ys, keys, k.value) == PickKey(ys[..n], keys[..n], k.value);
        }
      }
      PicksDecide(xs[..n], ys[..n], keys[..n]);
      assert xs == xs[..n] + [xs[n]] && ys == ys[..n] + [ys[n]];
    }
  }

  lemma EqualPushes<T>(a: seq<T>, x: T, b: seq<T>, y: T)
    requires a + [x] == b + [y]
    ensures a == b && x == y
  {
    assert |a| + 1 == |b| + 1;
    assert (a + [x])[..|a|] == a && (b + [y])[..|b|] == b;
    assert (a + [x])[|a|] == x && (b + [y])[|b|] == y;
  }

  lemma OldKeysOnly(db: Database, e: Edge, s: Settings, first: seq<int>, keys: seq<int>, r: Row)
    requires !e.kind.M2M? && r in Rows(db, LoadSettings(e, LoadSettings(e, s, first), keys))
    ensures CollectedIn(e, first)(r) && CollectedIn(e, keys)(r)
  {
    var once := LoadSettings(e, s, first);
    var twice := LoadSettings(e, once, keys);
    assert HoldsAll(twice.predicates, r, None);
    HoldsAllPlus(once.predicates, KeyIn(KeyColumn(e), keys), r, None);
    HoldsAllPlus(s.predicates, KeyIn(KeyColumn(e), first), r, None);
  }

  lemma RequestedOnly(db: Database, e: Edge, s: Settings, keys: seq<int>, r: Row)
    requires !e.kind.M2M? && r in Rows(db, LoadSettings(e, s, keys))
    ensures CollectedIn(e, keys)(r)
  {
    var once := LoadSettings(e, s, keys);
    assert HoldsAll(once.predicates, r, None);
    HoldsAllPlus(s.predicates, KeyIn(KeyColumn(e), keys), r, None);
  }

  /** A builder that was restricted to some keys finds nothing for another key, whatever the database holds. */
  lemma RestrictedIsBlind(later: Database, q: QueryTree, left: QueryTree, e: Edge, first: seq<int>, keys: seq<int>,
                          key: int)
    requires !e.kind.M2M? && key !in first && (e.kind.M2O? ==> HasId(q.settings.typ))
    requires left.settings == LoadSettings(e, q.settings, first)
    ensures e.kind.M2O? ==> OneOf(later, left, e, keys, Some(key)) == None
    ensures e.kind.O2M? ==> ListOf(later, left, e, keys, key) == []
  {
    var s := LoadSettings(e, left.settings, keys);
    var rows := Rows(later, s);
    ReadKeepsKeys(later, s, left.withs.of.Keys, e);
    forall i | 0 <= i < |rows|
      ensures e.kind.M2O? ==> Ids(rows)[i] != key
      ensures e.kind.O2M? ==> Fks(e, rows)[i] != Some(key)
    {
      assert rows[i] in rows;
      OldKeysOnly(later, e, q.settings, first, keys, rows[i]);
    }
    if e.kind.O2M? {
      PickKeyAbsent(Batch(later, s, left.withs), Fks(e, rows), key);
    }
  }

  /** Run again on a database that has changed, a builder finds nothing for a node whose key was not among
      those of the first run, whatever the database now holds. */
  lemma RerunIsBlind(db: Database, later: Database, q: QueryTree, e: Edge, first: seq<int>, keys: seq<int>, key: int)
    requires !e.kind.M2M? && key !in first && (e.kind.M2O? ==> first != [] && HasId(q.settings.typ))
    ensures
      var left := AfterLoad(db, q, e, first);
      && (e.kind.M2O? ==> OneOf(later, left, e, keys, Some(key)) == None)
      && (e.kind.O2M? ==> ListOf(later, left, e, keys, key) == [])
  {
    RestrictedIsBlind(later, q, AfterLoad(db, q, e, first), e, first, keys, key);
  }

  /** A retry of a run that failed at an edge is as blind: the subquery of that edge stays restricted. */
  lemma RetryIsBlind(db: Database, fails: nat -> bool, n: nat, later: Database, q: QueryTree, left: QueryTree, e: Edge,
                     first: seq<int>, keys: seq<int>, key: int)
    requires !e.kind.M2M? && key !in first && (e.kind.M2O? ==> HasId(q.settings.typ))
    requires EdgeStopped(db, fails, n, q, e, first, left)
    ensures e.kind.M2O? ==> OneOf(later, left, e, keys, Some(key)) == None
    ensures e.kind.O2M? ==> ListOf(later, left, e, keys, key) == []
  {
    RestrictedIsBlind(later, q, left, e, first, keys, key);
  }

  lemma MatchesDecide(xs: seq<ObjectTree>, ys: seq<ObjectTree>, ids: seq<int>, keys: seq<int>)
    requires |xs| == |ys| == |ids| && NoDuplicates(ids) && forall id :: id in ids ==> id in keys
    ensures (forall k :: k in keys ==> LastMatch(xs, ids, Some(k)) == LastMatch(ys, ids, Some(k))) <==> xs == ys
  {
    if forall k :: k in keys ==> LastMatch(xs, ids, Some(k)) == LastMatch(ys, ids, Some(k)) {
      forall i | 0 <= i < |xs|
        ensures xs[i] == ys[i]
      {
        assert ids[i] in ids;
        assert LastIndex(ids, ids[i]) == Some(i);
      }
    }
  }

  /** The ids a many-to-one batch goes by: each once, and all asked for. */
  lemma RequestedIds(later: Database, e: Edge, s: Settings, keys: seq<int>)
    requires Sound(later) && e.kind.M2O? && Unpaged(s) && HasId(s.typ)
    ensures
      var ids := Ids(Rows(later, LoadSettings(e, s, keys)));
      NoDuplicates(ids) && forall id :: id in ids ==> id in keys
  {
    var rows := Rows(later, LoadSettings(e, s, keys));
    RowsIdKeyed(later, LoadSettings(e, s, keys));
    forall i | 0 <= i < |rows|
      ensures Ids(rows)[i] in keys
    {
      assert rows[i] in rows;
      RequestedOnly(later, e, s, keys, rows[i]);
    }
  }

  lemma RequestedFks(later: Database, e: Edge, s: Settings, keys: seq<int>)
    requires e.kind.O2M?
    ensures forall fk :: fk in Fks(e, Rows(later, LoadSettings(e, s, keys))) ==> fk.Some? && fk.value in keys
  {
    var rows := Rows(later, LoadSettings(e, s, keys));
    forall i | 0 <= i < |rows|
      ensures Fks(e, rows)[i].Some? && Fks(e, rows)[i].value in keys
    {
      assert rows[i] in rows;
      RequestedOnly(later, e, s, keys, rows[i]);
    }
  }

  /** When every row was collected, an edge loads the same exactly when the batches are the same. */
  lemma LoadsDecide(later: Database, q: QueryTree, e: Edge, first: seq<int>, keys: seq<int>, below: Subqueries)
    requires Sound(later) && !e.kind.M2M? && Unpaged(q.settings) && (e.kind.M2O? ==> HasId(q.settings.typ))
    requires AllCollected(later, q, e, first, keys)
    ensures
      var left, s := QueryTree(LoadSettings(e, q.settings, first), below), LoadSettings(e, q.settings, keys);
      LoadsTheSame(later, q, left, e, keys) <==> Batch(later, s, below) == Batch(later, s, q.withs)
  {
    var s := LoadSettings(e, q.settings, keys);
    var rows, xs, ys := Rows(later, s), Batch(later, s, below), Batch(later, s, q.withs);
    CollectedRows(later, q, e, first, keys, below);
    ReadKeepsKeys(later, s, below.of.Keys, e);
    ReadKeepsKeys(later, s, q.withs.of.Keys, e);
    if e.kind.M2O? {
      RequestedIds(later, e, q.settings, keys);
      MatchesDecide(xs, ys, Ids(rows), keys);
    } else {
      RequestedFks(later, e, q.settings, keys);
      var fks := Fks(e, rows);
      if forall k :: k in keys ==> PickKey(xs, fks, k) == PickKey(ys, fks, k) {
        PicksDecide(xs, ys, fks);
      }
    }
  }

  lemma PickedWhenThere<T>(xs: seq<T>, keys: seq<Option<int>>, i: nat)
    requires |xs| == |keys| && i < |xs| && keys[i].Some?
    ensures PickKey(xs, keys, keys[i].value) != []
    decreases |xs|
  {
    if i < |xs| - 1 { PickedWhenThere(xs[..|xs| - 1], keys[..|xs| - 1], i); }
  }

  /** A fresh builder finds something for the key of each of its rows. */
  lemma FoundWhenThere(later: Database, q: QueryTree, e: Edge, keys: seq<int>, r: Row)
    requires !e.kind.M2M? && (e.kind.M2O? ==> HasId(q.settings.typ))
        && r in Rows(later, LoadSettings(e, q.settings, keys))
    requires IntOf(r, KeyColumn(e)).Some?
    ensures
      var k := IntOf(r, KeyColumn(e)).value;
      if e.kind.M2O? then OneOf(later, q, e, keys, Some(k)).Some? else ListOf(later, q, e, keys, k) != []
  {
    var s := LoadSettings(e, q.settings, keys);
    var rows := Rows(later, s);
    var i :| 0 <= i < |rows| && rows[i] == r;
    ReadKeepsKeys(later, s, q.withs.of.Keys, e);
    assert e.kind.M2O? ==> Ids(rows)[i] == IntOf(r, KeyColumn(e)).value;
    assert e.kind.O2M? ==> Fks(e, rows)[i] == IntOf(r, KeyColumn(e));
    hide Rows, IntOf, FkOf, IdOf, Batch, Read;
    if e.kind.O2M? { PickedWhenThere(Batch(later, s, q.withs), Fks(e, rows), i); }
  }

  /** A row that was not collected is found by a fresh builder and missed by the rerun. */
  lemma MissedRowShows(db: Database, later: Database, q: QueryTree, e: Edge, first: seq<int>, keys: seq<int>)
    requires !e.kind.M2M? && (e.kind.M2O? ==> first != [] && HasId(q.settings.typ))
    requires !AllCollected(later, q, e, first, keys)
    ensures !LoadsTheSame(later, q, AfterLoad(db, q, e, first), e, keys)
  {
    var r :| r in Rows(later, LoadSettings(e, q.settings, keys)) && !CollectedIn(e, first)(r);
    RequestedOnly(later, e, q.settings, keys, r);
    hide Rows, OneOf, ListOf, AfterLoad;
    var k := IntOf(r, KeyColumn(e)).value;
    FoundWhenThere(later, q, e, keys, r);
    RerunIsBlind(db, later, q, e, first, keys, k);
  }

  /** An edge of a rerun loads what a fresh builder loads exactly when every row the fresh builder finds was
      collected, and the rerun agrees below these rows. */
  lemma EdgeRerunsIff(db: Database, later: Database, q: QueryTree, e: Edge, first: seq<int>, keys: seq<int>)
    requires Sound(later) && !e.kind.M2M? && Unpaged(q.settings)
    requires e.kind.M2O? ==> first != [] && HasId(q.settings.typ)
    ensures
      var left, s := AfterLoad(db, q, e, first), LoadSettings(e, q.settings, keys);
      LoadsTheSame(later, q, left, e, keys) <==>
        AllCollected(later, q, e, first, keys) && Batch(later, s, left.withs) == Batch(later, s, q.withs)
  {
    hide LoadsTheSame, Batch, AllCollected, Sound, LoadSettings;
    if AllCollected(later, q, e, first, keys) {
      LoadsDecide(later, q, e, first, keys, AfterLoad(db, q, e, first).withs);
    } else {
      MissedRowShows(db, later, q, e, first, keys);
    }
  }

  // ---------------------------------------------------------------- the whole tree

  lemma TreeReruns(db: Database, s: Settings, w: Subqueries, w': Subqueries, rows: seq<Row>, row: Row)
    requires w.of.Keys == w'.of.Keys && row in rows
    requires forall e :: e in w.of ==> !e.kind.M2M? && LoadsTheSame(db, w.of[e], w'.of[e], e, KeysOf(e, rows))
    ensures BatchTree(db, s, w', rows, row) == BatchTree(db, s, w, rows, row)
  {
    hide OneOf, ListOf, KeysOf, FkOf, IdOf;
    forall e | e in w.of
      ensures
        var keys := KeysOf(e, rows);
        if e.kind.M2O? then OneOf(db, w'.of[e], e, keys, FkOf(e, row)) == OneOf(db, w.of[e], e, keys, FkOf(e, row))
        else ListOf(db, w'.of[e], e, keys, IdOf(row)) == ListOf(db, w.of[e], e, keys, IdOf(row))
    {
      KeyCollected(e, rows, row);
      NoKeyNothing(db, w.of[e], e, KeysOf(e, rows));
      NoKeyNothing(db, w'.of[e], e, KeysOf(e, rows));
      assert LoadsTheSame(db, w.of[e], w'.of[e], e, KeysOf(e, rows));
      if e.kind.M2O? {
        match FkOf(e, row) {
          case None =>
          case Some(k) => assert k in KeysOf(e, rows) && OneOf(db, w'.of[e], e, KeysOf(e, rows), Some(k)) ==
                                                         OneOf(db, w.of[e], e, KeysOf(e, rows), Some(k));
        }
      }
    }
    assert BatchSingles(db, w', rows, row) == BatchSingles(db, w, rows, row);
    assert BatchLists(db, w', rows, row) == BatchLists(db, w, rows, row);
  }

  lemma NoKeyNothing(db: Database, q: QueryTree, e: Edge, keys: seq<int>)
    ensures OneOf(db, q, e, keys, None) == None
  {
  }

  /** Equal trees have equal edges. */
  lemma TreeShowsEdge(db: Database, s: Settings, w: Subqueries, w': Subqueries, rows: seq<Row>, row: Row, e: Edge)
    requires w.of.Keys == w'.of.Keys && e in w.of
    requires BatchTree(db, s, w', rows, row) == BatchTree(db, s, w, rows, row)
    ensures e.kind.M2O? ==>
      OneOf(db, w'.of[e], e, KeysOf(e, rows), FkOf(e, row)) == OneOf(db, w.of[e], e, KeysOf(e, rows), FkOf(e, row))
    ensures !e.kind.M2O? ==>
      ListOf(db, w'.of[e], e, KeysOf(e, rows), IdOf(row)) == ListOf(db, w.of[e], e, KeysOf(e, rows), IdOf(row))
  {
    hide OneOf, ListOf, KeysOf, FkOf, IdOf;
    var a, b := BatchSingles(db, w', rows, row), BatchSingles(db, w, rows, row);
    var c, d := BatchLists(db, w', rows, row), BatchLists(db, w, rows, row);
    assert Present(a) == Present(b) && c == d;
    if e.kind.M2O? {
      assert e in Present(a) <==> a[e].Some?;
      assert e in Present(b) <==> b[e].Some?;
    } else {
      assert c[e] == d[e];
    }
  }

  /** The graphs are equal exactly when every edge loads the same. */
  lemma TreesRerunIff(db: Database, s: Settings, w: Subqueries, w': Subqueries)
    requires w.of.Keys == w'.of.Keys && forall e :: e in w.of ==> !e.kind.M2M?
    ensures Batch(db, s, w') == Batch(db, s, w) <==>
      forall e :: e in w.of ==> LoadsTheSame(db, w.of[e], w'.of[e], e, KeysOf(e, Read(db, s, w.of.Keys)))
  {
    var rows := Read(db, s, w.of.Keys);
    hide LoadsTheSame, Read, KeysOf, BatchTree;
    if forall e :: e in w.of ==> LoadsTheSame(db, w.of[e], w'.of[e], e, KeysOf(e, rows)) {
      forall i | 0 <= i < |rows|
        ensures Batch(db, s, w')[i] == Batch(db, s, w)[i]
      {
        TreeReruns(db, s, w, w', rows, rows[i]);
      }
    }
    if Batch(db, s, w') == Batch(db, s, w) {
      forall e | e in w.of
        ensures LoadsTheSame(db, w.of[e], w'.of[e], e, KeysOf(e, rows))
      {
        forall i | 0 <= i < |rows|
          ensures BatchTree(db, s, w', rows, rows[i]) == BatchTree(db, s, w, rows, rows[i])
        {
          assert Batch(db, s, w')[i] == Batch(db, s, w)[i];
        }
        EdgeOfEqualTrees(db, s, w, w', rows, e);
      }
    }
  }

  lemma EdgeOfEqualTrees(db: Database, s: Settings, w: Subqueries, w': Subqueries, rows: seq<Row>, e: Edge)
    requires w.of.Keys == w'.of.Keys && e in w.of
    requires forall i :: 0 <= i < |rows| ==> BatchTree(db, s, w', rows, rows[i]) == BatchTree(db, s, w, rows, rows[i])
    ensures LoadsTheSame(db, w.of[e], w'.of[e], e, KeysOf(e, rows))
  {
    hide OneOf, ListOf, BatchTree, FkOf, IdOf;
    var keys := KeysOf(e, rows);
    forall k | k in keys
      ensures e.kind.M2O? ==> OneOf(db, w'.of[e], e, keys, Some(k)) == OneOf(db, w.of[e], e, keys, Some(k))
      ensures !e.kind.M2O? ==> ListOf(db, w'.of[e], e, keys, k) == ListOf(db, w.of[e], e, keys, k)
    {
      if e.kind.M2O? {
        assert Some(k) in Fks(e, rows);
        var i :| 0 <= i < |rows| && Fks(e, rows)[i] == Some(k);
        TreeShowsEdge(db, s, w, w', rows, rows[i], e);
      } else {
        var i :| 0 <= i < |rows| && Ids(rows)[i] == k;
        TreeShowsEdge(db, s, w, w', rows, rows[i], e);
      }
    }
  }

  /** Every key that matches a row of the later database was collected by the first run, at every depth the
      first run reached. The settings are those with which the query ran first and runs again. */
  ghost predicate Collected(db: Database, before: Settings, later: Database, after: Settings, w: Subqueries)
    decreases w
  {
    var rows, rows' := Read(db, before, w.of.Keys), Read(later, after, w.of.Keys);
    rows == [] || forall e :: e in w.of ==>
      var q, first, keys := w.of[e], KeysOf(e, rows), KeysOf(e, rows');
      || (e.kind.M2O? && first == [])
      || (&& AllCollected(later, q, e, first, keys)
          && Collected(db, LoadSettings(e, q.settings, first), later, LoadSettings(e, q.settings, keys), q.withs))
  }

  /** The same for one edge of the query. */
  ghost predicate EdgeDone(db: Database, before: Settings, later: Database, after: Settings, w: Subqueries, e: Edge)
    requires e in w.of
  {
    var q, first, keys := w.of[e], KeysOf(e, Read(db, before, w.of.Keys)), KeysOf(e, Read(later, after, w.of.Keys));
    || (e.kind.M2O? && first == [])
    || (&& AllCollected(later, q, e, first, keys)
        && Collected(db, LoadSettings(e, q.settings, first), later, LoadSettings(e, q.settings, keys), q.withs))
  }

  lemma CollectedIs(db: Database, before: Settings, later: Database, after: Settings, w: Subqueries)
    requires Read(db, before, w.of.Keys) != []
    ensures Collected(db, before, later, after, w) <==>
        forall e :: e in w.of ==> EdgeDone(db, before, later, after, w, e)
  {
    hide Read, KeysOf, AllCollected, LoadSettings;
  }

  lemma {:induction false} EdgeCollected(db: Database, before: Settings, later: Database, after: Settings,
                                         w: Subqueries, e: Edge)
    requires Sound(later) && NoGroups(w) && LimitFree(w) && WellFormed(after.typ, w) && e in w.of
    ensures
      var q := w.of[e];
      var first, keys := KeysOf(e, Read(db, before, w.of.Keys)), KeysOf(e, Read(later, after, w.of.Keys));
      LoadsTheSame(later, q, AfterLoad(db, q, e, first), e, keys) <==> EdgeDone(db, before, later, after, w, e)
    decreases w, 0
  {
    var q := w.of[e];
    var first, keys := KeysOf(e, Read(db, before, w.of.Keys)), KeysOf(e, Read(later, after, w.of.Keys));
    LookedUpById(after.typ, e);
    TypOfLoadSettings(e, q.settings, keys);
    if !(e.kind.M2O? && first == []) {
      EdgeRerunsIff(db, later, q, e, first, keys);
      RerunLoadsAllIff(db, LoadSettings(e, q.settings, first), later, LoadSettings(e, q.settings, keys), q.withs);
    }
  }

  /** Run first on one database and then on another, a builder loads from the second what a builder that was
      never run loads, exactly when every key that matches a row there was collected by the first run. */
  lemma {:induction false} RerunLoadsAllIff(db: Database, before: Settings, later: Database, after: Settings,
                                            w: Subqueries)
    requires Sound(later) && NoGroups(w) && LimitFree(w) && WellFormed(after.typ, w)
    ensures Batch(later, after, AfterRun(db, before, w)) == Batch(later, after, w) <==>
        Collected(db, before, later, after, w)
    decreases w, 1
  {
    var rows := Read(db, before, w.of.Keys);
    if rows != [] {
      AfterSomeRun(db, before, w);
      CollectedIs(db, before, later, after, w);
      hide Read, Batch, LoadsTheSame, KeysOf, AfterLoad, AfterRun, Sound, WellFormed, LimitFree, EdgeDone;
      TreesRerunIff(later, after, w, AfterRun(db, before, w));
      forall e | e in w.of
        ensures
          var keys := KeysOf(e, Read(later, after, w.of.Keys));
          LoadsTheSame(later, w.of[e], AfterRun(db, before, w).of[e], e, keys) <==>
            EdgeDone(db, before, later, after, w, e)
      {
        EdgeCollected(db, before, later, after, w, e);
      }
    }
  }

  lemma AfterSomeRun(db: Database, s: Settings, w: Subqueries)
    requires Read(db, s, w.of.Keys) != []
    ensures AfterRun(db, s, w).of.Keys == w.of.Keys
    ensures forall e :: e in w.of ==>
        AfterRun(db, s, w).of[e] == AfterLoad(db, w.of[e], e, KeysOf(e, Read(db, s, w.of.Keys)))
  {
    hide Read, KeysOf, AfterLoad;
  }

  // ---------------------------------------------------------------- the same database again

  /** Restricting to the same keys twice selects the same rows. */
  lemma SameRowsTwice(db: Database, e: Edge, s: Settings, keys: seq<int>)
    requires !e.kind.M2M?
    ensures Rows(db, LoadSettings(e, LoadSettings(e, s, keys), keys)) == Rows(db, LoadSettings(e, s, keys))
  {
    var once, twice := LoadSettings(e, s, keys), LoadSettings(e, LoadSettings(e, s, keys), keys);
    var p := KeyIn(KeyColumn(e), keys);
    LoadTwice(e, s, keys, keys);
    forall r: Row
      ensures HoldsAll(twice.predicates, r, None) <==> HoldsAll(once.predicates, r, None)
    {
      HoldsAllPlus(s.predicates, p, r, None);
      HoldsAllPlus(s.predicates + [p], p, r, None);
    }
    FilterSame(db.table(s.typ, s.order), (r: Row) => HoldsAll(twice.predicates, r, None),
               (r: Row) => HoldsAll(once.predicates, r, None));
  }

  /** A subquery restricted to the same keys loads the same when the subqueries below it do. */
  lemma RestrictedAgain(db: Database, q: QueryTree, e: Edge, keys: seq<int>, left: Subqueries)
    requires !e.kind.M2M? && left.of.Keys == q.withs.of.Keys
    requires
      var once := LoadSettings(e, q.settings, keys);
      Batch(db, once, left) == Batch(db, once, q.withs)
    ensures LoadsTheSame(db, q, QueryTree(LoadSettings(e, q.settings, keys), left), e, keys)
  {
    var once := LoadSettings(e, q.settings, keys);
    LoadTwice(e, q.settings, keys, keys);
    SameRowsTwice(db, e, q.settings, keys);
    BatchSettings(db, LoadSettings(e, once, keys), once, left);
  }

  lemma {:induction false} EdgeRerun(db: Database, q: QueryTree, e: Edge, keys: seq<int>)
    requires !e.kind.M2M? && NoGroups(q.withs)
    ensures LoadsTheSame(db, q, AfterLoad(db, q, e, keys), e, keys)
    decreases q.withs, 1
  {
    if !(e.kind.M2O? && keys == []) {
      var once := LoadSettings(e, q.settings, keys);
      var left := AfterRun(db, once, q.withs);
      RerunIsTheSame(db, once, q.withs);
      RestrictedAgain(db, q, e, keys, left);
      assert AfterLoad(db, q, e, keys) == QueryTree(once, left);
    }
  }

  /** Run again on an unchanged database, a builder loads the same graph. */
  lemma {:induction false} RerunIsTheSame(db: Database, s: Settings, w: Subqueries)
    requires NoGroups(w)
    ensures Batch(db, s, AfterRun(db, s, w)) == Batch(db, s, w)
    decreases w, 0
  {
    var rows := Read(db, s, w.of.Keys);
    if rows != [] {
      forall e | e in w.of {
        EdgeRerun(db, w.of[e], e, KeysOf(e, rows));
      }
      TreesRerunIff(db, s, w, AfterRun(db, s, w));
    }
  }

  // ---------------------------------------------------------------- a retry

  lemma StoppedKeys(db: Database, fails: nat -> bool, n: nat, s: Settings, w: Subqueries, w': Subqueries)
    requires Stopped(db, fails, n, s, w, w')
    ensures w'.of.Keys == w.of.Keys
  {
    hide *;
    if w' != w {
      var e, done, at := StoppedWhere(db, fails, n, s, w, w');
      StoppedParts(db, fails, at, w, Read(db, s, w.of.Keys), done, e, w');
    }
  }

  lemma {:induction false} EdgeRetry(db: Database, fails: nat -> bool, n: nat, q: QueryTree, e: Edge,
                                     keys: seq<int>, left: QueryTree)
    requires !e.kind.M2M? && NoGroups(q.withs) && EdgeStopped(db, fails, n, q, e, keys, left)
    ensures LoadsTheSame(db, q, left, e, keys)
    decreases q.withs, 1
  {
    var once := LoadSettings(e, q.settings, keys);
    assert left.settings == once && Stopped(db, fails, n, once, q.withs, left.withs);
    hide *;
    RetryIsTheSame(db, fails, n, once, q.withs, left.withs);
    StoppedKeys(db, fails, n, once, q.withs, left.withs);
    RestrictedAgain(db, q, e, keys, left.withs);
    assert left == QueryTree(once, left.withs);
  }

  lemma NothingChanged(db: Database, q: QueryTree, e: Edge, keys: seq<int>)
    ensures LoadsTheSame(db, q, q, e, keys)
  {
  }

  /** Retried on an unchanged database after it failed, a run loads the graph that the first would have loaded. */
  lemma {:induction false} RetryIsTheSame(db: Database, fails: nat -> bool, n: nat, s: Settings, w: Subqueries,
                                          w': Subqueries)
    requires NoGroups(w) && Stopped(db, fails, n, s, w, w')
    ensures Batch(db, s, w') == Batch(db, s, w)
    decreases w, 0
  {
    var rows := Read(db, s, w.of.Keys);
    assert forall e :: e in w.of ==> !e.kind.M2M? && NoGroups(w.of[e].withs);
    hide *;
    if w' != w {
      var at, done, from := StoppedWhere(db, fails, n, s, w, w');
      StoppedParts(db, fails, from, w, rows, done, at, w');
      forall e | e in w.of
        ensures LoadsTheSame(db, w.of[e], w'.of[e], e, KeysOf(e, rows))
      {
        if e == at {
          EdgeRetry(db, fails, from, w.of[e], e, KeysOf(e, rows), w'.of[e]);
        } else if e in done {
          EdgeRerun(db, w.of[e], e, KeysOf(e, rows));
        } else {
          NothingChanged(db, w.of[e], e, KeysOf(e, rows));
        }
      }
      TreesRerunIff(db, s, w, w');
    }
  }

  // ---------------------------------------------------------------- another database

  function Proxies(): seq<Row> {
    [map["id" := Int(10)], map["id" := Int(11)]]
  }

  function Accounts(proxy: int): seq<Row> {
    [map["id" := Int(1), "proxy_id" := Int(proxy)]]
  }

  /** One account with the given proxy, and two proxies. */
  function Moved(proxy: int): Database {
    Database((t, order) => if t == AccountT then Accounts(proxy) else if t == ProxyT then Proxies() else [],
             order => [], t => {"account_id", "parent_account_id"})
  }

  lemma MovedRows(proxy: int)
    ensures IdKeyed(Proxies()) && IdKeyed(Accounts(proxy))
    ensures |Proxies()| == 2 && IntOf(Proxies()[1], "id") == Some(11)
    ensures |Accounts(proxy)| == 1 && FkOf(PROXY, Accounts(proxy)[0]) == Some(proxy)
  {
  }

  lemma NoRowsKeyed()
    ensures IdKeyed([]) && JoinKeyed([])
  {
  }

  lemma O2MColumns()
    ensures forall e :: SchemaEdge(e) && e.kind.O2M? ==> e.column == "account_id" || e.column == "parent_account_id"
  {
  }

  lemma MovedIsSound(proxy: int)
    ensures Sound(Moved(proxy))
  {
    MovedRows(proxy);
    hide Proxies, Accounts;
    NoRowsKeyed();
    hide IdKeyed, JoinKeyed, EdgesOf, SchemaEdge;
    forall t, order | HasId(t)
      ensures IdKeyed(Moved(proxy).table(t, order))
    {
    }
    O2MColumns();
  }

  /** A query that asks for nothing in particular returns the table. */
  lemma PlainRows(db: Database, s: Settings)
    requires s == Settings(AccountT, [], None, None, [], [], [])
    ensures Rows(db, s) == db.table(AccountT, [])
  {
    FilterAll(db.table(AccountT, []), (r: Row) => HoldsAll(s.predicates, r, None));
  }

  lemma MovedKeys(proxy: int, s: Settings, loaded: set<Edge>)
    requires s == Settings(AccountT, [], None, None, [], [], [])
    ensures KeysOf(PROXY, Read(Moved(proxy), s, loaded)) == [proxy] && Read(Moved(proxy), s, loaded) != []
  {
    MovedRows(proxy);
    var rows, db := Accounts(proxy), Moved(proxy);
    assert db.table(AccountT, []) == rows;
    hide Moved, FkOf, Accounts, Proxies, IdKeyed;
    PlainRows(db, s);
    hide Rows;
    var read := Read(db, s, loaded);
    assert read[0] == rows[0];
    OnlyKey(Fks(PROXY, read), proxy);
  }

  lemma OnlyKey(keys: seq<Option<int>>, k: int)
    requires keys == [Some(k)]
    ensures DistinctKeys(keys) == [k]
  {
    assert keys[..0] == [];
  }

  lemma OtherProxyMatches(q: QueryTree)
    requires q == QueryTree(Settings(ProxyT, [], None, None, [], [], []), Subqueries(map[]))
    ensures !AllCollected(Moved(11), q, PROXY, [10], [11])
  {
    MovedRows(11);
    var r := Proxies()[1];
    var load := LoadSettings(PROXY, q.settings, [11]);
    assert Moved(11).table(ProxyT, []) == Proxies() && r in Proxies();
    hide Moved, Accounts, Proxies, IdKeyed;
    assert load.predicates == [] + [KeyIn("id", [11])];
    HoldsAllPlus([], KeyIn("id", [11]), r, None);
    assert r in Rows(Moved(11), load) && !CollectedIn(PROXY, [10])(r);
  }

  /** A builder that ran while the account had one proxy does not find the other proxy it has later. */
  lemma RerunMayMiss(s: Settings, q: QueryTree, w: Subqueries)
    requires s == Settings(AccountT, [], None, None, [], [], [])
    requires q == QueryTree(Settings(ProxyT, [], None, None, [], [], []), Subqueries(map[]))
    requires w == Subqueries(map[PROXY := q])
    ensures Sound(Moved(10)) && Sound(Moved(11))
    ensures Batch(Moved(11), s, AfterRun(Moved(10), s, w)) != Batch(Moved(11), s, w)
  {
    MovedIsSound(10);
    MovedIsSound(11);
    MovedKeys(10, s, w.of.Keys);
    MovedKeys(11, s, w.of.Keys);
    OtherProxyMatches(q);
    ProxyAlone(q, w);
    NotCollected(Moved(10), s, Moved(11), s, w, PROXY);
    hide *;
    RerunLoadsAllIff(Moved(10), s, Moved(11), s, w);
  }

  lemma ProxyAlone(q: QueryTree, w: Subqueries)
    requires q == QueryTree(Settings(ProxyT, [], None, None, [], [], []), Subqueries(map[]))
    requires w == Subqueries(map[PROXY := q])
    ensures NoGroups(w) && LimitFree(w) && WellFormed(AccountT, w) && PROXY in w.of && w.of[PROXY] == q
  {
  }

  lemma NotCollected(db: Database, before: Settings, later: Database, after: Settings, w: Subqueries, e: Edge)
    requires e in w.of && Read(db, before, w.of.Keys) != []
    requires
      var first, keys := KeysOf(e, Read(db, before, w.of.Keys)), KeysOf(e, Read(later, after, w.of.Keys));
      first != [] && !AllCollected(later, w.of[e], e, first, keys)
    ensures !Collected(db, before, later, after, w)
  {
    hide AllCollected, Read, KeysOf;
  }
}
