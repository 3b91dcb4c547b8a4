/** Batched eager loading agrees with one lookup per row and edge, at every depth of the query. */
module EagerEqualsNaive {
  import opened Collections
  import opened Storage
  import opened QueryTrees

  /** The same objects below two nodes: equal fields, equal edges, lists in the same order; the groups of a
      many-to-many edge in any order, each as often. */
  ghost predicate SameGraph(a: ObjectTree, b: ObjectTree)
    decreases a
  {
    && a.typ == b.typ && a.fields == b.fields && a.loaded == b.loaded
    && a.single.Keys == b.single.Keys && a.lists.Keys == b.lists.Keys
    && (forall e :: e in a.single ==> SameGraph(a.single[e], b.single[e]))
    && (forall e :: e in a.lists ==>
          if e.kind.M2M? then multiset(a.lists[e].items) == multiset(b.lists[e].items)
          else
            && |a.lists[e].items| == |b.lists[e].items|
            && forall i :: 0 <= i < |a.lists[e].items| ==> SameGraph(a.lists[e].items[i], b.lists[e].items[i]))
  }

  ghost predicate SameGraphs(ts: seq<ObjectTree>, us: seq<ObjectTree>) {
    |ts| == |us| && forall i :: 0 <= i < |ts| ==> SameGraph(ts[i], us[i])
  }

  /** No groups are loaded at any depth. */
  ghost predicate GroupFree(t: ObjectTree)
    decreases t
  {
    && (forall e :: e in t.single ==> GroupFree(t.single[e]))
    && (forall e :: e in t.lists ==>
          !e.kind.M2M? && forall i :: 0 <= i < |t.lists[e].items| ==> GroupFree(t.lists[e].items[i]))
  }

  /** But for the order of groups, having the same graph is being equal. */
  lemma {:induction false} SameGraphIsEqual(a: ObjectTree, b: ObjectTree)
    requires GroupFree(a)
    ensures SameGraph(a, b) <==> a == b
    decreases a
  {
    forall e | e in a.single && e in b.single
      ensures SameGraph(a.single[e], b.single[e]) <==> a.single[e] == b.single[e]
    {
      SameGraphIsEqual(a.single[e], b.single[e]);
    }
    forall e, i | e in a.lists && e in b.lists && 0 <= i < |a.lists[e].items| == |b.lists[e].items|
      ensures SameGraph(a.lists[e].items[i], b.lists[e].items[i]) <==> a.lists[e].items[i] == b.lists[e].items[i]
    {
      SameGraphIsEqual(a.lists[e].items[i], b.lists[e].items[i]);
    }
    if SameGraph(a, b) {
      assert a.single == b.single;
      forall e | e in a.lists
        ensures a.lists[e] == b.lists[e]
      {
        assert a.lists[e].items == b.lists[e].items;
      }
      assert a.lists == b.lists;
    }
  }

  ghost predicate SameOption(t: Option<ObjectTree>, u: Option<ObjectTree>) {
    t.Some? == u.Some? && (t.Some? ==> SameGraph(t.value, u.value))
  }

  predicate Unpaged(s: Settings) {
    (s.limit.None? || s.limit.value == 0) && (s.offset.None? || s.offset.value == 0)
  }

  /** No subquery, at any depth, sets a limit or an offset. The root query may. */
  ghost predicate LimitFree(w: Subqueries)
    decreases w
  {
    forall e :: e in w.of ==> Unpaged(w.of[e].settings) && LimitFree(w.of[e].withs)
  }

  lemma {:induction false} FilterKeepsDistinctIds(rows: seq<Row>, keep: Row -> bool)
    requires DistinctIds(rows)
    ensures DistinctIds(Filter(rows, keep))
  {
    if rows != [] {
      var kept, last := Filter(rows[..|rows| - 1], keep), rows[|rows| - 1];
      FilterKeepsDistinctIds(rows[..|rows| - 1], keep);
      forall i | 0 <= i < |kept|
        ensures IdOf(kept[i]) != IdOf(last)
      {
        assert kept[i] in rows[..|rows| - 1];
      }
    }
  }

  /** A query restricted to one of the keys is the batched query's result, restricted again. */
  lemma OneKeyOfMany(db: Database, e: Edge, s: Settings, keys: seq<int>, key: int)
    requires !e.kind.M2M? && Unpaged(s) && key in keys
    ensures
      var column := if e.kind.M2O? then "id" else e.column;
      Rows(db, LoadSettings(e, s, [key])) ==
        Filter(Rows(db, LoadSettings(e, s, keys)), (r: Row) => IntOf(r, column) == Some(key))
  {
    var column := if e.kind.M2O? then "id" else e.column;
    var all, one := LoadSettings(e, s, keys), LoadSettings(e, s, [key]);
    var table := db.table(s.typ, s.order);
    forall r | r in table
      ensures HoldsAll(one.predicates, r, None) <==>
              HoldsAll(all.predicates, r, None) && IntOf(r, column) == Some(key)
    {
      HoldsAllPlus(s.predicates, KeyIn(column, keys), r, None);
      HoldsAllPlus(s.predicates, KeyIn(column, [key]), r, None);
    }
    FilterOfFilter(table, (r: Row) => HoldsAll(all.predicates, r, None),
                   (r: Row) => IntOf(r, column) == Some(key), (r: Row) => HoldsAll(one.predicates, r, None));
  }

  lemma NaiveTreeSettings(db: Database, s: Settings, s': Settings, w: Subqueries, row: Row)
    requires s.typ == s'.typ && s.fields == s'.fields
    ensures NaiveTree(db, s, w, row) == NaiveTree(db, s', w, row)
  {
  }

  lemma UniqueById(rows: seq<Row>, key: int)
    requires IdKeyed(rows)
    ensures
      var found := Filter(rows, (r: Row) => IntOf(r, "id") == Some(key));
      match LastIndex(Ids(rows), key)
      case None => found == []
      case Some(j) => found != [] && found[0] == rows[j]
  {
    var found := Filter(rows, (r: Row) => IntOf(r, "id") == Some(key));
    var at := LastIndex(Ids(rows), key);
    if at.Some? {
      assert rows[at.value] in found;
    }
    if found != [] {
      assert found[0] in found;
      assert found[0] in rows;
      var k :| 0 <= k < |rows| && rows[k] == found[0];
      assert Ids(rows)[k] == key;
    }
  }

  lemma RowsIdKeyed(db: Database, s: Settings)
    requires Sound(db) && HasId(s.typ) && Unpaged(s)
    ensures IdKeyed(Rows(db, s))
  {
    FilterKeepsDistinctIds(db.table(s.typ, s.order), (r: Row) => HoldsAll(s.predicates, r, None));
  }

  /** The row the batch holds for a key is the one its own query returns. */
  lemma FoundInBatch(db: Database, e: Edge, s: Settings, keys: seq<int>, key: int)
    requires Sound(db) && e.kind.M2O? && Unpaged(s) && HasId(s.typ) && key in keys
    ensures
      var rows, found := Rows(db, LoadSettings(e, s, keys)), Rows(db, LoadSettings(e, s, [key]));
      match LastIndex(Ids(rows), key)
      case None => found == []
      case Some(j) => found != [] && found[0] == rows[j]
  {
    OneKeyOfMany(db, e, s, keys, key);
    RowsIdKeyed(db, LoadSettings(e, s, keys));
    UniqueById(Rows(db, LoadSettings(e, s, keys)), key);
  }

  lemma NaiveOneIsFirstRow(db: Database, q: QueryTree, e: Edge, key: int)
    ensures
      var one := LoadSettings(e, q.settings, [key]);
      var found := Rows(db, one);
      NaiveOne(db, q, e, Some(key)) == if found == [] then None else Some(NaiveTree(db, one, q.withs, found[0]))
  {
    var one := LoadSettings(e, q.settings, [key]);
    assert Naive(db, one, q.withs) == NaiveTrees(db, one, q.withs, Rows(db, one));
  }

  /** Many-to-one: the row found for a key in the batch is the one its own lookup finds. */
  lemma OneAgrees(db: Database, q: QueryTree, e: Edge, keys: seq<int>, key: int)
    requires Sound(db) && e.kind.M2O? && Unpaged(q.settings) && HasId(q.settings.typ)
    requires key in keys
    requires
      var s := LoadSettings(e, q.settings, keys);
      SameGraphs(Batch(db, s, q.withs), Naive(db, s, q.withs))
    ensures SameOption(OneOf(db, q, e, keys, Some(key)), NaiveOne(db, q, e, Some(key)))
  {
    var s, one := LoadSettings(e, q.settings, keys), LoadSettings(e, q.settings, [key]);
    NaiveOneIsFirstRow(db, q, e, key);
    ReadKeepsKeys(db, s, q.withs.of.Keys, e);
    FoundInBatch(db, e, q.settings, keys, key);
    var rows := Rows(db, s);
    match LastIndex(Ids(rows), key) {
      case None =>
      case Some(j) =>
        assert OneOf(db, q, e, keys, Some(key)) == Some(Batch(db, s, q.withs)[j]);
        assert Naive(db, s, q.withs)[j] == NaiveTree(db, s, q.withs, rows[j]);
        NaiveTreeSettings(db, s, one, q.withs, rows[j]);
    }
  }

  /** A parent's share of the per-row trees of the batch is what its own query returns, in the same order. */
  lemma RestrictedHaveKeys(db: Database, e: Edge, s: Settings, keys: seq<int>)
    requires e.kind.O2M?
    ensures forall r :: r in Rows(db, LoadSettings(e, s, keys)) ==> IntOf(r, e.column).Some?
  {
    forall r | r in Rows(db, LoadSettings(e, s, keys))
      ensures IntOf(r, e.column).Some?
    {
      HoldsAllPlus(s.predicates, KeyIn(e.column, keys), r, None);
    }
  }

  lemma ShareOfNaive(db: Database, q: QueryTree, e: Edge, keys: seq<int>, id: int)
    requires e.kind.O2M? && Unpaged(q.settings) && id in keys
    ensures
      var s := LoadSettings(e, q.settings, keys);
      PickKey(Naive(db, s, q.withs), Fks(e, Rows(db, s)), id) == NaiveList(db, q, e, id)
  {
    var s, one := LoadSettings(e, q.settings, keys), LoadSettings(e, q.settings, [id]);
    var rows := Rows(db, s);
    var keep := (r: Row) => IntOf(r, e.column) == Some(id);
    var own := (r: Row) => NaiveTree(db, one, q.withs, r);
    OneKeyOfMany(db, e, q.settings, keys, id);
    RestrictedHaveKeys(db, e, q.settings, keys);
    assert Rows(db, one) == Filter(rows, keep);
    assert NaiveList(db, q, e, id) == NaiveTrees(db, one, q.withs, Rows(db, one));
    hide NaiveTree, NaiveList, Rows, LoadSettings, HoldsAll, Filter;
    forall r
      ensures NaiveTree(db, s, q.withs, r) == own(r)
    {
      NaiveTreeSettings(db, s, one, q.withs, r);
    }
    PickFromMapped(NaiveTrees(db, s, q.withs, rows), Fks(e, rows), id, rows, keep, own);
    assert NaiveTrees(db, one, q.withs, Filter(rows, keep)) == NaiveList(db, q, e, id);
  }

  /** One-to-many. */
  lemma PickSameGraphs(ts: seq<ObjectTree>, us: seq<ObjectTree>, keys: seq<Option<int>>, key: int)
    requires SameGraphs(ts, us) && |keys| == |ts|
    ensures |us| == |ts| && SameGraphs(PickKey(ts, keys, key), PickKey(us, keys, key))
  {
    hide SameGraph;
    PickRelated(ts, us, keys, key, (t, u) => SameGraph(t, u));
  }

  /** The list of a one-to-many edge is picked from the batch by the foreign keys of the rows. */
  lemma ListPicks(db: Database, q: QueryTree, e: Edge, keys: seq<int>, id: int)
    requires e.kind.O2M?
    ensures
      var s := LoadSettings(e, q.settings, keys);
      ListOf(db, q, e, keys, id) == PickKey(Batch(db, s, q.withs), Fks(e, Rows(db, s)), id)
  {
    var s := LoadSettings(e, q.settings, keys);
    ReadKeepsKeys(db, s, q.withs.of.Keys, e);
    hide Batch, Rows, Read, FkOf;
  }

  lemma ManyAgrees(db: Database, q: QueryTree, e: Edge, keys: seq<int>, id: int)
    requires e.kind.O2M? && Unpaged(q.settings) && id in keys
    requires
      var s := LoadSettings(e, q.settings, keys);
      SameGraphs(Batch(db, s, q.withs), Naive(db, s, q.withs))
    ensures SameGraphs(ListOf(db, q, e, keys, id), NaiveList(db, q, e, id))
  {
    var s := LoadSettings(e, q.settings, keys);
    ListPicks(db, q, e, keys, id);
    ShareOfNaive(db, q, e, keys, id);
    hide *;
    PickSameGraphs(Batch(db, s, q.withs), Naive(db, s, q.withs), Fks(e, Rows(db, s)), id);
  }

  // ---------------------------------------------------------------- many-to-many

  ghost predicate JoinsBeside(a: JoinRow, b: JoinRow) {
    && (a.owner != b.owner || IdOf(a.row) != IdOf(b.row))
    && (IdOf(a.row) == IdOf(b.row) ==> a.row == b.row)
  }

  lemma JoinKeyedMinus(front: seq<JoinRow>, last: JoinRow)
    requires JoinKeyed(front + [last])
    ensures JoinKeyed(front) && IntOf(last.row, "id").Some? && forall j :: j in front ==> JoinsBeside(j, last)
  {
    hide IntOf, IdOf;
    var join := front + [last];
    assert forall i :: 0 <= i < |front| ==> join[i] == front[i];
    assert join[|front|] == last;
  }

  lemma JoinKeyedPlus(join: seq<JoinRow>, last: JoinRow)
    requires JoinKeyed(join) && IntOf(last.row, "id").Some? && forall j :: j in join ==> JoinsBeside(j, last)
    ensures JoinKeyed(join + [last])
  {
    hide IntOf, IdOf;
    assert forall i :: 0 <= i < |join| ==> join[i] in join && JoinsBeside(join[i], last);
  }

  lemma {:induction false} FilterKeepsJoinKeyed(join: seq<JoinRow>, keep: JoinRow -> bool)
    requires JoinKeyed(join)
    ensures JoinKeyed(Filter(join, keep))
  {
    if join != [] {
      hide IntOf, IdOf;
      var front, last := join[..|join| - 1], join[|join| - 1];
      assert join == front + [last];
      hide JoinKeyed, Filter, JoinsBeside;
      JoinKeyedMinus(front, last);
      FilterKeepsJoinKeyed(front, keep);
      FilterOneMore(front, last, keep);
      JoinKeyedPlus(Filter(front, keep), last);
    }
  }

  lemma JoinOfOneOwner(db: Database, e: Edge, s: Settings, keys: seq<int>, id: int)
    requires e.kind.M2M? && Unpaged(s) && id in keys
    ensures JoinRows(db, LoadSettings(e, s, [id])) ==
            Filter(JoinRows(db, LoadSettings(e, s, keys)), (j: JoinRow) => j.owner == id)
  {
    var all, one := LoadSettings(e, s, keys), LoadSettings(e, s, [id]);
    var join := db.join(s.order);
    forall j | j in join
      ensures HoldsAll(one.predicates, j.row, Some(j.owner)) <==>
              HoldsAll(all.predicates, j.row, Some(j.owner)) && j.owner == id
    {
      HoldsAllPlus(s.predicates, JoinedTo(keys), j.row, Some(j.owner));
      HoldsAllPlus(s.predicates, JoinedTo([id]), j.row, Some(j.owner));
    }
    FilterOfFilter(join, (j: JoinRow) => HoldsAll(all.predicates, j.row, Some(j.owner)),
                   (j: JoinRow) => j.owner == id, (j: JoinRow) => HoldsAll(one.predicates, j.row, Some(j.owner)));
  }

  lemma OwnRowsAreDistinct(join: seq<JoinRow>, id: int)
    requires JoinKeyed(join)
    ensures
      var own := Filter(join, (j: JoinRow) => j.owner == id);
      forall i, j :: 0 <= i < j < |own| ==> IdOf(own[i].row) != IdOf(own[j].row)
  {
    var own := Filter(join, (j: JoinRow) => j.owner == id);
    FilterKeepsJoinKeyed(join, (j: JoinRow) => j.owner == id);
    forall i | 0 <= i < |own|
      ensures own[i].owner == id
    {
      assert own[i] in own;
    }
  }

  lemma LinkedGroupIsOwn(join: seq<JoinRow>, id: int, r: Row)
    requires JoinKeyed(join) && r in FirstRows(join) && Linked(join, id, IdOf(r))
    ensures JoinRow(id, r) in join
  {
  }

  lemma OwnGroupIsLinked(join: seq<JoinRow>, id: int, r: Row)
    requires JoinKeyed(join) && JoinRow(id, r) in join
    ensures r in FirstRows(join) && Linked(join, id, IdOf(r))
  {
    var first := FirstRows(join);
    var i :| 0 <= i < |join| && join[i] == JoinRow(id, r);
    assert IdOf(join[i].row) in Ids(first);
    var k :| 0 <= k < |first| && IdOf(first[k]) == IdOf(r);
    assert first[k] in first;
    var h :| 0 <= h < |join| && join[h].row == first[k];
    assert first[k] == r;
  }

  /** Spreading the batch's distinct groups over an account's links gives exactly the rows joined to that
      account, each once. */
  lemma GroupsOfOwner(join: seq<JoinRow>, id: int)
    requires JoinKeyed(join)
    ensures
      var mine := Filter(FirstRows(join), (r: Row) => Linked(join, id, IdOf(r)));
      var own := Filter(join, (j: JoinRow) => j.owner == id);
      && (forall r :: r in mine <==> JoinRow(id, r) in own)
      && DistinctIds(mine)
  {
    var first := FirstRows(join);
    var mine := Filter(first, (r: Row) => Linked(join, id, IdOf(r)));
    var own := Filter(join, (j: JoinRow) => j.owner == id);
    forall r: Row
      ensures r in mine <==> JoinRow(id, r) in own
    {
      if r in mine { LinkedGroupIsOwn(join, id, r); }
      if JoinRow(id, r) in own { OwnGroupIsLinked(join, id, r); }
    }
    FilterKeepsDistinctIds(first, (r: Row) => Linked(join, id, IdOf(r)));
  }

  /** Many-to-many: an account gets the bag of groups its own joined query returns. */
  lemma GroupsAgree(db: Database, q: QueryTree, e: Edge, keys: seq<int>, id: int)
    requires Sound(db) && e.kind.M2M? && Unpaged(q.settings) && HasId(q.settings.typ) && id in keys
    ensures multiset(GroupsOf(db, q, e, keys, id)) == multiset(NaiveGroups(db, q, e, id))
  {
    var s, one := LoadSettings(e, q.settings, keys), LoadSettings(e, q.settings, [id]);
    var join := JoinRows(db, s);
    FilterKeepsJoinKeyed(db.join(s.order), (j: JoinRow) => HoldsAll(s.predicates, j.row, Some(j.owner)));
    assert JoinKeyed(join);
    hide Sound, JoinKeyed, FirstRows, Linked, IdOf;
    JoinOfOneOwner(db, e, q.settings, keys, id);
    GroupsOfOwner(join, id);
    OwnRowsAreDistinct(join, id);
    BareSameBag(s, one, Filter(FirstRows(join), (r: Row) => Linked(join, id, IdOf(r))), JoinRows(db, one), id);
  }

  lemma BareSameBag(s: Settings, s': Settings, mine: seq<Row>, own: seq<JoinRow>, id: int)
    requires HasId(s.typ) && s.typ == s'.typ && s.fields == s'.fields
    requires forall j :: j in own ==> j.owner == id
    requires forall r :: r in mine <==> JoinRow(id, r) in own
    requires DistinctIds(mine)
    requires forall i, j :: 0 <= i < j < |own| ==> IdOf(own[i].row) != IdOf(own[j].row)
    ensures multiset(Bares(s, {}, mine)) == multiset(seq(|own|, i requires 0 <= i < |own| => Bare(s', {}, own[i].row)))
  {
    var a, b := Bares(s, {}, mine), seq(|own|, i requires 0 <= i < |own| => Bare(s', {}, own[i].row));
    forall r: Row
      ensures Bare(s, {}, r) == Bare(s', {}, r) && IdOf(Bare(s, {}, r).fields) == IdOf(r)
    {
      ColumnsSuffice(r, s, {}, GROUPS);
      assert Project(r, s, {}) == Project(r, s', {});
    }
    forall t | t in a
      ensures t in b
    {
      var i :| 0 <= i < |a| && a[i] == t;
      assert mine[i] in mine;
      var j :| 0 <= j < |own| && own[j] == JoinRow(id, mine[i]);
      assert b[j] == t;
    }
    forall t | t in b
      ensures t in a
    {
      var j :| 0 <= j < |b| && b[j] == t;
      assert own[j] in own;
      assert own[j] == JoinRow(id, own[j].row);
      var i :| 0 <= i < |mine| && mine[i] == own[j].row;
      assert a[i] == t;
    }
    SameElementsSameBag(a, b);
  }

  // ---------------------------------------------------------------- the main theorem

  lemma KeyCollected(e: Edge, rows: seq<Row>, row: Row)
    requires row in rows
    ensures e.kind.M2O? && FkOf(e, row).Some? ==> FkOf(e, row).value in KeysOf(e, rows)
    ensures !e.kind.M2O? ==> IdOf(row) in KeysOf(e, rows)
  {
  }

  ghost predicate AgreesOn(db: Database, q: QueryTree, e: Edge, keys: seq<int>, row: Row) {
    match e.kind
    case M2O => SameOption(OneOf(db, q, e, keys, FkOf(e, row)), NaiveOne(db, q, e, FkOf(e, row)))
    case O2M => SameGraphs(ListOf(db, q, e, keys, IdOf(row)), NaiveList(db, q, e, IdOf(row)))
    case M2M => multiset(ListOf(db, q, e, keys, IdOf(row))) == multiset(NaiveList(db, q, e, IdOf(row)))
  }

  lemma EdgeAgrees(db: Database, q: QueryTree, e: Edge, rows: seq<Row>, row: Row)
    requires Sound(db) && Unpaged(q.settings) && q.settings.typ == e.target && row in rows
    requires e.kind.O2M? || HasId(e.target)
    requires
      var s := LoadSettings(e, q.settings, KeysOf(e, rows));
      SameGraphs(Batch(db, s, q.withs), Naive(db, s, q.withs))
    ensures AgreesOn(db, q, e, KeysOf(e, rows), row)
  {
    KeyCollected(e, rows, row);
    match e.kind {
      case M2O => if FkOf(e, row).Some? { OneAgrees(db, q, e, KeysOf(e, rows), FkOf(e, row).value); }
      case O2M => ManyAgrees(db, q, e, KeysOf(e, rows), IdOf(row));
      case M2M => GroupsAgree(db, q, e, KeysOf(e, rows), IdOf(row));
    }
  }

  /** Two rows with the same keys for the edges to be loaded. */
  ghost predicate SameKeys(w: Subqueries, a: Row, b: Row) {
    forall e :: e in w.of ==> if e.kind.M2O? then FkOf(e, a) == FkOf(e, b) else IdOf(a) == IdOf(b)
  }

  lemma SinglesAgree(db: Database, w: Subqueries, rows: seq<Row>, row: Row, full: Row)
    requires SameKeys(w, row, full) && forall e :: e in w.of ==> AgreesOn(db, w.of[e], e, KeysOf(e, rows), row)
    ensures
      var b, n := BatchSingles(db, w, rows, row), NaiveSingles(db, w, full);
      b.Keys == n.Keys && forall e :: e in b ==> SameOption(b[e], n[e])
  {
    hide OneOf, NaiveOne, KeysOf, FkOf, SameOption;
  }

  lemma ListsAgree(db: Database, w: Subqueries, rows: seq<Row>, row: Row, full: Row)
    requires SameKeys(w, row, full) && forall e :: e in w.of ==> AgreesOn(db, w.of[e], e, KeysOf(e, rows), row)
    ensures
      var b, n := BatchLists(db, w, rows, row), NaiveLists(db, w, full);
      b.Keys == n.Keys && forall e :: e in b ==>
        if e.kind.M2M? then multiset(b[e].items) == multiset(n[e].items) else SameGraphs(b[e].items, n[e].items)
  {
    hide ListOf, NaiveList, KeysOf, IdOf, SameGraphs;
  }

  lemma PresentAgrees(b: map<Edge, Option<ObjectTree>>, n: map<Edge, Option<ObjectTree>>)
    requires b.Keys == n.Keys && forall e :: e in b ==> SameOption(b[e], n[e])
    ensures Present(b).Keys == Present(n).Keys
    ensures forall e :: e in Present(b) ==> SameGraph(Present(b)[e], Present(n)[e])
  {
  }

  lemma TreeAgrees(db: Database, s: Settings, w: Subqueries, rows: seq<Row>, full: Row)
    requires
      var row := Project(full, s, w.of.Keys);
      SameKeys(w, row, full) && forall e :: e in w.of ==> AgreesOn(db, w.of[e], e, KeysOf(e, rows), row)
    ensures SameGraph(BatchTree(db, s, w, rows, Project(full, s, w.of.Keys)), NaiveTree(db, s, w, full))
  {
    var row := Project(full, s, w.of.Keys);
    SinglesAgree(db, w, rows, row, full);
    PresentAgrees(BatchSingles(db, w, rows, row), NaiveSingles(db, w, full));
    ListsAgree(db, w, rows, row, full);
  }

  /** Whatever columns are read, the keys of the edges to be loaded are among them. */
  lemma KeysAreRead(t: EntityType, s: Settings, w: Subqueries, full: Row)
    requires WellFormed(t, w) && s.typ == t
    ensures SameKeys(w, Project(full, s, w.of.Keys), full)
  {
    hide Project, IdOf, FkOf;
    forall e | e in w.of
      ensures if e.kind.M2O? then FkOf(e, Project(full, s, w.of.Keys)) == FkOf(e, full)
              else IdOf(Project(full, s, w.of.Keys)) == IdOf(full)
    {
      ColumnsSuffice(full, s, w.of.Keys, e);
      KeyColumns(t, e);
    }
  }

  lemma KeyColumns(t: EntityType, e: Edge)
    requires e in EdgesOf(t)
    ensures if e.kind.M2O? then e in ForeignKeyEdges(t) else HasId(t)
  {
  }

  lemma LookedUpById(t: EntityType, e: Edge)
    requires e in EdgesOf(t)
    ensures e.kind.O2M? || HasId(e.target)
  {
  }

  lemma TypOfLoadSettings(e: Edge, s: Settings, keys: seq<int>)
    ensures LoadSettings(e, s, keys).typ == s.typ
  {
  }

  lemma {:induction false} EdgeByInduction(db: Database, t: EntityType, w: Subqueries, e: Edge, rows: seq<Row>,
                                           row: Row)
    requires Sound(db) && WellFormed(t, w) && LimitFree(w) && e in w.of && row in rows
    ensures AgreesOn(db, w.of[e], e, KeysOf(e, rows), row)
    decreases w, 0
  {
    hide Sound, Batch, Naive, SameGraphs, AgreesOn, KeysOf, EdgesOf, LoadSettings, Unpaged;
    TypOfLoadSettings(e, w.of[e].settings, KeysOf(e, rows));
    LookedUpById(t, e);
    BatchIsNaive(db, LoadSettings(e, w.of[e].settings, KeysOf(e, rows)), w.of[e].withs);
    EdgeAgrees(db, w.of[e], e, rows, row);
  }

  /** For every database that keeps its primary keys and every finite query tree whose subqueries set no
      limit or offset, one batched query per edge yields the object graph of one lookup per row. */
  lemma {:induction false} BatchIsNaive(db: Database, s: Settings, w: Subqueries)
    requires Sound(db) && WellFormed(s.typ, w) && LimitFree(w)
    ensures SameGraphs(Batch(db, s, w), Naive(db, s, w))
    decreases w, 1
  {
    var all, rows := Rows(db, s), Read(db, s, w.of.Keys);
    forall i | 0 <= i < |all|
      ensures SameGraph(Batch(db, s, w)[i], Naive(db, s, w)[i])
    {
      assert rows[i] in rows;
      forall e | e in w.of
        ensures AgreesOn(db, w.of[e], e, KeysOf(e, rows), rows[i])
      {
        EdgeByInduction(db, s.typ, w, e, rows, rows[i]);
      }
      KeysAreRead(s.typ, s, w, all[i]);
      TreeAgrees(db, s, w, rows, all[i]);
      assert Naive(db, s, w)[i] == NaiveTree(db, s, w, all[i]);
    }
  }
}
