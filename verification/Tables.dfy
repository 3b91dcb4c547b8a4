/** What is loaded, said of the tables themselves: which rows a query returns, in which order and with which
    columns, and which rows an edge leads to. */
module Tables {
  import opened Collections
  import opened EagerEqualsNaive
  import opened PagedEdges
  import opened Pages
  import opened Storage
  import opened QueryTrees

  ghost predicate InOrder<T>(xs: seq<T>, rank: T -> int) {
    forall i, j :: 0 <= i < j < |xs| ==> rank(xs[i]) <= rank(xs[j])
  }

  /** The rows of a table that satisfy a condition: each as often as it is there, in any order the table is in. */
  ghost predicate Taken<T(!new)>(table: seq<T>, keep: T -> bool, rows: seq<T>) {
    && (forall r :: multiset(rows)[r] == if keep(r) then multiset(table)[r] else 0)
    && forall rank: T -> int :: InOrder(table, rank) ==> InOrder(rows, rank)
  }

  lemma {:induction false} FilterKeepsInOrder<T(!new)>(xs: seq<T>, keep: T -> bool, rank: T -> int)
    requires InOrder(xs, rank)
    ensures InOrder(Filter(xs, keep), rank)
  {
    if xs != [] {
      var kept, last := Filter(xs[..|xs| - 1], keep), xs[|xs| - 1];
      FilterKeepsInOrder(xs[..|xs| - 1], keep, rank);
      forall i | 0 <= i < |kept|
        ensures rank(kept[i]) <= rank(last)
      {
        assert kept[i] in xs[..|xs| - 1];
      }
    }
  }

  lemma {:induction false} FilterCounts<T(!new)>(xs: seq<T>, keep: T -> bool, r: T)
    ensures multiset(Filter(xs, keep))[r] == if keep(r) then multiset(xs)[r] else 0
  {
    if xs != [] {
      var front, last := xs[..|xs| - 1], xs[|xs| - 1];
      FilterCounts(front, keep, r);
      FilterOneMore(front, last, keep);
      assert xs == front + [last];
    }
  }

  lemma FilterTakes<T(!new)>(xs: seq<T>, keep: T -> bool)
    ensures Taken(xs, keep, Filter(xs, keep))
  {
    forall r
      ensures multiset(Filter(xs, keep))[r] == if keep(r) then multiset(xs)[r] else 0
    {
      FilterCounts(xs, keep, r);
    }
    forall rank: T -> int | InOrder(xs, rank)
      ensures InOrder(Filter(xs, keep), rank)
    {
      FilterKeepsInOrder(xs, keep, rank);
    }
  }

  // ---------------------------------------------------------------- the rows of a query

  function Meets(ps: seq<Predicate>): Row -> bool {
    (r: Row) => HoldsAll(ps, r, None)
  }

  /** The rows a query is answered with: those of its table that meet its predicates, in the order it asks for, cut to
      its page. */
  ghost predicate Answers(db: Database, s: Settings, rows: seq<Row>) {
    exists all :: Taken(db.table(s.typ, s.order), Meets(s.predicates), all) && rows == Page(s.limit, s.offset, all)
  }

  /** What is read of a row: columns of the row, all that are wanted, and everything when none is named. */
  ghost predicate Shows(read: Row, row: Row, wanted: seq<string>) {
    && (forall c :: c in read ==> c in row && read[c] == row[c])
    && (wanted == [] ==> read == row)
    && (forall c :: c in wanted && c in row ==> c in read)
  }

  /** Entities with what is read of the given rows, one for one. */
  ghost predicate Show(ts: seq<ObjectTree>, rows: seq<Row>, wanted: seq<string>) {
    |ts| == |rows| && forall i :: 0 <= i < |ts| ==> Shows(ts[i].fields, rows[i], wanted)
  }

  lemma RowsAnswer(db: Database, s: Settings)
    ensures Answers(db, s, Rows(db, s))
  {
    var table, meets := db.table(s.typ, s.order), (r: Row) => HoldsAll(s.predicates, r, None);
    FilterTakes(table, Meets(s.predicates));
    FilterSame(table, Meets(s.predicates), meets);
    assert Rows(db, s) == Page(s.limit, s.offset, Filter(table, Meets(s.predicates)));
    hide Taken, Page, Filter, Meets;
  }

  lemma PageInOrder<T>(limit: Option<nat>, offset: Option<nat>, xs: seq<T>, rank: T -> int)
    requires InOrder(xs, rank)
    ensures InOrder(Page(limit, offset, xs), rank)
  {
    PageIs(limit, offset, xs);
    hide Page;
  }

  /** The order that a query asks for is the order of its rows: by whatever the table ascends then, they do. */
  lemma OrderReachesRows(db: Database, s: Settings, rows: seq<Row>, rank: Row -> int)
    requires Answers(db, s, rows) && InOrder(db.table(s.typ, s.order), rank)
    ensures InOrder(rows, rank)
  {
    var all :| Taken(db.table(s.typ, s.order), Meets(s.predicates), all) && rows == Page(s.limit, s.offset, all);
    PageInOrder(s.limit, s.offset, all, rank);
    hide InOrder, Page, Meets;
  }

  lemma ProjectShows(row: Row, s: Settings, loaded: set<Edge>)
    ensures Shows(Project(row, s, loaded), row, s.fields)
  {
    ProjectIs(row, s, loaded);
    hide Project;
  }

  /** A batch consists of what is read of the rows of the query, in their order. */
  lemma BatchShows(db: Database, s: Settings, w: Subqueries)
    ensures Show(Batch(db, s, w), Rows(db, s), s.fields)
  {
    var rows, ts := Rows(db, s), Batch(db, s, w);
    forall i | 0 <= i < |ts|
      ensures Shows(ts[i].fields, rows[i], s.fields)
    {
      ProjectShows(rows[i], s, w.of.Keys);
    }
    hide Batch, Rows, Shows;
  }

  /** Entities loaded for a query: they show, one for one and in order, the rows it is answered with, which ascend by
      whatever the table ascends in the order asked for. */
  ghost predicate LoadedFor(db: Database, s: Settings, ts: seq<ObjectTree>) {
    exists rows :: Answers(db, s, rows) && Show(ts, rows, s.fields) &&
      forall rank: Row -> int :: InOrder(db.table(s.typ, s.order), rank) ==> InOrder(rows, rank)
  }

  lemma BatchIsLoaded(db: Database, s: Settings, w: Subqueries)
    ensures LoadedFor(db, s, Batch(db, s, w))
  {
    hide *;
    RowsAnswer(db, s);
    BatchShows(db, s, w);
    forall rank: Row -> int | InOrder(db.table(s.typ, s.order), rank)
      ensures InOrder(Rows(db, s), rank)
    {
      OrderReachesRows(db, s, Rows(db, s), rank);
    }
    RowsLoaded(db, s, Batch(db, s, w), Rows(db, s));
  }

  lemma RowsLoaded(db: Database, s: Settings, ts: seq<ObjectTree>, rows: seq<Row>)
    requires Answers(db, s, rows) && Show(ts, rows, s.fields)
    requires forall rank: Row -> int :: InOrder(db.table(s.typ, s.order), rank) ==> InOrder(rows, rank)
    ensures LoadedFor(db, s, ts)
  {
    hide Answers, Show, InOrder;
  }

  // ---------------------------------------------------------------- the rows an edge leads to

  /** Loading an edge leaves everything of its subquery as it is but the select list, which may get the foreign key, and
      the one predicate more that restricts it to the keys. */
  lemma LoadKeeps(e: Edge, s: Settings, keys: seq<int>, row: Row, owner: Option<int>)
    ensures
      var load := LoadSettings(e, s, keys);
      && load.typ == s.typ && load.limit == s.limit && load.offset == s.offset && load.order == s.order
      && load.modifiers == s.modifiers
      && (forall c :: c in load.fields <==>
            c in s.fields || (e.kind.O2M? && s.fields != [] && c == e.column))
      && (load.fields == [] <==> s.fields == [])
      && (HoldsAll(load.predicates, row, owner) <==>
            HoldsAll(s.predicates, row, owner) &&
            match e.kind
            case M2O => IntOf(row, "id").Some? && IntOf(row, "id").value in keys
            case O2M => IntOf(row, e.column).Some? && IntOf(row, e.column).value in keys
            case M2M => owner.Some? && owner.value in keys)
  {
    var p := match e.kind case M2O => KeyIn("id", keys) case O2M => KeyIn(e.column, keys) case M2M => JoinedTo(keys);
    HoldsAllPlus(s.predicates, p, row, owner);
  }

  /** The rows of the target that belong to a key. */
  function Belongs(e: Edge, s: Settings, id: int): Row -> bool {
    (r: Row) => HoldsAll(s.predicates, r, None) && IntOf(r, if e.kind.M2O? then "id" else e.column) == Some(id)
  }

  lemma OwnRowsTaken(db: Database, e: Edge, s: Settings, id: int)
    requires !e.kind.M2M? && Unpaged(s)
    ensures Taken(db.table(s.typ, s.order), Belongs(e, s, id), Rows(db, LoadSettings(e, s, [id])))
  {
    var table, load := db.table(s.typ, s.order), LoadSettings(e, s, [id]);
    forall r | r in table
      ensures HoldsAll(load.predicates, r, None) == Belongs(e, s, id)(r)
    {
      LoadKeeps(e, s, [id], r, None);
    }
    LoadKeeps(e, s, [id], map[], None);
    FilterTakes(table, Belongs(e, s, id));
    FilterSame(table, (r: Row) => HoldsAll(load.predicates, r, None), Belongs(e, s, id));
    hide Taken, HoldsAll, LoadSettings, Filter, Belongs;
  }

  lemma ShownByOwn(db: Database, e: Edge, q: QueryTree, id: int)
    requires !e.kind.M2M?
    ensures
      var one := LoadSettings(e, q.settings, [id]);
      Show(NaiveTrees(db, one, q.withs, Rows(db, one)), Rows(db, one), q.settings.fields)
  {
    var one := LoadSettings(e, q.settings, [id]);
    var rows := Rows(db, one);
    LoadKeeps(e, q.settings, [id], map[], None);
    forall i | 0 <= i < |rows|
      ensures Shows(NaiveTree(db, one, q.withs, rows[i]).fields, rows[i], q.settings.fields)
    {
      ProjectShows(rows[i], one, q.withs.of.Keys);
    }
    hide LoadSettings, Rows, Shows, NaiveTree;
  }

  /** A one-to-many edge of a node leads to the rows of the target table whose foreign key is its id and that meet the
      predicates of the subquery, in the order that asks for, with the columns it selects. */
  lemma ListIs(db: Database, q: QueryTree, e: Edge, keys: seq<int>, id: int)
    requires e.kind.O2M? && Unpaged(q.settings) && id in keys
    ensures exists rows ::
      && Taken(db.table(q.settings.typ, q.settings.order), Belongs(e, q.settings, id), rows)
      && Show(ListOf(db, q, e, keys, id), rows, q.settings.fields)
  {
    var one := LoadSettings(e, q.settings, [id]);
    OwnRowsTaken(db, e, q.settings, id);
    ShownByOwn(db, e, q, id);
    ListFields(db, q, e, keys, id);
    UnpagedShare(db, q.settings, e, keys, id);
    ShownAlike(ListOf(db, q, e, keys, id), NaiveTrees(db, one, q.withs, Rows(db, one)), Rows(db, one),
               q.settings.fields);
    hide *;
  }

  lemma ShownAlike(ts: seq<ObjectTree>, us: seq<ObjectTree>, rows: seq<Row>, wanted: seq<string>)
    requires FieldsAgree(ts, us) && Show(us, rows, wanted)
    ensures Show(ts, rows, wanted)
  {
    hide Shows;
  }

  lemma UnpagedShare(db: Database, s: Settings, e: Edge, keys: seq<int>, id: int)
    requires !e.kind.M2M? && Unpaged(s) && id in keys
    ensures Share(db, s, e, keys, id) == Rows(db, LoadSettings(e, s, [id]))
  {
    OneKeyOfMany(db, e, s, keys, id);
    var column := if e.kind.M2O? then "id" else e.column;
    FilterSame(Rows(db, LoadSettings(e, s, keys)), Of(OwnerOf(e), id), (r: Row) => IntOf(r, column) == Some(id));
  }

  lemma {:induction false} PicksInOrder(rows: seq<Row>, keys: seq<Option<int>>, id: int, rank: Row -> int)
    requires |rows| == |keys| && InOrder(rows, rank)
    ensures InOrder(PickKey(rows, keys, id), rank)
  {
    if rows != [] {
      var n := |rows| - 1;
      var front := PickKey(rows[..n], keys[..n], id);
      PicksInOrder(rows[..n], keys[..n], id, rank);
      forall i | 0 <= i < |front|
        ensures rank(front[i]) <= rank(rows[n])
      {
        assert front[i] in rows[..n];
      }
    }
  }

  /** The lists of a one-to-many edge are in the order that its subquery asks for, also when that has a page. */
  lemma ListInOrder(db: Database, q: QueryTree, e: Edge, keys: seq<int>, id: int, rank: Row -> int)
    requires e.kind.O2M? && InOrder(db.table(q.settings.typ, q.settings.order), rank)
    ensures exists rows :: InOrder(rows, rank) && Show(ListOf(db, q, e, keys, id), rows, q.settings.fields)
  {
    var s := LoadSettings(e, q.settings, keys);
    var all, fks := Rows(db, s), Fks(e, Read(db, s, q.withs.of.Keys));
    var ts := Batch(db, s, q.withs);
    assert ListOf(db, q, e, keys, id) == PickKey(ts, fks, id);
    LoadKeeps(e, q.settings, keys, map[], None);
    RowsAnswer(db, s);
    OrderReachesRows(db, s, all, rank);
    BatchShows(db, s, q.withs);
    var wanted := q.settings.fields;
    ShowLess(ts, all, s.fields, wanted);
    hide *;
    PicksInOrder(all, fks, id, rank);
    PicksShow(ts, all, fks, id, wanted);
  }

  lemma ShowLess(ts: seq<ObjectTree>, rows: seq<Row>, wanted: seq<string>, less: seq<string>)
    requires Show(ts, rows, wanted) && (less == [] <==> wanted == []) && forall c :: c in less ==> c in wanted
    ensures Show(ts, rows, less)
  {
  }

  lemma PicksShow(ts: seq<ObjectTree>, rows: seq<Row>, keys: seq<Option<int>>, id: int, wanted: seq<string>)
    requires |keys| == |rows| && Show(ts, rows, wanted)
    ensures |ts| == |rows| && Show(PickKey(ts, keys, id), PickKey(rows, keys, id), wanted)
  {
    hide Shows, PickKey;
    PickRelated(ts, rows, keys, id, (t: ObjectTree, r: Row) => Shows(t.fields, r, wanted));
  }

  /** The keys by which the edges go, and the edges that are each other's inverse: an account is among the children of
      another exactly when that is its parent, and a link among the links of an account when that is its account. */
  lemma EdgesGoBy(s: Settings, row: Row, id: int)
    requires s.predicates == []
    ensures FkOf(PROXY, row) == IntOf(row, "proxy_id")
    ensures Belongs(CHILDREN, s, id)(row) <==> FkOf(PARENT, row) == Some(id)
    ensures FkOf(PARENT, row) == IntOf(row, "parent_account_id")
    ensures Belongs(USAGE_LOGS, s, id)(row) <==> IntOf(row, "account_id") == Some(id)
    ensures Belongs(ACCOUNT_GROUPS, s, id)(row) <==> IntOf(row, "account_id") == Some(id)
    ensures IntOf(row, "account_id") == Some(id) ==> FkOf(LINK_ACCOUNT, row) == Some(id)
    ensures IntOf(row, "group_id") == Some(id) ==> FkOf(LINK_GROUP, row) == Some(id)
    ensures Belongs(PROXY, s, id)(row) <==> IntOf(row, "id") == Some(id)
  {
  }

  /** A many-to-one edge of a node leads to the row of the target table with the id that the key names, if it is there
      and meets the predicates of the subquery. */
  lemma OneIs(db: Database, q: QueryTree, e: Edge, keys: seq<int>, key: int)
    requires Sound(db) && e.kind.M2O? && Unpaged(q.settings) && HasId(q.settings.typ) && key in keys
    ensures
      var one := OneOf(db, q, e, keys, Some(key));
      var table := db.table(q.settings.typ, q.settings.order);
      if one.None? then forall r :: r in table ==> !Belongs(e, q.settings, key)(r)
      else exists r :: r in table && Belongs(e, q.settings, key)(r) && Shows(one.value.fields, r, q.settings.fields)
  {
    var s := LoadSettings(e, q.settings, keys);
    var table, own := db.table(q.settings.typ, q.settings.order), Rows(db, LoadSettings(e, q.settings, [key]));
    FoundInShare(db, q, e, keys, key);
    UnpagedShare(db, q.settings, e, keys, key);
    OwnRowsTaken(db, e, q.settings, key);
    BatchShows(db, s, q.withs);
    LoadKeeps(e, q.settings, keys, map[], None);
    TakenMembers(table, Belongs(e, q.settings, key), own);
    hide Rows, Batch, OneOf, LoadSettings, Taken, Belongs, Sound, Share, Shows;
    match LastIndex(Ids(Rows(db, s)), key) {
      case None =>
      case Some(j) =>
        assert own[0] in own;
    }
  }

  lemma TakenMembers<T(!new)>(table: seq<T>, keep: T -> bool, rows: seq<T>)
    requires Taken(table, keep, rows)
    ensures forall r :: r in rows <==> r in table && keep(r)
  {
    forall r
      ensures r in rows <==> r in table && keep(r)
    {
      assert r in rows <==> r in multiset(rows);
      assert r in table <==> r in multiset(table);
    }
  }

  /** An account is joined to a group that meets the predicates of the subquery. */
  ghost predicate Joined(db: Database, s: Settings, id: int, r: Row) {
    JoinRow(id, r) in db.join(s.order) && HoldsAll(s.predicates, r, Some(id))
  }

  function ByGroup(rank: Row -> int): JoinRow -> int {
    (j: JoinRow) => rank(j.row)
  }

  lemma {:induction false} FirstRowsKeepOrder(join: seq<JoinRow>, rank: Row -> int)
    requires InOrder(join, ByGroup(rank))
    ensures InOrder(FirstRows(join), rank)
  {
    hide IdOf;
    if join != [] {
      var front, last := join[..|join| - 1], join[|join| - 1];
      assert forall i :: 0 <= i < |front| ==> front[i] == join[i] && ByGroup(rank)(join[i]) <= ByGroup(rank)(last);
      FirstRowsKeepOrder(front, rank);
      forall i | 0 <= i < |FirstRows(front)|
        ensures rank(FirstRows(front)[i]) <= rank(last.row)
      {
        assert FirstRows(front)[i] in FirstRows(front);
        var k :| 0 <= k < |front| && front[k].row == FirstRows(front)[i];
      }
    }
  }

  lemma GroupsKeepOrder(db: Database, q: QueryTree, e: Edge, keys: seq<int>, id: int, rank: Row -> int)
    requires e.kind.M2M? && Unpaged(q.settings) && InOrder(db.join(q.settings.order), ByGroup(rank))
    ensures InOrder(MyGroups(JoinRows(db, LoadSettings(e, q.settings, keys)), id), rank)
  {
    var s := LoadSettings(e, q.settings, keys);
    var join := JoinRows(db, s);
    LoadKeeps(e, q.settings, keys, map[], None);
    FilterKeepsInOrder(db.join(s.order), (j: JoinRow) => HoldsAll(s.predicates, j.row, Some(j.owner)), ByGroup(rank));
    hide LoadSettings, HoldsAll, InOrder, FirstRows, Linked;
    FirstRowsKeepOrder(join, rank);
    FilterKeepsInOrder(FirstRows(join), (r: Row) => Linked(join, id, IdOf(r)), rank);
  }

  /** The groups of an account are exactly those that it is joined to and that meet the predicates of the subquery, each
      once, in an order of the groups that the subquery asks for. */
  lemma GroupsAre(db: Database, q: QueryTree, e: Edge, keys: seq<int>, id: int)
    requires Sound(db) && e.kind.M2M? && Unpaged(q.settings) && id in keys
    ensures exists rows ::
      && (forall r :: r in rows <==> Joined(db, q.settings, id, r)) && DistinctIds(rows)
      && (forall rank: Row -> int :: InOrder(db.join(q.settings.order), ByGroup(rank)) ==> InOrder(rows, rank))
      && Show(GroupsOf(db, q, e, keys, id), rows, q.settings.fields)
  {
    var s := LoadSettings(e, q.settings, keys);
    var rows := MyGroups(JoinRows(db, s), id);
    GroupsOfShare(db, q, e, keys, id);
    forall r
      ensures JoinRow(id, r) in JoinShare(db, q.settings, e, keys, id) <==> Joined(db, q.settings, id, r)
    {
      LoadKeeps(e, q.settings, keys, r, Some(id));
    }
    forall rank: Row -> int | InOrder(db.join(q.settings.order), ByGroup(rank))
      ensures InOrder(rows, rank)
    {
      GroupsKeepOrder(db, q, e, keys, id, rank);
    }
    BaresShow(s, rows);
    LoadKeeps(e, q.settings, keys, map[], None);
    BaresWanted(s, q.settings, rows);
    hide *;
  }

  lemma BaresShow(s: Settings, rows: seq<Row>)
    ensures Show(Bares(s, {}, rows), rows, s.fields)
  {
    forall i | 0 <= i < |rows|
      ensures Shows(Bare(s, {}, rows[i]).fields, rows[i], s.fields)
    {
      ProjectShows(rows[i], s, {});
    }
    hide Bare, Shows;
  }

  lemma BaresWanted(s: Settings, s': Settings, rows: seq<Row>)
    requires (forall c :: c in s.fields <==> c in s'.fields) && (s.fields == [] <==> s'.fields == [])
    ensures Show(Bares(s, {}, rows), rows, s.fields) ==> Show(Bares(s, {}, rows), rows, s'.fields)
  {
    hide Bare, Bares;
  }
}
