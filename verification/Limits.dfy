/** Limits and offsets on subqueries: they page the batch of all parents together, and exactly when they page
    what every parent would get alone. */
module Limits {
  import opened Collections
  import opened EagerEqualsNaive
  import opened PagedEdges
  import opened Pages
  import opened Storage
  import opened QueryTrees

  /** How many neighbors the nodes with the given ids get in all. */
  function PickedInAll<T>(xs: seq<T>, keys: seq<Option<int>>, ids: seq<int>): nat
    requires |xs| == |keys|
  {
    if ids == [] then 0 else PickedInAll(xs, keys, ids[..|ids| - 1]) + |PickKey(xs, keys, ids[|ids| - 1])|
  }

  lemma {:induction false} OneMorePicked<T>(xs: seq<T>, keys: seq<Option<int>>, ids: seq<int>)
    requires |xs| == |keys| > 0 && NoDuplicates(ids)
    ensures
      var front, last := PickedInAll(xs[..|xs| - 1], keys[..|xs| - 1], ids), keys[|xs| - 1];
      PickedInAll(xs, keys, ids) == front + if last.Some? && last.value in ids then 1 else 0
  {
    if ids != [] {
      assert ids == ids[..|ids| - 1] + [ids[|ids| - 1]];
      OneMorePicked(xs, keys, ids[..|ids| - 1]);
    }
  }

  lemma {:induction false} NonePicked<T>(xs: seq<T>, keys: seq<Option<int>>, ids: seq<int>)
    requires xs == [] && keys == []
    ensures PickedInAll(xs, keys, ids) == 0
  {
    if ids != [] { NonePicked(xs, keys, ids[..|ids| - 1]); }
  }

  lemma {:induction false} NoNodePickedTwice<T>(xs: seq<T>, keys: seq<Option<int>>, ids: seq<int>)
    requires |xs| == |keys| && NoDuplicates(ids)
    ensures PickedInAll(xs, keys, ids) <= |xs|
  {
    if xs == [] {
      NonePicked(xs, keys, ids);
    } else {
      OneMorePicked(xs, keys, ids);
      NoNodePickedTwice(xs[..|xs| - 1], keys[..|xs| - 1], ids);
    }
  }

  ghost function ListedInAll(db: Database, q: QueryTree, e: Edge, keys: seq<int>, ids: seq<int>): nat {
    if ids == [] then 0 else ListedInAll(db, q, e, keys, ids[..|ids| - 1]) + |ListOf(db, q, e, keys, ids[|ids| - 1])|
  }

  lemma {:induction false} ListedIsPicked(db: Database, q: QueryTree, e: Edge, keys: seq<int>, ids: seq<int>)
    requires e.kind.O2M?
    ensures
      var s := LoadSettings(e, q.settings, keys);
      ListedInAll(db, q, e, keys, ids) == PickedInAll(Batch(db, s, q.withs), Fks(e, Read(db, s, q.withs.of.Keys)), ids)
  {
    if ids != [] { ListedIsPicked(db, q, e, keys, ids[..|ids| - 1]); }
  }

  /** A limit set on a one-to-many subquery limits all parents together, not each of them: their lists hold
      no more than that many neighbors in all. */
  lemma LimitIsShared(db: Database, q: QueryTree, e: Edge, ids: seq<int>)
    requires e.kind.O2M? && NoDuplicates(ids) && q.settings.limit.Some? && 0 < q.settings.limit.value
    ensures ListedInAll(db, q, e, ids, ids) <= q.settings.limit.value
  {
    var s := LoadSettings(e, q.settings, ids);
    ListedIsPicked(db, q, e, ids, ids);
    NoNodePickedTwice(Batch(db, s, q.withs), Fks(e, Read(db, s, q.withs.of.Keys)), ids);
  }

  // ---------------------------------------------------------------- the whole tree

  /** At every depth that a run reaches, no page disturbs a share. */
  ghost predicate PagesFit(db: Database, s: Settings, w: Subqueries)
    decreases w, 1
  {
    var rows := Read(db, s, w.of.Keys);
    rows == [] || forall e :: e in w.of ==> FitsBelow(db, w.of[e], e, KeysOf(e, rows))
  }

  ghost predicate FitsBelow(db: Database, q: QueryTree, e: Edge, keys: seq<int>)
    decreases q, 0
  {
    EdgeFits(db, q, e, keys) && (e.kind.M2M? || PagesFit(db, LoadSettings(e, q.settings, keys), q.withs))
  }

  /** No subquery for entities without an id sets both a limit and an offset. */
  ghost predicate AllTelling(w: Subqueries)
    decreases w
  {
    forall e :: e in w.of ==> Telling(w.of[e]) && AllTelling(w.of[e].withs)
  }

  /** The edge agrees for one key. */
  ghost predicate KeyAgrees(db: Database, q: QueryTree, e: Edge, keys: seq<int>, key: int) {
    match e.kind
    case M2O => FindsItsOwn(db, q, e, keys, key)
    case O2M => GetsItsOwn(db, q, e, keys, key)
    case M2M => JoinsItsOwn(db, q, e, keys, key)
  }

  lemma KeyOfAgreement(db: Database, q: QueryTree, e: Edge, keys: seq<int>, row: Row)
    ensures AgreesOn(db, q, e, keys, row) <==>
      if e.kind.M2O? then FkOf(e, row).Some? ==> KeyAgrees(db, q, e, keys, FkOf(e, row).value)
      else KeyAgrees(db, q, e, keys, IdOf(row))
  {
    hide Batch, FkOf, IdOf, SameGraphs, GroupsOf, NaiveGroups, Naive;
  }

  lemma KeyHasRow(e: Edge, rows: seq<Row>, key: int)
    requires key in KeysOf(e, rows)
    ensures exists row :: row in rows && if e.kind.M2O? then FkOf(e, row) == Some(key) else IdOf(row) == key
  {
    if e.kind.M2O? {
      assert Some(key) in Fks(e, rows);
      var i :| 0 <= i < |rows| && Fks(e, rows)[i] == Some(key);
      assert rows[i] in rows;
    } else {
      var i :| 0 <= i < |rows| && Ids(rows)[i] == key;
      assert rows[i] in rows;
    }
  }

  /** An edge agrees for all rows exactly when it agrees for all collected keys. */
  lemma RowsOrKeys(db: Database, q: QueryTree, e: Edge, rows: seq<Row>)
    ensures
      var keys := KeysOf(e, rows);
      (forall row :: row in rows ==> AgreesOn(db, q, e, keys, row)) <==>
        (forall key :: key in keys ==> KeyAgrees(db, q, e, keys, key))
  {
    var keys := KeysOf(e, rows);
    hide KeysOf, AgreesOn, KeyAgrees, FkOf, IdOf;
    forall row | row in rows
      ensures (forall key :: key in keys ==> KeyAgrees(db, q, e, keys, key)) ==> AgreesOn(db, q, e, keys, row)
    {
      KeyOfAgreement(db, q, e, keys, row);
      KeyCollected(e, rows, row);
    }
    if forall row :: row in rows ==> AgreesOn(db, q, e, keys, row) {
      forall key | key in keys
        ensures KeyAgrees(db, q, e, keys, key)
      {
        KeyHasRow(e, rows, key);
        var row :| row in rows && if e.kind.M2O? then FkOf(e, row) == Some(key) else IdOf(row) == key;
        KeyOfAgreement(db, q, e, keys, row);
      }
    }
  }

  lemma KeysAgreeIff(db: Database, q: QueryTree, e: Edge, keys: seq<int>)
    requires Sound(db) && q.settings.typ == e.target && (e.kind.O2M? || HasId(e.target))
    ensures
      var s := LoadSettings(e, q.settings, keys);
      var fits := EdgeFits(db, q, e, keys) && (e.kind.M2M? || SameGraphs(Batch(db, s, q.withs), Naive(db, s, q.withs)));
      && (fits ==> forall key :: key in keys ==> KeyAgrees(db, q, e, keys, key))
      && (Telling(q) && (forall key :: key in keys ==> KeyAgrees(db, q, e, keys, key)) ==> fits)
  {
    hide Sound, EdgeFits, Batch, Naive, SameGraphs, FindsItsOwn, GetsItsOwn, JoinsItsOwn, LoadSettings;
    match e.kind {
      case M2O => OneAgreesIff(db, q, e, keys);
      case O2M => ManyAgreesIff(db, q, e, keys);
      case M2M => GroupsAgreeIff(db, q, e, keys);
    }
  }

  /** The edge agrees for all rows. */
  ghost predicate EdgeAgreesFor(db: Database, w: Subqueries, e: Edge, rows: seq<Row>)
    requires e in w.of
  {
    forall row :: row in rows ==> AgreesOn(db, w.of[e], e, KeysOf(e, rows), row)
  }

  lemma {:induction false} EdgeAgreesIff(db: Database, t: EntityType, w: Subqueries, e: Edge, rows: seq<Row>)
    requires Sound(db) && WellFormed(t, w) && e in w.of
    ensures FitsBelow(db, w.of[e], e, KeysOf(e, rows)) ==> EdgeAgreesFor(db, w, e, rows)
    ensures AllTelling(w) && EdgeAgreesFor(db, w, e, rows) ==> FitsBelow(db, w.of[e], e, KeysOf(e, rows))
    decreases w, 0
  {
    var q, keys := w.of[e], KeysOf(e, rows);
    LookedUpById(t, e);
    TypOfLoadSettings(e, q.settings, keys);
    hide Sound, AgreesOn, KeysOf, EdgesOf, LoadSettings, KeyAgrees, Batch, Naive, SameGraphs, EdgeFits, PagesFit;
    hide Telling;
    RowsOrKeys(db, q, e, rows);
    KeysAgreeIff(db, q, e, keys);
    BatchIsNaiveIff(db, LoadSettings(e, q.settings, keys), q.withs);
  }

  lemma PresentShows(b: map<Edge, Option<ObjectTree>>, n: map<Edge, Option<ObjectTree>>, e: Edge)
    requires e in b && e in n && Present(b).Keys == Present(n).Keys
    requires e in Present(b) ==> SameGraph(Present(b)[e], Present(n)[e])
    ensures SameOption(b[e], n[e])
  {
    assert e in Present(b) <==> b[e].Some?;
    assert e in Present(n) <==> n[e].Some?;
  }

  /** Trees that agree have edges that agree. */
  lemma TreeShowsAgreement(db: Database, s: Settings, w: Subqueries, rows: seq<Row>, full: Row, e: Edge)
    requires SameKeys(w, Project(full, s, w.of.Keys), full) && e in w.of
    requires SameGraph(BatchTree(db, s, w, rows, Project(full, s, w.of.Keys)), NaiveTree(db, s, w, full))
    ensures AgreesOn(db, w.of[e], e, KeysOf(e, rows), Project(full, s, w.of.Keys))
  {
    var row := Project(full, s, w.of.Keys);
    var a, b := BatchTree(db, s, w, rows, row), NaiveTree(db, s, w, full);
    hide OneOf, ListOf, NaiveOne, NaiveList, KeysOf, FkOf, IdOf, Project, Loaded, Present;
    if e.kind.M2O? {
      PresentShows(BatchSingles(db, w, rows, row), NaiveSingles(db, w, full), e);
    } else {
      assert e in a.lists && e in b.lists;
    }
  }

  lemma TreeAgreesIff(db: Database, s: Settings, w: Subqueries, rows: seq<Row>, full: Row)
    requires WellFormed(s.typ, w)
    ensures
      var row := Project(full, s, w.of.Keys);
      SameGraph(BatchTree(db, s, w, rows, row), NaiveTree(db, s, w, full)) <==>
        forall e :: e in w.of ==> AgreesOn(db, w.of[e], e, KeysOf(e, rows), row)
  {
    var row := Project(full, s, w.of.Keys);
    KeysAreRead(s.typ, s, w, full);
    hide SameGraph, BatchTree, NaiveTree, AgreesOn, KeysOf, SameKeys, Project, WellFormed;
    if forall e :: e in w.of ==> AgreesOn(db, w.of[e], e, KeysOf(e, rows), row) {
      TreeAgrees(db, s, w, rows, full);
    }
    if SameGraph(BatchTree(db, s, w, rows, row), NaiveTree(db, s, w, full)) {
      forall e | e in w.of
        ensures AgreesOn(db, w.of[e], e, KeysOf(e, rows), row)
      {
        TreeShowsAgreement(db, s, w, rows, full, e);
      }
    }
  }

  ghost predicate RowAgrees(db: Database, w: Subqueries, rows: seq<Row>, row: Row) {
    forall e :: e in w.of ==> AgreesOn(db, w.of[e], e, KeysOf(e, rows), row)
  }

  lemma BatchAgreesIff(db: Database, s: Settings, w: Subqueries)
    requires WellFormed(s.typ, w)
    ensures
      var rows := Read(db, s, w.of.Keys);
      SameGraphs(Batch(db, s, w), Naive(db, s, w)) <==> forall row :: row in rows ==> RowAgrees(db, w, rows, row)
  {
    var all, rows := Rows(db, s), Read(db, s, w.of.Keys);
    var ts, us := Batch(db, s, w), Naive(db, s, w);
    assert |us| == |ts| == |rows|;
    forall i | 0 <= i < |rows|
      ensures rows[i] in rows && (SameGraph(ts[i], us[i]) <==> RowAgrees(db, w, rows, rows[i]))
    {
      TreeAgreesIff(db, s, w, rows, all[i]);
      SameFields(db, s, w, i);
    }
    hide *;
    GraphsByRows(db, w, rows, ts, us);
  }

  lemma GraphsByRows(db: Database, w: Subqueries, rows: seq<Row>, ts: seq<ObjectTree>, us: seq<ObjectTree>)
    requires |us| == |ts| == |rows|
    requires forall i :: 0 <= i < |rows| ==> (SameGraph(ts[i], us[i]) <==> RowAgrees(db, w, rows, rows[i]))
    ensures SameGraphs(ts, us) <==> forall row :: row in rows ==> RowAgrees(db, w, rows, row)
  {
    hide RowAgrees, SameGraph;
    assert forall i :: 0 <= i < |rows| ==> rows[i] in rows;
  }

  lemma FitsByEdges(db: Database, s: Settings, w: Subqueries, rows: seq<Row>)
    requires rows == Read(db, s, w.of.Keys)
    requires forall e :: e in w.of ==>
        && (FitsBelow(db, w.of[e], e, KeysOf(e, rows)) ==> EdgeAgreesFor(db, w, e, rows))
        && (AllTelling(w) && EdgeAgreesFor(db, w, e, rows) ==> FitsBelow(db, w.of[e], e, KeysOf(e, rows)))
    ensures PagesFit(db, s, w) ==> forall row :: row in rows ==> RowAgrees(db, w, rows, row)
    ensures AllTelling(w) && (forall row :: row in rows ==> RowAgrees(db, w, rows, row)) ==> PagesFit(db, s, w)
  {
    hide AgreesOn, KeysOf, Read, FitsBelow, AllTelling;
    if rows != [] {
      assert rows[0] in rows;
    }
  }

  /** The graph of one batched query per edge is the graph of one lookup per row and edge exactly when, at every
      depth that the run reaches, no page disturbs a share. (Links have no id by which a list could be told from
      another of the same length, so that with both a limit and an offset on them only one half is said.) */
  lemma {:induction false} BatchIsNaiveIff(db: Database, s: Settings, w: Subqueries)
    requires Sound(db) && WellFormed(s.typ, w)
    ensures PagesFit(db, s, w) ==> SameGraphs(Batch(db, s, w), Naive(db, s, w))
    ensures AllTelling(w) && SameGraphs(Batch(db, s, w), Naive(db, s, w)) ==> PagesFit(db, s, w)
    decreases w, 1
  {
    var rows := Read(db, s, w.of.Keys);
    hide *;
    BatchAgreesIff(db, s, w);
    forall e | e in w.of
      ensures FitsBelow(db, w.of[e], e, KeysOf(e, rows)) ==> EdgeAgreesFor(db, w, e, rows)
      ensures AllTelling(w) && EdgeAgreesFor(db, w, e, rows) ==> FitsBelow(db, w.of[e], e, KeysOf(e, rows))
    {
      EdgeAgreesIff(db, s.typ, w, e, rows);
    }
    FitsByEdges(db, s, w, rows);
  }

  /** Subqueries without a limit or an offset fit. */
  lemma {:induction false} LimitFreeFits(db: Database, s: Settings, w: Subqueries)
    requires LimitFree(w)
    ensures PagesFit(db, s, w) && AllTelling(w)
    decreases w
  {
    var rows := Read(db, s, w.of.Keys);
    hide Matching, MatchingJoin, OwnerOf, JoinOwner, KeysOf, LoadSettings, Read, FirstOwned;
    forall e | e in w.of
      ensures FitsBelow(db, w.of[e], e, KeysOf(e, rows)) && AllTelling(w.of[e].withs)
    {
      LimitFreeFits(db, LoadSettings(e, w.of[e].settings, KeysOf(e, rows)), w.of[e].withs);
    }
  }

  // ---------------------------------------------------------------- the limit of a one-to-many subquery

  /** No more matching rows than the limit, or all of them of one parent. */
  ghost predicate Uncut(e: Edge, all: seq<Row>, n: nat) {
    |all| <= n || forall i, j :: 0 <= i < j < |all| ==> IntOf(all[i], e.column) == IntOf(all[j], e.column)
  }

  lemma UncutFits(e: Edge, all: seq<Row>, n: nat)
    requires e.kind.O2M? && n > 0 && forall r :: r in all ==> OwnerOf(e)(r).Some?
    ensures Uncut(e, all, n) <==> Undisturbed(all, OwnerOf(e), Some(n), None)
  {
    if Undisturbed(all, OwnerOf(e), Some(n), None) && |all| > n {
      assert FirstOwned(all, OwnerOf(e), 0, n);
      forall i | 0 <= i < |all|
        ensures OwnerOf(e)(all[i]) == OwnerOf(e)(all[0])
      {
        assert all[i] in all;
        assert all[i] in Filter(all, Of(OwnerOf(e), OwnerOf(e)(all[i]).value));
      }
    }
  }

  /** A limit on a one-to-many subquery means the same as a limit for every parent, so that all lists agree
      with the parents' own queries, exactly when no more rows match than the limit allows or all matching
      rows belong to one parent. */
  lemma LimitAgreesIff(db: Database, q: QueryTree, e: Edge, ids: seq<int>, n: nat)
    requires Sound(db) && e.kind.O2M? && q.settings.typ == e.target && WellFormed(e.target, q.withs)
    requires LimitFree(q.withs)
    requires q.settings.limit == Some(n) && n > 0 && q.settings.offset.None?
    ensures (forall id :: id in ids ==> GetsItsOwn(db, q, e, ids, id)) <==>
        Uncut(e, Matching(db, q.settings, e, ids), n)
  {
    AllMatch(db, q.settings, e, ids);
    UncutFits(e, Matching(db, q.settings, e, ids), n);
    TypOfLoadSettings(e, q.settings, ids);
    BatchIsNaive(db, LoadSettings(e, q.settings, ids), q.withs);
    hide GetsItsOwn, Undisturbed, Uncut, Sound, Matching, SameGraphs, Batch, Naive, LoadSettings;
    ManyAgreesIff(db, q, e, ids);
  }

  /** A database with one child of account 1 and one of account 2. */
  function TwoChildren(): Database {
    var child := (id: int, parent: int) => map["id" := Int(id), "parent_account_id" := Int(parent)];
    Database((t, order) => if t == AccountT then [child(3, 1), child(4, 2)] else [], order => [],
             t => {"account_id", "parent_account_id"})
  }

  lemma TwoChildrenRows(order: seq<OrderOption>)
    ensures Sound(TwoChildren())
    ensures
      var rows := TwoChildren().table(AccountT, order);
      |rows| == 2 && IntOf(rows[0], "parent_account_id") == Some(1) && IntOf(rows[1], "parent_account_id") == Some(2)
  {
  }

  /** Asked for one child each, two parents get one child between them. */
  lemma LimitMayCut(q: QueryTree)
    requires q == QueryTree(Settings(AccountT, [], Some(1), None, [], [], []), Subqueries(map[]))
    ensures Sound(TwoChildren())
    ensures exists id :: id in [1, 2] && !GetsItsOwn(TwoChildren(), q, CHILDREN, [1, 2], id)
  {
    var db := TwoChildren();
    TwoChildrenRows([]);
    var rows := db.table(AccountT, []);
    var s := LoadSettings(CHILDREN, Unlimited(q.settings), [1, 2]);
    hide TwoChildren, Sound, GetsItsOwn, IntOf;
    forall r | r in rows
      ensures HoldsAll(s.predicates, r, None)
    {
      HoldsAllPlus([], KeyIn("parent_account_id", [1, 2]), r, None);
      assert [] + [KeyIn("parent_account_id", [1, 2])] == s.predicates;
    }
    FilterAll(rows, (r: Row) => HoldsAll(s.predicates, r, None));
    assert Matching(db, q.settings, CHILDREN, [1, 2]) == rows;
    LimitAgreesIff(db, q, CHILDREN, [1, 2], 1);
  }
}
