/** The order in which a loaded account lists its groups. */
module GroupOrder {
  import opened Collections
  import opened Storage
  import opened QueryTrees
  import opened EagerEqualsNaive

  /** Where a group first appears in the joined rows; their number if it does not. */
  function FirstSeen(join: seq<JoinRow>, group: int): (at: nat)
    ensures at <= |join|
    ensures at < |join| ==> IdOf(join[at].row) == group
    ensures forall i :: 0 <= i < at ==> IdOf(join[i].row) != group
  {
    if join == [] then 0
    else
      var at := FirstSeen(join[..|join| - 1], group);
      if at < |join| - 1 || IdOf(join[|join| - 1].row) == group then at else |join|
  }

  lemma FirstSeenIs(join: seq<JoinRow>, group: int, at: nat)
    requires at < |join| && IdOf(join[at].row) == group
    requires forall i :: 0 <= i < at ==> IdOf(join[i].row) != group
    ensures FirstSeen(join, group) == at
  {
  }

  /** Rows in the strict order in which their groups first appear. */
  ghost predicate InFirstOrder(join: seq<JoinRow>, rows: seq<Row>) {
    Ascending(rows, Rank(join))
  }

  lemma {:induction false} FirstRowsInOrder(join: seq<JoinRow>)
    ensures InFirstOrder(join, FirstRows(join))
    ensures forall r :: r in FirstRows(join) ==> FirstSeen(join, IdOf(r)) < |join|
  {
    if join != [] {
      var front, last := join[..|join| - 1], join[|join| - 1].row;
      var rows := FirstRows(front);
      FirstRowsInOrder(front);
      forall i | 0 <= i < |rows|
        ensures FirstSeen(join, IdOf(rows[i])) == FirstSeen(front, IdOf(rows[i])) < |front|
      {
        assert rows[i] in rows;
      }
      if IdOf(last) !in Ids(rows) {
        forall i | 0 <= i < |front|
          ensures IdOf(join[i].row) != IdOf(last)
        {
          assert IdOf(front[i].row) in Ids(rows);
        }
        FirstSeenIs(join, IdOf(last), |front|);
      }
    }
  }

  function Rank(join: seq<JoinRow>): Row -> int {
    r => FirstSeen(join, IdOf(r))
  }

  lemma FilterKeepsOrder(join: seq<JoinRow>, rows: seq<Row>, keep: Row -> bool)
    requires InFirstOrder(join, rows)
    ensures InFirstOrder(join, Filter(rows, keep))
  {
    FilterKeepsAscending(rows, keep, Rank(join));
  }

  lemma BareId(s: Settings, r: Row)
    requires HasId(s.typ)
    ensures IdOf(Bare(s, {}, r).fields) == IdOf(r)
  {
  }

  /** Every account lists exactly the groups it is joined to, each once, in the order in which the groups
      first appear in the rows of the whole batch. */
  lemma GroupsOnceInFirstOrder(db: Database, q: QueryTree, e: Edge, keys: seq<int>, id: int)
    requires e.kind.M2M? && HasId(q.settings.typ)
    ensures
      var join, ts := JoinRows(db, LoadSettings(e, q.settings, keys)), GroupsOf(db, q, e, keys, id);
      && (forall i :: 0 <= i < |ts| ==> Linked(join, id, IdOf(ts[i].fields)))
      && (forall g :: Linked(join, id, g) ==> exists i :: 0 <= i < |ts| && IdOf(ts[i].fields) == g)
      && (forall i, j :: 0 <= i < j < |ts| ==>
        FirstSeen(join, IdOf(ts[i].fields)) < FirstSeen(join, IdOf(ts[j].fields)))
  {
    var s := LoadSettings(e, q.settings, keys);
    var join := JoinRows(db, s);
    var keep := (r: Row) => Linked(join, id, IdOf(r));
    var mine := Filter(FirstRows(join), keep);
    var ts := GroupsOf(db, q, e, keys, id);
    FirstRowsInOrder(join);
    FilterKeepsOrder(join, FirstRows(join), keep);
    forall i | 0 <= i < |ts|
      ensures IdOf(ts[i].fields) == IdOf(mine[i]) && Linked(join, id, IdOf(mine[i]))
    {
      BareId(s, mine[i]);
      assert mine[i] in mine;
    }
    forall g | Linked(join, id, g)
      ensures exists i :: 0 <= i < |ts| && IdOf(ts[i].fields) == g
    {
      var h :| 0 <= h < |join| && join[h].owner == id && IdOf(join[h].row) == g;
      var first := FirstRows(join);
      assert IdOf(join[h].row) in Ids(first);
      var k :| 0 <= k < |first| && Ids(first)[k] == g;
      assert first[k] in first;
      assert first[k] in mine;
      var i :| 0 <= i < |mine| && mine[i] == first[k];
      assert IdOf(ts[i].fields) == g;
    }
  }

  function RowsOf(join: seq<JoinRow>): (rows: seq<Row>)
    ensures |rows| == |join| && forall i :: 0 <= i < |join| ==> rows[i] == join[i].row
  {
    seq(|join|, i requires 0 <= i < |join| => join[i].row)
  }

  /** As sequences, the batched groups of an account equal those of its own joined query exactly when that
      query returns them in the order in which they first appear in the whole batch. */
  lemma GroupOrderAgreesIff(db: Database, q: QueryTree, e: Edge, keys: seq<int>, id: int)
    requires Sound(db) && e.kind.M2M? && Unpaged(q.settings) && HasId(q.settings.typ) && id in keys
    ensures
      var join := JoinRows(db, LoadSettings(e, q.settings, keys));
      var own := JoinRows(db, LoadSettings(e, q.settings, [id]));
      GroupsOf(db, q, e, keys, id) == NaiveGroups(db, q, e, id) <==> InFirstOrder(join, RowsOf(own))
  {
    var s, one := LoadSettings(e, q.settings, keys), LoadSettings(e, q.settings, [id]);
    var join, own := JoinRows(db, s), JoinRows(db, one);
    FilterKeepsJoinKeyed(db.join(s.order), (j: JoinRow) => HoldsAll(s.predicates, j.row, Some(j.owner)));
    assert JoinKeyed(join);
    JoinOfOneOwner(db, e, q.settings, keys, id);
    GroupsOfOwner(join, id);
    var keep := (r: Row) => Linked(join, id, IdOf(r));
    var mine := Filter(FirstRows(join), keep);
    FirstRowsInOrder(join);
    FilterKeepsOrder(join, FirstRows(join), keep);
    SameListsIff(s, one, join, mine, own, id);
  }

  lemma SameListsIff(s: Settings, s': Settings, join: seq<JoinRow>, mine: seq<Row>, own: seq<JoinRow>, id: int)
    requires HasId(s.typ) && s.typ == s'.typ && s.fields == s'.fields
    requires InFirstOrder(join, mine) && forall r :: r in mine <==> JoinRow(id, r) in own
    requires forall j :: j in own ==> j.owner == id
    ensures Bares(s, {}, mine) == seq(|own|, i requires 0 <= i < |own| => Bare(s', {}, own[i].row)) <==>
            InFirstOrder(join, RowsOf(own))
  {
    var a, b := Bares(s, {}, mine), seq(|own|, i requires 0 <= i < |own| => Bare(s', {}, own[i].row));
    forall r: Row
      ensures Bare(s, {}, r) == Bare(s', {}, r) && IdOf(Bare(s, {}, r).fields) == IdOf(r)
    {
      BareId(s, r);
      assert Project(r, s, {}) == Project(r, s', {});
    }
    hide Bare, IdOf;
    if a == b {
      forall i | 0 <= i < |own|
        ensures IdOf(own[i].row) == IdOf(mine[i])
      {
        assert a[i] == b[i];
      }
    }
    if InFirstOrder(join, RowsOf(own)) {
      forall r
        ensures r in RowsOf(own) <==> r in mine
      {
        if r in RowsOf(own) {
          var i :| 0 <= i < |own| && RowsOf(own)[i] == r;
          assert own[i] in own && own[i] == JoinRow(id, r);
        }
        if r in mine {
          var i :| 0 <= i < |own| && own[i] == JoinRow(id, r);
          assert RowsOf(own)[i] == r;
        }
      }
      SameAscending(mine, RowsOf(own), Rank(join));
      assert a == b;
    }
  }

  // ---------------------------------------------------------------- an order that a caller can ask for

  /** Joined rows sorted by a function of the group row alone, with no ties between groups. */
  ghost predicate SortedByGroup(join: seq<JoinRow>, rank: Row -> int) {
    forall i, j :: 0 <= i < j < |join| ==>
      rank(join[i].row) < rank(join[j].row)
        || (rank(join[i].row) == rank(join[j].row) && IdOf(join[i].row) == IdOf(join[j].row))
  }

  lemma {:induction false} FilterKeepsSorted(join: seq<JoinRow>, rank: Row -> int, keep: JoinRow -> bool)
    requires SortedByGroup(join, rank)
    ensures SortedByGroup(Filter(join, keep), rank)
  {
    hide IdOf;
    if join != [] {
      var kept, last := Filter(join[..|join| - 1], keep), join[|join| - 1];
      FilterKeepsSorted(join[..|join| - 1], rank, keep);
      forall i | 0 <= i < |kept|
        ensures exists j :: 0 <= j < |join| - 1 && kept[i] == join[j]
      {
        assert kept[i] in join[..|join| - 1];
      }
    }
  }

  lemma SortedMeansFirst(join: seq<JoinRow>, rank: Row -> int, own: seq<JoinRow>)
    requires JoinKeyed(join) && SortedByGroup(join, rank) && SortedByGroup(own, rank)
    requires forall j :: j in own ==> j in join
    requires forall i, j :: 0 <= i < j < |own| ==> IdOf(own[i].row) != IdOf(own[j].row)
    ensures InFirstOrder(join, RowsOf(own))
  {
    hide IdOf;
    forall i, j | 0 <= i < j < |own|
      ensures FirstSeen(join, IdOf(own[i].row)) < FirstSeen(join, IdOf(own[j].row))
    {
      SeenAsItself(join, own[i]);
      SeenAsItself(join, own[j]);
      var a, b := FirstSeen(join, IdOf(own[i].row)), FirstSeen(join, IdOf(own[j].row));
      assert rank(join[a].row) < rank(join[b].row);
    }
  }

  lemma SeenAsItself(join: seq<JoinRow>, x: JoinRow)
    requires JoinKeyed(join) && x in join
    ensures FirstSeen(join, IdOf(x.row)) < |join| && join[FirstSeen(join, IdOf(x.row))].row == x.row
  {
    hide IdOf;
    var i :| 0 <= i < |join| && join[i] == x;
    var at := FirstSeen(join, IdOf(x.row));
    assert at <= i;
    assert at < i ==> join[at].row == join[i].row;
  }

  /** With the groups ordered by a function of the group alone, free of ties, every account of every batch
      lists its groups exactly as its own query does. */
  lemma OrderedGroupsAgree(db: Database, q: QueryTree, e: Edge, keys: seq<int>, id: int, rank: Row -> int)
    requires Sound(db) && e.kind.M2M? && Unpaged(q.settings) && HasId(q.settings.typ) && id in keys
    requires SortedByGroup(db.join(q.settings.order), rank)
    ensures GroupsOf(db, q, e, keys, id) == NaiveGroups(db, q, e, id)
  {
    var s, one := LoadSettings(e, q.settings, keys), LoadSettings(e, q.settings, [id]);
    var join, own := JoinRows(db, s), JoinRows(db, one);
    var keep := (j: JoinRow) => HoldsAll(s.predicates, j.row, Some(j.owner));
    FilterKeepsJoinKeyed(db.join(s.order), keep);
    FilterKeepsSorted(db.join(s.order), rank, keep);
    JoinOfOneOwner(db, e, q.settings, keys, id);
    FilterKeepsSorted(join, rank, (j: JoinRow) => j.owner == id);
    OwnRowsAreDistinct(join, id);
    SortedMeansFirst(join, rank, own);
    GroupOrderAgreesIff(db, q, e, keys, id);
  }

  // ---------------------------------------------------------------- an order that differs

  /** A database whose join lists group 1 of account 1, then groups 2 and 1 of account 2. */
  function Interleaved(): Database {
    var group := (n: int) => map["id" := Int(n)];
    var join := [JoinRow(1, group(1)), JoinRow(2, group(2)), JoinRow(2, group(1))];
    Database((t, order) => [], order => join, t => {"account_id", "parent_account_id"})
  }

  lemma FilterThree(xs: seq<JoinRow>, keep: JoinRow -> bool)
    requires |xs| == 3
    ensures Filter(xs, keep) ==
      (if keep(xs[0]) then [xs[0]] else []) + (if keep(xs[1]) then [xs[1]] else []) +
        (if keep(xs[2]) then [xs[2]] else [])
  {
    assert xs[..2][..1] == [xs[0]] && xs[..2][1] == xs[1];
    assert Filter([xs[0]], keep) == if keep(xs[0]) then [xs[0]] else [];
    assert Filter(xs[..2], keep) == Filter([xs[0]], keep) + if keep(xs[1]) then [xs[1]] else [];
  }

  const PLAIN := Settings(GroupT, [], None, None, [], [], [])

  lemma InterleavedJoin()
    ensures
      var join := Interleaved().join([]);
      && |join| == 3 && join[0].owner == 1 && join[1].owner == 2 && join[2].owner == 2
      && IdOf(join[0].row) == 1 && IdOf(join[1].row) == 2 && IdOf(join[2].row) == 1
    ensures Sound(Interleaved())
  {
  }

  lemma InterleavedRows(keys: seq<int>)
    requires keys == [2] || keys == [1, 2]
    ensures JoinRows(Interleaved(), LoadSettings(GROUPS, PLAIN, keys)) ==
        Interleaved().join([])[if keys == [2] then 1 else 0..]
  {
    InterleavedJoin();
    hide Interleaved, IdOf, Sound;
    var join := Interleaved().join([]);
    var s := LoadSettings(GROUPS, PLAIN, keys);
    assert s.predicates == [JoinedTo(keys)];
    var keep := (j: JoinRow) => HoldsAll(s.predicates, j.row, Some(j.owner));
    forall j: JoinRow
      ensures keep(j) <==> j.owner in keys
    {
      HoldsAllPlus([], JoinedTo(keys), j.row, Some(j.owner));
      assert [] + [JoinedTo(keys)] == s.predicates;
    }
    FilterThree(join, keep);
    hide Filter, HoldsAll, LoadSettings;
    assert keep(join[0]) <==> keys == [1, 2];
    assert keep(join[1]) && keep(join[2]);
  }

  /** The order does depend on the other accounts of the batch. */
  lemma GroupOrderMayDiffer(q: QueryTree)
    requires q == QueryTree(PLAIN, Subqueries(map[]))
    ensures Sound(Interleaved())
    ensures GroupsOf(Interleaved(), q, GROUPS, [1, 2], 2) != NaiveGroups(Interleaved(), q, GROUPS, 2)
  {
    InterleavedJoin();
    var join := Interleaved().join([]);
    hide Interleaved, IdOf, Sound, GroupsOf, NaiveGroups, JoinRows, LoadSettings, FirstSeen;
    InterleavedRows([2]);
    InterleavedRows([1, 2]);
    GroupOrderAgreesIff(Interleaved(), q, GROUPS, [1, 2], 2);
    assert join[0..] == join;
    FirstSeenIs(join, 2, 1);
    FirstSeenIs(join, 1, 0);
    var own := RowsOf(join[1..]);
    assert own[0] == join[1].row && own[1] == join[2].row;
  }
}
