/** A page on one subquery: it pages the batch of all keys together, and exactly when it disturbs no key's share
    of the batch every key gets what its own query would give it. */
module PagedEdges {
  import opened Collections
  import opened EagerEqualsNaive
  import opened Pages
  import opened Storage
  import opened QueryTrees

  // ---------------------------------------------------------------- the rows of a batch and of one key

  function Unlimited(s: Settings): Settings {
    s.(limit := None, offset := None)
  }

  /** The key that a row is loaded for. */
  function OwnerOf(e: Edge): Row -> Option<int> {
    (r: Row) => IntOf(r, if e.kind.M2O? then "id" else e.column)
  }

  function JoinOwner(): JoinRow -> Option<int> {
    (j: JoinRow) => Some(j.owner)
  }

  /** All rows that match the keys, before a page is taken. */
  function Matching(db: Database, s: Settings, e: Edge, keys: seq<int>): seq<Row> {
    Rows(db, LoadSettings(e, Unlimited(s), keys))
  }

  function MatchingJoin(db: Database, s: Settings, e: Edge, keys: seq<int>): seq<JoinRow> {
    JoinRows(db, LoadSettings(e, Unlimited(s), keys))
  }

  lemma PagedBatch(db: Database, s: Settings, e: Edge, keys: seq<int>)
    ensures Rows(db, LoadSettings(e, s, keys)) == Page(s.limit, s.offset, Matching(db, s, e, keys))
    ensures JoinRows(db, LoadSettings(e, s, keys)) == Page(s.limit, s.offset, MatchingJoin(db, s, e, keys))
  {
    var load := LoadSettings(e, s, keys);
    assert LoadSettings(e, Unlimited(s), keys) == Unlimited(load) && load.limit == s.limit && load.offset == s.offset;
    hide LoadSettings, HoldsAll;
  }

  /** The query for one key pages what the batch matches for it. */
  lemma PagedRows(db: Database, s: Settings, e: Edge, keys: seq<int>, id: int)
    requires !e.kind.M2M? && id in keys
    ensures Rows(db, LoadSettings(e, s, [id])) ==
        Page(s.limit, s.offset, Filter(Matching(db, s, e, keys), Of(OwnerOf(e), id)))
  {
    PagedBatch(db, s, e, [id]);
    OneKeyOfMany(db, e, Unlimited(s), keys, id);
    var column := if e.kind.M2O? then "id" else e.column;
    FilterSame(Matching(db, s, e, keys), Of(OwnerOf(e), id), (r: Row) => IntOf(r, column) == Some(id));
  }

  lemma PagedJoin(db: Database, s: Settings, e: Edge, keys: seq<int>, id: int)
    requires e.kind.M2M? && id in keys
    ensures JoinRows(db, LoadSettings(e, s, [id])) ==
        Page(s.limit, s.offset, Filter(MatchingJoin(db, s, e, keys), Of(JoinOwner(), id)))
  {
    PagedBatch(db, s, e, [id]);
    JoinOfOneOwner(db, e, Unlimited(s), keys, id);
    FilterSame(MatchingJoin(db, s, e, keys), Of(JoinOwner(), id), (j: JoinRow) => j.owner == id);
  }

  /** Every matching row has an owner among the keys. */
  lemma AllMatch(db: Database, s: Settings, e: Edge, keys: seq<int>)
    requires !e.kind.M2M?
    ensures forall r :: r in Matching(db, s, e, keys) ==> OwnerOf(e)(r).Some? && OwnerOf(e)(r).value in keys
  {
    var column := if e.kind.M2O? then "id" else e.column;
    forall r | r in Matching(db, s, e, keys)
      ensures OwnerOf(e)(r).Some? && OwnerOf(e)(r).value in keys
    {
      HoldsAllPlus(s.predicates, KeyIn(column, keys), r, None);
    }
  }

  lemma AllJoined(db: Database, s: Settings, e: Edge, keys: seq<int>)
    requires e.kind.M2M?
    ensures forall j :: j in MatchingJoin(db, s, e, keys) ==> j.owner in keys
  {
    forall j | j in MatchingJoin(db, s, e, keys)
      ensures j.owner in keys
    {
      HoldsAllPlus(s.predicates, JoinedTo(keys), j.row, Some(j.owner));
    }
  }

  /** The limit and the offset of a subquery take nothing from a parent that its own query would give it, and
      give it nothing more. */
  ghost predicate EdgeFits(db: Database, q: QueryTree, e: Edge, keys: seq<int>) {
    if e.kind.M2M? then
      Undisturbed(MatchingJoin(db, q.settings, e, keys), JoinOwner(), q.settings.limit, q.settings.offset)
    else
      Undisturbed(Matching(db, q.settings, e, keys), OwnerOf(e), q.settings.limit, q.settings.offset)
  }

  /** The rows of the batch that are the key's own, and the rows of the key's own query. */
  function Share(db: Database, s: Settings, e: Edge, keys: seq<int>, id: int): seq<Row> {
    Filter(Rows(db, LoadSettings(e, s, keys)), Of(OwnerOf(e), id))
  }

  lemma FittingShares(db: Database, q: QueryTree, e: Edge, keys: seq<int>, id: int)
    requires !e.kind.M2M? && id in keys && EdgeFits(db, q, e, keys)
    ensures Share(db, q.settings, e, keys, id) == Rows(db, LoadSettings(e, q.settings, [id]))
  {
    PagedBatch(db, q.settings, e, keys);
    PagedRows(db, q.settings, e, keys, id);
    hide Rows, LoadSettings, Matching, OwnerOf, Of, Undisturbed, Page;
    SharesAreOwn(Matching(db, q.settings, e, keys), OwnerOf(e), q.settings.limit, q.settings.offset, id);
  }

  // ---------------------------------------------------------------- one-to-many

  ghost predicate GetsItsOwn(db: Database, q: QueryTree, e: Edge, ids: seq<int>, id: int) {
    SameGraphs(ListOf(db, q, e, ids, id), NaiveList(db, q, e, id))
  }

  lemma OwnedByKey(e: Edge, rows: seq<Row>, id: int)
    requires e.kind.O2M? && forall r :: r in rows ==> IntOf(r, e.column).Some?
    ensures forall i :: 0 <= i < |rows| ==> (Fks(e, rows)[i] == Some(id) <==> Of(OwnerOf(e), id)(rows[i]))
  {
  }

  /** The key's share of the per-row trees of the batch. */
  lemma ShareTrees(db: Database, q: QueryTree, e: Edge, ids: seq<int>, id: int)
    requires e.kind.O2M?
    ensures
      var s, one := LoadSettings(e, q.settings, ids), LoadSettings(e, q.settings, [id]);
      PickKey(Naive(db, s, q.withs), Fks(e, Rows(db, s)), id) ==
        NaiveTrees(db, one, q.withs, Share(db, q.settings, e, ids, id))
  {
    var s, one := LoadSettings(e, q.settings, ids), LoadSettings(e, q.settings, [id]);
    var rows := Rows(db, s);
    RestrictedHaveKeys(db, e, q.settings, ids);
    OwnedByKey(e, rows, id);
    var tree := (r: Row) => NaiveTree(db, one, q.withs, r);
    forall r
      ensures NaiveTree(db, s, q.withs, r) == tree(r)
    {
      NaiveTreeSettings(db, s, one, q.withs, r);
    }
    hide IntOf, FkOf, Of, OwnerOf, NaiveTree, Rows;
    PickFromMapped(NaiveTrees(db, s, q.withs, rows), Fks(e, rows), id, rows, Of(OwnerOf(e), id), tree);
  }

  lemma OwnTrees(db: Database, q: QueryTree, e: Edge, id: int)
    requires e.kind.O2M?
    ensures
      var one := LoadSettings(e, q.settings, [id]);
      NaiveList(db, q, e, id) == NaiveTrees(db, one, q.withs, Rows(db, one))
  {
  }

  lemma ManyFitsAgrees(db: Database, q: QueryTree, e: Edge, ids: seq<int>, id: int)
    requires e.kind.O2M? && id in ids && EdgeFits(db, q, e, ids)
    requires
      var s := LoadSettings(e, q.settings, ids);
      SameGraphs(Batch(db, s, q.withs), Naive(db, s, q.withs))
    ensures GetsItsOwn(db, q, e, ids, id)
  {
    ListPicks(db, q, e, ids, id);
    ShareTrees(db, q, e, ids, id);
    OwnTrees(db, q, e, id);
    FittingShares(db, q, e, ids, id);
    var s := LoadSettings(e, q.settings, ids);
    hide Batch, Naive, NaiveTrees, Share, ListOf, NaiveList, LoadSettings, SameGraphs, Rows, EdgeFits;
    PickSameGraphs(Batch(db, s, q.withs), Naive(db, s, q.withs), Fks(e, Rows(db, s)), id);
  }

  lemma PickLast(ts: seq<ObjectTree>, keys: seq<Option<int>>, key: int)
    requires |ts| == |keys| > 0
    ensures
      var n := |ts| - 1;
      var front := PickKey(ts[..n], keys[..n], key);
      PickKey(ts, keys, key) == if keys[n] == Some(key) then front + [ts[n]] else front
  {
  }

  /** Without their last elements, picks that agree still agree, and last elements that are picked agree. */
  lemma LastPicked(ts: seq<ObjectTree>, us: seq<ObjectTree>, keys: seq<Option<int>>, key: int)
    requires |ts| == |us| == |keys| > 0 && SameGraphs(PickKey(ts, keys, key), PickKey(us, keys, key))
    ensures
      var n := |ts| - 1;
      && SameGraphs(PickKey(ts[..n], keys[..n], key), PickKey(us[..n], keys[..n], key))
      && (keys[n] == Some(key) ==> SameGraph(ts[n], us[n]))
  {
    hide *;
    var n := |ts| - 1;
    PickLast(ts, keys, key);
    PickLast(us, keys, key);
    if keys[n] == Some(key) {
      SamePushes(PickKey(ts, keys, key), PickKey(us, keys, key),
                 PickKey(ts[..n], keys[..n], key), ts[n], PickKey(us[..n], keys[..n], key), us[n]);
    }
  }

  /** Lists of graphs agree when all their picks do. */
  lemma {:induction false} PicksAgree(ts: seq<ObjectTree>, us: seq<ObjectTree>, keys: seq<Option<int>>)
    requires |ts| == |us| == |keys|
    requires forall k :: k in keys ==> k.Some? && SameGraphs(PickKey(ts, keys, k.value), PickKey(us, keys, k.value))
    ensures SameGraphs(ts, us)
  {
    hide SameGraph;
    if ts != [] {
      var n := |ts| - 1;
      assert keys[n] in keys;
      LastPicked(ts, us, keys, keys[n].value);
      forall k | k in keys[..n]
        ensures k.Some? && SameGraphs(PickKey(ts[..n], keys[..n], k.value), PickKey(us[..n], keys[..n], k.value))
      {
        assert k in keys;
        LastPicked(ts, us, keys, k.value);
      }
      hide PickKey, SameGraphs;
      PicksAgree(ts[..n], us[..n], keys[..n]);
      LastAgrees(ts, us);
    }
  }

  lemma SamePushes(ts: seq<ObjectTree>, us: seq<ObjectTree>, a: seq<ObjectTree>, t: ObjectTree, b: seq<ObjectTree>,
                   u: ObjectTree)
    requires ts == a + [t] && us == b + [u] && SameGraphs(ts, us)
    ensures SameGraphs(a, b) && SameGraph(t, u)
  {
    hide SameGraph;
    assert |a + [t]| == |b + [u]|;
    assert forall i :: 0 <= i < |a| ==> (a + [t])[i] == a[i] && (b + [u])[i] == b[i];
    assert (a + [t])[|a|] == t && (b + [u])[|a|] == u;
  }

  lemma LastAgrees(ts: seq<ObjectTree>, us: seq<ObjectTree>)
    requires |ts| == |us| > 0 && SameGraph(ts[|ts| - 1], us[|us| - 1])
    requires SameGraphs(ts[..|ts| - 1], us[..|us| - 1])
    ensures SameGraphs(ts, us)
  {
    hide SameGraph;
    var n := |ts| - 1;
    assert forall i :: 0 <= i < n ==> ts[..n][i] == ts[i] && us[..n][i] == us[i];
  }

  /** The entities of two lists have the same fields. */
  ghost predicate FieldsAgree(ts: seq<ObjectTree>, us: seq<ObjectTree>) {
    |ts| == |us| && forall i :: 0 <= i < |ts| ==> ts[i].fields == us[i].fields
  }

  lemma PickFieldsAgree(ts: seq<ObjectTree>, us: seq<ObjectTree>, keys: seq<Option<int>>, key: int)
    requires FieldsAgree(ts, us) && |keys| == |ts|
    ensures |us| == |ts| && FieldsAgree(PickKey(ts, keys, key), PickKey(us, keys, key))
  {
    PickRelated(ts, us, keys, key, (t: ObjectTree, u: ObjectTree) => t.fields == u.fields);
  }

  /** A list has the fields of the rows of the key's share, whatever the page. */
  lemma ListFields(db: Database, q: QueryTree, e: Edge, ids: seq<int>, id: int)
    requires e.kind.O2M?
    ensures
      var one := LoadSettings(e, q.settings, [id]);
      FieldsAgree(ListOf(db, q, e, ids, id), NaiveTrees(db, one, q.withs, Share(db, q.settings, e, ids, id)))
  {
    var s := LoadSettings(e, q.settings, ids);
    var batch, naive := Batch(db, s, q.withs), Naive(db, s, q.withs);
    ListPicks(db, q, e, ids, id);
    ShareTrees(db, q, e, ids, id);
    forall i | 0 <= i < |batch|
      ensures batch[i].fields == naive[i].fields
    {
      SameFields(db, s, q.withs, i);
    }
    hide Batch, Naive, NaiveTrees, Share, ListOf, LoadSettings, Rows;
    PickFieldsAgree(batch, naive, Fks(e, Rows(db, s)), id);
  }

  lemma SameFields(db: Database, s: Settings, w: Subqueries, i: nat)
    requires i < |Rows(db, s)|
    ensures |Naive(db, s, w)| == |Batch(db, s, w)| == |Rows(db, s)|
    ensures Naive(db, s, w)[i] == NaiveTree(db, s, w, Rows(db, s)[i])
    ensures Batch(db, s, w)[i].fields == Naive(db, s, w)[i].fields == Project(Rows(db, s)[i], s, w.of.Keys)
  {
    hide Rows, Project;
  }

  lemma MatchingIdKeyed(db: Database, s: Settings, e: Edge, keys: seq<int>)
    requires Sound(db) && HasId(s.typ)
    ensures IdKeyed(Matching(db, s, e, keys))
  {
    TypOfLoadSettings(e, Unlimited(s), keys);
    RowsIdKeyed(db, LoadSettings(e, Unlimited(s), keys));
  }

  lemma RowsMatch(db: Database, s: Settings, e: Edge, keys: seq<int>, id: int)
    requires !e.kind.M2M? && id in keys
    ensures forall r :: r in Share(db, s, e, keys, id) || r in Rows(db, LoadSettings(e, s, [id])) ==>
        r in Matching(db, s, e, keys) && OwnerOf(e)(r) == Some(id)
  {
    PagedBatch(db, s, e, keys);
    PagedRows(db, s, e, keys, id);
    hide Rows, LoadSettings, Matching, OwnerOf;
  }

  lemma SameIdSameRow(rows: seq<Row>, a: Row, b: Row)
    requires DistinctIds(rows) && a in rows && b in rows && IdOf(a) == IdOf(b)
    ensures a == b
  {
  }

  /** Lists of rows with ids tell which rows they are made of. */
  lemma TreesTellRows(db: Database, s: Settings, w: Subqueries, all: seq<Row>, a: seq<Row>, b: seq<Row>)
    requires HasId(s.typ) && DistinctIds(all) && (forall r :: r in a || r in b ==> r in all)
    requires FieldsAgree(NaiveTrees(db, s, w, a), NaiveTrees(db, s, w, b))
    ensures a == b
  {
    var ts, us := NaiveTrees(db, s, w, a), NaiveTrees(db, s, w, b);
    hide DistinctIds, IdOf, NaiveSingles, NaiveLists, Project;
    forall i | 0 <= i < |a|
      ensures a[i] == b[i]
    {
      assert ts[i].fields == us[i].fields;
      ColumnsSuffice(a[i], s, w.of.Keys, PROXY);
      ColumnsSuffice(b[i], s, w.of.Keys, PROXY);
      SameIdSameRow(all, a[i], b[i]);
    }
  }

  lemma FieldsAgreeTwice(a: seq<ObjectTree>, b: seq<ObjectTree>, c: seq<ObjectTree>)
    requires FieldsAgree(a, b) && FieldsAgree(a, c)
    ensures FieldsAgree(b, c)
  {
    assert forall i :: 0 <= i < |b| ==> a[i].fields == b[i].fields;
  }

  /** A list that agrees is made of the rows of the key's own query. */
  lemma AgreeingShares(db: Database, q: QueryTree, e: Edge, ids: seq<int>, id: int)
    requires Sound(db) && e.kind.O2M? && HasId(q.settings.typ) && id in ids && GetsItsOwn(db, q, e, ids, id)
    ensures Share(db, q.settings, e, ids, id) == Rows(db, LoadSettings(e, q.settings, [id]))
  {
    var one := LoadSettings(e, q.settings, [id]);
    var all, share, own := Matching(db, q.settings, e, ids), Share(db, q.settings, e, ids, id), Rows(db, one);
    assert IdKeyed(all) ==> DistinctIds(all);
    TypOfLoadSettings(e, q.settings, [id]);
    hide *;
    ListFields(db, q, e, ids, id);
    OwnTrees(db, q, e, id);
    OwnAgrees(db, q, e, ids, id);
    FieldsAgreeTwice(ListOf(db, q, e, ids, id), NaiveTrees(db, one, q.withs, share),
                     NaiveTrees(db, one, q.withs, own));
    MatchingIdKeyed(db, q.settings, e, ids);
    RowsMatch(db, q.settings, e, ids, id);
    TreesTellRows(db, one, q.withs, all, share, own);
  }

  lemma OwnAgrees(db: Database, q: QueryTree, e: Edge, ids: seq<int>, id: int)
    requires GetsItsOwn(db, q, e, ids, id)
    ensures FieldsAgree(ListOf(db, q, e, ids, id), NaiveList(db, q, e, id))
    ensures SameGraphs(ListOf(db, q, e, ids, id), NaiveList(db, q, e, id))
    ensures |ListOf(db, q, e, ids, id)| == |NaiveList(db, q, e, id)|
  {
    hide ListOf, NaiveList;
  }

  /** Agreeing lists are as long as their keys' shares and as their own queries' results. */
  lemma AgreeingLengths(db: Database, q: QueryTree, e: Edge, ids: seq<int>, id: int)
    requires e.kind.O2M? && id in ids && GetsItsOwn(db, q, e, ids, id)
    ensures SameLength(Matching(db, q.settings, e, ids), OwnerOf(e), q.settings.limit, q.settings.offset, id)
  {
    var one := LoadSettings(e, q.settings, [id]);
    ListFields(db, q, e, ids, id);
    OwnTrees(db, q, e, id);
    OwnAgrees(db, q, e, ids, id);
    PagedBatch(db, q.settings, e, ids);
    PagedRows(db, q.settings, e, ids, id);
    hide ListOf, NaiveList, Rows, LoadSettings, Matching, Page, OwnerOf, Of, GetsItsOwn;
  }

  lemma EqualShares(db: Database, s: Settings, e: Edge, keys: seq<int>, id: int)
    requires !e.kind.M2M? && id in keys && Share(db, s, e, keys, id) == Rows(db, LoadSettings(e, s, [id]))
    ensures SameMembers(Matching(db, s, e, keys), OwnerOf(e), s.limit, s.offset, id)
  {
    PagedBatch(db, s, e, keys);
    PagedRows(db, s, e, keys, id);
    hide Rows, LoadSettings, Matching, Page, OwnerOf, Of;
  }

  /** The rows of an edge tell lists apart: they have ids, or the page is bounded on one side alone. */
  ghost predicate Telling(q: QueryTree) {
    HasId(q.settings.typ) || OneBound(q.settings.limit, q.settings.offset)
  }

  /** When all lists agree, the page disturbs none of them. */
  lemma AgreeingFit(db: Database, q: QueryTree, e: Edge, ids: seq<int>)
    requires Sound(db) && e.kind.O2M? && Telling(q)
    requires forall id :: id in ids ==> GetsItsOwn(db, q, e, ids, id)
    ensures EdgeFits(db, q, e, ids)
  {
    var all := Matching(db, q.settings, e, ids);
    AllMatch(db, q.settings, e, ids);
    if HasId(q.settings.typ) {
      MatchingIdKeyed(db, q.settings, e, ids);
      DistinctRows(all);
      hide Matching, OwnerOf, Sound, GetsItsOwn, Share, Rows, LoadSettings, SameMembers, NoDuplicates, IdKeyed;
      forall r | r in all
        ensures SameMembers(all, OwnerOf(e), q.settings.limit, q.settings.offset, OwnerOf(e)(r).value)
      {
        AgreeingShares(db, q, e, ids, OwnerOf(e)(r).value);
        EqualShares(db, q.settings, e, ids, OwnerOf(e)(r).value);
      }
      MembersTell(all, OwnerOf(e), q.settings.limit, q.settings.offset);
    } else {
      hide Matching, OwnerOf, Sound, GetsItsOwn, SameLength;
      forall r | r in all
        ensures SameLength(all, OwnerOf(e), q.settings.limit, q.settings.offset, OwnerOf(e)(r).value)
      {
        AgreeingLengths(db, q, e, ids, OwnerOf(e)(r).value);
      }
      LengthsTell(all, OwnerOf(e), q.settings.limit, q.settings.offset);
    }
  }

  lemma DistinctRows(rows: seq<Row>)
    requires IdKeyed(rows)
    ensures NoDuplicates(rows)
  {
  }

  /** When all lists agree, the batch agrees with its rows' own trees. */
  lemma AgreeingBatch(db: Database, q: QueryTree, e: Edge, ids: seq<int>)
    requires e.kind.O2M? && EdgeFits(db, q, e, ids)
    requires forall id :: id in ids ==> GetsItsOwn(db, q, e, ids, id)
    ensures
      var s := LoadSettings(e, q.settings, ids);
      SameGraphs(Batch(db, s, q.withs), Naive(db, s, q.withs))
  {
    var s := LoadSettings(e, q.settings, ids);
    var batch, naive, fks := Batch(db, s, q.withs), Naive(db, s, q.withs), Fks(e, Rows(db, s));
    assert |naive| == |batch| == |fks|;
    BatchKeys(db, q.settings, e, ids);
    hide *;
    forall k | k in fks
      ensures k.Some? && SameGraphs(PickKey(batch, fks, k.value), PickKey(naive, fks, k.value))
    {
      ListPicks(db, q, e, ids, k.value);
      ShareTrees(db, q, e, ids, k.value);
      OwnTrees(db, q, e, k.value);
      FittingShares(db, q, e, ids, k.value);
      OwnAgrees(db, q, e, ids, k.value);
    }
    PicksAgree(batch, naive, fks);
  }

  lemma BatchKeys(db: Database, s: Settings, e: Edge, ids: seq<int>)
    requires e.kind.O2M?
    ensures forall k :: k in Fks(e, Rows(db, LoadSettings(e, s, ids))) ==> k.Some? && k.value in ids
  {
    var rows := Rows(db, LoadSettings(e, s, ids));
    forall i | 0 <= i < |rows|
      ensures Fks(e, rows)[i].Some? && Fks(e, rows)[i].value in ids
    {
      assert rows[i] in rows;
      HoldsAllPlus(s.predicates, KeyIn(e.column, ids), rows[i], None);
    }
  }

  /** A page on a one-to-many subquery gives every parent the list of its own query exactly when it disturbs
      nobody's share and the batch agrees below. */
  lemma ManyAgreesIff(db: Database, q: QueryTree, e: Edge, ids: seq<int>)
    requires Sound(db) && e.kind.O2M?
    ensures
      var s := LoadSettings(e, q.settings, ids);
      var fits := EdgeFits(db, q, e, ids) && SameGraphs(Batch(db, s, q.withs), Naive(db, s, q.withs));
      && (fits ==> forall id :: id in ids ==> GetsItsOwn(db, q, e, ids, id))
      && (Telling(q) && (forall id :: id in ids ==> GetsItsOwn(db, q, e, ids, id)) ==> fits)
  {
    var s := LoadSettings(e, q.settings, ids);
    hide *;
    if EdgeFits(db, q, e, ids) && SameGraphs(Batch(db, s, q.withs), Naive(db, s, q.withs)) {
      forall id | id in ids
        ensures GetsItsOwn(db, q, e, ids, id)
      {
        ManyFitsAgrees(db, q, e, ids, id);
      }
    }
    if Telling(q) && forall id :: id in ids ==> GetsItsOwn(db, q, e, ids, id) {
      AgreeingFit(db, q, e, ids);
      AgreeingBatch(db, q, e, ids);
    }
  }

  // ---------------------------------------------------------------- many-to-one

  ghost predicate FindsItsOwn(db: Database, q: QueryTree, e: Edge, keys: seq<int>, key: int) {
    SameOption(OneOf(db, q, e, keys, Some(key)), NaiveOne(db, q, e, Some(key)))
  }

  lemma BatchIdKeyed(db: Database, s: Settings)
    requires Sound(db) && HasId(s.typ)
    ensures IdKeyed(Rows(db, s))
  {
    FilterKeepsDistinctIds(db.table(s.typ, s.order), (r: Row) => HoldsAll(s.predicates, r, None));
  }

  /** The key's share of the batch is at most one row, and the one found. */
  lemma FoundInShare(db: Database, q: QueryTree, e: Edge, keys: seq<int>, key: int)
    requires Sound(db) && e.kind.M2O? && HasId(q.settings.typ)
    ensures
      var s := LoadSettings(e, q.settings, keys);
      var share := Share(db, q.settings, e, keys, key);
      match LastIndex(Ids(Rows(db, s)), key)
      case None => share == [] && OneOf(db, q, e, keys, Some(key)) == None
      case Some(j) => j < |Rows(db, s)| && share != [] && share[0] == Rows(db, s)[j] &&
                      OneOf(db, q, e, keys, Some(key)) == Some(Batch(db, s, q.withs)[j])
  {
    var s := LoadSettings(e, q.settings, keys);
    var rows := Rows(db, s);
    BatchIdKeyed(db, s);
    UniqueById(rows, key);
    FilterSame(rows, Of(OwnerOf(e), key), (r: Row) => IntOf(r, "id") == Some(key));
    ReadKeepsKeys(db, s, q.withs.of.Keys, e);
  }

  lemma OneFitsAgrees(db: Database, q: QueryTree, e: Edge, keys: seq<int>, key: int)
    requires Sound(db) && e.kind.M2O? && HasId(q.settings.typ) && key in keys && EdgeFits(db, q, e, keys)
    requires
      var s := LoadSettings(e, q.settings, keys);
      SameGraphs(Batch(db, s, q.withs), Naive(db, s, q.withs))
    ensures FindsItsOwn(db, q, e, keys, key)
  {
    var s, one := LoadSettings(e, q.settings, keys), LoadSettings(e, q.settings, [key]);
    NaiveOneIsFirstRow(db, q, e, key);
    FoundInShare(db, q, e, keys, key);
    FittingShares(db, q, e, keys, key);
    hide *;
    var rows := Rows(db, s);
    match LastIndex(Ids(rows), key) {
      case None =>
        BothMissing(db, q, e, keys, key);
      case Some(j) =>
        SameFields(db, s, q.withs, j);
        NaiveTreeSettings(db, s, one, q.withs, rows[j]);
        BothFound(db, q, e, keys, key, Batch(db, s, q.withs), Naive(db, s, q.withs), j);
    }
  }

  lemma BothMissing(db: Database, q: QueryTree, e: Edge, keys: seq<int>, key: int)
    requires OneOf(db, q, e, keys, Some(key)) == NaiveOne(db, q, e, Some(key)) == None
    ensures FindsItsOwn(db, q, e, keys, key)
  {
  }

  lemma BothFound(db: Database, q: QueryTree, e: Edge, keys: seq<int>, key: int, ts: seq<ObjectTree>,
                  us: seq<ObjectTree>, j: nat)
    requires SameGraphs(ts, us) && j < |ts| == |us|
    requires OneOf(db, q, e, keys, Some(key)) == Some(ts[j]) && NaiveOne(db, q, e, Some(key)) == Some(us[j])
    ensures FindsItsOwn(db, q, e, keys, key)
  {
    hide OneOf, NaiveOne, SameGraph;
  }

  lemma RowOfKey(db: Database, s: Settings, e: Edge, keys: seq<int>, key: int, a: Row, b: Row)
    requires Sound(db) && e.kind.M2O? && HasId(s.typ) && key in keys
    requires a in Share(db, s, e, keys, key) || a in Rows(db, LoadSettings(e, s, [key]))
    requires b in Share(db, s, e, keys, key) || b in Rows(db, LoadSettings(e, s, [key]))
    ensures a == b
  {
    MatchingIdKeyed(db, s, e, keys);
    RowsMatch(db, s, e, keys, key);
    hide Rows, Share, LoadSettings, Matching, Sound;
    SameIdSameRow(Matching(db, s, e, keys), a, b);
  }

  /** A key that finds what its own lookup finds has the same rows in the batch and in its own query. */
  lemma FoundAlike(db: Database, q: QueryTree, e: Edge, keys: seq<int>, key: int)
    requires Sound(db) && e.kind.M2O? && HasId(q.settings.typ) && key in keys && FindsItsOwn(db, q, e, keys, key)
    ensures SameMembers(Matching(db, q.settings, e, keys), OwnerOf(e), q.settings.limit, q.settings.offset, key)
  {
    var share, own := Share(db, q.settings, e, keys, key), Rows(db, LoadSettings(e, q.settings, [key]));
    FoundInShare(db, q, e, keys, key);
    NaiveOneIsFirstRow(db, q, e, key);
    PagedBatch(db, q.settings, e, keys);
    PagedRows(db, q.settings, e, keys, key);
    assert share == [] <==> own == [];
    hide Rows, OneOf, NaiveOne, LoadSettings, Matching, Page, OwnerOf, Of, Sound;
    forall r
      ensures r in share <==> r in own
    {
      if r in share { RowOfKey(db, q.settings, e, keys, key, r, own[0]); }
      if r in own { RowOfKey(db, q.settings, e, keys, key, r, share[0]); }
    }
  }

  lemma FindingFits(db: Database, q: QueryTree, e: Edge, keys: seq<int>)
    requires Sound(db) && e.kind.M2O? && HasId(q.settings.typ)
    requires forall key :: key in keys ==> FindsItsOwn(db, q, e, keys, key)
    ensures EdgeFits(db, q, e, keys)
  {
    var all := Matching(db, q.settings, e, keys);
    AllMatch(db, q.settings, e, keys);
    MatchingIdKeyed(db, q.settings, e, keys);
    DistinctRows(all);
    hide Matching, OwnerOf, Sound, FindsItsOwn, SameMembers, NoDuplicates, IdKeyed;
    forall r | r in all
      ensures SameMembers(all, OwnerOf(e), q.settings.limit, q.settings.offset, OwnerOf(e)(r).value)
    {
      FoundAlike(db, q, e, keys, OwnerOf(e)(r).value);
    }
    MembersTell(all, OwnerOf(e), q.settings.limit, q.settings.offset);
  }

  /** The tree the batch holds for a row that is found is the one of its own lookup. */
  lemma FoundTree(db: Database, q: QueryTree, e: Edge, keys: seq<int>, j: nat)
    requires Sound(db) && e.kind.M2O? && HasId(q.settings.typ) && EdgeFits(db, q, e, keys)
    requires forall key :: key in keys ==> FindsItsOwn(db, q, e, keys, key)
    requires j < |Rows(db, LoadSettings(e, q.settings, keys))|
    ensures
      var s := LoadSettings(e, q.settings, keys);
      |Naive(db, s, q.withs)| == |Rows(db, s)| && SameGraph(Batch(db, s, q.withs)[j], Naive(db, s, q.withs)[j])
  {
    var s := LoadSettings(e, q.settings, keys);
    var rows := Rows(db, s);
    var key := Ids(rows)[j];
    var one := LoadSettings(e, q.settings, [key]);
    BatchIdKeyed(db, s);
    LastOfDistinct(rows, j);
    KeyOfRow(db, q.settings, e, keys, rows[j]);
    FoundInShare(db, q, e, keys, key);
    FittingShares(db, q, e, keys, key);
    NaiveOneIsFirstRow(db, q, e, key);
    SameFields(db, s, q.withs, j);
    NaiveTreeSettings(db, s, one, q.withs, rows[j]);
    assert FindsItsOwn(db, q, e, keys, key);
  }

  lemma KeyOfRow(db: Database, s: Settings, e: Edge, keys: seq<int>, r: Row)
    requires e.kind.M2O? && r in Rows(db, LoadSettings(e, s, keys))
    ensures IdOf(r) in keys
  {
    HoldsAllPlus(s.predicates, KeyIn("id", keys), r, None);
  }

  /** A page on a many-to-one subquery gives every key what its own lookup finds exactly when it disturbs
      nobody's share and the batch agrees below. */
  lemma OneAgreesIff(db: Database, q: QueryTree, e: Edge, keys: seq<int>)
    requires Sound(db) && e.kind.M2O? && HasId(q.settings.typ)
    ensures
      var s := LoadSettings(e, q.settings, keys);
      (forall key :: key in keys ==> FindsItsOwn(db, q, e, keys, key)) <==>
        EdgeFits(db, q, e, keys) && SameGraphs(Batch(db, s, q.withs), Naive(db, s, q.withs))
  {
    var s := LoadSettings(e, q.settings, keys);
    assert |Naive(db, s, q.withs)| == |Batch(db, s, q.withs)| == |Rows(db, s)|;
    hide OneOf, NaiveOne, Batch, Naive, Rows, LoadSettings, Matching, EdgeFits, FindsItsOwn, Sound, SameGraph;
    if EdgeFits(db, q, e, keys) && SameGraphs(Batch(db, s, q.withs), Naive(db, s, q.withs)) {
      forall key | key in keys
        ensures FindsItsOwn(db, q, e, keys, key)
      {
        OneFitsAgrees(db, q, e, keys, key);
      }
    }
    if forall key :: key in keys ==> FindsItsOwn(db, q, e, keys, key) {
      FindingFits(db, q, e, keys);
      forall j | 0 <= j < |Rows(db, s)|
        ensures SameGraph(Batch(db, s, q.withs)[j], Naive(db, s, q.withs)[j])
      {
        FoundTree(db, q, e, keys, j);
      }
    }
  }

  /** A many-to-one batch, in which every row has a key of its own, is undisturbed exactly when its page leaves
      nothing out or skips everything. */
  lemma OnePageFitsIff(db: Database, q: QueryTree, e: Edge, keys: seq<int>)
    requires Sound(db) && e.kind.M2O? && HasId(q.settings.typ)
    ensures
      var n, limit, skipped := |Matching(db, q.settings, e, keys)|, q.settings.limit, Skipped(q.settings.offset);
      EdgeFits(db, q, e, keys) <==>
        if skipped == 0 then limit.None? || limit.value == 0 || n <= limit.value else n <= skipped
  {
    var all := Matching(db, q.settings, e, keys);
    PageIs(q.settings.limit, q.settings.offset, all);
    var m, end := Skipped(q.settings.offset), PageEnd(q.settings.limit, q.settings.offset, |all|);
    MatchingIdKeyed(db, q.settings, e, keys);
    hide Matching, Sound;
    if m < |all| && FirstOwned(all, OwnerOf(e), m, end) && !(m == 0 && end == |all|) {
      NotFirstOwned(e, all, m, end);
      assert false;
    }
  }

  /** Rows with keys of their own do not follow each other for one owner, and none of two is skipped. */
  lemma NotFirstOwned(e: Edge, all: seq<Row>, m: nat, end: nat)
    requires e.kind.M2O? && IdKeyed(all) && m < end <= |all| && (m > 0 || end < |all|)
    ensures !FirstOwned(all, OwnerOf(e), m, end)
  {
    OwnersDiffer(e, all, 0, 1);
    assert all[1] in all;
    assert all[1] in Filter(all, Of(OwnerOf(e), OwnerOf(e)(all[1]).value));
  }

  lemma OwnersDiffer(e: Edge, all: seq<Row>, i: nat, j: nat)
    requires e.kind.M2O? && IdKeyed(all) && i < j < |all|
    ensures OwnerOf(e)(all[i]).Some? && OwnerOf(e)(all[j]).Some? && OwnerOf(e)(all[i]) != OwnerOf(e)(all[j])
  {
  }

  // ---------------------------------------------------------------- the groups of an account

  ghost predicate JoinsItsOwn(db: Database, q: QueryTree, e: Edge, keys: seq<int>, id: int) {
    multiset(GroupsOf(db, q, e, keys, id)) == multiset(NaiveGroups(db, q, e, id))
  }

  lemma PageKeepsJoinKeyed(limit: Option<nat>, offset: Option<nat>, join: seq<JoinRow>)
    requires JoinKeyed(join)
    ensures JoinKeyed(Page(limit, offset, join)) && NoDuplicates(join)
  {
  }

  lemma MatchingJoinKeyed(db: Database, s: Settings, e: Edge, keys: seq<int>)
    requires Sound(db)
    ensures JoinKeyed(MatchingJoin(db, s, e, keys)) && NoDuplicates(MatchingJoin(db, s, e, keys))
    ensures JoinKeyed(JoinRows(db, LoadSettings(e, s, keys)))
  {
    var load := LoadSettings(e, Unlimited(s), keys);
    FilterKeepsJoinKeyed(db.join(s.order), (j: JoinRow) => HoldsAll(load.predicates, j.row, Some(j.owner)));
    assert JoinKeyed(MatchingJoin(db, s, e, keys));
    hide *;
    PagedBatch(db, s, e, keys);
    PageKeepsJoinKeyed(s.limit, s.offset, MatchingJoin(db, s, e, keys));
  }

  /** The join rows of the batch that are the account's. */
  function JoinShare(db: Database, s: Settings, e: Edge, keys: seq<int>, id: int): seq<JoinRow> {
    Filter(JoinRows(db, LoadSettings(e, s, keys)), Of(JoinOwner(), id))
  }

  function MyGroups(join: seq<JoinRow>, id: int): seq<Row> {
    Filter(FirstRows(join), (r: Row) => Linked(join, id, IdOf(r)))
  }

  /** The groups spread to an account are those of its share of the batch. */
  lemma GroupsOfShare(db: Database, q: QueryTree, e: Edge, keys: seq<int>, id: int)
    requires Sound(db) && e.kind.M2M?
    ensures
      var s := LoadSettings(e, q.settings, keys);
      var mine := MyGroups(JoinRows(db, s), id);
      && GroupsOf(db, q, e, keys, id) == Bares(s, {}, mine) && DistinctIds(mine)
      && forall r :: r in mine <==> JoinRow(id, r) in JoinShare(db, q.settings, e, keys, id)
  {
    var join := JoinRows(db, LoadSettings(e, q.settings, keys));
    MatchingJoinKeyed(db, q.settings, e, keys);
    GroupsOfOwner(join, id);
    FilterSame(join, Of(JoinOwner(), id), (j: JoinRow) => j.owner == id);
  }

  lemma OwnJoin(db: Database, q: QueryTree, e: Edge, keys: seq<int>, id: int)
    requires Sound(db) && e.kind.M2M? && id in keys
    ensures
      var own := JoinRows(db, LoadSettings(e, q.settings, [id]));
      && JoinKeyed(own)
      && forall j :: j in own || j in JoinShare(db, q.settings, e, keys, id) ==>
           j.owner == id && j in MatchingJoin(db, q.settings, e, keys)
  {
    MatchingJoinKeyed(db, q.settings, e, [id]);
    PagedBatch(db, q.settings, e, keys);
    PagedJoin(db, q.settings, e, keys, id);
    hide JoinRows, LoadSettings, MatchingJoin, JoinKeyed;
  }

  lemma GroupsFitAgree(db: Database, q: QueryTree, e: Edge, keys: seq<int>, id: int)
    requires Sound(db) && e.kind.M2M? && HasId(q.settings.typ) && id in keys && EdgeFits(db, q, e, keys)
    ensures JoinsItsOwn(db, q, e, keys, id)
  {
    var s, one := LoadSettings(e, q.settings, keys), LoadSettings(e, q.settings, [id]);
    GroupsOfShare(db, q, e, keys, id);
    OwnJoin(db, q, e, keys, id);
    FittingJoin(db, q, e, keys, id);
    OwnedDistinct(JoinRows(db, one), id);
    SameButKeys(e, q.settings, keys, id);
    hide JoinRows, LoadSettings, MatchingJoin, JoinKeyed, MyGroups, EdgeFits, Sound;
    BareSameBag(s, one, MyGroups(JoinRows(db, s), id), JoinRows(db, one), id);
  }

  lemma SameButKeys(e: Edge, s: Settings, keys: seq<int>, id: int)
    ensures
      var all, one := LoadSettings(e, s, keys), LoadSettings(e, s, [id]);
      all.typ == one.typ == s.typ && all.fields == one.fields
  {
  }

  lemma OwnedDistinct(own: seq<JoinRow>, id: int)
    requires JoinKeyed(own) && forall j :: j in own ==> j.owner == id
    ensures forall i, j :: 0 <= i < j < |own| ==> IdOf(own[i].row) != IdOf(own[j].row)
  {
    assert forall i :: 0 <= i < |own| ==> own[i] in own;
  }

  lemma FittingJoin(db: Database, q: QueryTree, e: Edge, keys: seq<int>, id: int)
    requires e.kind.M2M? && id in keys && EdgeFits(db, q, e, keys)
    ensures JoinShare(db, q.settings, e, keys, id) == JoinRows(db, LoadSettings(e, q.settings, [id]))
  {
    PagedBatch(db, q.settings, e, keys);
    PagedJoin(db, q.settings, e, keys, id);
    hide JoinRows, LoadSettings, MatchingJoin, JoinOwner, Of, Undisturbed, Page;
    SharesAreOwn(MatchingJoin(db, q.settings, e, keys), JoinOwner(), q.settings.limit, q.settings.offset, id);
  }

  /** Of two bags of bare groups that are equal, a group of the one is a group of the other. */
  lemma BagsTellRows(s: Settings, s': Settings, mine: seq<Row>, own: seq<JoinRow>, r: Row)
    requires HasId(s.typ) && s.typ == s'.typ && s.fields == s'.fields
    requires multiset(Bares(s, {}, mine)) == multiset(seq(|own|, i requires 0 <= i < |own| => Bare(s', {}, own[i].row)))
    ensures r in mine ==> exists j :: j in own && IdOf(j.row) == IdOf(r)
    ensures (exists j :: j in own && j.row == r) ==> exists m :: m in mine && IdOf(m) == IdOf(r)
  {
    var a, b := Bares(s, {}, mine), seq(|own|, i requires 0 <= i < |own| => Bare(s', {}, own[i].row));
    forall r: Row
      ensures IdOf(Bare(s, {}, r).fields) == IdOf(r) == IdOf(Bare(s', {}, r).fields)
    {
      ColumnsSuffice(r, s, {}, GROUPS);
      ColumnsSuffice(r, s', {}, GROUPS);
    }
    hide Bare, IdOf;
    if r in mine {
      var i :| 0 <= i < |mine| && mine[i] == r;
      assert a[i] in multiset(a);
      assert a[i] in b;
      var k :| 0 <= k < |b| && b[k] == a[i];
      assert own[k] in own;
    }
    if j :| j in own && j.row == r {
      var k :| 0 <= k < |own| && own[k] == j;
      assert b[k] in multiset(b);
      assert b[k] in a;
      var i :| 0 <= i < |a| && a[i] == b[k];
      assert mine[i] in mine;
    }
  }

  lemma SameGroupSameRow(join: seq<JoinRow>, a: JoinRow, b: JoinRow)
    requires JoinKeyed(join) && a in join && b in join && a.owner == b.owner && IdOf(a.row) == IdOf(b.row)
    ensures a == b
  {
  }

  /** An account with the groups of its own query has the same join rows in the batch and in its own query. */
  lemma JoinedAlike(db: Database, q: QueryTree, e: Edge, keys: seq<int>, id: int)
    requires Sound(db) && e.kind.M2M? && HasId(q.settings.typ) && id in keys && JoinsItsOwn(db, q, e, keys, id)
    ensures SameMembers(MatchingJoin(db, q.settings, e, keys), JoinOwner(), q.settings.limit, q.settings.offset, id)
  {
    var s, one := LoadSettings(e, q.settings, keys), LoadSettings(e, q.settings, [id]);
    var all, own := MatchingJoin(db, q.settings, e, keys), JoinRows(db, one);
    var share, mine := JoinShare(db, q.settings, e, keys, id), MyGroups(JoinRows(db, s), id);
    GroupsOfShare(db, q, e, keys, id);
    OwnJoin(db, q, e, keys, id);
    MatchingJoinKeyed(db, q.settings, e, keys);
    PagedBatch(db, q.settings, e, keys);
    PagedJoin(db, q.settings, e, keys, id);
    SameButKeys(e, q.settings, keys, id);
    hide JoinRows, LoadSettings, MatchingJoin, JoinKeyed, MyGroups, JoinOwner, Of, IdOf, Sound, Page, Bare;
    forall j
      ensures j in share <==> j in own
    {
      if j in share || j in own {
        assert j == JoinRow(id, j.row);
        BagsTellRows(s, one, mine, own, j.row);
      }
      if j in share {
        var other :| other in own && IdOf(other.row) == IdOf(j.row);
        SameGroupSameRow(all, other, j);
      }
      if j in own {
        var m :| m in mine && IdOf(m) == IdOf(j.row);
        SameGroupSameRow(all, JoinRow(id, m), j);
      }
    }
  }

  /** A page on the groups gives every account the groups of its own query exactly when it disturbs nobody's
      share of the links. */
  lemma GroupsAgreeIff(db: Database, q: QueryTree, e: Edge, keys: seq<int>)
    requires Sound(db) && e.kind.M2M? && HasId(q.settings.typ)
    ensures (forall id :: id in keys ==> JoinsItsOwn(db, q, e, keys, id)) <==> EdgeFits(db, q, e, keys)
  {
    var all := MatchingJoin(db, q.settings, e, keys);
    MatchingJoinKeyed(db, q.settings, e, keys);
    AllJoined(db, q.settings, e, keys);
    hide MatchingJoin, Sound, JoinsItsOwn, SameMembers, NoDuplicates, JoinKeyed, Undisturbed;
    if EdgeFits(db, q, e, keys) {
      forall id | id in keys
        ensures JoinsItsOwn(db, q, e, keys, id)
      {
        GroupsFitAgree(db, q, e, keys, id);
      }
    }
    if forall id :: id in keys ==> JoinsItsOwn(db, q, e, keys, id) {
      forall j | j in all
        ensures SameMembers(all, JoinOwner(), q.settings.limit, q.settings.offset, JoinOwner()(j).value)
      {
        JoinedAlike(db, q, e, keys, j.owner);
      }
      MembersTell(all, JoinOwner(), q.settings.limit, q.settings.offset);
    }
  }
}
