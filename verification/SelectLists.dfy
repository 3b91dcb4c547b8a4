/** Selecting fewer columns never changes which entities are loaded or how they are linked. */
module SelectLists {
  import opened Collections
  import opened Storage
  import opened EagerEqualsNaive
  import opened QueryTrees

  ghost predicate ButFields(s: Settings, s': Settings) {
    s' == s.(fields := s'.fields)
  }

  /** Two sets of subqueries that differ, at every depth, at most in the fields they select. */
  ghost predicate SameButFields(w: Subqueries, w': Subqueries)
    decreases w
  {
    && w.of.Keys == w'.of.Keys
    && forall e :: e in w.of ==>
      ButFields(w.of[e].settings, w'.of[e].settings) && SameButFields(w.of[e].withs, w'.of[e].withs)
  }

  /** No column that both rows have differs. */
  ghost predicate Compatible(a: Row, b: Row) {
    forall c :: c in a && c in b ==> a[c] == b[c]
  }

  /** The same entities, linked in the same way and listed in the same order; only columns may be missing
      on either side, and never the id. */
  ghost predicate SameShape(a: ObjectTree, b: ObjectTree)
    decreases a
  {
    && a.typ == b.typ && a.loaded == b.loaded
    && Compatible(a.fields, b.fields) && (HasId(a.typ) ==> IdOf(a.fields) == IdOf(b.fields))
    && a.single.Keys == b.single.Keys && a.lists.Keys == b.lists.Keys
    && (forall e :: e in a.single ==> SameShape(a.single[e], b.single[e]))
    && (forall e :: e in a.lists ==>
          && |a.lists[e].items| == |b.lists[e].items|
          && forall i :: 0 <= i < |a.lists[e].items| ==> SameShape(a.lists[e].items[i], b.lists[e].items[i]))
  }

  ghost predicate SameShapes(ts: seq<ObjectTree>, us: seq<ObjectTree>) {
    |ts| == |us| && forall i :: 0 <= i < |ts| ==> SameShape(ts[i], us[i])
  }

  lemma ProjectionsCompatible(row: Row, s: Settings, s': Settings, loaded: set<Edge>)
    requires s.typ == s'.typ
    ensures Compatible(Project(row, s, loaded), Project(row, s', loaded))
    ensures HasId(s.typ) ==> IdOf(Project(row, s, loaded)) == IdOf(Project(row, s', loaded))
  {
  }

  lemma SameRows(db: Database, s: Settings, s': Settings)
    requires ButFields(s, s')
    ensures Rows(db, s) == Rows(db, s') && JoinRows(db, s) == JoinRows(db, s')
  {
  }

  lemma LoadButFields(e: Edge, s: Settings, s': Settings, keys: seq<int>)
    requires ButFields(s, s')
    ensures ButFields(LoadSettings(e, s, keys), LoadSettings(e, s', keys))
  {
  }

  /** The keys read for an edge are the same under any select list. */
  lemma SameKeysRead(db: Database, s: Settings, s': Settings, loaded: set<Edge>, e: Edge)
    requires ButFields(s, s') && e in loaded && e in EdgesOf(s.typ)
    ensures KeysOf(e, Read(db, s, loaded)) == KeysOf(e, Read(db, s', loaded))
    ensures if e.kind.M2O? then Fks(e, Read(db, s, loaded)) == Fks(e, Read(db, s', loaded))
            else Ids(Read(db, s, loaded)) == Ids(Read(db, s', loaded))
  {
    SameRows(db, s, s');
    KeyColumns(s.typ, e);
    ReadKeepsKeys(db, s, loaded, e);
    ReadKeepsKeys(db, s', loaded, e);
  }

  ghost predicate LoadsSameShapes(db: Database, q: QueryTree, q': QueryTree, e: Edge, keys: seq<int>) {
    && ButFields(q.settings, q'.settings) && q.settings.typ == e.target && q.withs.of.Keys == q'.withs.of.Keys
    && SameShapes(Batch(db, LoadSettings(e, q.settings, keys), q.withs),
      Batch(db, LoadSettings(e, q'.settings, keys), q'.withs))
  }

  lemma OneSameShape(db: Database, q: QueryTree, q': QueryTree, e: Edge, keys: seq<int>, fk: Option<int>)
    requires LoadsSameShapes(db, q, q', e, keys) && e.kind.M2O? && HasId(e.target)
    ensures SameShapeOrNone(OneOf(db, q, e, keys, fk), OneOf(db, q', e, keys, fk))
  {
    var s, s' := LoadSettings(e, q.settings, keys), LoadSettings(e, q'.settings, keys);
    LoadButFields(e, q.settings, q'.settings, keys);
    SameRows(db, s, s');
    ReadKeepsKeys(db, s, q.withs.of.Keys, e);
    ReadKeepsKeys(db, s', q.withs.of.Keys, e);
  }

  lemma ManySameShape(db: Database, q: QueryTree, q': QueryTree, e: Edge, keys: seq<int>, id: int)
    requires LoadsSameShapes(db, q, q', e, keys) && !e.kind.M2O?
    ensures SameShapes(ListOf(db, q, e, keys, id), ListOf(db, q', e, keys, id))
  {
    var s, s' := LoadSettings(e, q.settings, keys), LoadSettings(e, q'.settings, keys);
    LoadButFields(e, q.settings, q'.settings, keys);
    SameRows(db, s, s');
    if e.kind.M2M? {
      var mine := Filter(FirstRows(JoinRows(db, s)), (r: Row) => Linked(JoinRows(db, s), id, IdOf(r)));
      forall i | 0 <= i < |mine|
        ensures SameShape(Bares(s, {}, mine)[i], Bares(s', {}, mine)[i])
      {
        ProjectionsCompatible(mine[i], s, s', {});
      }
    } else {
      ReadKeepsKeys(db, s, q.withs.of.Keys, e);
      ReadKeepsKeys(db, s', q.withs.of.Keys, e);
      var fks := Fks(e, Read(db, s, q.withs.of.Keys));
      PickRelated(Batch(db, s, q.withs), Batch(db, s', q'.withs), fks, id, (a, b) => SameShape(a, b));
    }
  }

  ghost predicate SameShapeOrNone(a: Option<ObjectTree>, b: Option<ObjectTree>) {
    a.Some? == b.Some? && (a.Some? ==> SameShape(a.value, b.value))
  }

  /** What two runs have in common when one edge of one row is loaded. */
  ghost predicate SameEdge(db: Database, w: Subqueries, w': Subqueries, rows: seq<Row>, rows': seq<Row>, e: Edge)
    requires e in w.of && e in w'.of
  {
    && KeysOf(e, rows) == KeysOf(e, rows') && LoadsSameShapes(db, w.of[e], w'.of[e], e, KeysOf(e, rows))
    && (e.kind.M2O? ==> HasId(e.target))
  }

  lemma SinglesSameShape(db: Database, w: Subqueries, w': Subqueries, rows: seq<Row>, rows': seq<Row>, row: Row,
                         row': Row)
    requires w.of.Keys == w'.of.Keys && SameKeys(w, row, row')
    requires forall e :: e in w.of ==> SameEdge(db, w, w', rows, rows', e)
    ensures
      var a, b := BatchSingles(db, w, rows, row), BatchSingles(db, w', rows', row');
      a.Keys == b.Keys && forall e :: e in a ==> SameShapeOrNone(a[e], b[e])
  {
    var a, b := BatchSingles(db, w, rows, row), BatchSingles(db, w', rows', row');
    hide OneOf, KeysOf, SameShapeOrNone, LoadsSameShapes, FkOf, IdOf;
    forall e | e in a
      ensures SameShapeOrNone(a[e], b[e])
    {
      assert SameEdge(db, w, w', rows, rows', e);
      OneSameShape(db, w.of[e], w'.of[e], e, KeysOf(e, rows), FkOf(e, row));
    }
  }

  lemma ListsSameShape(db: Database, w: Subqueries, w': Subqueries, rows: seq<Row>, rows': seq<Row>, row: Row,
                       row': Row)
    requires w.of.Keys == w'.of.Keys && SameKeys(w, row, row')
    requires forall e :: e in w.of ==> SameEdge(db, w, w', rows, rows', e)
    ensures
      var a, b := BatchLists(db, w, rows, row), BatchLists(db, w', rows', row');
      a.Keys == b.Keys && forall e :: e in a ==> SameShapes(a[e].items, b[e].items)
  {
    var a, b := BatchLists(db, w, rows, row), BatchLists(db, w', rows', row');
    hide ListOf, KeysOf, SameShapes, LoadsSameShapes, FkOf, IdOf;
    forall e | e in a
      ensures SameShapes(a[e].items, b[e].items)
    {
      assert SameEdge(db, w, w', rows, rows', e);
      ManySameShape(db, w.of[e], w'.of[e], e, KeysOf(e, rows), IdOf(row));
    }
  }

  lemma PresentSameShape(a: map<Edge, Option<ObjectTree>>, b: map<Edge, Option<ObjectTree>>)
    requires a.Keys == b.Keys && forall e :: e in a ==> SameShapeOrNone(a[e], b[e])
    ensures Present(a).Keys == Present(b).Keys
    ensures forall e :: e in Present(a) ==> SameShape(Present(a)[e], Present(b)[e])
  {
    hide SameShape;
  }

  lemma SameParts(a: ObjectTree, b: ObjectTree)
    requires a.typ == b.typ && a.loaded == b.loaded
    requires Compatible(a.fields, b.fields) && (HasId(a.typ) ==> IdOf(a.fields) == IdOf(b.fields))
    requires a.single.Keys == b.single.Keys && a.lists.Keys == b.lists.Keys
    requires forall e :: e in a.single ==> SameShape(a.single[e], b.single[e])
    requires forall e :: e in a.lists ==> SameShapes(a.lists[e].items, b.lists[e].items)
    ensures SameShape(a, b)
  {
    hide Compatible, IdOf, SameShapes;
    forall e | e in a.lists
      ensures |a.lists[e].items| == |b.lists[e].items|
      ensures forall i :: 0 <= i < |a.lists[e].items| ==> SameShape(a.lists[e].items[i], b.lists[e].items[i])
    {
      EachSameShape(a.lists[e].items, b.lists[e].items);
    }
  }

  lemma EachSameShape(ts: seq<ObjectTree>, us: seq<ObjectTree>)
    requires SameShapes(ts, us)
    ensures |ts| == |us| && forall i :: 0 <= i < |ts| ==> SameShape(ts[i], us[i])
  {
  }

  lemma TreeSameShape(db: Database, s: Settings, s': Settings, w: Subqueries, w': Subqueries, rows: seq<Row>,
                      rows': seq<Row>, full: Row)
    requires s.typ == s'.typ && w.of.Keys == w'.of.Keys
    requires SameKeys(w, Project(full, s, w.of.Keys), Project(full, s', w.of.Keys))
    requires forall e :: e in w.of ==> SameEdge(db, w, w', rows, rows', e)
    ensures SameShape(BatchTree(db, s, w, rows, Project(full, s, w.of.Keys)),
                      BatchTree(db, s', w', rows', Project(full, s', w'.of.Keys)))
  {
    var row, row' := Project(full, s, w.of.Keys), Project(full, s', w.of.Keys);
    ProjectionsCompatible(full, s, s', w.of.Keys);
    SinglesSameShape(db, w, w', rows, rows', row, row');
    PresentSameShape(BatchSingles(db, w, rows, row), BatchSingles(db, w', rows', row'));
    ListsSameShape(db, w, w', rows, rows', row, row');
    SameParts(BatchTree(db, s, w, rows, row), BatchTree(db, s', w', rows', row'));
  }

  lemma KeysReadAlike(s: Settings, s': Settings, w: Subqueries, full: Row)
    requires WellFormed(s.typ, w) && s.typ == s'.typ
    ensures SameKeys(w, Project(full, s, w.of.Keys), Project(full, s', w.of.Keys))
  {
    KeysAreRead(s.typ, s, w, full);
    KeysAreRead(s.typ, s', w, full);
    hide Project, FkOf, IdOf, WellFormed;
  }

  lemma {:induction false} EdgeSameShape(db: Database, s: Settings, s': Settings, w: Subqueries, w': Subqueries,
                                         e: Edge)
    requires WellFormed(s.typ, w) && ButFields(s, s') && SameButFields(w, w') && e in w.of
    ensures SameEdge(db, w, w', Read(db, s, w.of.Keys), Read(db, s', w.of.Keys), e)
    decreases w, 0
  {
    hide Batch, Read, KeysOf, SameShapes, EdgesOf, LoadSettings;
    SameKeysRead(db, s, s', w.of.Keys, e);
    LookedUpById(s.typ, e);
    var keys := KeysOf(e, Read(db, s, w.of.Keys));
    LoadButFields(e, w.of[e].settings, w'.of[e].settings, keys);
    TypOfLoadSettings(e, w.of[e].settings, keys);
    SelectNeverChangesEdges(db, LoadSettings(e, w.of[e].settings, keys), LoadSettings(e, w'.of[e].settings, keys),
                            w.of[e].withs, w'.of[e].withs);
  }

  /** Whatever the select lists of the query and of its subqueries, the same entities are loaded and linked. */
  lemma {:induction false} SelectNeverChangesEdges(db: Database, s: Settings, s': Settings, w: Subqueries,
                                                   w': Subqueries)
    requires WellFormed(s.typ, w) && ButFields(s, s') && SameButFields(w, w')
    ensures SameShapes(Batch(db, s, w), Batch(db, s', w'))
    decreases w, 1
  {
    SameRows(db, s, s');
    var all, rows, rows' := Rows(db, s), Read(db, s, w.of.Keys), Read(db, s', w.of.Keys);
    forall e | e in w.of
      ensures SameEdge(db, w, w', rows, rows', e)
    {
      EdgeSameShape(db, s, s', w, w', e);
    }
    forall i | 0 <= i < |all|
      ensures SameShape(Batch(db, s, w)[i], Batch(db, s', w')[i])
    {
      KeysReadAlike(s, s', w, all[i]);
      TreeSameShape(db, s, s', w, w', rows, rows', all[i]);
    }
  }
}
