/** What an eager-loading query means. A query is a tree of settings; `Batch` is what the loaders
    compute (one query per edge, spread over the parents), `Naive` is what one lookup per row and edge
    would compute. */
module QueryTrees {
  import opened Collections
  import opened Storage

  /** The values a builder holds besides its subqueries. */
  datatype Settings = Settings(
    typ: EntityType, fields: seq<string>, limit: Option<nat>, offset: Option<nat>,
    order: seq<OrderOption>, predicates: seq<Predicate>, modifiers: seq<Modifier>)

  /** A row lock asked for with ForUpdate or ForShare; it changes no row. */
  datatype Modifier = ForUpdate | ForShare

  datatype QueryTree = QueryTree(settings: Settings, withs: Subqueries)
  datatype Subqueries = Subqueries(of: map<Edge, QueryTree>)

  /** The object graph below one node, unfolded. */
  datatype ObjectTree = ObjectTree(
    typ: EntityType, fields: Row,
    single: map<Edge, ObjectTree>, lists: map<Edge, ObjectList>, loaded: seq<bool>)

  datatype ObjectList = ObjectList(items: seq<ObjectTree>)

  // ---------------------------------------------------------------- columns

  function AddOnce(columns: seq<string>, column: string): (cs: seq<string>)
    ensures forall c :: c in cs <==> c in columns || c == column
  {
    if column in columns then columns else columns + [column]
  }

  function Without(columns: seq<string>, column: string): (cs: seq<string>)
    ensures forall c :: c in cs <==> c in columns && c != column
  {
    Filter(columns, (c: string) => c != column)
  }

  /** The edges whose foreign key is a column of the queried table itself. */
  function ForeignKeyEdges(t: EntityType): seq<Edge> {
    match t
    case AccountT => [PROXY, PARENT]
    case AccountGroupT => [LINK_ACCOUNT, LINK_GROUP]
    case GroupT | ProxyT | UsageLogT => []
  }

  function AddForeignKeys(columns: seq<string>, es: seq<Edge>, loaded: set<Edge>): (cs: seq<string>)
    ensures forall c :: c in columns ==> c in cs
    ensures forall e :: e in es && e in loaded ==> e.column in cs
    decreases es
  {
    if es == [] then columns
    else
      AddForeignKeys(if es[0] in loaded then AddOnce(columns, es[0].column) else columns, es[1..], loaded)
  }

  /** The columns read for a query whose field list is not empty. */
  function SelectedColumns(s: Settings, loaded: set<Edge>): seq<string> {
    AddForeignKeys(if HasId(s.typ) then ["id"] + Without(s.fields, "id") else s.fields, ForeignKeyEdges(s.typ), loaded)
  }

  /** The fields an entity ends with after a row is scanned. */
  function Project(row: Row, s: Settings, loaded: set<Edge>): Row {
    if s.fields == [] then row
    else
      var columns := SelectedColumns(s, loaded);
      map c | c in columns && c in row :: row[c]
  }

  lemma {:induction false} ForeignKeysAdded(columns: seq<string>, es: seq<Edge>, loaded: set<Edge>, c: string)
    ensures c in AddForeignKeys(columns, es, loaded) <==>
      c in columns || exists e :: e in es && e in loaded && e.column == c
    decreases es
  {
    if es != [] {
      var more := if es[0] in loaded then AddOnce(columns, es[0].column) else columns;
      ForeignKeysAdded(more, es[1..], loaded, c);
      assert c in more <==> c in columns || (es[0] in loaded && es[0].column == c);
      assert forall e :: e in es <==> e == es[0] || e in es[1..];
    }
  }

  /** What is read of a row when columns are selected: these, the id, and the foreign keys of the edges to load; an
      unselected column is left out. */
  lemma ProjectIs(row: Row, s: Settings, loaded: set<Edge>)
    ensures s.fields == [] ==> Project(row, s, loaded) == row
    ensures forall c :: c in Project(row, s, loaded) ==> c in row && Project(row, s, loaded)[c] == row[c]
    ensures s.fields != [] ==> forall c :: c in Project(row, s, loaded) <==>
      c in row && (c in s.fields || (HasId(s.typ) && c == "id") ||
                   exists e :: e in ForeignKeyEdges(s.typ) && e in loaded && e.column == c)
  {
    var base := if HasId(s.typ) then ["id"] + Without(s.fields, "id") else s.fields;
    forall c
      ensures c in SelectedColumns(s, loaded) <==>
        c in s.fields || (HasId(s.typ) && c == "id") ||
        exists e :: e in ForeignKeyEdges(s.typ) && e in loaded && e.column == c
    {
      ForeignKeysAdded(base, ForeignKeyEdges(s.typ), loaded, c);
    }
    hide AddForeignKeys, Without, SelectedColumns, ForeignKeyEdges;
  }

  /** Whatever is selected, the id and the foreign key of every edge to load are read. */
  lemma ColumnsSuffice(row: Row, s: Settings, loaded: set<Edge>, e: Edge)
    ensures HasId(s.typ) ==> IdOf(Project(row, s, loaded)) == IdOf(row)
    ensures e in loaded && e in ForeignKeyEdges(s.typ) ==> FkOf(e, Project(row, s, loaded)) == FkOf(e, row)
    ensures s.fields == [] || e.column in s.fields ==> FkOf(e, Project(row, s, loaded)) == FkOf(e, row)
  {
  }

  // ---------------------------------------------------------------- loading one edge

  function Rows(db: Database, s: Settings): seq<Row> {
    Page(s.limit, s.offset, Filter(db.table(s.typ, s.order), (r: Row) => HoldsAll(s.predicates, r, None)))
  }

  /** What is read of the rows: the selected columns, the id and the foreign keys that the edges need. */
  function Read(db: Database, s: Settings, loaded: set<Edge>): (rows: seq<Row>)
    ensures |rows| == |Rows(db, s)|
    ensures forall i :: 0 <= i < |rows| ==> rows[i] == Project(Rows(db, s)[i], s, loaded)
  {
    var all := Rows(db, s);
    seq(|all|, i requires 0 <= i < |all| => Project(all[i], s, loaded))
  }

  function JoinRows(db: Database, s: Settings): seq<JoinRow> {
    Page(s.limit, s.offset, Filter(db.join(s.order), (j: JoinRow) => HoldsAll(s.predicates, j.row, Some(j.owner))))
  }

  /** The subquery's settings once a loader has restricted it to the keys of the nodes at hand. */
  function LoadSettings(e: Edge, s: Settings, keys: seq<int>): Settings {
    match e.kind
    case M2O => s.(predicates := s.predicates + [KeyIn("id", keys)])
    case O2M => s.(fields := if s.fields == [] then [] else AddOnce(s.fields, e.column),
                   predicates := s.predicates + [KeyIn(e.column, keys)])
    case M2M => s.(predicates := s.predicates + [JoinedTo(keys)])
  }

  /** The keys a loader collects from its nodes. */
  function KeysOf(e: Edge, rows: seq<Row>): seq<int> {
    if e.kind.M2O? then DistinctKeys(Fks(e, rows)) else Ids(rows)
  }

  /** Reading loses no key that the loaders go by: not the ids, not the foreign keys of edges to be loaded,
      not a foreign key that is selected. */
  lemma ReadKeepsKeys(db: Database, s: Settings, loaded: set<Edge>, e: Edge)
    ensures HasId(s.typ) ==> Ids(Read(db, s, loaded)) == Ids(Rows(db, s))
    ensures e in loaded && e in ForeignKeyEdges(s.typ) ==> Fks(e, Read(db, s, loaded)) == Fks(e, Rows(db, s))
    ensures s.fields == [] || e.column in s.fields ==> Fks(e, Read(db, s, loaded)) == Fks(e, Rows(db, s))
  {
    var rows, read := Rows(db, s), Read(db, s, loaded);
    forall i | 0 <= i < |rows|
      ensures HasId(s.typ) ==> Ids(read)[i] == Ids(rows)[i]
      ensures (e in loaded && e in ForeignKeyEdges(s.typ)) || s.fields == [] || e.column in s.fields ==>
          Fks(e, read)[i] == Fks(e, rows)[i]
    {
      ColumnsSuffice(rows[i], s, loaded, e);
    }
  }

  function Loaded(t: EntityType, present: set<Edge>): seq<bool> {
    var es := EdgesOf(t);
    seq(|es|, i requires 0 <= i < |es| => es[i] in present)
  }

  /** The first join row of every group, in order of appearance. */
  function FirstRows(join: seq<JoinRow>): (rows: seq<Row>)
    ensures DistinctIds(rows)
    ensures forall r :: r in rows ==> exists i :: 0 <= i < |join| && join[i].row == r
    ensures forall i :: 0 <= i < |join| ==> IdOf(join[i].row) in Ids(rows)
  {
    if join == [] then []
    else
      var rows := FirstRows(join[..|join| - 1]);
      var last := join[|join| - 1].row;
      if IdOf(last) in Ids(rows) then rows
      else
        assert Ids(rows + [last]) == Ids(rows) + [IdOf(last)];
        rows + [last]
  }

  predicate Linked(join: seq<JoinRow>, owner: int, group: int) {
    exists i :: 0 <= i < |join| && join[i].owner == owner && IdOf(join[i].row) == group
  }

  /** A scanned row before any edge is loaded. */
  function Bare(s: Settings, loaded: set<Edge>, row: Row): ObjectTree {
    ObjectTree(s.typ, Project(row, s, loaded), map[], map[], Loaded(s.typ, loaded))
  }

  function Bares(s: Settings, loaded: set<Edge>, rows: seq<Row>): (ts: seq<ObjectTree>)
    ensures |ts| == |rows| && forall i :: 0 <= i < |rows| ==> ts[i] == Bare(s, loaded, rows[i])
  {
    seq(|rows|, i requires 0 <= i < |rows| => Bare(s, loaded, rows[i]))
  }

  function Present<T>(found: map<Edge, Option<T>>): map<Edge, T> {
    map e | e in found && found[e].Some? :: found[e].value
  }

  /** The last of `xs` whose id is `fk`. */
  function LastMatch<T>(xs: seq<T>, ids: seq<int>, fk: Option<int>): Option<T>
    requires |xs| == |ids|
  {
    if fk.None? then None
    else
      match LastIndex(ids, fk.value)
      case None => None
      case Some(j) => Some(xs[j])
  }

  // ---------------------------------------------------------------- the batched meaning

  ghost function OneOf(db: Database, q: QueryTree, e: Edge, keys: seq<int>, fk: Option<int>): Option<ObjectTree>
    decreases q, 3
  {
    var s := LoadSettings(e, q.settings, keys);
    LastMatch(Batch(db, s, q.withs), Ids(Read(db, s, q.withs.of.Keys)), fk)
  }

  ghost function ListOf(db: Database, q: QueryTree, e: Edge, keys: seq<int>, id: int): seq<ObjectTree>
    decreases q, 3
  {
    var s := LoadSettings(e, q.settings, keys);
    if e.kind.M2M? then GroupsOf(db, q, e, keys, id)
    else PickKey(Batch(db, s, q.withs), Fks(e, Read(db, s, q.withs.of.Keys)), id)
  }

  ghost function GroupsOf(db: Database, q: QueryTree, e: Edge, keys: seq<int>, id: int): seq<ObjectTree> {
    var s := LoadSettings(e, q.settings, keys);
    var join := JoinRows(db, s);
    Bares(s, {}, Filter(FirstRows(join), (r: Row) => Linked(join, id, IdOf(r))))
  }

  ghost function Batch(db: Database, s: Settings, w: Subqueries): (ts: seq<ObjectTree>)
    ensures |ts| == |Rows(db, s)|
    decreases w, 2
  {
    var rows := Read(db, s, w.of.Keys);
    seq(|rows|, i requires 0 <= i < |rows| => BatchTree(db, s, w, rows, rows[i]))
  }

  ghost function BatchTree(db: Database, s: Settings, w: Subqueries, rows: seq<Row>, row: Row): ObjectTree
    decreases w, 1
  {
    ObjectTree(
      s.typ, row,
      Present(BatchSingles(db, w, rows, row)), BatchLists(db, w, rows, row),
      Loaded(s.typ, w.of.Keys))
  }

  ghost function BatchSingles(db: Database, w: Subqueries, rows: seq<Row>, row: Row): map<Edge, Option<ObjectTree>>
    decreases w, 0
  {
    map e | e in w.of && e.kind.M2O? :: OneOf(db, w.of[e], e, KeysOf(e, rows), FkOf(e, row))
  }

  ghost function BatchLists(db: Database, w: Subqueries, rows: seq<Row>, row: Row): map<Edge, ObjectList>
    decreases w, 0
  {
    map e | e in w.of && !e.kind.M2O? :: ObjectList(ListOf(db, w.of[e], e, KeysOf(e, rows), IdOf(row)))
  }

  // ---------------------------------------------------------------- the per-row meaning

  ghost function NaiveOne(db: Database, q: QueryTree, e: Edge, fk: Option<int>): Option<ObjectTree>
    decreases q, 4
  {
    if fk.None? then None
    else
      var found := Naive(db, LoadSettings(e, q.settings, [fk.value]), q.withs);
      if found == [] then None else Some(found[0])
  }

  ghost function NaiveList(db: Database, q: QueryTree, e: Edge, id: int): seq<ObjectTree>
    decreases q, 4
  {
    if e.kind.M2M? then NaiveGroups(db, q, e, id)
    else Naive(db, LoadSettings(e, q.settings, [id]), q.withs)
  }

  ghost function NaiveGroups(db: Database, q: QueryTree, e: Edge, id: int): (ts: seq<ObjectTree>)
    ensures |ts| == |JoinRows(db, LoadSettings(e, q.settings, [id]))|
  {
    var s := LoadSettings(e, q.settings, [id]);
    var join := JoinRows(db, s);
    seq(|join|, i requires 0 <= i < |join| => Bare(s, {}, join[i].row))
  }

  ghost function Naive(db: Database, s: Settings, w: Subqueries): seq<ObjectTree>
    decreases w, 3
  {
    NaiveTrees(db, s, w, Rows(db, s))
  }

  ghost function NaiveTrees(db: Database, s: Settings, w: Subqueries, rows: seq<Row>): (ts: seq<ObjectTree>)
    ensures |ts| == |rows|
    decreases w, 2
  {
    seq(|rows|, i requires 0 <= i < |rows| => NaiveTree(db, s, w, rows[i]))
  }

  ghost function NaiveTree(db: Database, s: Settings, w: Subqueries, row: Row): ObjectTree
    decreases w, 1
  {
    ObjectTree(
      s.typ, Project(row, s, w.of.Keys),
      Present(NaiveSingles(db, w, row)), NaiveLists(db, w, row),
      Loaded(s.typ, w.of.Keys))
  }

  ghost function NaiveSingles(db: Database, w: Subqueries, row: Row): map<Edge, Option<ObjectTree>>
    decreases w, 0
  {
    map e | e in w.of && e.kind.M2O? :: NaiveOne(db, w.of[e], e, FkOf(e, row))
  }

  ghost function NaiveLists(db: Database, w: Subqueries, row: Row): map<Edge, ObjectList>
    decreases w, 0
  {
    map e | e in w.of && !e.kind.M2O? :: ObjectList(NaiveList(db, w.of[e], e, IdOf(row)))
  }

  // ---------------------------------------------------------------- what a run leaves in the builders

  /** Loading an edge restricts the subquery it runs; a many-to-one edge without keys runs nothing. */
  ghost function AfterLoad(db: Database, q: QueryTree, e: Edge, keys: seq<int>): QueryTree
    decreases q, 1
  {
    if e.kind.M2O? && keys == [] then q
    else
      var s := LoadSettings(e, q.settings, keys);
      QueryTree(s, if e.kind.M2M? then q.withs else AfterRun(db, s, q.withs))
  }

  ghost function AfterRun(db: Database, s: Settings, w: Subqueries): Subqueries
    decreases w, 0
  {
    var rows := Read(db, s, w.of.Keys);
    if rows == [] then w
    else Subqueries(map e | e in w.of :: AfterLoad(db, w.of[e], e, KeysOf(e, rows)))
  }

  /** Every selected field, at every depth, is a column of the queried table. */
  ghost predicate FieldsValid(db: Database, q: QueryTree)
    decreases q
  {
    && (forall f :: f in q.settings.fields ==> f in db.columns(q.settings.typ))
    && (forall e :: e in q.withs.of ==> FieldsValid(db, q.withs.of[e]))
  }

  /** No builder asks for a row lock. */
  ghost predicate HoldsNoLock(q: QueryTree)
    decreases q
  {
    q.settings.modifiers == [] && forall e :: e in q.withs.of ==> HoldsNoLock(q.withs.of[e])
  }

  ghost predicate Unjoined(s: Settings) {
    forall p :: p in s.predicates ==> !p.JoinedTo?
  }

  /** No groups subquery has been run before: its join is added once. */
  ghost predicate NotYetJoined(w: Subqueries)
    decreases w
  {
    forall e :: e in w.of ==> (e.kind.M2M? ==> Unjoined(w.of[e].settings)) && NotYetJoined(w.of[e].withs)
  }

  // ---------------------------------------------------------------- a run with some edges loaded

  ghost function Only(w: Subqueries, done: set<Edge>): Subqueries {
    Subqueries(map e | e in w.of && e in done :: w.of[e])
  }

  ghost function PartTree(db: Database, s: Settings, w: Subqueries, rows: seq<Row>, row: Row,
                          done: set<Edge>): ObjectTree {
    ObjectTree(
      s.typ, row,
      Present(BatchSingles(db, Only(w, done), rows, row)), BatchLists(db, Only(w, done), rows, row),
      Loaded(s.typ, w.of.Keys))
  }

  ghost function PartTrees(db: Database, s: Settings, w: Subqueries, rows: seq<Row>,
                           done: set<Edge>): (ts: seq<ObjectTree>)
    ensures |ts| == |rows| && forall i :: 0 <= i < |rows| ==> ts[i] == PartTree(db, s, w, rows, rows[i], done)
  {
    seq(|rows|, i requires 0 <= i < |rows| => PartTree(db, s, w, rows, rows[i], done))
  }

  ghost function AfterSome(db: Database, w: Subqueries, rows: seq<Row>, done: set<Edge>): Subqueries {
    Subqueries(map e | e in w.of :: if e in done then AfterLoad(db, w.of[e], e, KeysOf(e, rows)) else w.of[e])
  }

  lemma PartStart(db: Database, s: Settings, w: Subqueries)
    ensures PartTrees(db, s, w, Read(db, s, w.of.Keys), {}) == Bares(s, w.of.Keys, Rows(db, s))
    ensures AfterSome(db, w, Read(db, s, w.of.Keys), {}) == w
  {
    var rows := Read(db, s, w.of.Keys);
    assert Only(w, {}).of == map[];
    forall i | 0 <= i < |rows|
      ensures PartTree(db, s, w, rows, rows[i], {}) == Bare(s, w.of.Keys, Rows(db, s)[i])
    {
      assert BatchSingles(db, Only(w, {}), rows, rows[i]) == map[];
      assert BatchLists(db, Only(w, {}), rows, rows[i]) == map[];
    }
    assert AfterSome(db, w, rows, {}).of == w.of;
  }

  lemma PartSkip(db: Database, s: Settings, w: Subqueries, rows: seq<Row>, done: set<Edge>, e: Edge)
    requires e !in w.of
    ensures PartTrees(db, s, w, rows, done + {e}) == PartTrees(db, s, w, rows, done)
    ensures AfterSome(db, w, rows, done + {e}) == AfterSome(db, w, rows, done)
  {
    assert Only(w, done + {e}) == Only(w, done);
    assert AfterSome(db, w, rows, done + {e}).of == AfterSome(db, w, rows, done).of;
  }

  lemma PresentWith<T>(found: map<Edge, Option<T>>, e: Edge, x: Option<T>)
    requires e !in found
    ensures Present(found[e := x]) == if x.None? then Present(found) else Present(found)[e := x.value]
  {
  }

  lemma PartSingle(db: Database, s: Settings, w: Subqueries, rows: seq<Row>, row: Row, done: set<Edge>, e: Edge)
    requires e in w.of && e !in done && e.kind.M2O?
    ensures
      var before := PartTree(db, s, w, rows, row, done);
      var one := OneOf(db, w.of[e], e, KeysOf(e, rows), FkOf(e, row));
      PartTree(db, s, w, rows, row, done + {e}) ==
        if one.None? then before else before.(single := before.single[e := one.value])
  {
    hide OneOf, ListOf, GroupsOf, KeysOf, FkOf, Batch, Project, Loaded;
    var w0, w1 := Only(w, done), Only(w, done + {e});
    var one := OneOf(db, w.of[e], e, KeysOf(e, rows), FkOf(e, row));
    assert BatchSingles(db, w1, rows, row) == BatchSingles(db, w0, rows, row)[e := one];
    PresentWith(BatchSingles(db, w0, rows, row), e, one);
    hide Present;
    assert BatchLists(db, w1, rows, row) == BatchLists(db, w0, rows, row);
  }

  lemma PartList(db: Database, s: Settings, w: Subqueries, rows: seq<Row>, row: Row, done: set<Edge>, e: Edge)
    requires e in w.of && e !in done && !e.kind.M2O?
    ensures
      var before := PartTree(db, s, w, rows, row, done);
      PartTree(db, s, w, rows, row, done + {e}) ==
        before.(lists := before.lists[e := ObjectList(ListOf(db, w.of[e], e, KeysOf(e, rows), IdOf(row)))])
  {
    hide OneOf, ListOf, GroupsOf, KeysOf, FkOf, Batch, Project, Loaded;
    var w0, w1 := Only(w, done), Only(w, done + {e});
    assert BatchSingles(db, w1, rows, row) == BatchSingles(db, w0, rows, row);
    assert BatchLists(db, w1, rows, row) ==
           BatchLists(db, w0, rows, row)[e := ObjectList(ListOf(db, w.of[e], e, KeysOf(e, rows), IdOf(row)))];
  }

  lemma PartEnd(db: Database, s: Settings, w: Subqueries, rows: seq<Row>, done: set<Edge>)
    requires w.of.Keys <= done && rows == Read(db, s, w.of.Keys) != []
    ensures PartTrees(db, s, w, rows, done) == Batch(db, s, w)
    ensures AfterSome(db, w, rows, done) == AfterRun(db, s, w)
  {
    assert Only(w, done).of == w.of;
    assert Only(w, done) == w;
    assert AfterSome(db, w, rows, done).of == AfterRun(db, s, w).of;
  }

  /** The subqueries are the ones the schema allows below a query on `t`. */
  ghost predicate WellFormed(t: EntityType, w: Subqueries)
    decreases w
  {
    forall e :: e in w.of ==>
      e in EdgesOf(t) && w.of[e].settings.typ == e.target && WellFormed(e.target, w.of[e].withs)
  }
}
