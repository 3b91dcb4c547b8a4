/** Tables, rows, the edges of the account schema and the predicates a query is made of. */
module Storage {
  import opened Collections

  datatype EntityType = AccountT | GroupT | ProxyT | UsageLogT | AccountGroupT

  datatype EdgeKind = M2M | M2O | O2M

  /** An edge of the schema. `column` is the foreign key it goes through: on the source row of a many-to-one
      edge, on the target row of a one-to-many edge. `nillable` says whether the entity holds that key as a
      pointer (nil for NULL) or as a plain integer. */
  datatype Edge = Edge(name: string, kind: EdgeKind, target: EntityType, column: string, nillable: bool)

  const GROUPS := Edge("groups", M2M, GroupT, "", false)
  const PROXY := Edge("proxy", M2O, ProxyT, "proxy_id", true)
  const PARENT := Edge("parent", M2O, AccountT, "parent_account_id", true)
  const CHILDREN := Edge("children", O2M, AccountT, "parent_account_id", true)
  const USAGE_LOGS := Edge("usage_logs", O2M, UsageLogT, "account_id", false)
  const ACCOUNT_GROUPS := Edge("account_groups", O2M, AccountGroupT, "account_id", false)
  const LINK_ACCOUNT := Edge("account", M2O, AccountT, "account_id", false)
  const LINK_GROUP := Edge("group", M2O, GroupT, "group_id", false)

  /** The edges of an entity type in the order in which its query loads them. The edges of groups,
      proxies and usage logs are not part of this model. */
  function EdgesOf(t: EntityType): (es: seq<Edge>)
    ensures NoDuplicates(es)
  {
    match t
    case AccountT => [GROUPS, PROXY, PARENT, CHILDREN, USAGE_LOGS, ACCOUNT_GROUPS]
    case AccountGroupT => [LINK_ACCOUNT, LINK_GROUP]
    case GroupT | ProxyT | UsageLogT => []
  }

  predicate SchemaEdge(e: Edge) {
    e in EdgesOf(AccountT) || e in EdgesOf(AccountGroupT)
  }

  predicate HasId(t: EntityType) {
    t != AccountGroupT
  }

  datatype Cell = Null | Int(n: int) | Text(s: string)

  type Row = map<string, Cell>

  function IntOf(row: Row, column: string): Option<int> {
    if column in row && row[column].Int? then Some(row[column].n) else None
  }

  /** The entity's id field; zero when the column was not read. */
  function IdOf(row: Row): int {
    match IntOf(row, "id") case Some(n) => n case None => 0
  }

  /** The foreign key an entity holds for an edge. */
  function FkOf(e: Edge, row: Row): Option<int> {
    match IntOf(row, e.column)
    case Some(n) => Some(n)
    case None => if e.nillable then None else Some(0)
  }

  /** A key that is NULL, or that was not read, is nil where the entity holds it as a pointer and zero otherwise. */
  lemma KeysHeld(e: Edge, row: Row)
    ensures
      if e.column in row && row[e.column].Int? then FkOf(e, row) == Some(row[e.column].n)
      else FkOf(e, row) == if e.nillable then None else Some(0)
    ensures IdOf(row) == if "id" in row && row["id"].Int? then row["id"].n else 0
  {
  }

  function Ids(rows: seq<Row>): (ids: seq<int>)
    ensures |ids| == |rows| && forall i :: 0 <= i < |rows| ==> ids[i] == IdOf(rows[i])
  {
    seq(|rows|, i requires 0 <= i < |rows| => IdOf(rows[i]))
  }

  function Fks(e: Edge, rows: seq<Row>): (fks: seq<Option<int>>)
    ensures |fks| == |rows| && forall i :: 0 <= i < |rows| ==> fks[i] == FkOf(e, rows[i])
  {
    seq(|rows|, i requires 0 <= i < |rows| => FkOf(e, rows[i]))
  }

  /** One row of the groups table joined with the link table: the account it is joined to. */
  datatype JoinRow = JoinRow(owner: int, row: Row)

  type OrderOption = int

  /** What the driver answers from. `table` is the rows of a table in a given order, `join` the rows of
      groups joined with account_groups in a given order, `columns` the columns a table has. */
  datatype Database = Database(
    table: (EntityType, seq<OrderOption>) -> seq<Row>,
    join: seq<OrderOption> -> seq<JoinRow>,
    columns: EntityType -> set<string>)

  ghost predicate DistinctIds(rows: seq<Row>) {
    forall i, j :: 0 <= i < j < |rows| ==> IdOf(rows[i]) != IdOf(rows[j])
  }

  lemma LastOfDistinct(rows: seq<Row>, i: nat)
    requires DistinctIds(rows) && i < |rows|
    ensures LastIndex(Ids(rows), Ids(rows)[i]) == Some(i)
  {
  }

  ghost predicate IdKeyed(rows: seq<Row>) {
    && (forall r :: r in rows ==> IntOf(r, "id").Some?)
    && DistinctIds(rows)
  }

  /** The primary keys hold: ids are unique, an (account, group) pair is joined once, and every join row
      of one group carries the same group row. */
  ghost predicate JoinKeyed(rows: seq<JoinRow>) {
    && (forall i :: 0 <= i < |rows| ==> IntOf(rows[i].row, "id").Some?)
    && (forall i, j :: 0 <= i < j < |rows| ==> rows[i].owner != rows[j].owner || IdOf(rows[i].row) != IdOf(rows[j].row))
    && (forall i, j :: 0 <= i < j < |rows| && IdOf(rows[i].row) == IdOf(rows[j].row) ==> rows[i].row == rows[j].row)
  }

  ghost predicate Sound(db: Database) {
    && (forall t, order :: HasId(t) ==> IdKeyed(db.table(t, order)))
    && (forall order :: JoinKeyed(db.join(order)))
    && (forall e :: SchemaEdge(e) && e.kind.O2M? ==> e.column in db.columns(e.target))
  }

  datatype Predicate =
    | Custom(holds: Row -> bool)
    | KeyIn(column: string, keys: seq<int>)
    | JoinedTo(owners: seq<int>)

  /** SQL truth of one predicate; NULL is in no key list, and a row that is not joined has no owner. */
  predicate Holds(p: Predicate, row: Row, owner: Option<int>) {
    match p
    case Custom(holds) => holds(row)
    case KeyIn(column, keys) => IntOf(row, column).Some? && IntOf(row, column).value in keys
    case JoinedTo(owners) => owner.Some? && owner.value in owners
  }

  predicate HoldsAll(ps: seq<Predicate>, row: Row, owner: Option<int>) {
    forall i :: 0 <= i < |ps| ==> Holds(ps[i], row, owner)
  }

  lemma HoldsAllPlus(ps: seq<Predicate>, p: Predicate, row: Row, owner: Option<int>)
    ensures HoldsAll(ps + [p], row, owner) <==> HoldsAll(ps, row, owner) && Holds(p, row, owner)
  {
    assert forall i :: 0 <= i < |ps| ==> (ps + [p])[i] == ps[i];
    assert (ps + [p])[|ps|] == p;
  }

  /** OFFSET, then LIMIT; the spec's limit and offset are plain integers, so zero means unset. */
  function Page<T>(limit: Option<nat>, offset: Option<nat>, xs: seq<T>): (ys: seq<T>)
    ensures forall y :: y in ys ==> y in xs
  {
    var skip := if offset.Some? then offset.value else 0;
    var rest := if skip <= |xs| then xs[skip..] else [];
    if limit.Some? && 0 < limit.value < |rest| then rest[..limit.value] else rest
  }
}
