/** The edge accessors, which read the fixed positions of `loadedTypes` that the query code fills. */
module Accessors {
  import opened Collections
  import opened Storage
  import opened QueryTrees
  import opened Entities

  datatype Access<+T> = Found(value: T) | NotFound(typeName: string) | NotLoaded(edge: string)

  /** A unique edge: a pointer that is not nil wins over the flag. */
  function UniqueOrErr(n: Entity, e: Edge, slot: nat, typeName: string): Access<Entity>
    requires slot < |n.loadedTypes|
    reads n
  {
    if e in n.single then Found(n.single[e])
    else if n.loadedTypes[slot] then NotFound(typeName)
    else NotLoaded(e.name)
  }

  function ListOrErr(n: Entity, e: Edge, slot: nat): Access<seq<Entity>>
    requires slot < |n.loadedTypes|
    reads n
  {
    if n.loadedTypes[slot] then Found(if e in n.lists then n.lists[e] else []) else NotLoaded(e.name)
  }

  function GroupsOrErr(n: Entity): Access<seq<Entity>>
    requires |n.loadedTypes| == 6
    reads n
  {
    ListOrErr(n, GROUPS, 0)
  }

  function ProxyOrErr(n: Entity): Access<Entity>
    requires |n.loadedTypes| == 6
    reads n
  {
    UniqueOrErr(n, PROXY, 1, "proxy")
  }

  function ParentOrErr(n: Entity): Access<Entity>
    requires |n.loadedTypes| == 6
    reads n
  {
    UniqueOrErr(n, PARENT, 2, "account")
  }

  function ChildrenOrErr(n: Entity): Access<seq<Entity>>
    requires |n.loadedTypes| == 6
    reads n
  {
    ListOrErr(n, CHILDREN, 3)
  }

  function UsageLogsOrErr(n: Entity): Access<seq<Entity>>
    requires |n.loadedTypes| == 6
    reads n
  {
    ListOrErr(n, USAGE_LOGS, 4)
  }

  function AccountGroupsOrErr(n: Entity): Access<seq<Entity>>
    requires |n.loadedTypes| == 6
    reads n
  {
    ListOrErr(n, ACCOUNT_GROUPS, 5)
  }

  function LinkAccountOrErr(n: Entity): Access<Entity>
    requires |n.loadedTypes| == 2
    reads n
  {
    UniqueOrErr(n, LINK_ACCOUNT, 0, "account")
  }

  function LinkGroupOrErr(n: Entity): Access<Entity>
    requires |n.loadedTypes| == 2
    reads n
  {
    UniqueOrErr(n, LINK_GROUP, 1, "group")
  }

  /** No row of the restricted subquery has the id that the row's foreign key names. */
  ghost predicate NoMatch(db: Database, w: Subqueries, rows: seq<Row>, row: Row, e: Edge)
    requires e in w.of
  {
    forall r :: r in Rows(db, LoadSettings(e, w.of[e].settings, KeysOf(e, rows))) ==> FkOf(e, row) != Some(IdOf(r))
  }

  /** What an accessor of a unique edge must answer for a node loaded by a query. */
  ghost predicate TellsOne(a: Access<Entity>, db: Database, w: Subqueries, rows: seq<Row>, row: Row, e: Edge,
                           edge: string, target: string)
    reads if a.Found? then {a.value} else {}
  {
    && (if e !in w.of then a == NotLoaded(edge) else !a.NotLoaded?)
    && (if e in w.of && NoMatch(db, w, rows, row, e) then a == NotFound(target) else !a.NotFound?)
    && (a.Found? ==> Some(a.value.view) == OneOf(db, w.of[e], e, KeysOf(e, rows), FkOf(e, row)))
  }

  ghost predicate TellsMany(a: Access<seq<Entity>>, db: Database, w: Subqueries, rows: seq<Row>, row: Row, e: Edge,
                            edge: string)
    reads if a.Found? then a.value else []
  {
    && (if e !in w.of then a == NotLoaded(edge) else a.Found?)
    && (a.Found? ==> Views(a.value) == ListOf(db, w.of[e], e, KeysOf(e, rows), IdOf(row)))
  }

  lemma NoMatchIsNone(db: Database, w: Subqueries, rows: seq<Row>, row: Row, e: Edge)
    requires e in w.of && HasId(w.of[e].settings.typ)
    ensures OneOf(db, w.of[e], e, KeysOf(e, rows), FkOf(e, row)).None? <==> NoMatch(db, w, rows, row, e)
  {
    var q := w.of[e];
    var s := LoadSettings(e, q.settings, KeysOf(e, rows));
    ReadKeepsKeys(db, s, q.withs.of.Keys, e);
    hide Read, Rows, KeysOf;
    forall r | r in Rows(db, s)
      ensures IdOf(r) in Ids(Rows(db, s))
    {
      var i :| 0 <= i < |Rows(db, s)| && Rows(db, s)[i] == r;
      assert Ids(Rows(db, s))[i] == IdOf(r);
    }
  }

  lemma TargetHasId(t: EntityType, w: Subqueries, e: Edge)
    requires WellFormed(t, w) && e in w.of && e.kind.M2O?
    ensures HasId(w.of[e].settings.typ)
  {
    assert e in EdgesOf(t) && w.of[e].settings.typ == e.target;
    hide WellFormed;
  }

  lemma UniqueTells(db: Database, s: Settings, w: Subqueries, rows: seq<Row>, row: Row, n: Entity, e: Edge,
                    slot: nat, typeName: string)
    requires n.Ok() && n.view == BatchTree(db, s, w, rows, row) && WellFormed(s.typ, w)
    requires slot < |EdgesOf(s.typ)| && EdgesOf(s.typ)[slot] == e && e.kind.M2O?
    ensures |n.loadedTypes| == |EdgesOf(s.typ)|
    ensures TellsOne(UniqueOrErr(n, e, slot, typeName), db, w, rows, row, e, e.name, typeName)
  {
    hide OneOf, ListOf, KeysOf, NoMatch, WellFormed;
    if e in w.of {
      TargetHasId(s.typ, w, e);
      NoMatchIsNone(db, w, rows, row, e);
    }
    assert n.view.single.Keys == n.single.Keys;
    assert n.view.single == Present(BatchSingles(db, w, rows, row));
    assert e in n.single <==> e in w.of && OneOf(db, w.of[e], e, KeysOf(e, rows), FkOf(e, row)).Some?;
  }

  lemma ListTells(db: Database, s: Settings, w: Subqueries, rows: seq<Row>, row: Row, n: Entity, e: Edge, slot: nat)
    requires n.Ok() && n.view == BatchTree(db, s, w, rows, row) && WellFormed(s.typ, w)
    requires slot < |EdgesOf(s.typ)| && EdgesOf(s.typ)[slot] == e && !e.kind.M2O?
    ensures |n.loadedTypes| == |EdgesOf(s.typ)|
    ensures TellsMany(ListOrErr(n, e, slot), db, w, rows, row, e, e.name)
  {
  }

  /** The positions the accessors read are the positions the query fills: an accessor of a loaded account
      reports "not loaded" exactly when its subquery was absent, a unique one "not found" exactly when it
      was loaded and no row matched, and otherwise answers the loaded neighbors. */
  lemma AccountAccessorsTell(db: Database, s: Settings, w: Subqueries, rows: seq<Row>, row: Row, n: Entity)
    requires s.typ == AccountT && WellFormed(s.typ, w) && n.Ok() && n.view == BatchTree(db, s, w, rows, row)
    ensures |n.loadedTypes| == 6
    ensures TellsMany(GroupsOrErr(n), db, w, rows, row, GROUPS, "groups")
    ensures TellsOne(ProxyOrErr(n), db, w, rows, row, PROXY, "proxy", "proxy")
    ensures TellsOne(ParentOrErr(n), db, w, rows, row, PARENT, "parent", "account")
    ensures TellsMany(ChildrenOrErr(n), db, w, rows, row, CHILDREN, "children")
    ensures TellsMany(UsageLogsOrErr(n), db, w, rows, row, USAGE_LOGS, "usage_logs")
    ensures TellsMany(AccountGroupsOrErr(n), db, w, rows, row, ACCOUNT_GROUPS, "account_groups")
  {
    hide TellsOne, TellsMany, BatchTree, Entity.Ok, WellFormed;
    ListTells(db, s, w, rows, row, n, GROUPS, 0);
    UniqueTells(db, s, w, rows, row, n, PROXY, 1, "proxy");
    UniqueTells(db, s, w, rows, row, n, PARENT, 2, "account");
    ListTells(db, s, w, rows, row, n, CHILDREN, 3);
    ListTells(db, s, w, rows, row, n, USAGE_LOGS, 4);
    ListTells(db, s, w, rows, row, n, ACCOUNT_GROUPS, 5);
  }

  lemma LinkAccessorsTell(db: Database, s: Settings, w: Subqueries, rows: seq<Row>, row: Row, n: Entity)
    requires s.typ == AccountGroupT && WellFormed(s.typ, w) && n.Ok() && n.view == BatchTree(db, s, w, rows, row)
    ensures |n.loadedTypes| == 2
    ensures TellsOne(LinkAccountOrErr(n), db, w, rows, row, LINK_ACCOUNT, "account", "account")
    ensures TellsOne(LinkGroupOrErr(n), db, w, rows, row, LINK_GROUP, "group", "group")
  {
    hide TellsOne, BatchTree, Entity.Ok, WellFormed;
    UniqueTells(db, s, w, rows, row, n, LINK_ACCOUNT, 0, "account");
    UniqueTells(db, s, w, rows, row, n, LINK_GROUP, 1, "group");
  }
}
