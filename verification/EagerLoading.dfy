/** The loaders as they run on builder objects: a subquery builder is restricted in place and run, and its
    results are spread over the nodes. */
module EagerLoading {
  import opened Builders
  import opened Collections
  import opened EagerEqualsNaive
  import opened Entities
  import opened Limits
  import opened Logs
  import opened Slices
  import opened Spreading
  import opened Storage
  import opened Tables
  import opened QueryTrees

  /** Answers queries from a fixed database and keeps a log of them; `fails` says which of them fail. */
  class Driver {
    const db: Database
    const fails: nat -> bool
    var log: seq<Sent>

    constructor (db: Database, fails: nat -> bool)
      ensures this.db == db && this.fails == fails && log == []
    {
      this.db, this.fails, log := db, fails, [];
    }

    /** The row locks that the queries so far have taken. */
    function Locks(): seq<RowLock>
      reads this
    {
      LocksOf(db, fails, log)
    }

    method QueryNodes(s: Settings) returns (r: Result<seq<Row>, LoadError>)
      modifies this
      ensures log == old(log) + [Nodes(s)]
      ensures r == if fails(|old(log)|) then Err(DriverFailure) else Ok(Rows(db, s))
    {
      r := if fails(|log|) then Err(DriverFailure) else Ok(Rows(db, s));
      log := log + [Nodes(s)];
    }

    method QueryJoin(s: Settings) returns (r: Result<seq<JoinRow>, LoadError>)
      modifies this
      ensures log == old(log) + [Join(s)]
      ensures r == if fails(|old(log)|) then Err(DriverFailure) else Ok(JoinRows(db, s))
    {
      r := if fails(|log|) then Err(DriverFailure) else Ok(JoinRows(db, s));
      log := log + [Join(s)];
    }
  }

  /** The errors a run may end with: a failing query, or a selected field that is no column. */
  ghost predicate Explained(error: LoadError, drv: Driver, from: nat, to: nat, q: QueryTree) {
    || (error.DriverFailure? && exists k :: from <= k < to && drv.fails(k))
    || (error.InvalidField? && !FieldsValid(drv.db, q))
  }

  /** How loading an edge fails: with an error that is explained, and the subquery left restricted. */
  ghost predicate EdgeFailed(error: LoadError, drv: Driver, from: nat, to: nat, q: QueryTree, e: Edge, keys: seq<int>,
                             left: QueryTree) {
    Explained(error, drv, from, to, q) && EdgeStopped(drv.db, drv.fails, from, q, e, keys, left)
  }

  /** A subquery as the loader of its edge finds it. */
  ghost predicate Loadable(db: Database, e: Edge, q: QueryTree) {
    && SchemaEdge(e) && q.settings.typ == e.target && (e.kind.O2M? || HasId(e.target))
    && Sound(db) && WellFormed(e.target, q.withs) && NotYetJoined(q.withs)
    && (e.kind.M2M? ==> Unjoined(q.settings))
  }

  /** Nodes that are no builder objects. */
  ghost predicate Clear(drv: Driver, nodes: seq<Entity>, G: set<Entity>, objects: set<object>) {
    drv !in objects && (forall n :: n in nodes ==> n !in objects) && (forall n :: n in G ==> n !in objects)
  }

  /** Nodes being filled in, which are no builder objects and hold what is said. */
  ghost predicate Resting(drv: Driver, e: Edge, nodes: seq<Entity>, G: set<Entity>, objects: set<object>,
                          fks: seq<Option<int>>, ids: seq<int>, views: seq<ObjectTree>)
    reads nodes, G
  {
    && Ready(nodes, G) && Clear(drv, nodes, G, objects)
    && fks == NodeFks(e, nodes) && ids == NodeIds(nodes) && views == Views(nodes)
  }

  lemma RestApart(drv: Driver, e: Edge, nodes: seq<Entity>, G: set<Entity>, objects: set<object>,
                  fks: seq<Option<int>>, ids: seq<int>, views: seq<ObjectTree>)
    requires Resting(drv, e, nodes, G, objects, fks, ids, views)
    ensures drv !in objects && (forall n :: n in nodes ==> n !in objects) && (forall n :: n in G ==> n !in objects)
  {
  }

  lemma RestGrows(drv: Driver, e: Edge, nodes: seq<Entity>, G: set<Entity>, more: set<Entity>,
                  was: set<object>, objects: set<object>, fks: seq<Option<int>>, ids: seq<int>, views: seq<ObjectTree>)
    requires Resting(drv, e, nodes, G, was, fks, ids, views) && Clear(drv, [], more, objects)
    requires forall n :: n in nodes ==> n !in objects && n !in more
    requires forall n :: n in G ==> n !in objects
    ensures Resting(drv, e, nodes, G + more, objects, fks, ids, views)
  {
    ReadyGrows(nodes, G, more);
  }

  /** The keys that a restricted subquery reads are keys it was restricted to. */
  lemma RowsCarryKeys(db: Database, e: Edge, q: QueryTree, keys: seq<int>)
    requires HasId(q.settings.typ) || !e.kind.M2O?
    ensures
      var s := LoadSettings(e, q.settings, keys);
      var rows, ts := Read(db, s, q.withs.of.Keys), Batch(db, s, q.withs);
      forall j :: 0 <= j < |rows| ==>
        && ts[j].fields == rows[j]
        && (e.kind.M2O? ==> Ids(rows)[j] in keys)
        && (e.kind.O2M? ==> OwnedBy(Fks(e, rows), keys, j))
  {
    var s := LoadSettings(e, q.settings, keys);
    var rows, read := Rows(db, s), Read(db, s, q.withs.of.Keys);
    ReadKeepsKeys(db, s, q.withs.of.Keys, e);
    forall j | 0 <= j < |read|
      ensures Batch(db, s, q.withs)[j].fields == read[j]
      ensures e.kind.M2O? ==> Ids(read)[j] in keys
      ensures e.kind.O2M? ==> OwnedBy(Fks(e, read), keys, j)
    {
      assert e.kind.M2O? ==> Ids(read)[j] == IdOf(rows[j]);
      assert e.kind.O2M? ==> Fks(e, read)[j] == FkOf(e, rows[j]);
      assert rows[j] in rows;
      assert s.predicates == q.settings.predicates + [s.predicates[|q.settings.predicates|]];
      HoldsAllPlus(q.settings.predicates, s.predicates[|q.settings.predicates|], rows[j], None);
    }
  }

  // ---------------------------------------------------------------- the subquery of one edge

  lemma AfterLoadRuns(db: Database, q: QueryTree, e: Edge, keys: seq<int>)
    requires !e.kind.M2M? && (keys != [] || !e.kind.M2O?)
    ensures
      var s := LoadSettings(e, q.settings, keys);
      && AfterLoad(db, q, e, keys) == QueryTree(s, AfterRun(db, s, q.withs))
      && LogLoad(db, q, e, keys) == LogOf(db, s, q.withs)
  {
  }

  lemma SubqueryFails(error: LoadError, drv: Driver, from: nat, to: nat, q: QueryTree, e: Edge, keys: seq<int>,
                      left: QueryTree)
    requires !e.kind.M2M? && (keys != [] || !e.kind.M2O?) && Explained(error, drv, from, to, q)
    requires
      var s := LoadSettings(e, q.settings, keys);
      left.settings == s && Stopped(drv.db, drv.fails, from, s, q.withs, left.withs)
    ensures EdgeFailed(error, drv, from, to, q, e, keys, left)
  {
    hide Stopped, Explained;
  }

  lemma RestrictionKeepsFields(db: Database, e: Edge, q: QueryTree, keys: seq<int>)
    requires Sound(db) && SchemaEdge(e) && q.settings.typ == e.target && FieldsValid(db, q)
    ensures FieldsValid(db, QueryTree(LoadSettings(e, q.settings, keys), q.withs))
  {
  }

  lemma RestrictionIsPlain(drv: Driver, e: Edge, q: QueryTree, keys: seq<int>)
    requires Loadable(drv.db, e, q)
    ensures
      var u := QueryTree(LoadSettings(e, q.settings, keys), q.withs);
      && (forall error: LoadError, from: nat, to: nat ::
            Explained(error, drv, from, to, u) ==> Explained(error, drv, from, to, q))
      && u.settings.typ == q.settings.typ
      && WellFormed(u.settings.typ, q.withs) && NotYetJoined(q.withs) && Sound(drv.db)
  {
    if FieldsValid(drv.db, q) {
      RestrictionKeepsFields(drv.db, e, q, keys);
    }
  }

  /** Restricts a builder to the collected keys, in place. */
  method Restrict(e: Edge, b: Query, keys: seq<int>, ghost q: QueryTree)
    requires !e.kind.M2M? && b.Valid() && q == b.tree
    modifies b.repr
    ensures b.Valid() && fresh(b.repr - old(b.repr))
    ensures b.tree == QueryTree(LoadSettings(e, q.settings, keys), q.withs)
  {
    b.OwnPart();
    hide Query.Valid, Contents;
    if e.kind.O2M? {
      b.AppendFieldOnce(e.column);
    }
    b.Where([KeyIn(if e.kind.M2O? then "id" else e.column, keys)]);
  }

  /** Restricts a subquery builder to the collected keys and runs it. */
  method RunRestricted(drv: Driver, e: Edge, b: Query, keys: seq<int>, ghost q: QueryTree)
    returns (found: Result<seq<Entity>, LoadError>, ghost G: set<Entity>)
    requires !e.kind.M2M? && Loadable(drv.db, e, q) && b.Valid() && q == b.tree && drv !in b.repr
    modifies drv, b.repr
    ensures
      var s := LoadSettings(e, q.settings, keys);
      && Follows(drv.db, drv.fails, old(drv.log), drv.log, LogOf(drv.db, s, q.withs), found.Ok?)
      && b.tree.settings == s && (found.Err? ==> Stopped(drv.db, drv.fails, |old(drv.log)|, s, q.withs, b.tree.withs))
    ensures b.Valid() && fresh(b.repr - old(b.repr)) && fresh(G) && Closed(G) && Clear(drv, [], G, b.repr)
    ensures found.Err? ==> Explained(found.error, drv, |old(drv.log)|, |drv.log|, q)
    ensures found.Ok? ==>
      var s := LoadSettings(e, q.settings, keys);
      && (forall n :: n in found.value ==> n in G)
      && Views(found.value) == Batch(drv.db, s, q.withs)
      && b.tree == QueryTree(s, AfterRun(drv.db, s, q.withs))
    decreases q, 3
  {
    hide *;
    RestrictionIsPlain(drv, e, q, keys);
    Restrict(e, b, keys, q);
    found, G := All(drv, b, LoadSettings(e, q.settings, keys), q.withs);
  }

  lemma LoadableTyped(db: Database, e: Edge, q: QueryTree)
    requires Loadable(db, e, q)
    ensures q.settings.typ == e.target && (HasId(e.target) || e.kind.O2M?)
  {
  }

  lemma FoundAll(db: Database, e: Edge, q: QueryTree, keys: seq<int>, found: seq<Entity>, G: set<Entity>)
    requires !e.kind.M2M? && Loadable(db, e, q) && Closed(G) && (keys != [] || !e.kind.M2O?)
    requires (forall n :: n in found ==> n in G)
        && Views(found) == Batch(db, LoadSettings(e, q.settings, keys), q.withs)
    ensures Fetched(db, e, q, keys, found, G)
  {
    LoadableTyped(db, e, q);
    RowsCarryKeys(db, e, q, keys);
    ViewedFields(G, found);
    hide LoadSettings, Batch, Read, Closed, Loadable, IdOf, FkOf;
    var s := LoadSettings(e, q.settings, keys);
    var rows := Read(db, s, q.withs.of.Keys);
    forall j | 0 <= j < |found|
      ensures found[j].fields == rows[j]
    {
    }
    assert NodeIds(found) == Ids(rows) && NodeFks(e, found) == Fks(e, rows);
  }

  /** Runs the subquery on the keys; a many-to-one edge without keys runs nothing. */
  method Fetch(drv: Driver, e: Edge, b: Query, keys: seq<int>, ghost q: QueryTree)
    returns (found: Result<seq<Entity>, LoadError>, ghost G: set<Entity>)
    requires !e.kind.M2M? && Loadable(drv.db, e, q) && b.Valid() && q == b.tree && drv !in b.repr
    modifies drv, b.repr
    ensures Follows(drv.db, drv.fails, old(drv.log), drv.log, LogLoad(drv.db, q, e, keys), found.Ok?)
    ensures b.Valid() && fresh(b.repr - old(b.repr)) && fresh(G) && Closed(G) && Clear(drv, [], G, b.repr)
    ensures found.Err? ==> EdgeFailed(found.error, drv, |old(drv.log)|, |drv.log|, q, e, keys, b.tree)
    ensures found.Ok? ==> b.tree == AfterLoad(drv.db, q, e, keys) && Fetched(drv.db, e, q, keys, found.value, G)
    decreases q, 4
  {
    if e.kind.M2O? && |keys| == 0 {
      NothingFetched(drv, e, q, b.repr);
      NothingAsked(drv, e, q, drv.log);
      hide *;
      found, G := Ok([]), {};
    } else {
      AfterLoadRuns(drv.db, q, e, keys);
      hide *;
      ghost var from := |drv.log|;
      found, G := RunRestricted(drv, e, b, keys, q);
      if found.Ok? {
        FoundAll(drv.db, e, q, keys, found.value, G);
      } else {
        SubqueryFails(found.error, drv, from, |drv.log|, q, e, keys, b.tree);
      }
    }
  }

  lemma NothingFetched(drv: Driver, e: Edge, q: QueryTree, objects: set<object>)
    requires e.kind.M2O? && Loadable(drv.db, e, q) && drv !in objects
    ensures AfterLoad(drv.db, q, e, []) == q && Fetched(drv.db, e, q, [], [], {}) && Clear(drv, [], {}, objects)
  {
  }

  lemma NothingAsked(drv: Driver, e: Edge, q: QueryTree, log: seq<Sent>)
    requires e.kind.M2O?
    ensures Follows(drv.db, drv.fails, log, log, LogLoad(drv.db, q, e, []), true)
  {
    assert LogLoad(drv.db, q, e, []) == [];
    hide LogLoad;
    NothingSent(drv.db, drv.fails, log);
  }

  /** Runs the subquery while the nodes rest. */
  method FetchBeside(drv: Driver, e: Edge, b: Query, keys: seq<int>, ghost q: QueryTree, nodes: seq<Entity>,
                     ghost fks: seq<Option<int>>, ghost ids: seq<int>, ghost views: seq<ObjectTree>,
                     ghost G0: set<Entity>)
    returns (found: Result<seq<Entity>, LoadError>, ghost G: set<Entity>)
    requires !e.kind.M2M? && Loadable(drv.db, e, q) && b.Valid() && q == b.tree
    requires Resting(drv, e, nodes, G0, b.repr, fks, ids, views)
    modifies drv, b.repr
    ensures Follows(drv.db, drv.fails, old(drv.log), drv.log, LogLoad(drv.db, q, e, keys), found.Ok?)
    ensures b.Valid() && fresh(b.repr - old(b.repr)) && fresh(G) && Closed(G)
    ensures Resting(drv, e, nodes, G0 + G, b.repr, fks, ids, views)
    ensures found.Err? ==> EdgeFailed(found.error, drv, |old(drv.log)|, |drv.log|, q, e, keys, b.tree)
    ensures found.Ok? ==> b.tree == AfterLoad(drv.db, q, e, keys) && Fetched(drv.db, e, q, keys, found.value, G)
    decreases q, 5
  {
    hide *;
    ghost var objects := b.repr;
    RestApart(drv, e, nodes, G0, objects, fks, ids, views);
    found, G := Fetch(drv, e, b, keys, q);
    RestGrows(drv, e, nodes, G0, G, objects, b.repr, fks, ids, views);
  }

  lemma RestParts(drv: Driver, e: Edge, nodes: seq<Entity>, G: set<Entity>, objects: set<object>,
                  fks: seq<Option<int>>, ids: seq<int>, views: seq<ObjectTree>)
    requires Resting(drv, e, nodes, G, objects, fks, ids, views)
    ensures Ready(nodes, G) && Clear(drv, nodes, G, objects) && |fks| == |ids| == |views| == |nodes|
    ensures fks == NodeFks(e, nodes) && ids == NodeIds(nodes) && views == Views(nodes)
  {
  }

  /** Loads a many-to-one edge of the nodes. */
  method LoadM2O(drv: Driver, e: Edge, b: Query, nodes: seq<Entity>, ghost q: QueryTree,
                 ghost fks: seq<Option<int>>, ghost ids: seq<int>, ghost before: seq<ObjectTree>, ghost G0: set<Entity>)
    returns (ghost G: set<Entity>, r: Outcome)
    requires e.kind.M2O? && Loadable(drv.db, e, q) && b.Valid() && q == b.tree
    requires Resting(drv, e, nodes, G0, b.repr, fks, ids, before)
    modifies drv, nodes, b.repr
    ensures Follows(drv.db, drv.fails, old(drv.log), drv.log, LogLoad(drv.db, q, e, DistinctKeys(fks)), r.Pass?)
    ensures b.Valid() && fresh(b.repr - old(b.repr)) && fresh(G) && Closed(G)
    ensures Ready(nodes, G0 + G) && Clear(drv, nodes, G0 + G, b.repr)
    ensures r.Fail? ==> EdgeFailed(r.error, drv, |old(drv.log)|, |drv.log|, q, e, DistinctKeys(fks), b.tree)
    ensures r.Pass? ==>
      && b.tree == AfterLoad(drv.db, q, e, DistinctKeys(fks))
      && SinglesLoaded(drv.db, q, e, DistinctKeys(fks), fks, before, Views(nodes))
    decreases q, 6
  {
    hide *;
    RestParts(drv, e, nodes, G0, b.repr, fks, ids, before);
    var keys, nodeids := CollectKeys(e, nodes);
    var found;
    found, G := FetchBeside(drv, e, b, keys, q, nodes, fks, ids, before, G0);
    RestParts(drv, e, nodes, G0 + G, b.repr, fks, ids, before);
    if found.Err? {
      return G, Fail(found.error);
    }
    RestApart(drv, e, nodes, G0 + G, b.repr, fks, ids, before);
    r := FinishM2O(e, nodes, nodeids, keys, found.value, drv.db, q, fks, before, G, G0 + G);
  }

  lemma RestNow(drv: Driver, e: Edge, nodes: seq<Entity>, G: set<Entity>, objects: set<object>)
    requires Ready(nodes, G) && Clear(drv, nodes, G, objects)
    ensures Resting(drv, e, nodes, G, objects, NodeFks(e, nodes), NodeIds(nodes), Views(nodes))
  {
  }

  /** Loads a one-to-many edge of the nodes. */
  method LoadO2M(drv: Driver, e: Edge, b: Query, nodes: seq<Entity>, ghost q: QueryTree,
                 ghost fks: seq<Option<int>>, ghost ids: seq<int>, ghost before: seq<ObjectTree>, ghost G0: set<Entity>)
    returns (ghost G: set<Entity>, r: Outcome)
    requires e.kind.O2M? && Loadable(drv.db, e, q) && b.Valid() && q == b.tree
    requires Resting(drv, e, nodes, G0, b.repr, fks, ids, before)
    modifies drv, nodes, b.repr
    ensures Follows(drv.db, drv.fails, old(drv.log), drv.log, LogLoad(drv.db, q, e, ids), r.Pass?)
    ensures b.Valid() && fresh(b.repr - old(b.repr)) && fresh(G) && Closed(G)
    ensures Ready(nodes, G0 + G) && Clear(drv, nodes, G0 + G, b.repr)
    ensures r.Fail? ==> EdgeFailed(r.error, drv, |old(drv.log)|, |drv.log|, q, e, ids, b.tree)
    ensures r.Pass? ==>
      && b.tree == AfterLoad(drv.db, q, e, ids)
      && ListsLoaded(drv.db, q, e, ids, before, Views(nodes))
    decreases q, 6
  {
    hide *;
    RestParts(drv, e, nodes, G0, b.repr, fks, ids, before);
    RestApart(drv, e, nodes, G0, b.repr, fks, ids, before);
    var keys, byID := CollectNodes(e, nodes, before, G0);
    RestNow(drv, e, nodes, G0, b.repr);
    ghost var fks1, ids1, views1 := NodeFks(e, nodes), NodeIds(nodes), Views(nodes);
    var found;
    found, G := FetchBeside(drv, e, b, keys, q, nodes, fks1, ids1, views1, G0);
    RestParts(drv, e, nodes, G0 + G, b.repr, fks1, ids1, views1);
    if found.Err? {
      return G, Fail(found.error);
    }
    RestApart(drv, e, nodes, G0 + G, b.repr, fks1, ids1, views1);
    r := FinishO2M(e, nodes, byID, found.value, drv.db, q, ids, before, G, G0 + G);
  }

  // ---------------------------------------------------------------- the groups of an account

  /** The first selected field that is no column of the table. */
  method InvalidFieldOf(drv: Driver, s: Settings) returns (bad: Option<string>)
    ensures bad.Some? ==> bad.value in s.fields && bad.value !in drv.db.columns(s.typ)
    ensures bad.None? ==> forall f :: f in s.fields ==> f in drv.db.columns(s.typ)
  {
    for i := 0 to |s.fields|
      invariant forall k :: 0 <= k < i ==> s.fields[k] in drv.db.columns(s.typ)
    {
      if s.fields[i] !in drv.db.columns(s.typ) {
        return Some(s.fields[i]);
      }
    }
    bad := None;
  }

  lemma JoinOwners(db: Database, e: Edge, s: Settings, ids: seq<int>)
    requires e.kind.M2M?
    ensures forall j :: j in JoinRows(db, LoadSettings(e, s, ids)) ==> j.owner in ids
  {
    forall j | j in JoinRows(db, LoadSettings(e, s, ids))
      ensures j.owner in ids
    {
      HoldsAllPlus(s.predicates, JoinedTo(ids), j.row, Some(j.owner));
    }
  }

  lemma JoinFacts(db: Database, e: Edge, q: QueryTree, ids: seq<int>)
    requires e.kind.M2M?
    ensures
      var s := q.settings.(predicates := q.settings.predicates + [JoinedTo(ids)]);
      && s == LoadSettings(e, q.settings, ids)
      && WithSettings(q, s) == AfterLoad(db, q, e, ids) && WithSettings(q, s).settings == s
      && LogLoad(db, q, e, ids) == [Join(s)]
      && forall j :: j in JoinRows(db, s) ==> j.owner in ids
  {
    JoinOwners(db, e, q.settings, ids);
  }

  lemma JoinFails(error: LoadError, drv: Driver, from: nat, to: nat, q: QueryTree, e: Edge, keys: seq<int>)
    requires e.kind.M2M? && Explained(error, drv, from, to, q)
    ensures EdgeFailed(error, drv, from, to, q, e, keys, AfterLoad(drv.db, q, e, keys))
  {
    hide Explained;
  }

  lemma OneQuery(drv: Driver, q: QueryTree, log: seq<Sent>, sent: Sent)
    requires Selectable(drv.db, sent.s)
    ensures Follows(drv.db, drv.fails, log, log + [sent], [sent], !drv.fails(|log|))
    ensures drv.fails(|log|) ==> Explained(DriverFailure, drv, |log|, |log + [sent]|, q)
  {
    OneSent(drv.db, drv.fails, log, sent);
  }

  lemma BadField(drv: Driver, q: QueryTree, f: string, from: nat, to: nat)
    requires f in q.settings.fields && f !in drv.db.columns(q.settings.typ)
    ensures Explained(InvalidField(f), drv, from, to, q)
  {
  }

  /** Joins the groups with the nodes' links and runs the query. */
  method FetchM2M(drv: Driver, e: Edge, b: Query, ids: seq<int>, ghost q: QueryTree)
    returns (found: Result<seq<JoinRow>, LoadError>, s: Settings)
    requires e.kind.M2M? && b.Valid() && q == b.tree && drv !in b.repr
    modifies drv, b.repr
    ensures Follows(drv.db, drv.fails, old(drv.log), drv.log, LogLoad(drv.db, q, e, ids), found.Ok?)
    ensures b.Valid() && fresh(b.repr - old(b.repr))
    ensures b.tree == AfterLoad(drv.db, q, e, ids) && s == LoadSettings(e, q.settings, ids)
    ensures found.Err? ==> EdgeFailed(found.error, drv, |old(drv.log)|, |drv.log|, q, e, ids, b.tree)
    ensures found.Ok? ==> found.value == JoinRows(drv.db, s) && forall j :: j in found.value ==> j.owner in ids
  {
    hide *;
    b.OwnPart();
    JoinFacts(drv.db, e, q, ids);
    ghost var log := drv.log;
    b.Where([JoinedTo(ids)]);
    b.OwnIsHeld();
    s := b.Own();
    var bad := InvalidFieldOf(drv, s);
    FieldsKnown(drv.db, s, bad);
    if bad.Some? {
      BadField(drv, q, bad.value, |log|, |log|);
      CannotBeSent(drv.db, drv.fails, log, [Join(s)]);
      JoinFails(InvalidField(bad.value), drv, |log|, |log|, q, e, ids);
      return Err(InvalidField(bad.value)), s;
    }
    OneQuery(drv, q, log, Join(s));
    found := drv.QueryJoin(s);
    if found.Err? {
      JoinFails(found.error, drv, |log|, |drv.log|, q, e, ids);
    }
  }

  method JoinBeside(drv: Driver, e: Edge, b: Query, keys: seq<int>, ghost q: QueryTree, nodes: seq<Entity>,
                    ghost G0: set<Entity>, ghost views: seq<ObjectTree>)
    returns (found: Result<seq<JoinRow>, LoadError>, s: Settings)
    requires e.kind.M2M? && b.Valid() && q == b.tree && Ready(nodes, G0) && views == Views(nodes)
    requires Clear(drv, nodes, G0, b.repr)
    modifies drv, b.repr
    ensures Follows(drv.db, drv.fails, old(drv.log), drv.log, LogLoad(drv.db, q, e, keys), found.Ok?)
    ensures b.Valid() && fresh(b.repr - old(b.repr))
    ensures Ready(nodes, G0) && views == Views(nodes) && Clear(drv, nodes, G0, b.repr)
    ensures b.tree == AfterLoad(drv.db, q, e, keys) && s == LoadSettings(e, q.settings, keys)
    ensures found.Err? ==> EdgeFailed(found.error, drv, |old(drv.log)|, |drv.log|, q, e, keys, b.tree)
    ensures found.Ok? ==> found.value == JoinRows(drv.db, s) && forall j :: j in found.value ==> j.owner in keys
  {
    hide *;
    ghost var objects := b.repr;
    ghost var fks, ids := NodeFks(e, nodes), NodeIds(nodes);
    RestNow(drv, e, nodes, G0, objects);
    RestApart(drv, e, nodes, G0, objects, fks, ids, views);
    found, s := FetchM2M(drv, e, b, keys, q);
    RestMoves(drv, e, nodes, G0, objects, b.repr, fks, ids, views);
  }

  lemma RestMoves(drv: Driver, e: Edge, nodes: seq<Entity>, G: set<Entity>, was: set<object>, objects: set<object>,
                  fks: seq<Option<int>>, ids: seq<int>, views: seq<ObjectTree>)
    requires Resting(drv, e, nodes, G, was, fks, ids, views) && drv !in objects
    requires (forall n :: n in nodes ==> n !in objects) && (forall n :: n in G ==> n !in objects)
    ensures Ready(nodes, G) && views == Views(nodes) && Clear(drv, nodes, G, objects)
  {
  }

  /** Loads the groups of the nodes. */
  method LoadM2M(drv: Driver, e: Edge, b: Query, nodes: seq<Entity>, ghost q: QueryTree,
                 ghost fks: seq<Option<int>>, ghost ids: seq<int>, ghost before: seq<ObjectTree>, ghost G0: set<Entity>)
    returns (ghost G: set<Entity>, r: Outcome)
    requires e.kind.M2M? && Loadable(drv.db, e, q) && b.Valid() && q == b.tree
    requires Resting(drv, e, nodes, G0, b.repr, fks, ids, before)
    modifies drv, nodes, b.repr
    ensures Follows(drv.db, drv.fails, old(drv.log), drv.log, LogLoad(drv.db, q, e, ids), r.Pass?)
    ensures b.Valid() && fresh(b.repr - old(b.repr)) && fresh(G) && Closed(G)
    ensures Ready(nodes, G0 + G) && Clear(drv, nodes, G0 + G, b.repr)
    ensures r.Fail? ==> EdgeFailed(r.error, drv, |old(drv.log)|, |drv.log|, q, e, ids, b.tree)
    ensures r.Pass? ==>
      && b.tree == AfterLoad(drv.db, q, e, ids)
      && ListsLoaded(drv.db, q, e, ids, before, Views(nodes))
    decreases q, 6
  {
    hide *;
    LoadableTyped(drv.db, e, q);
    TypOfLoadSettings(e, q.settings, ids);
    RestParts(drv, e, nodes, G0, b.repr, fks, ids, before);
    RestApart(drv, e, nodes, G0, b.repr, fks, ids, before);
    var keys, byID := CollectNodes(e, nodes, before, G0);
    var found, s := JoinBeside(drv, e, b, keys, q, nodes, G0, Views(nodes));
    if found.Err? {
      G := NoEntities(nodes, G0);
      ClearMore(drv, nodes, G0, G, b.repr);
      return G, Fail(found.error);
    }
    ClearApart(drv, nodes, G0, b.repr);
    r, G := FinishM2M(e, nodes, byID, s, found.value, ids, before, G0);
    ClearMore(drv, nodes, G0, G, b.repr);
    GroupsAreLoaded(drv.db, q, e, ids, before, Views(nodes));
  }

  lemma ClearApart(drv: Driver, nodes: seq<Entity>, G: set<Entity>, objects: set<object>)
    requires Clear(drv, nodes, G, objects)
    ensures drv !in objects && (forall n :: n in nodes ==> n !in objects) && (forall n :: n in G ==> n !in objects)
  {
  }

  lemma ClearMore(drv: Driver, nodes: seq<Entity>, G: set<Entity>, more: set<Entity>, objects: set<object>)
    requires Clear(drv, nodes, G, objects) && forall n :: n in more ==> n !in objects
    ensures Clear(drv, nodes, G + more, objects)
  {
  }

  // ---------------------------------------------------------------- one query with its edges

  /** The nodes carry what was read of their rows. */
  lemma NodesCarryKeys(db: Database, s: Settings, w: Subqueries, rows: seq<Row>, done: set<Edge>, e: Edge,
                       nodes: seq<Entity>, G: set<Entity>)
    requires Ready(nodes, G) && Views(nodes) == PartTrees(db, s, w, rows, done)
    ensures NodeFks(e, nodes) == Fks(e, rows) && NodeIds(nodes) == Ids(rows)
  {
    hide IdOf, FkOf, NoDuplicates;
    forall i | 0 <= i < |nodes|
      ensures nodes[i].fields == rows[i]
    {
      assert nodes[i] in nodes && nodes[i].view == PartTree(db, s, w, rows, rows[i], done);
    }
  }

  lemma SinglesStep(db: Database, s: Settings, w: Subqueries, rows: seq<Row>, done: set<Edge>, e: Edge,
                    after: seq<ObjectTree>)
    requires e in w.of && e !in done && e.kind.M2O?
    requires
      var before := PartTrees(db, s, w, rows, done);
      SinglesLoaded(db, w.of[e], e, DistinctKeys(Fks(e, rows)), Fks(e, rows), before, after)
    ensures after == PartTrees(db, s, w, rows, done + {e})
  {
    forall i | 0 <= i < |rows|
      ensures after[i] == PartTree(db, s, w, rows, rows[i], done + {e})
    {
      PartSingle(db, s, w, rows, rows[i], done, e);
    }
  }

  lemma ListsStep(db: Database, s: Settings, w: Subqueries, rows: seq<Row>, done: set<Edge>, e: Edge,
                  after: seq<ObjectTree>)
    requires e in w.of && e !in done && !e.kind.M2O? && DistinctIds(rows)
    requires ListsLoaded(db, w.of[e], e, Ids(rows), PartTrees(db, s, w, rows, done), after)
    ensures after == PartTrees(db, s, w, rows, done + {e})
  {
    hide ListOf, PartTree, Batch, LastIndex;
    forall i | 0 <= i < |rows|
      ensures after[i] == PartTree(db, s, w, rows, rows[i], done + {e})
    {
      LastOfDistinct(rows, i);
      PartList(db, s, w, rows, rows[i], done, e);
    }
  }

  /** A query whose edges are being loaded. */
  ghost predicate Loading(db: Database, s: Settings, w: Subqueries, rows: seq<Row>) {
    && Sound(db) && WellFormed(s.typ, w) && NotYetJoined(w)
    && (HasId(s.typ) ==> DistinctIds(rows))
  }

  lemma EdgeFacts(db: Database, s: Settings, w: Subqueries, rows: seq<Row>, e: Edge)
    requires Loading(db, s, w, rows) && e in w.of
    ensures e in EdgesOf(s.typ) && Loadable(db, e, w.of[e]) && (e.kind.M2O? || DistinctIds(rows))
    ensures KeysOf(e, rows) == if e.kind.M2O? then DistinctKeys(Fks(e, rows)) else Ids(rows)
  {
  }

  /** Loads one edge of the nodes through its subquery. */
  method LoadEdge(drv: Driver, e: Edge, b: Query, nodes: seq<Entity>, ghost s: Settings, ghost w: Subqueries,
                  ghost rows: seq<Row>, ghost done: set<Edge>, ghost G0: set<Entity>)
    returns (ghost G: set<Entity>, r: Outcome)
    requires Loading(drv.db, s, w, rows) && e in w.of && e !in done && b.Valid() && b.tree == w.of[e]
    requires Ready(nodes, G0) && Clear(drv, nodes, G0, b.repr) && Views(nodes) == PartTrees(drv.db, s, w, rows, done)
    modifies drv, nodes, b.repr
    ensures Follows(drv.db, drv.fails, old(drv.log), drv.log, LogLoad(drv.db, w.of[e], e, KeysOf(e, rows)), r.Pass?)
    ensures b.Valid() && fresh(b.repr - old(b.repr)) && fresh(G) && Closed(G)
    ensures Ready(nodes, G0 + G) && Clear(drv, nodes, G0 + G, b.repr)
    ensures r.Fail? ==>
      EdgeFailed(r.error, drv, |old(drv.log)|, |drv.log|, w.of[e], e, KeysOf(e, rows), b.tree)
    ensures r.Pass? ==>
      && b.tree == AfterLoad(drv.db, w.of[e], e, KeysOf(e, rows))
      && Views(nodes) == PartTrees(drv.db, s, w, rows, done + {e})
    decreases w.of[e], 7
  {
    hide *;
    ghost var fks, ids, before := NodeFks(e, nodes), NodeIds(nodes), Views(nodes);
    NodesCarryKeys(drv.db, s, w, rows, done, e, nodes, G0);
    EdgeFacts(drv.db, s, w, rows, e);
    RestNow(drv, e, nodes, G0, b.repr);
    match e.kind {
      case M2O =>
        G, r := LoadM2O(drv, e, b, nodes, w.of[e], fks, ids, before, G0);
        if r.Pass? { SinglesStep(drv.db, s, w, rows, done, e, Views(nodes)); }
      case O2M =>
        G, r := LoadO2M(drv, e, b, nodes, w.of[e], fks, ids, before, G0);
        if r.Pass? { ListsStep(drv.db, s, w, rows, done, e, Views(nodes)); }
      case M2M =>
        G, r := LoadM2M(drv, e, b, nodes, w.of[e], fks, ids, before, G0);
        if r.Pass? { ListsStep(drv.db, s, w, rows, done, e, Views(nodes)); }
    }
  }

  lemma BuilderFacts(b: Query, db: Database, s: Settings, w: Subqueries, rows: seq<Row>, done: set<Edge>, e: Edge)
    requires b.Valid() && b.tree == QueryTree(s, AfterSome(db, w, rows, done)) && e !in done
    ensures b.typ == s.typ && (e in b.withs <==> e in w.of)
    ensures e in w.of ==> e in b.tree.withs.of && b.tree.withs.of[e] == w.of[e]
  {
  }

  lemma AfterOneMore(db: Database, s: Settings, w: Subqueries, rows: seq<Row>, done: set<Edge>, e: Edge, sub: QueryTree)
    requires e in w.of
    ensures
      var before := QueryTree(s, AfterSome(db, w, rows, done));
      && WithSubquery(before, e, sub).settings == s
      && WithSubquery(before, e, AfterLoad(db, w.of[e], e, KeysOf(e, rows))) ==
           QueryTree(s, AfterSome(db, w, rows, done + {e}))
      && LogNext(db, w, rows, e) == LogLoad(db, w.of[e], e, KeysOf(e, rows))
  {
    hide LogLoad, AfterLoad, KeysOf;
    assert AfterSome(db, w, rows, done + {e}).of ==
      AfterSome(db, w, rows, done).of[e := AfterLoad(db, w.of[e], e, KeysOf(e, rows))];
  }

  lemma OneMoreFails(error: LoadError, drv: Driver, from: nat, to: nat, s: Settings, w: Subqueries, rows: seq<Row>,
                     done: set<Edge>, e: Edge, sub: QueryTree)
    requires e in w.of && EdgeFailed(error, drv, from, to, w.of[e], e, KeysOf(e, rows), sub)
    ensures
      var before := QueryTree(s, AfterSome(drv.db, w, rows, done));
      StoppedIn(drv.db, drv.fails, from, w, rows, done, e, WithSubquery(before, e, sub).withs)
    ensures Explained(error, drv, from, to, w.of[e])
  {
    hide EdgeStopped, AfterLoad, KeysOf, Explained;
  }

  lemma NothingNext(drv: Driver, w: Subqueries, rows: seq<Row>, e: Edge, log: seq<Sent>)
    requires e !in w.of
    ensures Follows(drv.db, drv.fails, log, log, LogNext(drv.db, w, rows, e), true)
  {
  }

  lemma ClosedTogether(G: set<Entity>, more: set<Entity>)
    requires Closed(G) && Closed(more)
    ensures Closed(G + more)
  {
  }

  /** Loads an edge of the nodes if the builder has a subquery for it. */
  method LoadNext(drv: Driver, e: Edge, b: Query, nodes: seq<Entity>, ghost s: Settings, ghost w: Subqueries,
                  ghost rows: seq<Row>, ghost done: set<Edge>, ghost G0: set<Entity>)
    returns (ghost G: set<Entity>, r: Outcome)
    requires Loading(drv.db, s, w, rows) && e !in done && Closed(G0) && Ready(nodes, G0)
    requires b.Valid() && b.tree == QueryTree(s, AfterSome(drv.db, w, rows, done))
    requires Clear(drv, nodes, G0, b.repr) && Views(nodes) == PartTrees(drv.db, s, w, rows, done)
    modifies drv, nodes, b.repr
    ensures Follows(drv.db, drv.fails, old(drv.log), drv.log, LogNext(drv.db, w, rows, e), r.Pass?)
    ensures b.Valid() && fresh(b.repr - old(b.repr)) && fresh(G - G0) && Closed(G)
    ensures Ready(nodes, G) && Clear(drv, nodes, G, b.repr) && b.tree.settings == s
    ensures r.Fail? ==>
      && e in w.of && Explained(r.error, drv, |old(drv.log)|, |drv.log|, w.of[e])
      && StoppedIn(drv.db, drv.fails, |old(drv.log)|, w, rows, done, e, b.tree.withs)
    ensures r.Pass? ==>
      && b.tree == QueryTree(s, AfterSome(drv.db, w, rows, done + {e}))
      && Views(nodes) == PartTrees(drv.db, s, w, rows, done + {e})
    decreases w, 1
  {
    hide *;
    BuilderFacts(b, drv.db, s, w, rows, done, e);
    if e !in b.withs {
      PartSkip(drv.db, s, w, rows, done, e);
      NothingNext(drv, w, rows, e, drv.log);
      return G0, Pass;
    }
    ReadyApart(nodes, G0);
    ClearApart(drv, nodes, G0, b.repr);
    ghost var more, from;
    from := |drv.log|;
    more, r := LoadSub(drv, e, b, nodes, s, w, rows, done, G0);
    AfterOneMore(drv.db, s, w, rows, done, e, b.withs[e].tree);
    if r.Fail? {
      OneMoreFails(r.error, drv, from, |drv.log|, s, w, rows, done, e, b.withs[e].tree);
    }
    G := G0 + more;
    ClosedTogether(G0, more);
  }

  /** Takes a subquery builder out of its builder, loads its edge and puts it back. */
  method LoadSub(drv: Driver, e: Edge, b: Query, nodes: seq<Entity>, ghost s: Settings, ghost w: Subqueries,
                 ghost rows: seq<Row>, ghost done: set<Edge>, ghost G0: set<Entity>)
    returns (ghost G: set<Entity>, r: Outcome)
    requires Loading(drv.db, s, w, rows) && e in w.of && e !in done && Ready(nodes, G0)
    requires b.Valid() && e in b.withs && e in b.tree.withs.of && b.tree.withs.of[e] == w.of[e]
    requires Clear(drv, nodes, G0, b.repr) && Views(nodes) == PartTrees(drv.db, s, w, rows, done)
    modifies drv, nodes, b.repr
    ensures Follows(drv.db, drv.fails, old(drv.log), drv.log, LogLoad(drv.db, w.of[e], e, KeysOf(e, rows)), r.Pass?)
    ensures b.Valid() && fresh(b.repr - old(b.repr)) && fresh(G) && Closed(G) && b.withs == old(b.withs)
    ensures b.tree == WithSubquery(old(b.tree), e, b.withs[e].tree)
    ensures Ready(nodes, G0 + G) && Clear(drv, nodes, G0 + G, b.repr)
    ensures r.Fail? ==>
      EdgeFailed(r.error, drv, |old(drv.log)|, |drv.log|, w.of[e], e, KeysOf(e, rows), b.withs[e].tree)
    ensures r.Pass? ==>
      && b.withs[e].tree == AfterLoad(drv.db, w.of[e], e, KeysOf(e, rows))
      && Views(nodes) == PartTrees(drv.db, s, w, rows, done + {e})
    decreases w, 0
  {
    hide *;
    ghost var others := b.Split(e);
    ClearApart(drv, nodes, G0, b.repr);
    ClearLess(drv, nodes, G0, b.repr, b.withs[e].repr);
    G, r := LoadEdge(drv, e, b.withs[e], nodes, s, w, rows, done, G0);
    b.Rejoin(e, b.withs[e], others);
    ClearBoth(drv, nodes, G0, G, b.own + others, b.withs[e].repr);
  }

  lemma ClearLess(drv: Driver, nodes: seq<Entity>, G: set<Entity>, objects: set<object>, some: set<object>)
    requires Clear(drv, nodes, G, objects) && some <= objects
    ensures Clear(drv, nodes, G, some)
  {
  }

  lemma ClearBoth(drv: Driver, nodes: seq<Entity>, G: set<Entity>, more: set<Entity>, some: set<object>,
                  others: set<object>)
    requires Clear(drv, nodes, G + more, others) && drv !in some
    requires (forall n :: n in nodes ==> n !in some) && (forall n :: n in G ==> n !in some)
    requires forall n :: n in more ==> n !in some
    ensures Clear(drv, nodes, G + more, some + others)
  {
  }

  lemma ExplainedBelow(error: LoadError, drv: Driver, from: nat, to: nat, s: Settings, w: Subqueries, e: Edge)
    requires e in w.of && Explained(error, drv, from, to, w.of[e])
    ensures Explained(error, drv, from, to, QueryTree(s, w))
  {
  }

  lemma ExplainedLonger(error: LoadError, drv: Driver, from: nat, from': nat, to: nat, q: QueryTree)
    requires Explained(error, drv, from', to, q) && from <= from'
    ensures Explained(error, drv, from, to, q)
  {
  }

  lemma Reached(es: seq<Edge>, k: nat)
    requires k < |es| && NoDuplicates(es)
    ensures es[k] in es && es[k] !in es[..k]
    ensures es[..k + 1] == es[..k] + [es[k]]
  {
  }

  /** A run that stops at the k-th edge has sent what a successful run sends first. */
  lemma StopsAt(drv: Driver, s: Settings, w: Subqueries, w': Subqueries, rows: seq<Row>, done: set<Edge>, k: nat,
                before: seq<Sent>, log: seq<Sent>, after: seq<Sent>)
    requires k < |EdgesOf(s.typ)| && rows == Read(drv.db, s, w.of.Keys) != []
    requires forall e :: e in done <==> e in EdgesOf(s.typ)[..k]
    requires Follows(drv.db, drv.fails, before, log, LogBelow(drv.db, w, rows, EdgesOf(s.typ)[..k]), true)
    requires StoppedIn(drv.db, drv.fails, |log|, w, rows, done, EdgesOf(s.typ)[k], w')
    requires Follows(drv.db, drv.fails, before, after, LogBelow(drv.db, w, rows, EdgesOf(s.typ)[..k + 1]), false)
    ensures StoppedBelow(drv.db, drv.fails, |before|, s, w, w')
    ensures Follows(drv.db, drv.fails, before, after, LogBelow(drv.db, w, rows, EdgesOf(s.typ)), false)
  {
    hide *;
    var es := EdgesOf(s.typ);
    LogWithin(drv.db, w, rows, es, k + 1);
    FollowsWithin(drv.db, drv.fails, before, after, LogBelow(drv.db, w, rows, es[..k + 1]),
                  LogBelow(drv.db, w, rows, es));
    FollowsLonger(drv.db, drv.fails, before, log, LogBelow(drv.db, w, rows, es[..k]));
    StopsHere(drv.db, drv.fails, |before|, s, w, w', k, rows, done, |log|);
  }

  lemma NothingBelow(drv: Driver, w: Subqueries, rows: seq<Row>, log: seq<Sent>)
    ensures Follows(drv.db, drv.fails, log, log, LogBelow(drv.db, w, rows, []), true)
  {
  }

  lemma FollowsLonger(db: Database, fails: nat -> bool, before: seq<Sent>, after: seq<Sent>, whole: seq<Sent>)
    requires Follows(db, fails, before, after, whole, true)
    ensures |after| == |before| + |whole|
  {
  }

  lemma LoadingStarts(db: Database, s: Settings, w: Subqueries)
    requires Loading(db, s, w, Read(db, s, w.of.Keys))
    ensures w.of.Keys <= (set e | e in EdgesOf(s.typ)) && NoDuplicates(EdgesOf(s.typ))
    ensures Closed({})
  {
  }

  /** Loads every requested edge of the scanned nodes, in the order of the schema. */
  method LoadEdges(drv: Driver, b: Query, nodes: seq<Entity>, ghost s: Settings, ghost w: Subqueries,
                   ghost rows: seq<Row>)
    returns (r: Outcome, ghost G: set<Entity>, ghost done: set<Edge>)
    requires rows == Read(drv.db, s, w.of.Keys) != [] && Loading(drv.db, s, w, rows)
    requires b.Valid() && b.tree == QueryTree(s, w) && b.typ == s.typ
    requires Ready(nodes, {}) && Clear(drv, nodes, {}, b.repr) && Views(nodes) == Bares(s, w.of.Keys, Rows(drv.db, s))
    modifies drv, nodes, b.repr
    ensures Follows(drv.db, drv.fails, old(drv.log), drv.log, LogBelow(drv.db, w, rows, EdgesOf(s.typ)), r.Pass?)
    ensures b.Valid() && fresh(b.repr - old(b.repr)) && fresh(G) && Closed(G)
    ensures Ready(nodes, G) && Clear(drv, nodes, G, b.repr) && b.tree.settings == s
    ensures r.Fail? ==>
      && Explained(r.error, drv, |old(drv.log)|, |drv.log|, QueryTree(s, w))
      && StoppedBelow(drv.db, drv.fails, |old(drv.log)|, s, w, b.tree.withs)
    ensures r.Pass? ==>
      && w.of.Keys <= done
      && b.tree == QueryTree(s, AfterSome(drv.db, w, rows, done))
      && Views(nodes) == PartTrees(drv.db, s, w, rows, done)
    decreases w, 2
  {
    hide *;
    var es := EdgesOf(b.typ);
    r, G, done := Pass, {}, {};
    PartStart(drv.db, s, w);
    LoadingStarts(drv.db, s, w);
    NothingBelow(drv, w, rows, drv.log);
    assert es[..0] == [];
    for k := 0 to |es|
      invariant forall e :: e in done <==> e in es[..k]
      invariant Follows(drv.db, drv.fails, old(drv.log), drv.log, LogBelow(drv.db, w, rows, es[..k]), true)
      invariant b.Valid() && fresh(b.repr - old(b.repr)) && fresh(G) && Closed(G)
      invariant Ready(nodes, G) && Clear(drv, nodes, G, b.repr) && r.Pass?
      invariant b.tree == QueryTree(s, AfterSome(drv.db, w, rows, done))
      invariant Views(nodes) == PartTrees(drv.db, s, w, rows, done)
    {
      var e := es[k];
      Reached(es, k);
      ghost var log := drv.log;
      G, r := LoadNext(drv, e, b, nodes, s, w, rows, done, G);
      LogStep(drv.db, w, rows, es, k);
      FollowsThen(drv.db, drv.fails, old(drv.log), log, drv.log, LogBelow(drv.db, w, rows, es[..k]),
                  LogNext(drv.db, w, rows, e), r.Pass?);
      if r.Fail? {
        StopsAt(drv, s, w, b.tree.withs, rows, done, k, old(drv.log), log, drv.log);
        FollowsLonger(drv.db, drv.fails, old(drv.log), log, LogBelow(drv.db, w, rows, es[..k]));
        ExplainedBelow(r.error, drv, |log|, |drv.log|, s, w, e);
        ExplainedLonger(r.error, drv, |old(drv.log)|, |log|, |drv.log|, QueryTree(s, w));
        return;
      }
      done := done + {e};
    }
    assert es[..|es|] == es;
  }

  lemma PageKeepsDistinctIds(limit: Option<nat>, offset: Option<nat>, rows: seq<Row>)
    requires DistinctIds(rows)
    ensures DistinctIds(Page(limit, offset, rows))
  {
  }

  lemma RowsDistinct(db: Database, s: Settings)
    requires Sound(db) && HasId(s.typ)
    ensures DistinctIds(Rows(db, s))
  {
    assert IdKeyed(db.table(s.typ, s.order));
    var keep := (r: Row) => HoldsAll(s.predicates, r, None);
    FilterKeepsDistinctIds(db.table(s.typ, s.order), keep);
    PageKeepsDistinctIds(s.limit, s.offset, Filter(db.table(s.typ, s.order), keep));
  }

  lemma StartLoading(db: Database, s: Settings, w: Subqueries)
    requires Sound(db) && WellFormed(s.typ, w) && NotYetJoined(w)
    ensures Loading(db, s, w, Read(db, s, w.of.Keys)) && Closed({})
  {
    if HasId(s.typ) {
      var rows, read := Rows(db, s), Read(db, s, w.of.Keys);
      RowsDistinct(db, s);
      ReadKeepsKeys(db, s, w.of.Keys, PROXY);
      hide *;
      SameIdsDistinct(rows, read);
    }
  }

  lemma SameIdsDistinct(rows: seq<Row>, read: seq<Row>)
    requires DistinctIds(rows) && Ids(read) == Ids(rows)
    ensures DistinctIds(read)
  {
    assert forall i :: 0 <= i < |rows| ==> IdOf(read[i]) == Ids(read)[i] == Ids(rows)[i] == IdOf(rows[i]);
  }

  lemma NothingToRun(db: Database, s: Settings, w: Subqueries)
    requires Rows(db, s) == []
    ensures Batch(db, s, w) == [] && AfterRun(db, s, w) == w && LogOf(db, s, w) == [Nodes(s)]
  {
  }

  lemma ScannedReady(drv: Driver, nodes: seq<Entity>, objects: set<object>)
    requires NoDuplicates(nodes) && forall n :: n in nodes ==> n.targets == {} && n.Ok()
    requires drv !in objects && forall n :: n in nodes ==> n !in objects
    ensures Ready(nodes, {}) && Clear(drv, nodes, {}, objects)
  {
  }

  lemma NoneClear(drv: Driver, objects: set<object>)
    requires drv !in objects
    ensures Clear(drv, [], {}, objects)
  {
  }

  lemma AllClear(drv: Driver, nodes: seq<Entity>, G: set<Entity>, all: set<Entity>, objects: set<object>)
    requires Clear(drv, nodes, G, objects) && forall n :: n in all <==> n in G || n in nodes
    ensures Clear(drv, [], all, objects)
  {
  }

  lemma FieldsKnown(db: Database, s: Settings, bad: Option<string>)
    requires bad.Some? ==> bad.value in s.fields && bad.value !in db.columns(s.typ)
    requires bad.None? ==> forall f :: f in s.fields ==> f in db.columns(s.typ)
    ensures Selectable(db, s) <==> bad.None?
  {
  }

  lemma RootSent(drv: Driver, s: Settings, w: Subqueries, log: seq<Sent>)
    ensures !Selectable(drv.db, s) ==> Follows(drv.db, drv.fails, log, log, LogOf(drv.db, s, w), false)
    ensures Selectable(drv.db, s) && drv.fails(|log|) ==>
      Follows(drv.db, drv.fails, log, log + [Nodes(s)], LogOf(drv.db, s, w), false)
    ensures drv.fails(|log|) || !Selectable(drv.db, s) ==> Stopped(drv.db, drv.fails, |log|, s, w, w)
  {
    var whole := LogOf(drv.db, s, w);
    assert [Nodes(s)] <= whole;
    hide LogOf, Follows, Selectable;
    if !Selectable(drv.db, s) {
      CannotBeSent(drv.db, drv.fails, log, whole);
    } else if drv.fails(|log|) {
      OneSent(drv.db, drv.fails, log, Nodes(s));
      FollowsWithin(drv.db, drv.fails, log, log + [Nodes(s)], [Nodes(s)], whole);
    }
  }

  lemma RootStops(drv: Driver, s: Settings, w: Subqueries, w': Subqueries, n: nat)
    requires Selectable(drv.db, s) && !drv.fails(n) && StoppedBelow(drv.db, drv.fails, n + 1, s, w, w')
    ensures Stopped(drv.db, drv.fails, n, s, w, w')
  {
  }

  lemma RootThen(drv: Driver, s: Settings, w: Subqueries, log: seq<Sent>, after: seq<Sent>, ok: bool)
    requires Selectable(drv.db, s) && !drv.fails(|log|) && Read(drv.db, s, w.of.Keys) != []
    requires
      var below := LogBelow(drv.db, w, Read(drv.db, s, w.of.Keys), EdgesOf(s.typ));
      Follows(drv.db, drv.fails, log + [Nodes(s)], after, below, ok)
    ensures Follows(drv.db, drv.fails, log, after, LogOf(drv.db, s, w), ok)
  {
    hide LogBelow, Read, Follows;
    OneSent(drv.db, drv.fails, log, Nodes(s));
    FollowsThen(drv.db, drv.fails, log, log + [Nodes(s)], after, [Nodes(s)],
                LogBelow(drv.db, w, Read(drv.db, s, w.of.Keys), EdgesOf(s.typ)), ok);
  }

  lemma TreeParts(b: Query, s: Settings, w: Subqueries)
    requires b.Valid() && b.tree == QueryTree(s, w)
    ensures b.typ == s.typ && b.withs.Keys == w.of.Keys
  {
  }

  /** Runs a query and loads its edges. */
  method All(drv: Driver, b: Query, ghost s: Settings, ghost w: Subqueries)
    returns (r: Result<seq<Entity>, LoadError>, ghost G: set<Entity>)
    requires b.Valid() && b.tree == QueryTree(s, w) && drv !in b.repr
    requires Sound(drv.db) && WellFormed(s.typ, w) && NotYetJoined(w)
    modifies drv, b.repr
    ensures Follows(drv.db, drv.fails, old(drv.log), drv.log, LogOf(drv.db, s, w), r.Ok?)
    ensures b.Valid() && fresh(b.repr - old(b.repr)) && fresh(G) && Closed(G) && Clear(drv, [], G, b.repr)
    ensures b.tree.settings == s
    ensures r.Err? ==>
      && Explained(r.error, drv, |old(drv.log)|, |drv.log|, QueryTree(s, w))
      && Stopped(drv.db, drv.fails, |old(drv.log)|, s, w, b.tree.withs)
    ensures r.Ok? ==>
      && NoDuplicates(r.value) && (forall n :: n in r.value ==> n in G)
      && Views(r.value) == Batch(drv.db, s, w)
      && b.tree == QueryTree(s, AfterRun(drv.db, s, w))
    decreases w, 3
  {
    hide *;
    ghost var log, q := drv.log, QueryTree(s, w);
    b.OwnIsHeld();
    TreeParts(b, s, w);
    StartLoading(drv.db, s, w);
    NoneClear(drv, b.repr);
    RootSent(drv, s, w, log);
    G := {};
    var own := b.Own();
    var bad := InvalidFieldOf(drv, own);
    FieldsKnown(drv.db, s, bad);
    if bad.Some? {
      BadField(drv, q, bad.value, |log|, |log|);
      return Err(InvalidField(bad.value)), G;
    }
    OneQuery(drv, q, log, Nodes(s));
    var found := drv.QueryNodes(own);
    if found.Err? {
      return Err(found.error), G;
    }
    var nodes := Scan(own, b.withs.Keys, found.value);
    if |nodes| == 0 {
      NothingToRun(drv.db, s, w);
      return Ok([]), G;
    }
    ScannedReady(drv, nodes, b.repr);
    var loaded;
    ghost var rows, done := Read(drv.db, s, w.of.Keys), {};
    loaded, G, done := LoadEdges(drv, b, nodes, s, w, rows);
    RootThen(drv, s, w, log, drv.log, loaded.Pass?);
    ghost var all := ReadyCloses(nodes, G);
    AllClear(drv, nodes, G, all, b.repr);
    G := all;
    if loaded.Fail? {
      ExplainedLonger(loaded.error, drv, |log|, |log| + 1, |drv.log|, q);
      RootStops(drv, s, w, b.tree.withs, |log|);
      return Err(loaded.error), G;
    }
    PartEnd(drv.db, s, w, rows, done);
    r := Ok(nodes);
  }

  /** A run of a query builder. Whatever the batches looked like, the entities unfold to the graph that one
      lookup per row and edge would give, unless a page on a subquery disturbs a share; and a run fails only when
      one of its queries failed or a selected field is no column, so no loader ever meets an unexpected node, an
      unexpected foreign key or a nil one. It sends the queries of `LogOf` in that order, up to the first that
      fails. The subquery builders it has reached are left restricted. */
  method Run(drv: Driver, b: Query, ghost q: QueryTree)
    returns (r: Result<seq<Entity>, LoadError>, ghost G: set<Entity>)
    requires b.Valid() && q == b.tree && drv !in b.repr
    requires Sound(drv.db) && NotYetJoined(q.withs)
    modifies drv, b.repr
    ensures |old(drv.log)| <= |drv.log| <= |old(drv.log)| + QueriesOf(q)
    ensures Follows(drv.db, drv.fails, old(drv.log), drv.log, LogOf(drv.db, q.settings, q.withs), r.Ok?)
    ensures if r.Ok? then drv.log == old(drv.log) + LogOf(drv.db, q.settings, q.withs)
            else old(drv.log) <= drv.log <= old(drv.log) + LogOf(drv.db, q.settings, q.withs)
    ensures r.Ok? <==> AllAnswered(drv.db, drv.fails, |old(drv.log)|, LogOf(drv.db, q.settings, q.withs))
    ensures r.Ok? ==> drv.Locks() == old(drv.Locks()) + LocksFor(drv.db, LogOf(drv.db, q.settings, q.withs))
    ensures HoldsNoLock(q) ==> drv.Locks() == old(drv.Locks())
    ensures r.Ok? && q.settings.modifiers != [] ==> Locked(q.settings.typ, Rows(drv.db, q.settings)) in drv.Locks()
    ensures b.Valid() && fresh(b.repr - old(b.repr)) && fresh(G) && Closed(G) && drv !in b.repr
    ensures forall n :: n in G ==> n !in b.repr
    ensures r.Err? ==>
      && Explained(r.error, drv, |old(drv.log)|, |drv.log|, q)
      && b.tree.settings == q.settings
      && Stopped(drv.db, drv.fails, |old(drv.log)|, q.settings, q.withs, b.tree.withs)
    ensures r.Ok? ==>
      && NoDuplicates(r.value) && (forall n :: n in r.value ==> n in G)
      && Views(r.value) == Batch(drv.db, q.settings, q.withs)
      && b.tree == QueryTree(q.settings, AfterRun(drv.db, q.settings, q.withs))
    ensures r.Ok? ==> LoadedFor(drv.db, q.settings, Views(r.value))
    ensures r.Ok? && LimitFree(q.withs) ==> SameGraphs(Views(r.value), Naive(drv.db, q.settings, q.withs))
    ensures r.Ok? ==>
      var alike := SameGraphs(Views(r.value), Naive(drv.db, q.settings, q.withs));
      var fit := PagesFit(drv.db, q.settings, q.withs);
      (fit ==> alike) && (alike && AllTelling(q.withs) ==> fit)
    ensures FieldsValid(drv.db, q) && (forall k :: |old(drv.log)| <= k < |drv.log| ==> !drv.fails(k)) ==> r.Ok?
  {
    hide *;
    ghost var s, w := q.settings, q.withs;
    b.IsWellFormed();
    LocksNow(drv);
    assert q == QueryTree(s, w);
    r, G := All(drv, b, s, w);
    RunParts(drv, b, q, old(drv.log), drv.log, r.Ok?, G);
    LocksNow(drv);
    SentLocks(drv, q, old(drv.log), drv.log, r.Ok?);
    BatchIsLoaded(drv.db, s, w);
    BatchIsNaiveIff(drv.db, s, w);
    if LimitFree(w) {
      LimitFreeFits(drv.db, s, w);
    }
    if r.Err? {
      RunFails(drv, q, r.error, |old(drv.log)|, |drv.log|);
    }
  }

  /** A call on a builder and then its run: the entities are those of the query with the predicates, the page, the order
      and the columns that the call asks for, and a lock asked for is taken. */
  method CallAndRun(drv: Driver, b: Query, step: Step, ghost q: QueryTree)
    returns (r: Result<seq<Entity>, LoadError>, ghost G: set<Entity>)
    requires b.Valid() && q == b.tree && drv !in b.repr && Legal(b.typ, step)
    requires Sound(drv.db) && NotYetJoined(AfterStep(q, step).withs)
    modifies drv, b.repr
    ensures b.Valid()
    ensures r.Ok? ==>
      var s, ts := q.settings, Views(r.value);
      match step
      case Where(ps) => LoadedFor(drv.db, s.(predicates := s.predicates + ps), ts)
      case Limit(n) => LoadedFor(drv.db, s.(limit := Some(n)), ts)
      case Offset(n) => LoadedFor(drv.db, s.(offset := Some(n)), ts)
      case Order(os) => LoadedFor(drv.db, s.(order := s.order + os), ts)
      case Select(columns) => LoadedFor(drv.db, s.(fields := s.fields + columns), ts)
      case Lock(_) => LoadedFor(drv.db, s, ts) && Locked(s.typ, Rows(drv.db, s)) in drv.Locks()
      case With(_, _) => LoadedFor(drv.db, s, ts)
      case At(_, _) => LoadedFor(drv.db, s, ts)
  {
    hide *;
    StepSettings(drv.db, q, step);
    b.Do(step);
    r, G := Run(drv, b, AfterStep(q, step));
  }

  lemma StepSettings(db: Database, t: QueryTree, step: Step)
    ensures
      var s, u := t.settings, AfterStep(t, step).settings;
      match step
      case Where(ps) => u == s.(predicates := s.predicates + ps)
      case Limit(n) => u == s.(limit := Some(n))
      case Offset(n) => u == s.(offset := Some(n))
      case Order(os) => u == s.(order := s.order + os)
      case Select(columns) => u == s.(fields := s.fields + columns)
      case Lock(_) => u.modifiers != [] && u.typ == s.typ && Rows(db, u) == Rows(db, s) &&
        forall ts :: LoadedFor(db, u, ts) ==> LoadedFor(db, s, ts)
      case With(_, _) => u == s
      case At(_, _) => u == s
  {
    if step.Lock? {
      LockedAlike(db, t.settings, AfterStep(t, step).settings);
    }
  }

  lemma LockedAlike(db: Database, s: Settings, u: Settings)
    requires s == u.(modifiers := s.modifiers)
    ensures Rows(db, u) == Rows(db, s) && forall ts :: LoadedFor(db, u, ts) ==> LoadedFor(db, s, ts)
  {
  }

  lemma LocksNow(drv: Driver)
    ensures drv.Locks() == LocksOf(drv.db, drv.fails, drv.log)
  {
  }

  lemma RunParts(drv: Driver, b: Query, q: QueryTree, before: seq<Sent>, after: seq<Sent>, ok: bool, G: set<Entity>)
    requires Clear(drv, [], G, b.repr)
    requires Follows(drv.db, drv.fails, before, after, LogOf(drv.db, q.settings, q.withs), ok)
    ensures |before| <= |after| <= |before| + QueriesOf(q)
    ensures
      var whole := LogOf(drv.db, q.settings, q.withs);
      && (if ok then after == before + whole else before <= after <= before + whole)
      && (ok <==> AllAnswered(drv.db, drv.fails, |before|, whole))
    ensures drv !in b.repr && forall n :: n in G ==> n !in b.repr
  {
    hide LogOf, QueriesOf, Follows, AllAnswered;
    assert q == QueryTree(q.settings, q.withs);
    FollowsParts(drv.db, drv.fails, before, after, LogOf(drv.db, q.settings, q.withs), ok);
    OneQueryPerBuilder(drv.db, q.settings, q.withs);
  }

  lemma SentLocks(drv: Driver, q: QueryTree, before: seq<Sent>, after: seq<Sent>, ok: bool)
    requires Follows(drv.db, drv.fails, before, after, LogOf(drv.db, q.settings, q.withs), ok)
    ensures
      var whole, s := LogOf(drv.db, q.settings, q.withs), q.settings;
      && (HoldsNoLock(q) ==> LocksOf(drv.db, drv.fails, after) == LocksOf(drv.db, drv.fails, before))
      && (ok ==> LocksOf(drv.db, drv.fails, after) == LocksOf(drv.db, drv.fails, before) + LocksFor(drv.db, whole))
      && (ok && s.modifiers != [] ==> Locked(s.typ, Rows(drv.db, s)) in LocksOf(drv.db, drv.fails, after))
  {
    var s, whole := q.settings, LogOf(drv.db, q.settings, q.withs);
    assert q == QueryTree(s, q.withs) && whole[0] == Nodes(s);
    hide LogOf, Follows, AllAnswered;
    FollowsParts(drv.db, drv.fails, before, after, whole, ok);
    if HoldsNoLock(q) {
      NoneAsked(drv.db, s, q.withs);
      NoLocksAdded(drv.db, drv.fails, before, after, whole);
    }
    if ok {
      LocksAdd(drv.db, drv.fails, before, whole);
      LocksAreKept(drv.db, whole, 0);
    }
  }

  lemma RunFails(drv: Driver, q: QueryTree, error: LoadError, from: nat, to: nat)
    requires Explained(error, drv, from, to, q)
    ensures !(FieldsValid(drv.db, q) && forall k :: from <= k < to ==> !drv.fails(k))
  {
  }
}
