/** How the loaders collect keys from the nodes and spread what they have queried over the nodes, through
    maps. */
module Spreading {
  import opened Collections
  import opened Storage
  import opened QueryTrees
  import opened Entities

  datatype LoadError =
    | InvalidField(name: string)
    | DriverFailure
    | UnexpectedNode(id: int)
    | UnexpectedForeignKey(key: int)
    | NilForeignKey

  datatype Outcome = Pass | Fail(error: LoadError)

  // ---------------------------------------------------------------- many-to-one

  lemma KeysStep<T>(xs: seq<T>, keys: seq<Option<int>>, i: nat, groups: map<int, seq<T>>)
    requires i < |xs| == |keys| && GroupedByKey(xs[..i], keys[..i], groups)
    ensures
      var key, ids := keys[i], DistinctKeys(keys[..i]);
      var group := if key.Some? && key.value in groups then groups[key.value] else [];
      && (key.Some? ==> (key.value in groups <==> key.value in ids))
      && DistinctKeys(keys[..i + 1]) == (if key.None? || key.value in ids then ids else ids + [key.value])
      && GroupedByKey(xs[..i + 1], keys[..i + 1], if key.None? then groups else groups[key.value := group + [xs[i]]])
  {
    hide PickKey, GroupedByKey, NoDuplicates;
    assert xs[..i + 1] == xs[..i] + [xs[i]] && keys[..i + 1] == keys[..i] + [keys[i]];
    if keys[i].Some? { FiledKey(xs[..i], keys[..i], groups, keys[i].value); }
    GroupOneMore(xs[..i], keys[..i], groups, xs[i], keys[i]);
    DistinctOneMore(keys[..i], keys[i]);
  }

  lemma FiledKey<T>(xs: seq<T>, keys: seq<Option<int>>, groups: map<int, seq<T>>, k: int)
    requires |xs| == |keys| && GroupedByKey(xs, keys, groups)
    ensures k in groups <==> k in DistinctKeys(keys)
  {
    hide PickKey;
    assert k in DistinctKeys(keys) <==> Some(k) in keys;
    assert Some(k).Some? && Some(k).value == k;
  }

  lemma NoKeys<T>(xs: seq<T>, keys: seq<Option<int>>)
    requires |xs| == |keys|
    ensures DistinctKeys(keys[..0]) == [] && GroupedByKey(xs[..0], keys[..0], map[])
  {
  }

  method CollectKeys(e: Edge, nodes: seq<Entity>) returns (ids: seq<int>, nodeids: map<int, seq<Entity>>)
    ensures ids == DistinctKeys(NodeFks(e, nodes))
    ensures GroupedByKey(nodes, NodeFks(e, nodes), nodeids)
  {
    hide *;
    ghost var fks := NodeFks(e, nodes);
    ids, nodeids := [], map[];
    NoKeys(nodes, fks);
    for i := 0 to |nodes|
      invariant ids == DistinctKeys(fks[..i])
      invariant GroupedByKey(nodes[..i], fks[..i], nodeids)
    {
      var fk := FkOf(e, nodes[i].fields);
      KeysStep(nodes, fks, i, nodeids);
      if fk.Some? {
        if fk.value !in nodeids {
          ids := ids + [fk.value];
        }
        nodeids := nodeids[fk.value := (if fk.value in nodeids then nodeids[fk.value] else []) + [nodes[i]]];
      }
    }
    assert fks[..|nodes|] == fks && nodes[..|nodes|] == nodes;
  }

  /** Assigns a neighbor to every node filed under its id; false when there is none. */
  method PointBucket(e: Edge, n: Entity, nodes: seq<Entity>, ghost fks: seq<Option<int>>,
                     nodeids: map<int, seq<Entity>>,
                     ghost G: set<Entity>)
    returns (filed: bool)
    requires Ready(nodes, G) && n in G && |fks| == |nodes| && GroupedByKey(nodes, fks, nodeids)
    modifies nodes
    ensures Ready(nodes, G)
    ensures filed <==> Some(IdOf(n.fields)) in fks
    ensures forall k :: 0 <= k < |nodes| ==>
      nodes[k].view ==
        if fks[k] == Some(IdOf(n.fields)) then WithSingle(old(nodes[k].view), e, Some(n.view)) else old(nodes[k].view)
  {
    hide PickKey, WithSingle, Entity.Ok;
    var id := IdOf(n.fields);
    if id !in nodeids {
      return false;
    }
    var bucket := nodeids[id];
    PickKeyMembers(nodes, fks, id);
    for i := 0 to |bucket|
      invariant Ready(nodes, G)
      invariant forall k :: 0 <= k < |nodes| ==>
        nodes[k].view ==
          if nodes[k] in bucket[..i] then WithSingle(old(nodes[k].view), e, Some(n.view)) else old(nodes[k].view)
    {
      assert bucket[i] in bucket && bucket[i] !in bucket[..i];
      assert bucket[..i + 1] == bucket[..i] + [bucket[i]];
      bucket[i].SetSingle(e, n);
    }
    assert bucket[..|bucket|] == bucket;
    filed := true;
  }

  ghost predicate Pointed(e: Edge, before: seq<ObjectTree>, after: seq<ObjectTree>, fks: seq<Option<int>>,
                          ts: seq<ObjectTree>, nids: seq<int>)
    requires |before| == |after| == |fks| && |ts| == |nids|
  {
    forall k :: 0 <= k < |before| ==> after[k] == WithSingle(before[k], e, LastMatch(ts, nids, fks[k]))
  }

  lemma PointedStep(e: Edge, before: seq<ObjectTree>, middle: seq<ObjectTree>, after: seq<ObjectTree>,
                    fks: seq<Option<int>>,
                    ts: seq<ObjectTree>, nids: seq<int>, j: nat)
    requires |before| == |middle| == |after| == |fks| && |ts| == |nids| && j < |ts|
    requires Pointed(e, before, middle, fks, ts[..j], nids[..j])
    requires forall k :: 0 <= k < |before| ==>
      after[k] == if fks[k] == Some(nids[j]) then WithSingle(middle[k], e, Some(ts[j])) else middle[k]
    ensures Pointed(e, before, after, fks, ts[..j + 1], nids[..j + 1])
  {
    hide WithSingle;
    assert ts[..j + 1][..j] == ts[..j] && nids[..j + 1][..j] == nids[..j];
    forall k | 0 <= k < |before|
      ensures after[k] == WithSingle(before[k], e, LastMatch(ts[..j + 1], nids[..j + 1], fks[k]))
    {
      WithSingleTwice(before[k], e, LastMatch(ts[..j], nids[..j], fks[k]), ts[j]);
    }
  }

  lemma WithSingleTwice(t: ObjectTree, e: Edge, first: Option<ObjectTree>, second: ObjectTree)
    ensures WithSingle(WithSingle(t, e, first), e, Some(second)) == WithSingle(t, e, Some(second))
  {
    if first.Some? {
      assert t.single[e := first.value][e := second] == t.single[e := second];
    }
  }

  lemma NotPointed(e: Edge, before: seq<ObjectTree>, fks: seq<Option<int>>)
    requires |before| == |fks|
    ensures Pointed(e, before, before, fks, [], [])
  {
  }

  /** Spreads the neighbors over the nodes: each node's edge becomes the last neighbor its key names. An id
      that no node asked for is an error. */
  method SpreadSingles(e: Edge, nodes: seq<Entity>, ghost fks: seq<Option<int>>, nodeids: map<int, seq<Entity>>,
                       neighbors: seq<Entity>, ghost nids: seq<int>, ghost G: set<Entity>)
    returns (r: Outcome)
    requires Ready(nodes, G) && |fks| == |nodes| && GroupedByKey(nodes, fks, nodeids)
    requires |nids| == |neighbors| && forall j :: 0 <= j < |neighbors| ==>
        neighbors[j] in G && IdOf(neighbors[j].fields) == nids[j]
    modifies nodes
    ensures Ready(nodes, G)
    ensures r.Pass? <==> forall j :: 0 <= j < |neighbors| ==> Some(nids[j]) in fks
    ensures r.Fail? ==> r.error.UnexpectedForeignKey? && r.error.key in nids && Some(r.error.key) !in fks
    ensures Views(neighbors) == old(Views(neighbors))
    ensures r.Pass? ==> Pointed(e, old(Views(nodes)), Views(nodes), fks, Views(neighbors), nids)
  {
    hide *;
    ReadyApart(nodes, G);
    ghost var ts := Views(neighbors);
    ghost var before := Views(nodes);
    NotPointed(e, before, fks);
    assert ts[..0] == [] && nids[..0] == [];
    for j := 0 to |neighbors|
      invariant Ready(nodes, G)
      invariant forall i :: 0 <= i < j ==> Some(nids[i]) in fks
      invariant Pointed(e, before, Views(nodes), fks, ts[..j], nids[..j])
    {
      ghost var middle := Views(nodes);
      var filed := PointBucket(e, neighbors[j], nodes, fks, nodeids, G);
      if !filed {
        return Fail(UnexpectedForeignKey(IdOf(neighbors[j].fields)));
      }
      PointedStep(e, before, middle, Views(nodes), fks, ts, nids, j);
    }
    assert ts[..|neighbors|] == ts && nids[..|neighbors|] == nids;
    r := Pass;
  }

  /** Every node has the edge its own key leads to in the batch. */
  ghost predicate SinglesLoaded(db: Database, q: QueryTree, e: Edge, keys: seq<int>, fks: seq<Option<int>>,
                                before: seq<ObjectTree>, after: seq<ObjectTree>)
  {
    && |before| == |after| == |fks|
    && forall k :: 0 <= k < |before| ==> after[k] == WithSingle(before[k], e, OneOf(db, q, e, keys, fks[k]))
  }

  lemma PointedIsLoaded(db: Database, q: QueryTree, e: Edge, keys: seq<int>, fks: seq<Option<int>>,
                        before: seq<ObjectTree>, after: seq<ObjectTree>)
    requires |before| == |after| == |fks|
    requires
      var s := LoadSettings(e, q.settings, keys);
      Pointed(e, before, after, fks, Batch(db, s, q.withs), Ids(Read(db, s, q.withs.of.Keys)))
    ensures SinglesLoaded(db, q, e, keys, fks, before, after)
  {
  }

  lemma NothingToLoad(db: Database, q: QueryTree, e: Edge, fks: seq<Option<int>>, before: seq<ObjectTree>,
                      after: seq<ObjectTree>)
    requires DistinctKeys(fks) == [] && |before| == |after| == |fks| && Pointed(e, before, after, fks, [], [])
    ensures SinglesLoaded(db, q, e, [], fks, before, after)
  {
    assert forall k :: 0 <= k < |fks| ==> fks[k] in fks && (fks[k].Some? ==> fks[k].value in DistinctKeys(fks));
  }

  // ---------------------------------------------------------------- one-to-many

  /** Every node's list is its share. */
  ghost predicate ListedAs(e: Edge, before: seq<ObjectTree>, after: seq<ObjectTree>, shares: seq<seq<ObjectTree>>) {
    && |before| == |after| == |shares|
    && forall k :: 0 <= k < |before| ==> after[k] == WithList(before[k], e, shares[k])
  }

  function NoShares(n: nat): (shares: seq<seq<ObjectTree>>)
    ensures |shares| == n && forall k :: 0 <= k < n ==> shares[k] == []
  {
    seq(n, k => [])
  }

  method CollectNodes(e: Edge, nodes: seq<Entity>, ghost before: seq<ObjectTree>, ghost G: set<Entity>)
    returns (ids: seq<int>, byID: map<int, Entity>)
    requires Ready(nodes, G) && before == Views(nodes)
    modifies nodes
    ensures Ready(nodes, G)
    ensures ids == NodeIds(nodes) == old(NodeIds(nodes)) && FiledById(nodes, ids, byID)
    ensures ListedAs(e, before, Views(nodes), NoShares(|nodes|))
  {
    hide Entity.Ok, LastIndex, IdOf, NodeIds;
    ids, byID := [], map[];
    ghost var all := NodeIds(nodes);
    for i := 0 to |nodes|
      invariant Ready(nodes, G) && NodeIds(nodes) == all
      invariant ids == all[..i] && FiledById(nodes[..i], ids, byID)
      invariant forall k :: 0 <= k < i ==> nodes[k].view == WithList(before[k], e, [])
      invariant forall k :: i <= k < |nodes| ==> nodes[k].view == before[k]
    {
      assert all[..i + 1] == all[..i] + [all[i]] && nodes[..i + 1] == nodes[..i] + [nodes[i]];
      var id := IdOf(nodes[i].fields);
      FileOneMore(nodes[..i], ids, byID, nodes[i], id);
      ids := ids + [id];
      byID := byID[id := nodes[i]];
      nodes[i].InitList(e);
    }
    assert all[..|nodes|] == all && nodes[..|nodes|] == nodes;
  }

  /** Appends an entity to the list of one node. */
  method AppendTo(e: Edge, n: Entity, nodes: seq<Entity>, node: Entity, ghost k: nat,
                  ghost before: seq<ObjectTree>, ghost shares: seq<seq<ObjectTree>>, ghost G: set<Entity>)
    requires Ready(nodes, G) && n in G && k < |nodes| && node == nodes[k]
    requires ListedAs(e, before, Views(nodes), shares)
    modifies nodes
    ensures Ready(nodes, G)
    ensures n.view == old(n.view)
    ensures |shares| == |nodes| && ListedAs(e, before, Views(nodes), shares[k := shares[k] + [n.view]])
  {
    RelistedOnce(before[k], e, shares[k], shares[k] + [n.view]);
    assert Views(nodes)[k] == node.view;
    assert node in nodes;
    assert e in node.lists by { assert node.Ok(); }
    node.Append(e, n);
  }

  /** The neighbors filed under each node's id; a node hidden by a later one with its id gets none. */
  ghost function Shares(ids: seq<int>, ts: seq<ObjectTree>, fks: seq<Option<int>>): (shares: seq<seq<ObjectTree>>)
    requires |ts| == |fks|
    ensures |shares| == |ids|
  {
    seq(|ids|, k requires 0 <= k < |ids| => if LastIndex(ids, ids[k]) == Some(k) then PickKey(ts, fks, ids[k]) else [])
  }

  lemma SharesStart(ids: seq<int>)
    ensures Shares(ids, [], []) == NoShares(|ids|)
  {
  }

  lemma SharesStep(ids: seq<int>, ts: seq<ObjectTree>, fks: seq<Option<int>>, j: nat)
    requires j < |ts| == |fks| && fks[j].Some? && fks[j].value in ids
    ensures
      var at := LastIndex(ids, fks[j].value);
      var shares := Shares(ids, ts[..j], fks[..j]);
      at.Some? && Shares(ids, ts[..j + 1], fks[..j + 1]) == shares[at.value := shares[at.value] + [ts[j]]]
  {
    assert ts[..j + 1][..j] == ts[..j] && fks[..j + 1][..j] == fks[..j];
    var at := LastIndex(ids, fks[j].value);
    var shares := Shares(ids, ts[..j], fks[..j]);
    forall k | 0 <= k < |ids|
      ensures Shares(ids, ts[..j + 1], fks[..j + 1])[k] == if k == at.value then shares[k] + [ts[j]] else shares[k]
    {
      if ids[k] == fks[j].value { assert LastIndex(ids, ids[k]) == at; }
    }
  }

  /** Appends every neighbor to the node its foreign key names. */
  method SpreadLists(e: Edge, nodes: seq<Entity>, ghost ids: seq<int>, byID: map<int, Entity>,
                     neighbors: seq<Entity>, ghost ts: seq<ObjectTree>, ghost fks: seq<Option<int>>,
                     ghost before: seq<ObjectTree>, ghost G: set<Entity>)
    returns (r: Outcome)
    requires Ready(nodes, G) && |ids| == |nodes| && FiledById(nodes, ids, byID)
    requires (forall n :: n in neighbors ==> n in G) && ts == Views(neighbors) && fks == NodeFks(e, neighbors)
    requires ListedAs(e, before, Views(nodes), NoShares(|nodes|))
    modifies nodes
    ensures Ready(nodes, G)
    ensures r.Pass? <==> forall j :: 0 <= j < |neighbors| ==> OwnedBy(fks, ids, j)
    ensures r.Pass? ==> ListedAs(e, before, Views(nodes), Shares(ids, ts, fks))
  {
    hide *;
    SharesStart(ids);
    ReadyApart(nodes, G);
    assert ts[..0] == [] && fks[..0] == [];
    for j := 0 to |neighbors|
      invariant Ready(nodes, G)
      invariant forall i :: 0 <= i < j ==> OwnedBy(fks, ids, i)
      invariant ListedAs(e, before, Views(nodes), Shares(ids, ts[..j], fks[..j]))
    {
      var n := neighbors[j];
      assert n in G && n.view == ts[j] && FkOf(e, n.fields) == fks[j];
      var fk := FkOf(e, n.fields);
      OwnedOrNot(fks, ids, j);
      if fk.None? {
        return Fail(NilForeignKey);
      }
      FiledIff(nodes, ids, byID, fk.value);
      if fk.value !in byID {
        return Fail(UnexpectedForeignKey(fk.value));
      }
      SharesStep(ids, ts, fks, j);
      AppendTo(e, n, nodes, byID[fk.value], LastIndex(ids, fk.value).value, before, Shares(ids, ts[..j], fks[..j]), G);
    }
    assert ts[..|neighbors|] == ts && fks[..|neighbors|] == fks;
    r := Pass;
  }

  lemma OwnedOrNot(fks: seq<Option<int>>, ids: seq<int>, j: nat)
    requires j < |fks|
    ensures OwnedBy(fks, ids, j) <==> fks[j].Some? && fks[j].value in ids
  {
  }

  lemma FiledIff(nodes: seq<Entity>, ids: seq<int>, byID: map<int, Entity>, id: int)
    requires |ids| == |nodes| && FiledById(nodes, ids, byID)
    ensures id in byID <==> id in ids
    ensures id in byID ==> LastIndex(ids, id).Some? && byID[id] == nodes[LastIndex(ids, id).value]
  {
  }

  ghost predicate OwnedBy(fks: seq<Option<int>>, ids: seq<int>, j: int) {
    0 <= j < |fks| && fks[j].Some? && fks[j].value in ids
  }

  /** Every node has its share of the batch, in batch order. */
  ghost predicate ListsLoaded(db: Database, q: QueryTree, e: Edge, ids: seq<int>, before: seq<ObjectTree>,
                              after: seq<ObjectTree>) {
    && |before| == |after| == |ids|
    && forall k :: 0 <= k < |ids| ==>
      var mine := if LastIndex(ids, ids[k]) == Some(k) then ListOf(db, q, e, ids, ids[k]) else [];
      after[k] == WithList(before[k], e, mine)
  }

  lemma ListedIsLoaded(db: Database, q: QueryTree, e: Edge, ids: seq<int>, before: seq<ObjectTree>,
                       after: seq<ObjectTree>)
    requires e.kind.O2M? && |before| == |after| == |ids|
    requires
      var s := LoadSettings(e, q.settings, ids);
      ListedAs(e, before, after, Shares(ids, Batch(db, s, q.withs), Fks(e, Read(db, s, q.withs.of.Keys))))
    ensures ListsLoaded(db, q, e, ids, before, after)
  {
  }

  // ---------------------------------------------------------------- many-to-many

  lemma FirstRowsStep(join: seq<JoinRow>, i: nat)
    requires i < |join|
    ensures
      var rows := FirstRows(join[..i]);
      FirstRows(join[..i + 1]) == if IdOf(join[i].row) in Ids(rows) then rows else rows + [join[i].row]
    ensures forall owner, group :: Linked(join[..i + 1], owner, group) <==>
      Linked(join[..i], owner, group) || (join[i].owner == owner && IdOf(join[i].row) == group)
  {
    hide IdOf;
    assert join[..i + 1][..i] == join[..i];
    forall owner, group
      ensures Linked(join[..i + 1], owner, group) <==>
        Linked(join[..i], owner, group) || (join[i].owner == owner && IdOf(join[i].row) == group)
    {
      if Linked(join[..i], owner, group) {
        var h :| 0 <= h < i && join[..i][h].owner == owner && IdOf(join[..i][h].row) == group;
        assert join[..i + 1][h] == join[h];
      }
      if join[i].owner == owner && IdOf(join[i].row) == group {
        assert join[..i + 1][i] == join[i];
      }
    }
  }

  /** The nodes a group is joined to; a node hidden by a later one with its id is in none. */
  ghost function Members(nodes: seq<Entity>, ids: seq<int>, join: seq<JoinRow>, group: int): set<Entity>
    requires |ids| == |nodes|
  {
    set k | 0 <= k < |nodes| && LastIndex(ids, ids[k]) == Some(k) && Linked(join, ids[k], group) :: nodes[k]
  }

  ghost predicate Membership(nodes: seq<Entity>, ids: seq<int>, join: seq<JoinRow>, nids: map<int, set<Entity>>)
    requires |ids| == |nodes|
  {
    && (forall g :: g in nids <==> g in Ids(FirstRows(join)))
    && (forall g :: g in nids ==> nids[g] == Members(nodes, ids, join, g))
  }

  lemma UnseenGroup(nodes: seq<Entity>, ids: seq<int>, join: seq<JoinRow>, group: int)
    requires |ids| == |nodes| && group !in Ids(FirstRows(join))
    ensures Members(nodes, ids, join, group) == {}
  {
  }

  lemma NodeOfOwner(nodes: seq<Entity>, ids: seq<int>, byID: map<int, Entity>, owner: int)
    requires NoDuplicates(nodes) && |ids| == |nodes| && FiledById(nodes, ids, byID) && owner in ids
    ensures owner in byID && byID[owner] in nodes
    ensures forall k :: 0 <= k < |nodes| ==>
      (nodes[k] == byID[owner] <==> LastIndex(ids, ids[k]) == Some(k) && ids[k] == owner)
  {
  }

  lemma MembersStep(nodes: seq<Entity>, ids: seq<int>, byID: map<int, Entity>, join: seq<JoinRow>, i: nat, group: int)
    requires NoDuplicates(nodes) && |ids| == |nodes| && FiledById(nodes, ids, byID)
    requires i < |join| && join[i].owner in ids
    ensures
      var before := Members(nodes, ids, join[..i], group);
      && join[i].owner in byID
      && Members(nodes, ids, join[..i + 1], group) ==
           if IdOf(join[i].row) == group then before + {byID[join[i].owner]} else before
  {
    FirstRowsStep(join, i);
    NodeOfOwner(nodes, ids, byID, join[i].owner);
    hide FirstRows, Linked, LastIndex, FiledById, Ids, IdOf, NoDuplicates;
    var at := byID[join[i].owner];
    assert at in nodes;
    forall k | 0 <= k < |nodes| && LastIndex(ids, ids[k]) == Some(k)
      ensures Linked(join[..i + 1], ids[k], group) <==>
        Linked(join[..i], ids[k], group) || (nodes[k] == at && IdOf(join[i].row) == group)
    {
    }
  }

  lemma MembershipStep(nodes: seq<Entity>, ids: seq<int>, byID: map<int, Entity>, join: seq<JoinRow>, i: nat,
                       nids: map<int, set<Entity>>)
    requires NoDuplicates(nodes) && |ids| == |nodes| && FiledById(nodes, ids, byID)
    requires i < |join| && join[i].owner in ids && Membership(nodes, ids, join[..i], nids)
    ensures
      var g := IdOf(join[i].row);
      var joined := if g in nids then nids[g] else {};
      join[i].owner in byID && Membership(nodes, ids, join[..i + 1], nids[g := joined + {byID[join[i].owner]}])
  {
    var g := IdOf(join[i].row);
    var rows := FirstRows(join[..i]);
    FirstRowsStep(join, i);
    assert Ids(rows + [join[i].row]) == Ids(rows) + [g];
    if g !in nids { UnseenGroup(nodes, ids, join[..i], g); }
    hide FirstRows, Linked, LastIndex, FiledById, Ids, IdOf, NoDuplicates, Members;
    MembersStep(nodes, ids, byID, join, i, g);
    var nids' := nids[g := (if g in nids then nids[g] else {}) + {byID[join[i].owner]}];
    forall f | f in nids'
      ensures nids'[f] == Members(nodes, ids, join[..i + 1], f)
    {
      MembersStep(nodes, ids, byID, join, i, f);
    }
  }

  /** The first join row of every group, and the nodes each group is joined to. */
  method ScanJoin(join: seq<JoinRow>, byID: map<int, Entity>, ghost nodes: seq<Entity>, ghost ids: seq<int>)
    returns (rows: seq<Row>, nids: map<int, set<Entity>>)
    requires NoDuplicates(nodes) && |ids| == |nodes| && FiledById(nodes, ids, byID)
    requires forall j :: j in join ==> j.owner in ids
    ensures rows == FirstRows(join) && Membership(nodes, ids, join, nids)
  {
    rows, nids := [], map[];
    ScanStart(join, nodes, ids);
    hide *;
    for i := 0 to |join|
      invariant rows == FirstRows(join[..i]) && Membership(nodes, ids, join[..i], nids)
    {
      var g := IdOf(join[i].row);
      assert join[i] in join;
      FirstRowsStep(join, i);
      MembershipStep(nodes, ids, byID, join, i, nids);
      SeenGroup(nodes, ids, join[..i], nids, g);
      if g !in nids {
        rows := rows + [join[i].row];
      }
      nids := nids[g := (if g in nids then nids[g] else {}) + {byID[join[i].owner]}];
    }
    assert join[..|join|] == join;
  }

  lemma ScanStart(join: seq<JoinRow>, nodes: seq<Entity>, ids: seq<int>)
    requires |ids| == |nodes|
    ensures FirstRows(join[..0]) == [] && Membership(nodes, ids, join[..0], map[])
  {
  }

  lemma SeenGroup(nodes: seq<Entity>, ids: seq<int>, join: seq<JoinRow>, nids: map<int, set<Entity>>, g: int)
    requires |ids| == |nodes| && Membership(nodes, ids, join, nids)
    ensures g in nids <==> g in Ids(FirstRows(join))
  {
  }

  /** The shares once an entity has been appended to the lists of some nodes. */
  ghost function Extended(shares: seq<seq<ObjectTree>>, nodes: seq<Entity>, to: set<Entity>,
                          t: ObjectTree): (more: seq<seq<ObjectTree>>)
    requires |shares| == |nodes|
    ensures |more| == |shares|
  {
    seq(|shares|, k requires 0 <= k < |shares| => if nodes[k] in to then shares[k] + [t] else shares[k])
  }

  lemma ExtendedByOne(shares: seq<seq<ObjectTree>>, nodes: seq<Entity>, to: set<Entity>, t: ObjectTree, k: nat)
    requires |shares| == |nodes| && NoDuplicates(nodes) && k < |nodes| && nodes[k] !in to
    ensures
      var before := Extended(shares, nodes, to, t);
      Extended(shares, nodes, to + {nodes[k]}, t) == before[k := before[k] + [t]]
  {
  }

  lemma MovedOver<T>(all: set<T>, todo: set<T>, x: T)
    requires x in todo && todo <= all
    ensures all - (todo - {x}) == all - todo + {x}
  {
  }

  /** Appends a group to the lists of its members, in whatever order the set yields them. */
  method AppendToMembers(e: Edge, n: Entity, nodes: seq<Entity>, members: set<Entity>, ghost t: ObjectTree,
                         ghost before: seq<ObjectTree>, ghost shares: seq<seq<ObjectTree>>, ghost G: set<Entity>)
    requires Ready(nodes, G) && n in G && n.view == t && (forall x :: x in members ==> x in nodes)
    requires |shares| == |nodes| && ListedAs(e, before, Views(nodes), shares)
    modifies nodes
    ensures Ready(nodes, G)
    ensures ListedAs(e, before, Views(nodes), Extended(shares, nodes, members, t))
  {
    var todo := members;
    assert Extended(shares, nodes, {}, t) == shares;
    assert NoDuplicates(nodes) && n !in nodes;
    hide *;
    assert members - todo == {};
    while todo != {}
      invariant todo <= members && Ready(nodes, G) && n.view == t
      invariant ListedAs(e, before, Views(nodes), Extended(shares, nodes, members - todo, t))
      decreases todo
    {
      var kn :| kn in todo;
      ghost var k :| 0 <= k < |nodes| && nodes[k] == kn;
      ExtendedByOne(shares, nodes, members - todo, t, k);
      AppendTo(e, n, nodes, kn, k, before, Extended(shares, nodes, members - todo, t), G);
      MovedOver(members, todo, kn);
      todo := todo - {kn};
    }
    assert members - todo == members;
  }

  /** Each node's groups among the given ones, in their order. */
  ghost function GroupShares(s: Settings, join: seq<JoinRow>, ids: seq<int>,
                             rows: seq<Row>): (shares: seq<seq<ObjectTree>>)
    ensures |shares| == |ids|
  {
    seq(|ids|, k requires 0 <= k < |ids| =>
      if LastIndex(ids, ids[k]) != Some(k) then []
      else Bares(s, {}, Filter(rows, (r: Row) => Linked(join, ids[k], IdOf(r)))))
  }

  lemma GroupSharesStart(s: Settings, join: seq<JoinRow>, ids: seq<int>)
    ensures GroupShares(s, join, ids, []) == NoShares(|ids|)
  {
  }

  lemma GroupSharesStep(s: Settings, join: seq<JoinRow>, nodes: seq<Entity>, ids: seq<int>, rows: seq<Row>, j: nat)
    requires |ids| == |nodes| && NoDuplicates(nodes) && j < |rows|
    ensures GroupShares(s, join, ids, rows[..j + 1]) ==
            Extended(GroupShares(s, join, ids, rows[..j]), nodes, Members(nodes, ids, join, IdOf(rows[j])),
                     Bare(s, {}, rows[j]))
  {
    assert rows[..j + 1][..j] == rows[..j];
    hide Linked, Bare, IdOf, Project;
    forall k | 0 <= k < |ids|
      ensures GroupShares(s, join, ids, rows[..j + 1])[k] ==
        Extended(GroupShares(s, join, ids, rows[..j]), nodes, Members(nodes, ids, join, IdOf(rows[j])),
          Bare(s, {}, rows[j]))[k]
    {
      assert nodes[k] in Members(nodes, ids, join, IdOf(rows[j])) <==>
        LastIndex(ids, ids[k]) == Some(k) && Linked(join, ids[k], IdOf(rows[j]));
    }
  }

  lemma MembersAreNodes(nodes: seq<Entity>, ids: seq<int>, join: seq<JoinRow>, nids: map<int, set<Entity>>, g: int)
    requires |ids| == |nodes| && Membership(nodes, ids, join, nids) && g in nids
    ensures nids[g] == Members(nodes, ids, join, g) && forall x :: x in nids[g] ==> x in nodes
  {
  }

  /** Spreads the groups over the nodes they are joined to; a group without an entry is an error. */
  method SpreadGroups(e: Edge, nodes: seq<Entity>, ghost ids: seq<int>, ghost join: seq<JoinRow>,
                      nids: map<int, set<Entity>>,
                      neighbors: seq<Entity>, ghost s: Settings, ghost rows: seq<Row>, ghost before: seq<ObjectTree>,
                      ghost G: set<Entity>)
    returns (r: Outcome)
    requires Ready(nodes, G) && NoDuplicates(nodes) && |ids| == |nodes| && Membership(nodes, ids, join, nids)
    requires (forall n :: n in neighbors ==> n in G)
    requires Views(neighbors) == Bares(s, {}, rows) && NodeIds(neighbors) == Ids(rows)
    requires ListedAs(e, before, Views(nodes), NoShares(|nodes|))
    modifies nodes
    ensures Ready(nodes, G)
    ensures r.Fail? ==> r.error.UnexpectedNode? && r.error.id in Ids(rows) && r.error.id !in nids
    ensures r.Pass? ==> ListedAs(e, before, Views(nodes), GroupShares(s, join, ids, rows))
  {
    assert forall n :: n in neighbors ==> n !in nodes;
    hide *;
    GroupSharesStart(s, join, ids);
    assert rows[..0] == [];
    for j := 0 to |neighbors|
      invariant Ready(nodes, G)
      invariant ListedAs(e, before, Views(nodes), GroupShares(s, join, ids, rows[..j]))
    {
      var n := neighbors[j];
      var g := IdOf(n.fields);
      assert n in neighbors && n.view == old(n.view) && n.fields == old(n.fields);
      assert g == Ids(rows)[j] && n.view == Bare(s, {}, rows[j]);
      if g !in nids {
        return Fail(UnexpectedNode(g));
      }
      MembersAreNodes(nodes, ids, join, nids, g);
      GroupSharesStep(s, join, nodes, ids, rows, j);
      AppendToMembers(e, n, nodes, nids[g], Bare(s, {}, rows[j]), before, GroupShares(s, join, ids, rows[..j]), G);
    }
    assert rows[..|neighbors|] == rows;
    r := Pass;
  }

  lemma GroupsAreLoaded(db: Database, q: QueryTree, e: Edge, ids: seq<int>, before: seq<ObjectTree>,
                        after: seq<ObjectTree>)
    requires e.kind.M2M? && |before| == |after| == |ids|
    requires
      var s := LoadSettings(e, q.settings, ids);
      ListedAs(e, before, after, GroupShares(s, JoinRows(db, s), ids, FirstRows(JoinRows(db, s))))
    ensures ListsLoaded(db, q, e, ids, before, after)
  {
  }

  /** Turns the join rows into groups and hands them to the nodes. */
  method FinishM2M(e: Edge, nodes: seq<Entity>, byID: map<int, Entity>, s: Settings, join: seq<JoinRow>,
                   ghost ids: seq<int>, ghost before: seq<ObjectTree>, ghost G0: set<Entity>)
    returns (r: Outcome, ghost G: set<Entity>)
    requires HasId(s.typ) && Ready(nodes, G0) && |ids| == |nodes| && FiledById(nodes, ids, byID)
    requires ListedAs(e, before, Views(nodes), NoShares(|nodes|)) && forall j :: j in join ==> j.owner in ids
    modifies nodes
    ensures r.Pass? && fresh(G) && Closed(G) && Ready(nodes, G0 + G)
    ensures ListedAs(e, before, Views(nodes), GroupShares(s, join, ids, FirstRows(join)))
  {
    assert NoDuplicates(nodes);
    hide *;
    var rows, nids := ScanJoin(join, byID, nodes, ids);
    var neighbors := Scan(s, {}, rows);
    G := ScannedEntities(s, rows, neighbors);
    ReadyGrows(nodes, G0, G);
    forall g | g in Ids(rows)
      ensures g in nids
    {
      SeenGroup(nodes, ids, join, nids, g);
    }
    r := SpreadGroups(e, nodes, ids, join, nids, neighbors, s, rows, before, G0 + G);
  }

  /** Entities without edges are closed. */
  lemma ScannedEntities(s: Settings, rows: seq<Row>, nodes: seq<Entity>) returns (G: set<Entity>)
    requires HasId(s.typ) && Views(nodes) == Bares(s, {}, rows)
    requires forall n :: n in nodes ==> n.targets == {} && n.Ok()
    ensures (forall n :: n in G <==> n in nodes) && Closed(G)
    ensures NodeIds(nodes) == Ids(rows)
  {
    forall i | 0 <= i < |nodes|
      ensures IdOf(nodes[i].fields) == IdOf(rows[i])
    {
      assert nodes[i] in nodes && nodes[i].view == Bare(s, {}, rows[i]);
      ColumnsSuffice(rows[i], s, {}, GROUPS);
    }
    G := set n | n in nodes;
  }

  ghost function NoEntities(nodes: seq<Entity>, G: set<Entity>): (none: set<Entity>)
    requires Ready(nodes, G)
    reads nodes, G
    ensures none == {} && Closed(none) && Ready(nodes, G + none)
  {
    assert G + {} == G;
    {}
  }

  // ---------------------------------------------------------------- what a subquery has found

  /** The entities a restricted subquery has found, and the keys they carry. */
  ghost predicate Fetched(db: Database, e: Edge, q: QueryTree, keys: seq<int>, found: seq<Entity>, G: set<Entity>)
    reads found
  {
    && (forall n :: n in found ==> n in G)
    && if e.kind.M2O? && keys == [] then found == [] else
         var s := LoadSettings(e, q.settings, keys);
         && Views(found) == Batch(db, s, q.withs)
         && (e.kind.M2O? ==>
               NodeIds(found) == Ids(Read(db, s, q.withs.of.Keys)) && forall i :: i in NodeIds(found) ==> i in keys)
         && (e.kind.O2M? ==>
               && NodeFks(e, found) == Fks(e, Read(db, s, q.withs.of.Keys))
               && forall j :: 0 <= j < |found| ==> OwnedBy(NodeFks(e, found), keys, j))
  }

  /** Points the nodes at the entities found. */
  method FinishM2O(e: Edge, nodes: seq<Entity>, nodeids: map<int, seq<Entity>>, keys: seq<int>, found: seq<Entity>,
                   ghost db: Database, ghost q: QueryTree, ghost fks: seq<Option<int>>, ghost before: seq<ObjectTree>,
                   ghost more: set<Entity>, ghost G: set<Entity>)
    returns (r: Outcome)
    requires e.kind.M2O? && Ready(nodes, G) && before == Views(nodes) && more <= G
    requires |fks| == |nodes| && GroupedByKey(nodes, fks, nodeids) && keys == DistinctKeys(fks)
    requires Fetched(db, e, q, keys, found, more)
    modifies nodes
    ensures r.Pass? && Ready(nodes, G)
    ensures SinglesLoaded(db, q, e, keys, fks, before, Views(nodes))
  {
    hide *;
    ghost var nids, ts := FoundSingles(db, e, q, fks, found, more);
    r := SpreadSingles(e, nodes, fks, nodeids, found, nids, G);
    if keys == [] {
      NothingToLoad(db, q, e, fks, before, Views(nodes));
    } else {
      PointedIsLoaded(db, q, e, keys, fks, before, Views(nodes));
    }
  }

  lemma FoundSingles(db: Database, e: Edge, q: QueryTree, fks: seq<Option<int>>, found: seq<Entity>, more: set<Entity>)
    returns (nids: seq<int>, ts: seq<ObjectTree>)
    requires e.kind.M2O? && Fetched(db, e, q, DistinctKeys(fks), found, more)
    ensures (forall n :: n in found ==> n in more) && nids == NodeIds(found) && ts == Views(found)
    ensures forall j :: 0 <= j < |found| ==> Some(nids[j]) in fks
    ensures
      var s := LoadSettings(e, q.settings, DistinctKeys(fks));
      if DistinctKeys(fks) == [] then found == [] else
        ts == Batch(db, s, q.withs) && nids == Ids(Read(db, s, q.withs.of.Keys))
  {
    nids, ts := NodeIds(found), Views(found);
    hide LoadSettings, Batch, Read;
    forall j | 0 <= j < |found|
      ensures Some(nids[j]) in fks
    {
      assert nids[j] in nids && nids[j] in DistinctKeys(fks);
    }
  }

  /** Appends the entities found to the lists of the nodes. */
  method FinishO2M(e: Edge, nodes: seq<Entity>, byID: map<int, Entity>, found: seq<Entity>, ghost db: Database,
                   ghost q: QueryTree, ghost ids: seq<int>, ghost before: seq<ObjectTree>,
                   ghost more: set<Entity>, ghost G: set<Entity>)
    returns (r: Outcome)
    requires e.kind.O2M? && Ready(nodes, G) && more <= G && |ids| == |nodes| && FiledById(nodes, ids, byID)
    requires ListedAs(e, before, Views(nodes), NoShares(|nodes|))
    requires Fetched(db, e, q, ids, found, more)
    modifies nodes
    ensures r.Pass? && Ready(nodes, G)
    ensures ListsLoaded(db, q, e, ids, before, Views(nodes))
  {
    assert |before| == |nodes|;
    hide *;
    ghost var fks, ts := FoundLists(db, e, q, ids, found, more);
    r := SpreadLists(e, nodes, ids, byID, found, ts, fks, before, G);
    ListedIsLoaded(db, q, e, ids, before, Views(nodes));
  }

  lemma FoundLists(db: Database, e: Edge, q: QueryTree, ids: seq<int>, found: seq<Entity>, more: set<Entity>)
    returns (fks: seq<Option<int>>, ts: seq<ObjectTree>)
    requires e.kind.O2M? && Fetched(db, e, q, ids, found, more)
    ensures (forall n :: n in found ==> n in more) && fks == NodeFks(e, found) && ts == Views(found)
    ensures forall j :: 0 <= j < |found| ==> OwnedBy(fks, ids, j)
    ensures
      var s := LoadSettings(e, q.settings, ids);
      ts == Batch(db, s, q.withs) && fks == Fks(e, Read(db, s, q.withs.of.Keys))
  {
    fks, ts := NodeFks(e, found), Views(found);
  }
}
