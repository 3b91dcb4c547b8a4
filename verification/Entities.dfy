/** Loaded entities as heap objects, and the tree each of them unfolds to. */
module Entities {
  import opened Collections
  import opened Storage
  import opened QueryTrees

  /** A loaded row. An edge absent from `single` is a nil pointer, one absent from `lists` a nil slice. */
  class Entity {
    const typ: EntityType
    var fields: Row
    var single: map<Edge, Entity>
    var lists: map<Edge, seq<Entity>>
    var loadedTypes: seq<bool>
    ghost var targets: set<Entity>  // every entity an edge points at
    ghost var view: ObjectTree      // the object graph below this entity

    constructor (typ: EntityType, fields: Row, loadedTypes: seq<bool>)
      ensures Ok() && targets == {} && single == map[] && lists == map[]
      ensures view == ObjectTree(typ, fields, map[], map[], loadedTypes)
    {
      this.typ, this.fields, this.loadedTypes := typ, fields, loadedTypes;
      single, lists, targets := map[], map[], {};
      view := ObjectTree(typ, fields, map[], map[], loadedTypes);
    }

    /** The view is what the fields unfold to: one level of the graph, the rest taken from the views of the
        targets. */
    ghost predicate Ok()
      reads this, targets
    {
      && this !in targets
      && (forall e :: e in single ==> single[e] in targets)
      && (forall e, i :: e in lists && 0 <= i < |lists[e]| ==> lists[e][i] in targets)
      && view.typ == typ && view.fields == fields && view.loaded == loadedTypes
      && view.single.Keys == single.Keys
      && (forall e :: e in single ==> view.single[e] == single[e].view)
      && view.lists.Keys == lists.Keys
      && (forall e :: e in lists ==> |view.lists[e].items| == |lists[e]|)
      && (forall e, i :: e in lists && 0 <= i < |lists[e]| ==> view.lists[e].items[i] == lists[e][i].view)
    }

    method SetSingle(e: Edge, m: Entity)
      requires Ok() && m != this
      modifies this
      ensures fields == old(fields) && Ok() && targets == old(targets) + {m}
      ensures view == WithSingle(old(view), e, Some(m.view))
    {
      single, targets := single[e := m], targets + {m};
      view := WithSingle(view, e, Some(m.view));
    }

    method InitList(e: Edge)
      requires Ok()
      modifies this
      ensures fields == old(fields) && Ok() && targets == old(targets)
      ensures view == WithList(old(view), e, [])
    {
      lists := lists[e := []];
      view := WithList(view, e, []);
    }

    method Append(e: Edge, m: Entity)
      requires Ok() && m != this && e in lists
      modifies this
      ensures fields == old(fields) && Ok() && targets == old(targets) + {m}
      ensures view == WithList(old(view), e, old(view.lists[e].items) + [m.view])
    {
      lists, targets := lists[e := lists[e] + [m]], targets + {m};
      view := WithList(view, e, view.lists[e].items + [m.view]);
    }
  }

  function WithSingle(t: ObjectTree, e: Edge, target: Option<ObjectTree>): ObjectTree {
    if target.None? then t else t.(single := t.single[e := target.value])
  }

  function WithList(t: ObjectTree, e: Edge, targets: seq<ObjectTree>): ObjectTree {
    t.(lists := t.lists[e := ObjectList(targets)])
  }

  lemma RelistedOnce(t: ObjectTree, e: Edge, xs: seq<ObjectTree>, ys: seq<ObjectTree>)
    ensures WithList(WithList(t, e, xs), e, ys) == WithList(t, e, ys)
    ensures e in WithList(t, e, xs).lists && WithList(t, e, xs).lists[e].items == xs
  {
  }

  ghost function Views(es: seq<Entity>): (ts: seq<ObjectTree>)
    reads es
    ensures |ts| == |es| && forall i :: 0 <= i < |es| ==> ts[i] == es[i].view
  {
    seq(|es|, i requires 0 <= i < |es| reads es => es[i].view)
  }

  /** A set of entities that points nowhere else and whose views are what their fields unfold to. As views
      are finite trees, the graph has no cycle and its unfolding is the view. */
  ghost predicate Closed(G: set<Entity>)
    reads G
  {
    forall n :: n in G ==> n.targets <= G && n.Ok()
  }

  /** Nodes being filled in: distinct, not yet part of the finished entities `G`, pointing only there. */
  ghost predicate Ready(nodes: seq<Entity>, G: set<Entity>)
    reads nodes, G
  {
    && NoDuplicates(nodes)
    && forall n :: n in nodes ==> n !in G && n.targets <= G && n.Ok()
  }

  lemma ViewedFields(G: set<Entity>, nodes: seq<Entity>)
    requires Closed(G) && forall n :: n in nodes ==> n in G
    ensures forall i :: 0 <= i < |nodes| ==> nodes[i].fields == Views(nodes)[i].fields
  {
    forall i | 0 <= i < |nodes|
      ensures nodes[i].fields == Views(nodes)[i].fields
    {
      assert nodes[i] in nodes && nodes[i].Ok();
    }
  }

  lemma ReadyApart(nodes: seq<Entity>, G: set<Entity>)
    requires Ready(nodes, G)
    ensures NoDuplicates(nodes) && forall n :: n in nodes ==> n !in G
  {
  }

  lemma ReadyCloses(nodes: seq<Entity>, G: set<Entity>) returns (all: set<Entity>)
    requires Closed(G) && Ready(nodes, G)
    ensures (forall n :: n in all <==> n in G || n in nodes) && Closed(all)
  {
    all := G + set n | n in nodes;
  }

  lemma ReadyGrows(nodes: seq<Entity>, G: set<Entity>, more: set<Entity>)
    requires Ready(nodes, G) && forall n :: n in nodes ==> n !in more
    ensures Ready(nodes, G + more)
  {
  }

  ghost function NodeFks(e: Edge, nodes: seq<Entity>): (fks: seq<Option<int>>)
    reads nodes
    ensures |fks| == |nodes| && forall i :: 0 <= i < |nodes| ==> fks[i] == FkOf(e, nodes[i].fields)
  {
    seq(|nodes|, i requires 0 <= i < |nodes| reads nodes => FkOf(e, nodes[i].fields))
  }

  ghost function NodeIds(nodes: seq<Entity>): (ids: seq<int>)
    reads nodes
    ensures |ids| == |nodes| && forall i :: 0 <= i < |nodes| ==> ids[i] == IdOf(nodes[i].fields)
  {
    seq(|nodes|, i requires 0 <= i < |nodes| reads nodes => IdOf(nodes[i].fields))
  }

  /** Allocates one entity per row. */
  method Scan(s: Settings, loaded: set<Edge>, rows: seq<Row>) returns (nodes: seq<Entity>)
    ensures fresh(nodes) && NoDuplicates(nodes)
    ensures Views(nodes) == Bares(s, loaded, rows)
    ensures forall n :: n in nodes ==> n.targets == {} && n.Ok()
  {
    nodes := [];
    for i := 0 to |rows|
      invariant |nodes| == i && fresh(nodes) && NoDuplicates(nodes)
      invariant forall k :: 0 <= k < i ==>
          nodes[k].view == Bare(s, loaded, rows[k]) && nodes[k].targets == {} && nodes[k].Ok()
    {
      var node := new Entity(s.typ, Project(rows[i], s, loaded), Loaded(s.typ, loaded));
      nodes := nodes + [node];
    }
  }
}
