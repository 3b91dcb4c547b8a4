/** The query builders: objects changed in place, each with a context and slices of its own and with one
    optional subquery builder per edge. */
module Builders {
  import opened Collections
  import opened Slices
  import opened Storage
  import opened QueryTrees

  /** One call on a builder, or on one of the builders below it. The options of a With call configure the new
      subquery. */
  datatype Step =
    | Where(ps: seq<Predicate>)
    | Limit(n: nat)
    | Offset(n: nat)
    | Order(os: seq<OrderOption>)
    | Select(columns: seq<string>)
    | Lock(how: Modifier)
    | With(e: Edge, opts: seq<Step>)
    | At(e: Edge, below: Step)

  /** The builder of a type has subqueries for the edges of that type. */
  ghost predicate Legal(t: EntityType, step: Step)
    decreases step
  {
    match step
    case With(e, opts) => e in EdgesOf(t) && forall i :: 0 <= i < |opts| ==> Legal(e.target, opts[i])
    case At(e, below) => e in EdgesOf(t) && Legal(e.target, below)
    case _ => true
  }

  ghost predicate AllLegal(t: EntityType, steps: seq<Step>) {
    forall i :: 0 <= i < |steps| ==> Legal(t, steps[i])
  }

  function NewTree(t: EntityType): QueryTree {
    QueryTree(Settings(t, [], None, None, [], [], []), Subqueries(map[]))
  }

  function WithSettings(t: QueryTree, s: Settings): QueryTree {
    t.(settings := s)
  }

  function WithSubquery(t: QueryTree, e: Edge, sub: QueryTree): QueryTree {
    t.(withs := Subqueries(t.withs.of[e := sub]))
  }

  /** What a builder holds after one call. */
  ghost function AfterStep(t: QueryTree, step: Step): (u: QueryTree)
    ensures u.settings.typ == t.settings.typ
    decreases step
  {
    var s := t.settings;
    match step
    case Where(ps) => WithSettings(t, s.(predicates := s.predicates + ps))
    case Limit(n) => WithSettings(t, s.(limit := Some(n)))
    case Offset(n) => WithSettings(t, s.(offset := Some(n)))
    case Order(os) => WithSettings(t, s.(order := s.order + os))
    case Select(columns) => WithSettings(t, s.(fields := s.fields + columns))
    case Lock(how) => WithSettings(t, s.(modifiers := s.modifiers + [how]))
    case With(e, opts) => WithSubquery(t, e, AfterSteps(NewTree(e.target), opts))
    case At(e, below) => if e in t.withs.of then WithSubquery(t, e, AfterStep(t.withs.of[e], below)) else t
  }

  ghost function AfterSteps(t: QueryTree, steps: seq<Step>): (u: QueryTree)
    ensures u.settings.typ == t.settings.typ
    decreases steps
  {
    if steps == [] then t else AfterStep(AfterSteps(t, steps[..|steps| - 1]), steps[|steps| - 1])
  }

  /** A query tree without its row locks. */
  ghost function Unlocked(t: QueryTree): QueryTree
  {
    QueryTree(t.settings.(modifiers := []), Subqueries(map e | e in t.withs.of :: Unlocked(t.withs.of[e])))
  }

  /** The part of a builder that is reached through a pointer. */
  class Context {
    var fields: Slice<string>
    var limit: Option<nat>
    var offset: Option<nat>

    constructor (fields: Slice<string>, limit: Option<nat>, offset: Option<nat>)
      ensures this.fields == fields && this.limit == limit && this.offset == offset
    {
      this.fields, this.limit, this.offset := fields, limit, offset;
    }
  }

  class Query {
    const typ: EntityType
    var ctx: Context
    var order: Slice<OrderOption>
    var predicates: Slice<Predicate>
    var modifiers: Slice<Modifier>
    var withs: map<Edge, Query>
    ghost var own: set<object>    // this builder, its context and its arrays
    ghost var below: set<object>  // all that its subquery builders are made of
    ghost var repr: set<object>   // both
    ghost var tree: QueryTree     // what this builder and those below it hold

    /** The context and the arrays are the builder's alone. */
    ghost predicate Owns()
      reads this, repr
    {
      && this in own && ctx in own && repr == own + below && own !! below
      && Backing(order) <= own && Backing(predicates) <= own && Backing(modifiers) <= own && Backing(ctx.fields) <= own
      && Fits(order) && Fits(predicates) && Fits(modifiers) && Fits(ctx.fields)
    }

    /** What the builder holds besides its subqueries. */
    function Own(): Settings
      requires Fits(order) && Fits(predicates) && Fits(modifiers) && Fits(ctx.fields)
      reads this`ctx, this`order, this`predicates, this`modifiers, ctx
      reads Backing(order), Backing(predicates), Backing(modifiers), Backing(ctx.fields)
    {
      Settings(typ, Contents(ctx.fields), ctx.limit, ctx.offset, Contents(order), Contents(predicates),
        Contents(modifiers))
    }

    ghost predicate Valid()
      reads this, repr
      ensures Valid() ==> this in repr
      decreases repr, 0
    {
      && Owns() && Own() == tree.settings
      && Subs(typ, withs, tree.withs.of, below)
    }

    lemma Assembled()
      requires this in own && ctx in own && repr == own + below && own !! below
      requires Backing(order) <= own && Backing(predicates) <= own && Backing(modifiers) <= own
      requires Backing(ctx.fields) <= own
      requires Fits(order) && Fits(predicates) && Fits(modifiers) && Fits(ctx.fields) && Own() == tree.settings
      requires Subs(typ, withs, tree.withs.of, below)
      ensures Valid()
    {
    }

    lemma OwnIsHeld()
      requires Valid()
      ensures Fits(order) && Fits(predicates) && Fits(modifiers) && Fits(ctx.fields) && Own() == tree.settings
    {
      hide Subs;
    }

    lemma OwnPart()
      requires Valid()
      ensures own <= repr && typ == tree.settings.typ
    {
      hide Subs;
    }

    constructor (typ: EntityType)
      ensures Valid() && fresh(repr) && this.typ == typ && tree == NewTree(typ)
    {
      this.typ := typ;
      ctx := new Context(Nil, None, None);
      order, predicates, modifiers, withs := Nil, Nil, Nil, map[];
      new;
      own, below, repr, tree := {this, ctx}, {}, {this, ctx}, NewTree(typ);
    }

    /** Takes note of what the builder now holds of its own. */
    ghost method Regrown(s: Settings, more: set<object>)
      requires this in own && ctx in own && repr == own + below && own !! below && more !! below
      requires Backing(order) <= own + more && Backing(predicates) <= own + more
      requires Backing(modifiers) <= own + more && Backing(ctx.fields) <= own + more
      requires Fits(order) && Fits(predicates) && Fits(modifiers) && Fits(ctx.fields) && Own() == s
      requires Subs(typ, withs, tree.withs.of, below)
      modifies this`own, this`repr, this`tree
      ensures Valid() && own == old(own) + more && repr == old(repr) + more && tree == WithSettings(old(tree), s)
    {
      hide *;
      OtherFields();
      SettingsParts(tree, s);
      own, repr, tree := own + more, own + more + below, WithSettings(tree, s);
      Assembled();
    }

    lemma OtherFields()
      ensures this !in Backing(order) && this !in Backing(predicates) && this !in Backing(modifiers)
      ensures this !in Backing(ctx.fields) && ctx !in Backing(ctx.fields)
      ensures ctx !in Backing(order) && ctx !in Backing(predicates) && ctx !in Backing(modifiers)
      ensures Backing(order) !! Backing(predicates) && Backing(order) !! Backing(modifiers)
      ensures Backing(order) !! Backing(ctx.fields) && Backing(predicates) !! Backing(modifiers)
      ensures Backing(predicates) !! Backing(ctx.fields) && Backing(modifiers) !! Backing(ctx.fields)
    {
    }

    lemma Parts()
      requires Valid()
      ensures this in own && ctx in own && repr == own + below && own !! below
      ensures Backing(order) <= own && Backing(predicates) <= own && Backing(modifiers) <= own
      ensures Backing(ctx.fields) <= own
      ensures Fits(order) && Fits(predicates) && Fits(modifiers) && Fits(ctx.fields) && Own() == tree.settings
      ensures Subs(typ, withs, tree.withs.of, below)
    {
    }

    lemma OwnIs()
      requires Fits(order) && Fits(predicates) && Fits(modifiers) && Fits(ctx.fields)
      ensures Own() == Settings(typ, Contents(ctx.fields), ctx.limit, ctx.offset, Contents(order), Contents(predicates),
                                Contents(modifiers))
    {
    }

    method Where(ps: seq<Predicate>)
      requires Valid()
      modifies own
      ensures Valid() && withs == old(withs) && below == old(below) && fresh(own - old(own)) && fresh(repr - old(repr))
      ensures tree == WithSettings(old(tree), old(tree.settings).(predicates := old(tree.settings.predicates) + ps))
    {
      hide *;
      Parts();
      OtherFields();
      OwnIs();
      predicates := Append(predicates, ps);
      OwnIs();
      Regrown(tree.settings.(predicates := tree.settings.predicates + ps), Backing(predicates));
    }

    method OrderBy(os: seq<OrderOption>)
      requires Valid()
      modifies own
      ensures Valid() && withs == old(withs) && below == old(below) && fresh(own - old(own)) && fresh(repr - old(repr))
      ensures tree == WithSettings(old(tree), old(tree.settings).(order := old(tree.settings.order) + os))
    {
      hide *;
      Parts();
      OtherFields();
      OwnIs();
      order := Append(order, os);
      OwnIs();
      Regrown(tree.settings.(order := tree.settings.order + os), Backing(order));
    }

    method Modify(m: Modifier)
      requires Valid()
      modifies own
      ensures Valid() && withs == old(withs) && below == old(below) && fresh(own - old(own)) && fresh(repr - old(repr))
      ensures tree == WithSettings(old(tree), old(tree.settings).(modifiers := old(tree.settings.modifiers) + [m]))
    {
      hide *;
      Parts();
      OtherFields();
      OwnIs();
      modifiers := Append(modifiers, [m]);
      OwnIs();
      Regrown(tree.settings.(modifiers := tree.settings.modifiers + [m]), Backing(modifiers));
    }

    method Select(columns: seq<string>)
      requires Valid()
      modifies own
      ensures Valid() && withs == old(withs) && below == old(below) && fresh(own - old(own)) && fresh(repr - old(repr))
      ensures tree == WithSettings(old(tree), old(tree.settings).(fields := old(tree.settings.fields) + columns))
    {
      hide *;
      Parts();
      OtherFields();
      OwnIs();
      ctx.fields := Append(ctx.fields, columns);
      OwnIs();
      Regrown(tree.settings.(fields := tree.settings.fields + columns), Backing(ctx.fields));
    }

    /** Selects a column unless it is selected already or no column is. */
    method AppendFieldOnce(column: string)
      requires Valid()
      modifies own
      ensures Valid() && withs == old(withs) && below == old(below) && fresh(own - old(own)) && fresh(repr - old(repr))
      ensures
        var s := old(tree.settings);
        tree == WithSettings(old(tree), s.(fields := if s.fields == [] then [] else AddOnce(s.fields, column)))
    {
      HeldFields();
      hide Valid, Own;
      var fields := Contents(ctx.fields);
      if fields != [] && column !in fields {
        Select([column]);
      }
    }

    lemma HeldFields()
      requires Valid()
      ensures Fits(ctx.fields) && Contents(ctx.fields) == tree.settings.fields
    {
      hide Subs;
    }

    method SetLimit(n: nat)
      requires Valid()
      modifies own
      ensures Valid() && withs == old(withs) && below == old(below) && own == old(own) && repr == old(repr)
      ensures tree == WithSettings(old(tree), old(tree.settings).(limit := Some(n)))
    {
      hide *;
      Parts();
      OtherFields();
      OwnIs();
      ctx.limit := Some(n);
      OwnIs();
      Regrown(tree.settings.(limit := Some(n)), {});
    }

    method SetOffset(n: nat)
      requires Valid()
      modifies own
      ensures Valid() && withs == old(withs) && below == old(below) && own == old(own) && repr == old(repr)
      ensures tree == WithSettings(old(tree), old(tree.settings).(offset := Some(n)))
    {
      hide *;
      Parts();
      OtherFields();
      OwnIs();
      ctx.offset := Some(n);
      OwnIs();
      Regrown(tree.settings.(offset := Some(n)), {});
    }

    // -------------------------------------------------------------- one subquery at a time

    /** All of the builder but one subquery: its own objects, and the other subqueries made of `others`. */
    ghost predicate Beside(e: Edge, others: set<object>)
      reads this, own, others
    {
      && this in own && ctx in own && own !! others
      && Backing(order) <= own && Backing(predicates) <= own && Backing(modifiers) <= own && Backing(ctx.fields) <= own
      && Fits(order) && Fits(predicates) && Fits(modifiers) && Fits(ctx.fields) && Own() == tree.settings
      && Subs(typ, withs - {e}, tree.withs.of - {e}, others)
      && e in withs && e in EdgesOf(typ) && withs[e].typ == e.target
    }

    lemma Split(e: Edge) returns (others: set<object>)
      requires Valid() && e in withs
      ensures Beside(e, others) && this in own && own + others <= repr && withs[e].repr <= repr
      ensures (own + others) !! withs[e].repr
      ensures e in tree.withs.of && withs[e].Valid() && withs[e].tree == tree.withs.of[e] && withs[e].repr < repr
      ensures withs[e].typ == e.target && e in EdgesOf(typ)
    {
      others := OtherObjects(typ, withs, tree.withs.of, below, e);
      hide Subs, Own;
    }

    lemma BesideParts(e: Edge, others: set<object>)
      requires Beside(e, others)
      ensures this in own && ctx in own && own !! others
      ensures Backing(order) <= own && Backing(predicates) <= own && Backing(modifiers) <= own
      ensures Backing(ctx.fields) <= own
      ensures Fits(order) && Fits(predicates) && Fits(modifiers) && Fits(ctx.fields) && Own() == tree.settings
      ensures Subs(typ, withs - {e}, tree.withs.of - {e}, others)
      ensures e in withs && e in EdgesOf(typ) && withs[e].typ == e.target
    {
    }

    /** Takes note of what one subquery now holds. */
    ghost method Rejoin(e: Edge, sub: Query, others: set<object>)
      requires e in withs && sub == withs[e] && Beside(e, others) && sub.Valid() && (own + others) !! sub.repr
      modifies this`below, this`repr, this`tree
      ensures Valid() && repr == own + others + sub.repr
      ensures tree == WithSubquery(old(tree), e, sub.tree)
    {
      hide *;
      BesideParts(e, others);
      OtherFields();
      SubqueryParts(tree, e, sub.tree);
      ghost var all := Together(typ, withs, tree.withs.of, others, e);
      ghost var t := WithSubquery(tree, e, sub.tree);
      below := all;
      repr, tree := own + all, t;
      Assembled();
    }

    // -------------------------------------------------------------- calls and clones

    /** A builder around a context, slices and subquery builders that are new and its own. */
    constructor Of(typ: EntityType, ctx: Context, order: Slice<OrderOption>, predicates: Slice<Predicate>,
                   withs: map<Edge, Query>, ghost below: set<object>, ghost t: QueryTree)
      requires Fits(order) && Fits(predicates) && Fits(ctx.fields) && ctx !in below
      requires Backing(order) !! below && Backing(predicates) !! below && Backing(ctx.fields) !! below
      requires Subs(typ, withs, t.withs.of, below)
      requires t.settings ==
        Settings(typ, Contents(ctx.fields), ctx.limit, ctx.offset, Contents(order), Contents(predicates), [])
      ensures Valid() && this.typ == typ && tree == t && this.withs == withs && this.below == below
      ensures repr == {this, ctx} + Backing(order) + Backing(predicates) + Backing(ctx.fields) + below
    {
      this.typ, this.ctx, this.order, this.predicates, this.withs := typ, ctx, order, predicates, withs;
      modifiers := Nil;
      own := {this, ctx} + Backing(order) + Backing(predicates) + Backing(ctx.fields);
      this.below, tree := below, t;
      new;
      repr := own + below;
      hide Subs;
    }

    /** Makes a new builder the subquery of an edge, in place of the one there was. */
    method Attach(e: Edge, sub: Query)
      requires Valid() && sub.Valid() && e in EdgesOf(typ) && sub.typ == e.target && sub.repr !! repr
      modifies this
      ensures Valid() && tree == WithSubquery(old(tree), e, sub.tree) && repr <= old(repr) + sub.repr
    {
      hide *;
      Parts();
      ghost var others := WithoutSub(typ, withs, tree.withs.of, below, e, sub);
      SubqueryParts(tree, e, sub.tree);
      OtherFields();
      ghost var t := WithSubquery(tree, e, sub.tree);
      withs := withs[e := sub];
      below := others;
      repr, tree := own + others, t;
      Assembled();
    }

    /** Configures a new builder and makes it the subquery of an edge. */
    method AddSubquery(e: Edge, opts: seq<Step>)
      requires Valid() && e in EdgesOf(typ) && AllLegal(e.target, opts)
      modifies this
      ensures Valid() && fresh(repr - old(repr))
      ensures tree == WithSubquery(old(tree), e, AfterSteps(NewTree(e.target), opts))
      decreases opts, 1
    {
      hide *;
      var sub := new Query(e.target);
      sub.DoAll(opts);
      Attach(e, sub);
    }

    /** One call on the builder. */
    method Do(step: Step)
      requires Valid() && Legal(typ, step)
      modifies repr
      ensures Valid() && fresh(repr - old(repr))
      ensures tree == AfterStep(old(tree), step)
      decreases step, 0
    {
      OwnPart();
      hide Valid, WithSettings, WithSubquery, EdgesOf;
      match step {
        case Where(ps) => Where(ps);
        case Limit(n) => SetLimit(n);
        case Offset(n) => SetOffset(n);
        case Order(os) => OrderBy(os);
        case Select(columns) => Select(columns);
        case Lock(how) => Modify(how);
        case With(e, opts) => AddSubquery(e, opts);
        case At(e, below) => DoAt(e, below);
      }
    }

    /** A call on the subquery builder of an edge, if there is one. */
    method DoAt(e: Edge, step: Step)
      requires Valid() && Legal(e.target, step)
      modifies repr
      ensures Valid() && fresh(repr - old(repr))
      ensures tree ==
        if e in old(tree.withs.of) then WithSubquery(old(tree), e, AfterStep(old(tree.withs.of[e]), step))
        else old(tree)
      decreases step, 1
    {
      hide *;
      KeysOfSchema();
      if e in withs {
        ghost var others := Split(e);
        BesideParts(e, others);
        withs[e].Do(step);
        Rejoin(e, withs[e], others);
      }
    }

    method DoAll(steps: seq<Step>)
      requires Valid() && AllLegal(typ, steps)
      modifies repr
      ensures Valid() && fresh(repr - old(repr))
      ensures tree == AfterSteps(old(tree), steps)
      decreases steps, 0
    {
      hide Valid;
      for i := 0 to |steps|
        invariant Valid() && fresh(repr - old(repr))
        invariant tree == AfterSteps(old(tree), steps[..i])
      {
        assert steps[..i + 1][..i] == steps[..i];
        Do(steps[i]);
      }
      assert steps[..|steps|] == steps;
    }

    /** A builder only ever has subqueries that the schema allows. */
    lemma {:induction false} IsWellFormed()
      requires Valid()
      ensures tree.settings.typ == typ && WellFormed(typ, tree.withs)
      decreases repr
    {
      Parts();
      OwnIs();
      KeysOfSchema();
      forall e | e in tree.withs.of
        ensures e in EdgesOf(typ) && tree.withs.of[e].settings.typ == e.target
        ensures WellFormed(e.target, tree.withs.of[e].withs)
      {
        hide *;
        var _ := Split(e);
        withs[e].IsWellFormed();
      }
      hide *;
      WellFormedBelow(typ, tree.withs);
    }

    lemma KeysOfSchema()
      requires Valid()
      ensures withs.Keys == tree.withs.of.Keys && forall e :: e in withs ==> e in EdgesOf(typ)
    {
      forall e | e in withs
        ensures e in EdgesOf(typ)
      {
        assert Sub(typ, withs[e], e, tree.withs.of[e], below);
      }
    }

    /** A copy of the builder and, recursively, of its subqueries; row locks are not copied. */
    method Clone(ghost t: QueryTree) returns (c: Query)
      requires Valid() && t == tree
      ensures c.Valid() && fresh(c.repr) && c.typ == typ && c.tree == Unlocked(t)
      decreases t, 1
    {
      hide *;
      UnlockedFacts(t);
      var subs: map<Edge, Query>, all := CloneSubs(t);
      var context, os, ps := CopyOwn();
      c := new Query.Of(typ, context, os, ps, subs, all, Unlocked(t));
    }

    /** Copies the context and the slices; the row locks stay behind. */
    method CopyOwn() returns (context: Context, os: Slice<OrderOption>, ps: Slice<Predicate>)
      requires Valid()
      ensures Fits(os) && Fits(ps) && Fits(context.fields)
      ensures fresh(context) && fresh(Backing(os)) && fresh(Backing(ps)) && fresh(Backing(context.fields))
      ensures
        Settings(typ, Contents(context.fields), context.limit, context.offset, Contents(os), Contents(ps), []) ==
          tree.settings.(modifiers := [])
    {
      Parts();
      OwnIs();
      hide Valid, Owns, Subs, Own, Contents;
      var fields := Copy(ctx.fields);
      context := new Context(fields, ctx.limit, ctx.offset);
      os := Copy(order);
      ps := Copy(predicates);
    }

    /** Clones the subqueries. */
    method CloneSubs(ghost t: QueryTree) returns (subs: map<Edge, Query>, ghost all: set<object>)
      requires Valid() && t == tree
      ensures Subs(typ, subs, Unlocked(t).withs.of, all) && fresh(all)
      decreases t, 0
    {
      hide *;
      KeysOfSchema();
      UnlockedFacts(t);
      var es := EdgesOf(typ);
      subs, all := map[], {};
      ghost var trees: map<Edge, QueryTree> := map[];
      NoSubs(typ);
      for k := 0 to |es|
        invariant Subs(typ, subs, trees, all) && fresh(all)
        invariant forall e :: e in subs <==> e in withs && e in es[..k]
        invariant trees.Keys == subs.Keys && forall e :: e in trees ==>
            e in t.withs.of && trees[e] == Unlocked(t.withs.of[e])
      {
        assert es[..k + 1] == es[..k] + [es[k]];
        var e := es[k];
        if e in withs && e !in subs {
          ghost var _ := Split(e);
          var sub := withs[e].Clone(t.withs.of[e]);
          all := WithoutSub(typ, subs, trees, all, e, sub);
          subs, trees := subs[e := sub], trees[e := sub.tree];
        }
      }
      assert es[..|es|] == es;
      assert trees == Unlocked(t).withs.of;
    }
  }

  lemma UnlockedFacts(t: QueryTree)
    ensures Unlocked(t).settings == t.settings.(modifiers := []) && Unlocked(t).withs.of.Keys == t.withs.of.Keys
    ensures forall e :: e in t.withs.of ==> Unlocked(t).withs.of[e] == Unlocked(t.withs.of[e])
  {
  }

  lemma SettingsParts(t: QueryTree, s: Settings)
    ensures WithSettings(t, s).settings == s && WithSettings(t, s).withs == t.withs
  {
  }

  lemma SubqueryParts(t: QueryTree, e: Edge, sub: QueryTree)
    ensures WithSubquery(t, e, sub).settings == t.settings && WithSubquery(t, e, sub).withs.of == t.withs.of[e := sub]
  {
  }

  /** The objects of all subqueries but one. */
  lemma OtherObjects(t: EntityType, subs: map<Edge, Query>, trees: map<Edge, QueryTree>, all: set<object>, e: Edge)
    returns (others: set<object>)
    requires Subs(t, subs, trees, all) && e in subs
    ensures Subs(t, subs - {e}, trees - {e}, others) && others <= all && others !! subs[e].repr
    ensures subs[e].Valid() && subs[e].repr <= all && e in EdgesOf(t) && subs[e].typ == e.target
    ensures e in trees && subs[e].tree == trees[e]
  {
    others := set f, o | f in subs && f != e && o in subs[f].repr :: o;
  }

  lemma Together(t: EntityType, subs: map<Edge, Query>, trees: map<Edge, QueryTree>, others: set<object>, e: Edge)
    returns (all: set<object>)
    requires Subs(t, subs - {e}, trees - {e}, others) && e in subs && e in EdgesOf(t) && subs[e].typ == e.target
    requires subs[e].Valid() && others !! subs[e].repr
    ensures Subs(t, subs, trees[e := subs[e].tree], all) && all == others + subs[e].repr
  {
    hide Query.Valid, EdgesOf;
    all := others + subs[e].repr;
    var trees' := trees[e := subs[e].tree];
    forall f | f in subs
      ensures f in trees' && Sub(t, subs[f], f, trees'[f], all) && (f != e ==> subs[f].repr <= others)
    {
      assert f != e ==> f in subs - {e};
    }
    forall f | f in trees'
      ensures f in subs
    {
      assert f != e ==> f in trees - {e} && f in subs - {e};
    }
    forall f, g | f in subs && g in subs && f != g
      ensures subs[f].repr !! subs[g].repr
    {
      assert f != e ==> f in subs - {e};
      assert g != e ==> g in subs - {e};
    }
    hide Sub;
  }

  /** The objects of the subqueries once one is replaced or added. */
  lemma WithoutSub(t: EntityType, subs: map<Edge, Query>, trees: map<Edge, QueryTree>, all: set<object>, e: Edge,
                   sub: Query)
    returns (more: set<object>)
    requires Subs(t, subs, trees, all) && e in EdgesOf(t) && sub.typ == e.target && sub.Valid() && sub.repr !! all
    ensures Subs(t, subs[e := sub], trees[e := sub.tree], more) && more <= all + sub.repr
  {
    hide *;
    KeysAgree(t, subs, trees, all);
    var others := all;
    if e in subs {
      others := OtherObjects(t, subs, trees, all, e);
    }
    SameRest(subs, e, sub);
    SameRest(trees, e, sub.tree);
    more := Together(t, subs[e := sub], trees[e := sub.tree], others, e);
    assert trees[e := sub.tree][e := sub.tree] == trees[e := sub.tree];
  }

  lemma SameRest<T>(m: map<Edge, T>, e: Edge, x: T)
    ensures m[e := x] - {e} == m - {e} && (e !in m ==> m - {e} == m)
  {
  }

  lemma KeysAgree(t: EntityType, subs: map<Edge, Query>, trees: map<Edge, QueryTree>, all: set<object>)
    requires Subs(t, subs, trees, all)
    ensures trees.Keys == subs.Keys
  {
  }

  lemma NoSubs(t: EntityType)
    ensures Subs(t, map[], map[], {})
  {
  }

  /** A builder for an edge, made of some of the objects and holding its subquery. */
  ghost predicate Sub(t: EntityType, sub: Query, e: Edge, tree: QueryTree, all: set<object>)
    reads all
    decreases all, 1
  {
    e in EdgesOf(t) && sub in all && sub.typ == e.target && sub.repr <= all && sub.Valid() && sub.tree == tree
  }

  /** Builders for edges of a type, each made of objects of its own and holding its subquery. */
  ghost predicate Subs(t: EntityType, subs: map<Edge, Query>, trees: map<Edge, QueryTree>, all: set<object>)
    reads all
    decreases all, 2
  {
    && trees.Keys == subs.Keys
    && (forall e :: e in subs ==> Sub(t, subs[e], e, trees[e], all))
    && (forall e, f :: e in subs && f in subs && e != f ==> subs[e].repr !! subs[f].repr)
  }

  lemma WellFormedBelow(t: EntityType, w: Subqueries)
    requires forall e :: e in w.of ==>
      e in EdgesOf(t) && w.of[e].settings.typ == e.target && WellFormed(e.target, w.of[e].withs)
    ensures WellFormed(t, w)
  {
  }

  // ---------------------------------------------------------------- what the calls mean for the subqueries

  /** A call on a subquery builder does what one more option of its With call would have done. */
  lemma CallBelowIsOption(t: QueryTree, e: Edge, opts: seq<Step>, step: Step)
    ensures AfterStep(AfterStep(t, With(e, opts)), At(e, step)) == AfterStep(t, With(e, opts + [step]))
  {
    assert (opts + [step])[..|opts|] == opts && (opts + [step])[|opts|] == step;
    var sub := AfterSteps(NewTree(e.target), opts);
    assert t.withs.of[e := sub][e := AfterStep(sub, step)] == t.withs.of[e := AfterStep(sub, step)];
  }

  /** Of two With calls for one edge the later counts. */
  lemma LaterWithCounts(t: QueryTree, e: Edge, a: seq<Step>, b: seq<Step>)
    ensures AfterStep(AfterStep(t, With(e, a)), With(e, b)) == AfterStep(t, With(e, b))
  {
    var x, y := AfterSteps(NewTree(e.target), a), AfterSteps(NewTree(e.target), b);
    assert t.withs.of[e := x][e := y] == t.withs.of[e := y];
  }

  /** Without options a With call asks for all rows of the target, with all columns and no edges, in no order. */
  lemma PlainWith(db: Database, t: QueryTree, e: Edge)
    ensures
      var sub := AfterStep(t, With(e, [])).withs.of[e];
      sub.settings.typ == e.target && Rows(db, sub.settings) == db.table(e.target, []) &&
        sub.settings.fields == [] && sub.settings.modifiers == [] && sub.withs.of == map[]
  {
    var s := NewTree(e.target).settings;
    FilterAll(db.table(e.target, []), (r: Row) => HoldsAll(s.predicates, r, None));
  }

  // ---------------------------------------------------------------- what the calls mean for the rows

  lemma HoldsBoth(a: seq<Predicate>, b: seq<Predicate>, row: Row)
    ensures HoldsAll(a + b, row, None) <==> HoldsAll(a, row, None) && HoldsAll(b, row, None)
  {
    assert forall i :: 0 <= i < |a| ==> (a + b)[i] == a[i];
    assert forall i :: 0 <= i < |b| ==> (a + b)[|a| + i] == b[i];
  }

  /** Where keeps, of the rows of an unpaged query, those that satisfy the added predicates, in their order. */
  lemma WhereFilters(db: Database, t: QueryTree, ps: seq<Predicate>)
    requires t.settings.limit.None? && t.settings.offset.None?
    ensures Rows(db, AfterStep(t, Where(ps)).settings) ==
        Filter(Rows(db, t.settings), (r: Row) => HoldsAll(ps, r, None))
  {
    var s := t.settings;
    forall r: Row
      ensures HoldsAll(s.predicates + ps, r, None) <==> HoldsAll(s.predicates, r, None) && HoldsAll(ps, r, None)
    {
      HoldsBoth(s.predicates, ps, r);
    }
    FilterOfFilter(db.table(s.typ, s.order), (r: Row) => HoldsAll(s.predicates, r, None),
                   (r: Row) => HoldsAll(ps, r, None), (r: Row) => HoldsAll(s.predicates + ps, r, None));
  }

  /** A condition added by Where keeps the rows that meet it. */
  lemma WhereKeeps(db: Database, t: QueryTree, holds: Row -> bool)
    requires t.settings.limit.None? && t.settings.offset.None?
    ensures Rows(db, AfterStep(t, Where([Custom(holds)])).settings) == Filter(Rows(db, t.settings), holds)
  {
    var ps := [Custom(holds)];
    WhereFilters(db, t, ps);
    forall r: Row
      ensures HoldsAll(ps, r, None) <==> holds(r)
    {
      assert Holds(ps[0], r, None) <==> holds(r);
    }
    FilterSame(Rows(db, t.settings), (r: Row) => HoldsAll(ps, r, None), holds);
  }

  /** The rows of the first `k` pages of `n`, one page after the other. */
  ghost function Pages(db: Database, t: QueryTree, n: nat, k: nat): seq<Row> {
    if k == 0 then []
    else Pages(db, t, n, k - 1) + Rows(db, AfterSteps(t, [Limit(n), Offset((k - 1) * n)]).settings)
  }

  lemma TwoSteps(t: QueryTree, a: Step, b: Step)
    ensures AfterSteps(t, [a, b]) == AfterStep(AfterStep(t, a), b)
  {
    var both, one := [a, b], [a];
    assert both[..1] == one && one[..0] == [];
    assert AfterSteps(t, one) == AfterStep(AfterSteps(t, one[..0]), a);
    assert AfterSteps(t, both) == AfterStep(AfterSteps(t, both[..1]), b);
  }

  lemma OnePage(db: Database, t: QueryTree, n: nat, m: nat)
    requires t.settings.limit.None? && t.settings.offset.None? && 0 < n
    ensures
      var rows := Rows(db, t.settings);
      Rows(db, AfterSteps(t, [Limit(n), Offset(m)]).settings) ==
        if |rows| <= m then [] else if |rows| <= m + n then rows[m..] else rows[m..m + n]
  {
    TwoSteps(t, Limit(n), Offset(m));
    var rows := Rows(db, t.settings);
    if m + n < |rows| {
      assert rows[m..][..n] == rows[m..m + n];
    }
  }

  /** Consecutive pages of a fixed size partition the rows: put together they are the rows of the unpaged query,
      in order, none twice and none left out, up to the end of the last page. */
  lemma {:induction false} PagesPartition(db: Database, t: QueryTree, n: nat, k: nat)
    requires t.settings.limit.None? && t.settings.offset.None? && 0 < n
    ensures
      var rows := Rows(db, t.settings);
      Pages(db, t, n, k) == if k * n < |rows| then rows[..k * n] else rows
  {
    hide Rows, AfterSteps;
    if k == 0 {
      assert k * n == 0;
    } else {
      PageEnds(n, k);
      PagesPartition(db, t, n, k - 1);
      OnePage(db, t, n, (k - 1) * n);
      hide *;
      NextStretch(Rows(db, t.settings), (k - 1) * n, n);
    }
  }

  lemma PageEnds(n: nat, k: nat)
    requires 0 < k
    ensures 0 <= (k - 1) * n && (k - 1) * n + n == k * n
  {
  }

  lemma NextStretch<T>(xs: seq<T>, m: nat, n: nat)
    ensures m + n <= |xs| ==> xs[..m] + xs[m..m + n] == xs[..m + n]
    ensures m <= |xs| ==> xs[..m] + xs[m..] == xs && xs + [] == xs
    ensures xs + [] == xs
  {
  }
}
