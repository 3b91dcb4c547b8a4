/** What a clone shares with its original: no object at all, and the graph it loads, but not the row locks. */
module Clones {
  import opened Builders
  import opened Collections
  import opened EagerLoading
  import opened Entities
  import opened Logs
  import opened Spreading
  import opened Storage
  import opened QueryTrees

  /** A clone holds all that the original holds exactly when the original asks for no row lock. */
  lemma {:induction false} CloneIsCompleteIff(t: QueryTree)
    ensures Unlocked(t) == t <==> HoldsNoLock(t)
    decreases t
  {
    var below := Unlocked(t).withs;
    forall e | e in t.withs.of
      ensures below.of[e] == t.withs.of[e] <==> HoldsNoLock(t.withs.of[e])
    {
      CloneIsCompleteIff(t.withs.of[e]);
    }
    assert below.of.Keys == t.withs.of.Keys;
    if HoldsNoLock(t) {
      assert below.of == t.withs.of;
      assert below == t.withs;
    }
  }

  lemma {:induction false} ClonesHoldNoLock(t: QueryTree)
    ensures HoldsNoLock(Unlocked(t))
    decreases t
  {
    forall e | e in t.withs.of
      ensures HoldsNoLock(Unlocked(t.withs.of[e]))
    {
      ClonesHoldNoLock(t.withs.of[e]);
    }
  }

  // ---------------------------------------------------------------- calls on two builders

  /** The calls a schedule makes on the first or on the second of two builders. */
  ghost function CallsOn(first: bool, schedule: seq<(bool, Step)>): (steps: seq<Step>) {
    if schedule == [] then []
    else
      var front, last := CallsOn(first, schedule[..|schedule| - 1]), schedule[|schedule| - 1];
      if last.0 == first then front + [last.1] else front
  }

  ghost predicate LegalSchedule(t: EntityType, schedule: seq<(bool, Step)>) {
    forall i :: 0 <= i < |schedule| ==> Legal(t, schedule[i].1)
  }

  lemma CallsStep(first: bool, schedule: seq<(bool, Step)>, i: nat, t: QueryTree)
    requires i < |schedule|
    ensures
      AfterSteps(t, CallsOn(first, schedule[..i + 1])) ==
        if schedule[i].0 == first then AfterStep(AfterSteps(t, CallsOn(first, schedule[..i])), schedule[i].1)
        else AfterSteps(t, CallsOn(first, schedule[..i]))
  {
    assert schedule[..i + 1][..i] == schedule[..i];
    var front := CallsOn(first, schedule[..i]);
    assert (front + [schedule[i].1])[..|front|] == front;
  }

  lemma {:induction false} StepsInTwo(t: QueryTree, xs: seq<Step>, ys: seq<Step>)
    ensures AfterSteps(AfterSteps(t, xs), ys) == AfterSteps(t, xs + ys)
  {
    if ys == [] {
      assert xs + ys == xs;
    } else {
      var n := |ys| - 1;
      assert (xs + ys)[..|xs| + n] == xs + ys[..n];
      StepsInTwo(t, xs, ys[..n]);
    }
  }

  lemma {:induction false} CallsInTwo(first: bool, before: seq<(bool, Step)>, after: seq<(bool, Step)>)
    ensures CallsOn(first, before + after) == CallsOn(first, before) + CallsOn(first, after)
  {
    if after == [] {
      assert before + after == before;
    } else {
      var n := |after| - 1;
      assert (before + after)[..|before| + n] == before + after[..n];
      CallsInTwo(first, before, after[..n]);
    }
  }

  /** Calls on two builders that share nothing, at any depth and in any order, act on each builder alone. */
  method Interleave(a: Query, b: Query, schedule: seq<(bool, Step)>)
    requires a.Valid() && b.Valid() && a.repr !! b.repr
    requires LegalSchedule(a.typ, schedule) && b.typ == a.typ
    modifies a.repr, b.repr
    ensures a.Valid() && b.Valid() && a.repr !! b.repr
    ensures fresh(a.repr - old(a.repr)) && fresh(b.repr - old(b.repr))
    ensures a.tree == AfterSteps(old(a.tree), CallsOn(true, schedule))
    ensures b.tree == AfterSteps(old(b.tree), CallsOn(false, schedule))
  {
    ghost var t, u := a.tree, b.tree;
    ghost var ra, rb := a.repr, b.repr;
    hide *;
    NoCalls(t, schedule);
    NoCalls(u, schedule);
    for n := 0 to |schedule|
      invariant a.Valid() && b.Valid() && a.repr !! b.repr && b.typ == a.typ
      invariant fresh(a.repr - ra) && fresh(b.repr - rb)
      invariant a.tree == AfterSteps(t, CallsOn(true, schedule[..n]))
      invariant b.tree == AfterSteps(u, CallsOn(false, schedule[..n]))
    {
      Play(a, b, schedule, n, t, u);
    }
    assert schedule[..|schedule|] == schedule;
  }

  /** The n-th call of the schedule. */
  method Play(a: Query, b: Query, schedule: seq<(bool, Step)>, n: nat, ghost t: QueryTree, ghost u: QueryTree)
    requires a.Valid() && b.Valid() && a.repr !! b.repr && b.typ == a.typ
    requires n < |schedule| && LegalSchedule(a.typ, schedule)
    requires a.tree == AfterSteps(t, CallsOn(true, schedule[..n]))
    requires b.tree == AfterSteps(u, CallsOn(false, schedule[..n]))
    modifies a.repr, b.repr
    ensures a.Valid() && b.Valid() && a.repr !! b.repr
    ensures fresh(a.repr - old(a.repr)) && fresh(b.repr - old(b.repr))
    ensures a.tree == AfterSteps(t, CallsOn(true, schedule[..n + 1]))
    ensures b.tree == AfterSteps(u, CallsOn(false, schedule[..n + 1]))
  {
    hide *;
    LegalParts(a.typ, schedule, n);
    CallsStep(true, schedule, n, t);
    CallsStep(false, schedule, n, u);
    Turn(a, b, schedule[n].0, schedule[n].1);
  }

  lemma LegalParts(t: EntityType, schedule: seq<(bool, Step)>, n: nat)
    requires LegalSchedule(t, schedule) && n < |schedule|
    ensures Legal(t, schedule[n].1)
  {
  }

  method Turn(a: Query, b: Query, first: bool, step: Step)
    requires a.Valid() && b.Valid() && a.repr !! b.repr && b.typ == a.typ && Legal(a.typ, step)
    modifies a.repr, b.repr
    ensures a.Valid() && b.Valid() && a.repr !! b.repr
    ensures fresh(a.repr - old(a.repr)) && fresh(b.repr - old(b.repr))
    ensures a.tree == if first then AfterStep(old(a.tree), step) else old(a.tree)
    ensures b.tree == if first then old(b.tree) else AfterStep(old(b.tree), step)
  {
    hide *;
    if first {
      a.Do(step);
    } else {
      b.Do(step);
    }
  }

  lemma NoCalls(t: QueryTree, schedule: seq<(bool, Step)>)
    ensures AfterSteps(t, CallsOn(true, schedule[..0])) == t && AfterSteps(t, CallsOn(false, schedule[..0])) == t
  {
  }

  /** After a clone is made, any calls on the two builders and on the builders below them, in any order, act on
      each of the two alone: no array, no context and no subquery builder is shared. */
  method CloneIsIndependent(q: Query, schedule: seq<(bool, Step)>, ghost t: QueryTree) returns (c: Query)
    requires q.Valid() && t == q.tree && LegalSchedule(q.typ, schedule)
    modifies q.repr
    ensures q.Valid() && c.Valid() && q.repr !! c.repr
    ensures fresh(c.repr) && fresh(q.repr - old(q.repr))
    ensures q.tree == AfterSteps(t, CallsOn(true, schedule))
    ensures c.tree == AfterSteps(Unlocked(t), CallsOn(false, schedule))
  {
    hide *;
    c := q.Clone(t);
    Interleave(q, c, schedule);
  }

  // ---------------------------------------------------------------- runs of two builders

  /** Loaded entities: they point nowhere else and unfold to the given trees. */
  ghost predicate Unfolds(r: Result<seq<Entity>, LoadError>, G: set<Entity>, ts: seq<ObjectTree>)
    reads G
  {
    Closed(G) && (r.Ok? ==> (forall n :: n in r.value ==> n in G) && Views(r.value) == ts)
  }

  /** How a run of a builder that holds `t` ends. */
  ghost predicate Ends(r: Result<seq<Entity>, LoadError>, drv: Driver, t: QueryTree, from: nat, to: nat) {
    && (r.Err? ==> Explained(r.error, drv, from, to, t))
    && (FieldsValid(drv.db, t) && (forall k :: from <= k < to ==> !drv.fails(k)) ==> r.Ok?)
  }

  /** What a clone or its original holds before any call. */
  ghost function Start(original: bool, t: QueryTree): QueryTree {
    if original then t else Unlocked(t)
  }

  /** Runs one builder beside another, which neither the run nor what it leaves touches. */
  method RunBeside(drv: Driver, b: Query, other: Query, ghost t: QueryTree, ghost u: QueryTree)
    returns (r: Result<seq<Entity>, LoadError>, ghost G: set<Entity>)
    requires b.Valid() && other.Valid() && b.repr !! other.repr && drv !in b.repr && drv !in other.repr
    requires b.tree == t && other.tree == u && Sound(drv.db) && NotYetJoined(t.withs)
    modifies drv, b.repr
    ensures b.Valid() && other.Valid() && b.repr !! other.repr && drv !in b.repr && other.repr == old(other.repr)
    ensures other.tree == u && (r.Ok? ==> b.tree == QueryTree(t.settings, AfterRun(drv.db, t.settings, t.withs)))
    ensures fresh(b.repr - old(b.repr)) && fresh(G) && |old(drv.log)| <= |drv.log|
    ensures (forall n :: n in G ==> n !in b.repr) && Unfolds(r, G, Batch(drv.db, t.settings, t.withs))
    ensures Ends(r, drv, t, |old(drv.log)|, |drv.log|) && (HoldsNoLock(t) ==> drv.Locks() == old(drv.Locks()))
  {
    hide *;
    ghost var from := |drv.log|;
    r, G := Run(drv, b, t);
    RunEnds(r, drv, t, from, |drv.log|, G);
  }

  lemma RunEnds(r: Result<seq<Entity>, LoadError>, drv: Driver, t: QueryTree, from: nat, to: nat, G: set<Entity>)
    requires Closed(G) && (r.Ok? ==> forall n :: n in r.value ==> n in G)
    requires r.Ok? ==> Views(r.value) == Batch(drv.db, t.settings, t.withs)
    requires r.Err? ==> Explained(r.error, drv, from, to, t)
    requires FieldsValid(drv.db, t) && (forall k :: from <= k < to ==> !drv.fails(k)) ==> r.Ok?
    ensures Unfolds(r, G, Batch(drv.db, t.settings, t.withs)) && Ends(r, drv, t, from, to)
  {
  }

  /** Runs one builder, then makes calls on both, then runs the other; the entities of the first run are not
      touched by what follows. */
  method RunBoth(drv: Driver, a: Query, b: Query, between: seq<(bool, Step)>, ghost t: QueryTree, ghost u: QueryTree)
    returns (first: Result<seq<Entity>, LoadError>, second: Result<seq<Entity>, LoadError>, ghost G: set<Entity>,
             ghost H: set<Entity>, ghost mid: nat)
    requires a.Valid() && b.Valid() && a.repr !! b.repr && drv !in a.repr && drv !in b.repr
    requires a.tree == t && b.tree == u && Sound(drv.db) && NotYetJoined(t.withs)
    requires LegalSchedule(a.typ, between) && b.typ == a.typ
    requires NotYetJoined(AfterSteps(u, CallsOn(false, between)).withs)
    modifies drv, a.repr, b.repr
    ensures a.Valid() && b.Valid() && a.repr !! b.repr
    ensures
      var v := AfterSteps(u, CallsOn(false, between));
      && Unfolds(first, G, Batch(drv.db, t.settings, t.withs)) && Unfolds(second, H, Batch(drv.db, v.settings, v.withs))
      && Ends(first, drv, t, |old(drv.log)|, mid) && Ends(second, drv, v, mid, |drv.log|)
      && (second.Ok? ==> b.tree == QueryTree(v.settings, AfterRun(drv.db, v.settings, v.withs)))
      && (HoldsNoLock(t) && HoldsNoLock(v) ==> drv.Locks() == old(drv.Locks()))
  {
    hide *;
    ghost var ts := Batch(drv.db, t.settings, t.withs);
    ghost var v := AfterSteps(u, CallsOn(false, between));
    first, G := RunBeside(drv, a, b, t, u);
    mid := |drv.log|;
    Interleave(a, b, between);
    second, H := RunBeside(drv, b, a, v, a.tree);
  }

  // ---------------------------------------------------------------- a clone loads the same graph

  lemma LoadUnlocked(e: Edge, s: Settings, keys: seq<int>)
    ensures LoadSettings(e, s.(modifiers := []), keys) == LoadSettings(e, s, keys).(modifiers := [])
  {
  }

  lemma RowsUnlocked(db: Database, s: Settings, loaded: set<Edge>)
    ensures Rows(db, s.(modifiers := [])) == Rows(db, s) && JoinRows(db, s.(modifiers := [])) == JoinRows(db, s)
    ensures Read(db, s.(modifiers := []), loaded) == Read(db, s, loaded)
    ensures forall row :: Project(row, s.(modifiers := []), loaded) == Project(row, s, loaded)
  {
    forall row
      ensures Project(row, s.(modifiers := []), loaded) == Project(row, s, loaded)
    {
    }
  }

  ghost predicate LoadsAlike(db: Database, t: QueryTree, e: Edge, keys: seq<int>) {
    && (forall fk :: OneOf(db, Unlocked(t), e, keys, fk) == OneOf(db, t, e, keys, fk))
    && (forall id :: ListOf(db, Unlocked(t), e, keys, id) == ListOf(db, t, e, keys, id))
  }

  lemma GroupsUnlocked(db: Database, t: QueryTree, e: Edge, keys: seq<int>, id: int)
    ensures GroupsOf(db, Unlocked(t), e, keys, id) == GroupsOf(db, t, e, keys, id)
  {
    var s := LoadSettings(e, t.settings, keys);
    LoadUnlocked(e, t.settings, keys);
    RowsUnlocked(db, s, {});
    hide LoadSettings, JoinRows, Project, FirstRows, Linked;
  }

  lemma {:induction false} EdgeUnlocked(db: Database, t: QueryTree, e: Edge, keys: seq<int>)
    ensures LoadsAlike(db, t, e, keys)
    decreases t.withs, 1
  {
    var s := LoadSettings(e, t.settings, keys);
    var u := QueryTree(s, t.withs);
    LoadUnlocked(e, t.settings, keys);
    RowsUnlocked(db, s, t.withs.of.Keys);
    CloneLoadsTheSame(db, u);
    UnlockedFacts(t);
    assert Unlocked(u).withs == Unlocked(t).withs;
    assert Unlocked(u).settings == s.(modifiers := []);
    hide LoadSettings, Read, Batch, Project, Unlocked, Rows;
    forall id
      ensures ListOf(db, Unlocked(t), e, keys, id) == ListOf(db, t, e, keys, id)
    {
      GroupsUnlocked(db, t, e, keys, id);
    }
  }

  lemma TreeUnlocked(db: Database, t: QueryTree, rows: seq<Row>, row: Row)
    requires forall e :: e in t.withs.of ==> LoadsAlike(db, t.withs.of[e], e, KeysOf(e, rows))
    ensures BatchTree(db, Unlocked(t).settings, Unlocked(t).withs, rows, row) ==
        BatchTree(db, t.settings, t.withs, rows, row)
  {
    UnlockedFacts(t);
    var u := Unlocked(t);
    hide Unlocked, OneOf, ListOf, KeysOf;
    forall e | e in t.withs.of
      ensures LoadsAlike(db, t.withs.of[e], e, KeysOf(e, rows))
    {
    }
    assert BatchSingles(db, u.withs, rows, row) == BatchSingles(db, t.withs, rows, row);
    assert BatchLists(db, u.withs, rows, row) == BatchLists(db, t.withs, rows, row);
  }

  /** The row locks a clone loses never change what it loads. */
  lemma {:induction false} CloneLoadsTheSame(db: Database, t: QueryTree)
    ensures Batch(db, Unlocked(t).settings, Unlocked(t).withs) == Batch(db, t.settings, t.withs)
    decreases t.withs, 0
  {
    UnlockedFacts(t);
    RowsUnlocked(db, t.settings, t.withs.of.Keys);
    var rows := Read(db, t.settings, t.withs.of.Keys);
    forall e | e in t.withs.of
      ensures LoadsAlike(db, t.withs.of[e], e, KeysOf(e, rows))
    {
      EdgeUnlocked(db, t.withs.of[e], e, KeysOf(e, rows));
    }
    forall i | 0 <= i < |rows|
      ensures Batch(db, Unlocked(t).settings, Unlocked(t).withs)[i] == Batch(db, t.settings, t.withs)[i]
    {
      TreeUnlocked(db, t, rows, rows[i]);
    }
  }

  // ---------------------------------------------------------------- a clone is made and both are run

  /** A clone is made, calls are made on both builders and on those below them, one of the two is run (which
      restricts its subqueries in place), more calls are made on both, and the other is run. Each loads what its
      own calls ask for, as if the other had never been run or changed. In the schedules, `true` stands for the
      builder that is run first. */
  method CloneAndRun(drv: Driver, q: Query, originalFirst: bool, before: seq<(bool, Step)>, between: seq<(bool, Step)>,
                     ghost t: QueryTree)
    returns (c: Query, first: Result<seq<Entity>, LoadError>, second: Result<seq<Entity>, LoadError>,
             ghost G: set<Entity>, ghost H: set<Entity>, ghost mid: nat)
    requires q.Valid() && t == q.tree && drv !in q.repr && Sound(drv.db)
    requires LegalSchedule(q.typ, before) && LegalSchedule(q.typ, between)
    requires NotYetJoined(AfterSteps(Start(originalFirst, t), CallsOn(true, before)).withs)
    requires NotYetJoined(AfterSteps(Start(!originalFirst, t), CallsOn(false, before + between)).withs)
    modifies drv, q.repr
    ensures q.Valid() && c.Valid() && q.repr !! c.repr
    ensures
      var one := AfterSteps(Start(originalFirst, t), CallsOn(true, before));
      var two := AfterSteps(Start(!originalFirst, t), CallsOn(false, before + between));
      && Unfolds(first, G, Batch(drv.db, one.settings, one.withs)) && Ends(first, drv, one, |old(drv.log)|, mid)
      && Unfolds(second, H, Batch(drv.db, two.settings, two.withs)) && Ends(second, drv, two, mid, |drv.log|)
  {
    hide *;
    c := q.Clone(t);
    var a, b := c, q;
    if originalFirst {
      a, b := q, c;
    }
    ghost var u, v := a.tree, b.tree;
    Starts(originalFirst, t);
    Interleave(a, b, before);
    CallsAppended(false, v, before, between);
    first, second, G, H, mid := RunBoth(drv, a, b, between, a.tree, b.tree);
  }

  lemma Starts(original: bool, t: QueryTree)
    ensures Start(original, t) == if original then t else Unlocked(t)
    ensures Start(!original, t) == if original then Unlocked(t) else t
  {
  }

  lemma CallsAppended(first: bool, t: QueryTree, before: seq<(bool, Step)>, after: seq<(bool, Step)>)
    ensures AfterSteps(AfterSteps(t, CallsOn(first, before)), CallsOn(first, after)) ==
            AfterSteps(t, CallsOn(first, before + after))
  {
    CallsInTwo(first, before, after);
    StepsInTwo(t, CallsOn(first, before), CallsOn(first, after));
  }

  /** A clone loads the graph that the original loads, without the row locks: its run locks nothing, and the run
      of the original locks the rows of the query when a lock was asked for. */
  method CloneLoadsWithoutLocks(drv: Driver, q: Query, ghost t: QueryTree)
    returns (ofClone: Result<seq<Entity>, LoadError>, ofOriginal: Result<seq<Entity>, LoadError>,
             ghost locksOfClone: seq<RowLock>)
    requires q.Valid() && t == q.tree && drv !in q.repr && Sound(drv.db) && NotYetJoined(t.withs)
    modifies drv, q.repr
    ensures locksOfClone == old(drv.Locks())
    ensures ofOriginal.Ok? && t.settings.modifiers != [] ==>
        Locked(t.settings.typ, Rows(drv.db, t.settings)) in drv.Locks()
    ensures ofClone.Ok? ==> Views(ofClone.value) == Batch(drv.db, t.settings, t.withs)
    ensures ofOriginal.Ok? ==> Views(ofOriginal.value) == Batch(drv.db, t.settings, t.withs)
  {
    hide *;
    ClonesHoldNoLock(t);
    CloneLoadsTheSame(drv.db, t);
    UnjoinedUnlocked(t.withs, t);
    var c := q.Clone(t);
    ghost var G, H;
    ofClone, G := RunBeside(drv, c, q, Unlocked(t), t);
    locksOfClone := drv.Locks();
    ofOriginal, H := Run(drv, q, t);
    UnfoldsParts(ofClone, G, Batch(drv.db, t.settings, t.withs));
  }

  lemma UnfoldsParts(r: Result<seq<Entity>, LoadError>, G: set<Entity>, ts: seq<ObjectTree>)
    requires Unfolds(r, G, ts)
    ensures r.Ok? ==> (forall n :: n in r.value ==> n in G) && Views(r.value) == ts
  {
  }

  lemma {:induction false} UnjoinedUnlocked(w: Subqueries, t: QueryTree)
    requires NotYetJoined(w) && w == t.withs
    ensures NotYetJoined(Unlocked(t).withs)
    decreases w
  {
    forall e | e in w.of
      ensures e.kind.M2M? ==> Unjoined(Unlocked(w.of[e]).settings)
      ensures NotYetJoined(Unlocked(w.of[e]).withs)
    {
      UnjoinedUnlocked(w.of[e].withs, w.of[e]);
    }
  }
}
