/** Creating many accounts at once: a chain of mutators, each of which checks its builder, calls the next and
    marks its mutation done only when the call comes back without an error. */
module BulkCreate {
  import opened Collections
  import opened AccountFields
  import opened AccountCodec

  type Fields = v: Values | Typed(v) witness map[]

  /** A hook around a mutator. It answers itself, or it calls the next mutator once: it may first set fields of
      the mutation it was given, may pass another mutation on in its place, and answers what `after` makes of
      the error that comes back. */
  datatype Hook =
    | Answer(error: Option<string>)
    | CallOn(edit: Fields -> Fields, pass: Option<Fields -> Fields>, after: Option<SaveError> -> Option<SaveError>)

  datatype SaveError = BuilderError(why: string) | Validation(fault: Fault) | HookFailed(why: string) | InsertFailed

  /** What the batch insert answers for a list of inserts: the ids it assigned, or None when it failed. */
  type Insert = seq<Spec> -> Option<nat -> Option<int>>

  /** A bulk save: what every builder holds after defaults(), and its hooks, outermost first. */
  datatype Plan = Plan(starts: seq<Fields>, hooks: seq<seq<Hook>>)

  predicate Planned(p: Plan) {
    |p.hooks| == |p.starts|
  }

  /** The builder's own mutation, and the one its hooks have passed on in its place, if any. */
  datatype Held = Held(own: Fields, other: Option<Fields>)

  function Passed(h: Held): Fields {
    if h.other.Some? then h.other.value else h.own
  }

  /** What a hook that calls on hands to the next mutator. */
  function Edited(hook: Hook, h: Held): Held
    requires hook.CallOn?
  {
    var v := hook.edit(Passed(h));
    var own := if h.other.Some? then h.own else v;
    Held(own, if hook.pass.Some? then Some(hook.pass.value(v)) else if h.other.Some? then Some(v) else None)
  }

  function AsError(why: Option<string>): Option<SaveError> {
    if why.Some? then Some(HookFailed(why.value)) else None
  }

  /** How a call of a mutator ends: the batch it inserted, if it came to that, and the mutations it marked. */
  datatype Outcome = Outcome(error: Option<SaveError>, batch: Option<seq<Spec>>, done: set<nat>)

  /** The call of builder i's mutator at its k-th hook, with the specs of the earlier builders at hand. The check
      looks at the builder's own mutation, the insert is built from the one that was passed. */
  function Call(p: Plan, insert: Insert, i: nat, k: nat, h: Held, specs: seq<Spec>): Outcome
    requires Planned(p) && i < |p.hooks| && k <= |p.hooks[i]|
    decreases |p.hooks| - i, 1, |p.hooks[i]| - k
  {
    if k < |p.hooks[i]| then
      match p.hooks[i][k]
      case Answer(why) => Outcome(AsError(why), None, {})
      case CallOn(_, _, after) =>
        var o := Call(p, insert, i, k + 1, Edited(p.hooks[i][k], h), specs);
        o.(error := after(o.error))
    else
      match Check(h.own)
      case Some(fault) => Outcome(Some(Validation(fault)), None, {})
      case None =>
        var o := Next(p, insert, i, specs + [SpecOf(Passed(h))]);
        if o.error.Some? then o else o.(done := o.done + {i})
  }

  /** What builder i's mutator calls once its own spec is built: the next mutator, or the batch insert. */
  function Next(p: Plan, insert: Insert, i: nat, specs: seq<Spec>): Outcome
    requires Planned(p) && i < |p.hooks|
    decreases |p.hooks| - i, 0, 0
  {
    if i + 1 < |p.hooks| then Call(p, insert, i + 1, 0, Start(p, i + 1), specs)
    else Outcome(InsertError(insert, specs), Some(specs), {})
  }

  function InsertError(insert: Insert, specs: seq<Spec>): Option<SaveError> {
    if insert(specs).Some? then None else Some(InsertFailed)
  }

  function Start(p: Plan, i: nat): Held
    requires Planned(p) && i < |p.hooks|
  {
    Held(p.starts[i], None)
  }

  function SaveOutcome(p: Plan, insert: Insert): Outcome
    requires Planned(p) && 0 < |p.hooks|
  {
    Call(p, insert, 0, 0, Start(p, 0), [])
  }

  /** A driver that inserts every batch, and one that inserts none. */
  function Inserting(): Insert {
    b => Some(i => None)
  }

  function Refusing(): Insert {
    b => None
  }

  // ---------------------------------------------------------------- what a caller can tell beforehand

  /** The mutations as the innermost mutator of a builder sees them; None when a hook answers itself. */
  function Descend(hooks: seq<Hook>, h: Held): Option<Held> {
    if hooks == [] then Some(h)
    else if hooks[0].Answer? then None
    else Descend(hooks[1..], Edited(hooks[0], h))
  }

  /** A builder whose hooks all call on and whose own mutation then passes the check. */
  predicate ArrivesWith(hooks: seq<Hook>, h: Held) {
    Descend(hooks, h).Some? && Check(Descend(hooks, h).value.own).None?
  }

  function Arrival(hooks: seq<Hook>, h: Held): Held {
    match Descend(hooks, h) case Some(g) => g case None => Held(map[], None)
  }

  predicate Arrives(p: Plan, i: nat)
    requires Planned(p) && i < |p.hooks|
  {
    ArrivesWith(p.hooks[i], Start(p, i))
  }

  predicate AllArrive(p: Plan, i: nat)
    requires Planned(p) && i <= |p.hooks|
    decreases |p.hooks| - i
  {
    i == |p.hooks| || (Arrives(p, i) && AllArrive(p, i + 1))
  }

  /** What the builders from i on hold when they arrive, in builder order. */
  function Arrivals(p: Plan, i: nat): (hs: seq<Held>)
    requires Planned(p) && i <= |p.hooks|
    ensures |hs| == |p.hooks| - i
    decreases |p.hooks| - i
  {
    if i == |p.hooks| then [] else [Arrival(p.hooks[i], Start(p, i))] + Arrivals(p, i + 1)
  }

  lemma {:induction false} ArrivalsAre(p: Plan, i: nat, j: nat)
    requires Planned(p) && i <= j < |p.hooks|
    ensures Arrivals(p, i)[j - i] == Arrival(p.hooks[j], Start(p, j))
    decreases j - i
  {
    var first, rest := Arrival(p.hooks[i], Start(p, i)), Arrivals(p, i + 1);
    assert Arrivals(p, i) == [first] + rest;
    if i < j {
      ArrivalsAre(p, i + 1, j);
    }
    hide *;
    assert i < j ==> ([first] + rest)[j - i] == rest[j - i - 1];
  }

  /** What each builder ends up with: the mutation that reaches its innermost mutator. */
  function ValuesOf(p: Plan): (vs: seq<Fields>)
    requires Planned(p)
    ensures |vs| == |p.hooks|
    ensures forall j :: 0 <= j < |vs| ==> vs[j] == Passed(Arrival(p.hooks[j], Start(p, j)))
  {
    seq(|p.hooks|, j requires 0 <= j < |p.hooks| => Passed(Arrival(p.hooks[j], Start(p, j))))
  }

  function SpecsOf(hs: seq<Held>): (specs: seq<Spec>)
    ensures |specs| == |hs| && forall i :: 0 <= i < |hs| ==> specs[i] == SpecOf(Passed(hs[i]))
  {
    seq(|hs|, i requires 0 <= i < |hs| => SpecOf(Passed(hs[i])))
  }

  function Specs(p: Plan, i: nat): seq<Spec>
    requires Planned(p) && i <= |p.hooks|
  {
    SpecsOf(Arrivals(p, i))
  }

  /** What the hooks of a builder answer when the mutator or insert after it answers `below`. */
  function Returned(hooks: seq<Hook>, h: Held, below: Option<SaveError>): Option<SaveError> {
    if hooks == [] then
      match Check(h.own) case Some(fault) => Some(Validation(fault)) case None => below
    else
      match hooks[0]
      case Answer(why) => AsError(why)
      case CallOn(_, _, after) => after(Returned(hooks[1..], Edited(hooks[0], h), below))
  }

  /** What builder i's mutator answers when the batch insert answers `bottom`. */
  function Answers(p: Plan, i: nat, bottom: Option<SaveError>): Option<SaveError>
    requires Planned(p) && i <= |p.hooks|
    decreases |p.hooks| - i
  {
    if i == |p.hooks| then bottom else Returned(p.hooks[i], Start(p, i), Answers(p, i + 1, bottom))
  }

  /** Builder i's mutator is called: the builders before it all arrive. */
  predicate Reached(p: Plan, i: nat)
    requires Planned(p)
  {
    i < |p.hooks| && forall j :: 0 <= j < i ==> Arrives(p, j)
  }

  /** The one batch goes in. */
  predicate Inserted(p: Plan, insert: Insert)
    requires Planned(p)
  {
    AllArrive(p, 0) && insert(Specs(p, 0)).Some?
  }

  /** What the batch insert answers if it is asked. */
  function Bottom(p: Plan, insert: Insert): Option<SaveError>
    requires Planned(p)
  {
    InsertError(insert, Specs(p, 0))
  }

  function Indices(n: nat): (js: set<nat>)
    ensures forall j: nat :: j in js <==> j < n
  {
    if n == 0 then {} else Indices(n - 1) + {n - 1}
  }

  ghost predicate AllOrNothing(p: Plan, insert: Insert, o: Outcome)
    requires Planned(p)
  {
    && (o.error.None? ==> AllArrive(p, 0) && o.batch == Some(Specs(p, 0)) && o.done == Indices(|p.hooks|))
    && (o.error.Some? ==> o.done == {} && (o.batch.Some? ==> insert(o.batch.value).None?))
  }

  // ---------------------------------------------------------------- how a call ends

  predicate ArriveBetween(p: Plan, i: nat, j: nat)
    requires Planned(p) && j < |p.hooks|
  {
    forall l :: i < l <= j ==> Arrives(p, l)
  }

  /** Builder j's mutation is marked by the call of builder i, for the hooks and the mutations that one still has
      before it: all builders from i to j arrive, and what follows j answers no error. */
  ghost predicate Marked(p: Plan, i: nat, hooks: seq<Hook>, h: Held, bottom: Option<SaveError>, j: nat)
    requires Planned(p) && i < |p.hooks|
  {
    && i <= j < |p.hooks| && ArrivesWith(hooks, h) && ArriveBetween(p, i, j)
    && Answers(p, j + 1, bottom).None?
  }

  ghost predicate Marks(p: Plan, i: nat, hooks: seq<Hook>, h: Held, bottom: Option<SaveError>, done: set<nat>)
    requires Planned(p) && i < |p.hooks|
  {
    forall j: nat :: j in done <==> Marked(p, i, hooks, h, bottom, j)
  }

  /** The facts about one call. */
  ghost predicate CallFacts(p: Plan, insert: Insert, i: nat, hooks: seq<Hook>, h: Held, specs: seq<Spec>, o: Outcome)
    requires Planned(p) && i < |p.hooks|
  {
    var arrive := ArrivesWith(hooks, h) && AllArrive(p, i + 1);
    var all := specs + [SpecOf(Passed(Arrival(hooks, h)))] + Specs(p, i + 1);
    && o.batch == (if arrive then Some(all) else None)
    && o.error == Returned(hooks, h, Answers(p, i + 1, InsertError(insert, all)))
    && Marks(p, i, hooks, h, InsertError(insert, all), o.done)
  }

  /** How a call of a mutator ends, at any of its hooks. */
  lemma {:induction false} CallEnds(p: Plan, insert: Insert, i: nat, k: nat, h: Held, specs: seq<Spec>)
    requires Planned(p) && i < |p.hooks| && k <= |p.hooks[i]|
    ensures CallFacts(p, insert, i, p.hooks[i][k..], h, specs, Call(p, insert, i, k, h, specs))
    decreases |p.hooks| - i, |p.hooks[i]| - k
  {
    var hooks := p.hooks[i];
    hide CallFacts, Check, SpecOf, Typed, Edited;
    if k < |hooks| {
      assert hooks[k..][1..] == hooks[k + 1..];
      if hooks[k].CallOn? {
        CallEnds(p, insert, i, k + 1, Edited(hooks[k], h), specs);
        CallingOn(p, insert, i, hooks[k..], h, specs, Call(p, insert, i, k + 1, Edited(hooks[k], h), specs));
      } else {
        Answering(p, insert, i, hooks[k..], h, specs);
      }
    } else {
      assert hooks[k..] == [];
      if Check(h.own).Some? {
        FailedCheck(p, insert, i, h, specs);
      } else {
        var specs' := specs + [SpecOf(Passed(h))];
        if i + 1 < |p.hooks| {
          CallEnds(p, insert, i + 1, 0, Start(p, i + 1), specs');
          assert p.hooks[i + 1][0..] == p.hooks[i + 1];
          CallingNext(p, insert, i, h, specs, Call(p, insert, i + 1, 0, Start(p, i + 1), specs'));
        } else {
          LastInsert(p, insert, i, h, specs);
        }
      }
    }
  }

  /** What CallFacts says, part by part. */
  lemma FactsAre(p: Plan, insert: Insert, i: nat, hooks: seq<Hook>, h: Held, specs: seq<Spec>, o: Outcome)
    requires Planned(p) && i < |p.hooks|
    ensures
      var all := specs + [SpecOf(Passed(Arrival(hooks, h)))] + Specs(p, i + 1);
      CallFacts(p, insert, i, hooks, h, specs, o) <==>
        && o.batch == (if ArrivesWith(hooks, h) && AllArrive(p, i + 1) then Some(all) else None)
        && o.error == Returned(hooks, h, Answers(p, i + 1, InsertError(insert, all)))
        && Marks(p, i, hooks, h, InsertError(insert, all), o.done)
  {
    hide SpecOf, Typed, Specs, AllArrive, ArrivesWith, Arrival, Returned, Answers, InsertError, Marks;
  }

  lemma HookFirst(hooks: seq<Hook>, h: Held)
    requires hooks != [] && hooks[0].CallOn?
    ensures ArrivesWith(hooks, h) == ArrivesWith(hooks[1..], Edited(hooks[0], h))
    ensures Arrival(hooks, h) == Arrival(hooks[1..], Edited(hooks[0], h))
    ensures forall below ::
      Returned(hooks, h, below) == hooks[0].after(Returned(hooks[1..], Edited(hooks[0], h), below))
  {
    hide Check, Typed, Edited;
  }

  lemma CallingOn(p: Plan, insert: Insert, i: nat, hooks: seq<Hook>, h: Held, specs: seq<Spec>, o: Outcome)
    requires Planned(p) && i < |p.hooks| && hooks != [] && hooks[0].CallOn?
    requires CallFacts(p, insert, i, hooks[1..], Edited(hooks[0], h), specs, o)
    ensures CallFacts(p, insert, i, hooks, h, specs, o.(error := hooks[0].after(o.error)))
  {
    var g := Edited(hooks[0], h);
    var r := o.(error := hooks[0].after(o.error));
    var bottom := InsertError(insert, specs + [SpecOf(Passed(Arrival(hooks, h)))] + Specs(p, i + 1));
    HookFirst(hooks, h);
    FactsAre(p, insert, i, hooks[1..], g, specs, o);
    FactsAre(p, insert, i, hooks, h, specs, r);
    hide *;
    MarkedAlike(p, i, hooks[1..], g, hooks, h, bottom);
    MarksAlike(p, i, hooks[1..], g, hooks, h, bottom, o.done);
  }

  lemma MarksAlike(p: Plan, i: nat, hooks: seq<Hook>, h: Held, hooks': seq<Hook>, h': Held, bottom: Option<SaveError>,
                   done: set<nat>)
    requires Planned(p) && i < |p.hooks| && Marks(p, i, hooks, h, bottom, done)
    requires forall j: nat :: Marked(p, i, hooks, h, bottom, j) <==> Marked(p, i, hooks', h', bottom, j)
    ensures Marks(p, i, hooks', h', bottom, done)
  {
    hide Marked;
  }

  lemma MarkedAlike(p: Plan, i: nat, hooks: seq<Hook>, h: Held, hooks': seq<Hook>, h': Held, bottom: Option<SaveError>)
    requires Planned(p) && i < |p.hooks| && ArrivesWith(hooks, h) == ArrivesWith(hooks', h')
    ensures forall j: nat :: Marked(p, i, hooks, h, bottom, j) <==> Marked(p, i, hooks', h', bottom, j)
  {
    hide ArrivesWith, Answers, ArriveBetween;
  }

  lemma Answering(p: Plan, insert: Insert, i: nat, hooks: seq<Hook>, h: Held, specs: seq<Spec>)
    requires Planned(p) && i < |p.hooks| && hooks != [] && hooks[0].Answer?
    ensures CallFacts(p, insert, i, hooks, h, specs, Outcome(AsError(hooks[0].error), None, {}))
  {
    hide Check, SpecOf, Typed, Edited, Answers, AllArrive, Specs, InsertError, Arrives;
  }

  lemma FailedCheck(p: Plan, insert: Insert, i: nat, h: Held, specs: seq<Spec>)
    requires Planned(p) && i < |p.hooks| && Check(h.own).Some?
    ensures CallFacts(p, insert, i, [], h, specs, Outcome(Some(Validation(Check(h.own).value)), None, {}))
  {
    hide Check, SpecOf, Typed, Edited, Answers, AllArrive, Specs, InsertError, Arrives;
  }

  lemma SpecsNext(p: Plan, i: nat)
    requires Planned(p) && i < |p.hooks|
    ensures Specs(p, i) == [SpecOf(Passed(Arrival(p.hooks[i], Start(p, i))))] + Specs(p, i + 1)
  {
    hide SpecOf, Arrival, Typed;
  }

  lemma CallingNext(p: Plan, insert: Insert, i: nat, h: Held, specs: seq<Spec>, o: Outcome)
    requires Planned(p) && i + 1 < |p.hooks| && Check(h.own).None?
    requires CallFacts(p, insert, i + 1, p.hooks[i + 1], Start(p, i + 1), specs + [SpecOf(Passed(h))], o)
    ensures CallFacts(p, insert, i, [], h, specs, if o.error.Some? then o else o.(done := o.done + {i}))
  {
    var r := if o.error.Some? then o else o.(done := o.done + {i});
    var specs' := specs + [SpecOf(Passed(h))];
    var bottom := InsertError(insert, specs' + Specs(p, i + 1));
    SpecsNext(p, i + 1);
    NoHooks(h);
    NextAnswers(p, i + 1, bottom);
    FactsAre(p, insert, i + 1, p.hooks[i + 1], Start(p, i + 1), specs', o);
    FactsAre(p, insert, i, [], h, specs, r);
    hide *;
    var next := [SpecOf(Passed(Arrival(p.hooks[i + 1], Start(p, i + 1))))];
    Regroup(specs', next, Specs(p, i + 2));
    MarksOneMore(p, i, h, bottom, o.done, r.done);
  }

  lemma Regroup<T>(a: seq<T>, b: seq<T>, c: seq<T>)
    ensures a + b + c == a + (b + c)
  {
  }

  lemma NoHooks(h: Held)
    ensures ArrivesWith([], h) == Check(h.own).None? && Arrival([], h) == h
    ensures Check(h.own).None? ==> forall below :: Returned([], h, below) == below
  {
    hide Check, Typed;
  }

  lemma NextAnswers(p: Plan, i: nat, bottom: Option<SaveError>)
    requires Planned(p) && i < |p.hooks|
    ensures Answers(p, i, bottom) == Returned(p.hooks[i], Start(p, i), Answers(p, i + 1, bottom))
    ensures AllArrive(p, i) <==> ArrivesWith(p.hooks[i], Start(p, i)) && AllArrive(p, i + 1)
  {
    hide Returned, ArrivesWith, Start;
  }

  lemma MarksOneMore(p: Plan, i: nat, h: Held, bottom: Option<SaveError>, done: set<nat>, more: set<nat>)
    requires Planned(p) && i + 1 < |p.hooks| && ArrivesWith([], h)
    requires Marks(p, i + 1, p.hooks[i + 1], Start(p, i + 1), bottom, done)
    requires more == if Answers(p, i + 1, bottom).Some? then done else done + {i}
    ensures Marks(p, i, [], h, bottom, more)
  {
    hide ArrivesWith, Answers, Start, ArriveBetween;
    forall j: nat
      ensures j in more <==> Marked(p, i, [], h, bottom, j)
    {
      if j < |p.hooks| { ArriveFromNext(p, i, j); }
      assert j in done <==> Marked(p, i + 1, p.hooks[i + 1], Start(p, i + 1), bottom, j);
    }
  }

  lemma ArriveFromNext(p: Plan, i: nat, j: nat)
    requires Planned(p) && j < |p.hooks| && i + 1 < |p.hooks|
    ensures j <= i ==> ArriveBetween(p, i, j)
    ensures i < j ==> (ArriveBetween(p, i, j) <==>
                         ArrivesWith(p.hooks[i + 1], Start(p, i + 1)) && ArriveBetween(p, i + 1, j))
  {
    hide ArrivesWith;
    assert Arrives(p, i + 1) <==> ArrivesWith(p.hooks[i + 1], Start(p, i + 1));
    hide Arrives;
  }

  lemma LastInsert(p: Plan, insert: Insert, i: nat, h: Held, specs: seq<Spec>)
    requires Planned(p) && i + 1 == |p.hooks| && Check(h.own).None?
    ensures
      var all := specs + [SpecOf(Passed(h))];
      CallFacts(p, insert, i, [], h, specs,
                Outcome(InsertError(insert, all), Some(all), if insert(all).Some? then {i} else {}))
  {
    var all := specs + [SpecOf(Passed(h))];
    assert all + Specs(p, i + 1) == all;
    hide Check, SpecOf, Typed, Specs;
  }

  /** The save as a whole: the batch, the answer and the marks. */
  lemma SaveEnds(p: Plan, insert: Insert)
    requires Planned(p) && 0 < |p.hooks|
    ensures
      var o := SaveOutcome(p, insert);
      && o.batch == (if AllArrive(p, 0) then Some(Specs(p, 0)) else None)
      && o.error == Answers(p, 0, Bottom(p, insert))
      && Marks(p, 0, p.hooks[0], Start(p, 0), Bottom(p, insert), o.done)
  {
    hide *;
    SaveIs(p, insert);
    CallEnds(p, insert, 0, 0, Start(p, 0), []);
    SpecsNext(p, 0);
    var hooks, one := p.hooks[0], [SpecOf(Passed(Arrival(p.hooks[0], Start(p, 0))))];
    assert hooks[0..] == hooks;
    assert [] + one + Specs(p, 1) == one + Specs(p, 1);
    FactsAre(p, insert, 0, hooks, Start(p, 0), [], SaveOutcome(p, insert));
    NextAnswers(p, 0, Bottom(p, insert));
  }

  lemma SaveIs(p: Plan, insert: Insert)
    requires Planned(p) && 0 < |p.hooks|
    ensures SaveOutcome(p, insert) == Call(p, insert, 0, 0, Start(p, 0), [])
    ensures Bottom(p, insert) == InsertError(insert, Specs(p, 0))
  {
    hide Call, Specs, InsertError;
  }

  lemma {:induction false} AllArriveIff(p: Plan, i: nat)
    requires Planned(p) && i <= |p.hooks|
    ensures AllArrive(p, i) <==> forall l :: i <= l < |p.hooks| ==> Arrives(p, l)
    decreases |p.hooks| - i
  {
    hide Arrives;
    if i < |p.hooks| { AllArriveIff(p, i + 1); }
  }

  /** No mutator hides a failure or makes one up: each mutator that is called answers an error exactly when the
      batch does not go in. */
  ghost predicate Honest(p: Plan, insert: Insert)
    requires Planned(p)
  {
    forall i: nat :: Reached(p, i) ==> (Answers(p, i, Bottom(p, insert)).None? <==> Inserted(p, insert))
  }

  /** The save as a whole is all or nothing exactly when its mutators are honest: on success one batch holds every
      builder's insert in builder order and every mutation is done, on failure no mutation is done and no batch
      went in. */
  lemma AllOrNothingIff(p: Plan, insert: Insert)
    requires Planned(p) && 0 < |p.hooks|
    ensures AllOrNothing(p, insert, SaveOutcome(p, insert)) <==> Honest(p, insert)
  {
    SaveEnds(p, insert);
    AllArriveIff(p, 0);
    BottomAsks(p, insert);
    var o, n, bottom := SaveOutcome(p, insert), |p.hooks|, Bottom(p, insert);
    assert Answers(p, n, bottom) == bottom;
    forall j: nat
      ensures j in o.done <==> j < n && (forall l :: 0 <= l <= j ==> Arrives(p, l)) && Answers(p, j + 1, bottom).None?
    {
      MarkedFromStart(p, bottom, j);
    }
    hide SaveOutcome, AllArrive, Specs, Answers, Arrives, Bottom, Marks;
    if Honest(p, insert) {
      assert Reached(p, 0);
      forall j | 0 <= j < n && forall l :: 0 <= l <= j ==> Arrives(p, l)
        ensures j in o.done <==> Inserted(p, insert)
      {
        assert j + 1 < n ==> Reached(p, j + 1);
      }
      assert Inserted(p, insert) ==> o.done == Indices(n);
    }
    if AllOrNothing(p, insert, o) {
      if o.error.None? {
        assert n - 1 in Indices(n);
        assert n - 1 in o.done;
      }
      forall i | 0 <= i && Reached(p, i)
        ensures Answers(p, i, bottom).None? <==> Inserted(p, insert)
      {
        if i > 0 {
          assert i - 1 in o.done <==> Answers(p, i, bottom).None?;
          assert o.error.None? ==> i - 1 in Indices(n);
        }
      }
    }
  }

  lemma MarkedFromStart(p: Plan, bottom: Option<SaveError>, j: nat)
    requires Planned(p) && 0 < |p.hooks|
    ensures Marked(p, 0, p.hooks[0], Start(p, 0), bottom, j) <==>
      j < |p.hooks| && (forall l :: 0 <= l <= j ==> Arrives(p, l)) && Answers(p, j + 1, bottom).None?
  {
    hide Answers, ArrivesWith;
    assert Arrives(p, 0) <==> ArrivesWith(p.hooks[0], Start(p, 0));
    hide Arrives;
  }

  lemma {:induction false} ReturnedEarly(hooks: seq<Hook>, h: Held, a: Option<SaveError>, b: Option<SaveError>)
    requires !ArrivesWith(hooks, h)
    ensures Returned(hooks, h, a) == Returned(hooks, h, b)
  {
    hide Check, Typed, Edited;
    if hooks != [] && hooks[0].CallOn? { ReturnedEarly(hooks[1..], Edited(hooks[0], h), a, b); }
  }

  /** A chain that does not get to the insert answers the same whatever the insert would answer. */
  lemma {:induction false} AnswersEarly(p: Plan, i: nat, a: Option<SaveError>, b: Option<SaveError>)
    requires Planned(p) && i <= |p.hooks| && !AllArrive(p, i)
    ensures Answers(p, i, a) == Answers(p, i, b)
    decreases |p.hooks| - i
  {
    hide ArrivesWith, Returned, Start, Typed;
    if AllArrive(p, i + 1) {
      assert !ArrivesWith(p.hooks[i], Start(p, i));
      hide AllArrive;
      ReturnedEarly(p.hooks[i], Start(p, i), Answers(p, i + 1, a), Answers(p, i + 1, b));
    } else {
      AnswersEarly(p, i + 1, a, b);
    }
  }

  /** Builder i's mutator answers no error when the batch goes in. */
  predicate KeepsSuccess(p: Plan, i: nat)
    requires Planned(p) && i < |p.hooks|
  {
    Answers(p, i, None).None?
  }

  /** Builder i's mutator answers an error when the batch does not go in. */
  predicate KeepsFailure(p: Plan, i: nat)
    requires Planned(p) && i < |p.hooks|
  {
    Answers(p, i, Some(InsertFailed)).Some?
  }

  /** What the builders and their hooks alone can tell: every mutator that is called keeps a failure, and if all
      builders arrive, every mutator keeps a success. */
  ghost predicate HonestAnyway(p: Plan)
    requires Planned(p)
  {
    && (forall i: nat :: Reached(p, i) ==> KeepsFailure(p, i))
    && (AllArrive(p, 0) ==> forall i: nat :: Reached(p, i) ==> KeepsSuccess(p, i))
  }

  lemma HonestWithDriver(p: Plan, insert: Insert)
    requires Planned(p) && 0 < |p.hooks|
    ensures Honest(p, insert) <==>
      forall i: nat :: Reached(p, i) ==> if Inserted(p, insert) then KeepsSuccess(p, i) else KeepsFailure(p, i)
  {
    BottomAsks(p, insert);
    AllArriveIff(p, 0);
    var bottom := Bottom(p, insert);
    hide AllArrive, Specs, Returned, Arrives, Bottom, Inserted, Typed;
    forall i: nat | Reached(p, i)
      ensures Inserted(p, insert) ==> (KeepsSuccess(p, i) <==> Answers(p, i, bottom).None?)
      ensures !Inserted(p, insert) ==> (KeepsFailure(p, i) <==> Answers(p, i, bottom).Some?)
    {
      if !AllArrive(p, 0) {
        AllArriveIff(p, i);
        AnswersEarly(p, i, bottom, Some(InsertFailed));
      }
    }
  }

  lemma BottomAsks(p: Plan, insert: Insert)
    requires Planned(p)
    ensures Inserted(p, insert) <==> AllArrive(p, 0) && Bottom(p, insert).None?
    ensures Bottom(p, insert) == None || Bottom(p, insert) == Some(InsertFailed)
  {
  }

  /** A save is all or nothing with every driver exactly when its mutators are honest with a driver that always
      inserts and with one that never does, which a caller can tell before the call. */
  lemma AllOrNothingWithAnyDriverIff(p: Plan)
    requires Planned(p) && 0 < |p.hooks|
    ensures (forall insert :: AllOrNothing(p, insert, SaveOutcome(p, insert))) <==> HonestAnyway(p)
  {
    hide AllOrNothing, SaveOutcome, Honest, KeepsSuccess, KeepsFailure, Reached, AllArrive, Specs, Arrives, Typed;
    forall insert
      ensures AllOrNothing(p, insert, SaveOutcome(p, insert)) <==> Honest(p, insert)
      ensures HonestAnyway(p) ==> Honest(p, insert)
    {
      AllOrNothingIff(p, insert);
      HonestWithDriver(p, insert);
    }
    var always, never := Inserting(), Refusing();
    HonestWithDriver(p, always);
    HonestWithDriver(p, never);
    assert Inserted(p, always) == AllArrive(p, 0) && !Inserted(p, never);
    assert AllOrNothing(p, always, SaveOutcome(p, always)) <==> Honest(p, always);
    assert AllOrNothing(p, never, SaveOutcome(p, never)) <==> Honest(p, never);
  }

  /** Hooks that answer only errors themselves, keep an error that comes back and make none up. They may set
      fields and may pass another mutation on. */
  ghost predicate Faithful(hook: Hook) {
    match hook
    case Answer(why) => why.Some?
    case CallOn(_, _, after) => after(None).None? && forall e :: after(Some(e)).Some?
  }

  ghost predicate AllFaithful(hooks: seq<Hook>) {
    forall k :: 0 <= k < |hooks| ==> Faithful(hooks[k])
  }

  lemma {:induction false} FaithfulReturn(hooks: seq<Hook>, h: Held, below: Option<SaveError>)
    requires AllFaithful(hooks)
    ensures Returned(hooks, h, below).None? <==> ArrivesWith(hooks, h) && below.None?
  {
    hide Check, Typed, Edited;
    if hooks != [] && hooks[0].CallOn? {
      FaithfulReturn(hooks[1..], Edited(hooks[0], h), below);
      assert Faithful(hooks[0]);
      var r := Returned(hooks[1..], Edited(hooks[0], h), below);
      assert r.Some? ==> hooks[0].after(Some(r.value)).Some?;
    }
  }

  lemma {:induction false} FaithfulAnswers(p: Plan, i: nat, bottom: Option<SaveError>)
    requires Planned(p) && i <= |p.hooks| && forall j :: i <= j < |p.hooks| ==> AllFaithful(p.hooks[j])
    ensures Answers(p, i, bottom).None? <==> AllArrive(p, i) && bottom.None?
    decreases |p.hooks| - i
  {
    hide ArrivesWith, Returned, AllFaithful, Start, Typed;
    if i < |p.hooks| {
      FaithfulAnswers(p, i + 1, bottom);
      FaithfulReturn(p.hooks[i], Start(p, i), Answers(p, i + 1, bottom));
    }
  }

  /** With faithful hooks the save is all or nothing, whatever the builders hold and the driver answers, and it
      succeeds exactly when every builder arrives and the batch goes in. */
  lemma FaithfulIsAllOrNothing(p: Plan, insert: Insert)
    requires Planned(p) && 0 < |p.hooks| && forall j :: 0 <= j < |p.hooks| ==> AllFaithful(p.hooks[j])
    ensures AllOrNothing(p, insert, SaveOutcome(p, insert))
    ensures SaveOutcome(p, insert).error.None? <==> Inserted(p, insert)
  {
    var bottom := Bottom(p, insert);
    hide Specs, AllFaithful, SaveOutcome, Returned, ArrivesWith, Typed, Answers;
    AllOrNothingIff(p, insert);
    SaveEnds(p, insert);
    BottomAsks(p, insert);
    AllArriveIff(p, 0);
    hide AllArrive, Bottom, Arrives, AllOrNothing, Inserted, Marks;
    forall i: nat | Reached(p, i)
      ensures Answers(p, i, bottom).None? <==> Inserted(p, insert)
    {
      FaithfulAnswers(p, i, bottom);
      AllArriveIff(p, i);
    }
    assert Reached(p, 0);
  }

  /** A hook that hides an error breaks it: the save answers success although nothing went in. */
  lemma HiddenErrorBreaks(v: Fields)
    ensures
      var p := Plan([v], [[CallOn(w => w, None, e => None)]]);
      var o := SaveOutcome(p, Refusing());
      o.error.None? && o.done == {} && !AllOrNothing(p, Refusing(), o)
  {
    var p := Plan([v], [[CallOn(w => w, None, e => None)]]);
    var insert := Refusing();
    SaveEnds(p, insert);
    BottomAsks(p, insert);
    hide Check, Typed, SpecOf, SaveOutcome;
    assert Answers(p, 1, Bottom(p, insert)) == Some(InsertFailed);
  }

  /** Hooks that hand every answer back as it is, unless they answer themselves. */
  ghost predicate HandsBack(hooks: seq<Hook>) {
    forall k :: 0 <= k < |hooks| && hooks[k].CallOn? ==> forall e :: hooks[k].after(e) == e
  }

  /** The builder stops the save with this error: its k-th hook is the first to answer itself, or there is no such
      hook and its own mutation, as its hooks leave it, fails the check. */
  predicate StopsWith(hooks: seq<Hook>, h: Held, k: nat, error: Option<SaveError>) {
    && k <= |hooks|
    && (forall m :: 0 <= m < k ==> hooks[m].CallOn?)
    && if k < |hooks| then
         hooks[k].Answer? && error == match hooks[k].error case None => None case Some(why) => Some(HookFailed(why))
       else
         && Descend(hooks, h).Some?
         && Check(Descend(hooks, h).value.own).Some?
         && error == Some(Validation(Check(Descend(hooks, h).value.own).value))
  }

  lemma {:induction false} StopComesBack(hooks: seq<Hook>, h: Held, k: nat, error: Option<SaveError>,
                                         below: Option<SaveError>)
    requires HandsBack(hooks) && StopsWith(hooks, h, k, error)
    ensures Returned(hooks, h, below) == error
    decreases k
  {
    hide Check, Typed, Edited;
    if k > 0 {
      assert forall m :: 0 <= m < |hooks[1..]| ==> hooks[1..][m] == hooks[m + 1];
      StopComesBack(hooks[1..], Edited(hooks[0], h), k - 1, error, below);
      assert hooks[0].after(error) == error;
    }
  }

  lemma {:induction false} BelowComesBack(hooks: seq<Hook>, h: Held, below: Option<SaveError>)
    requires HandsBack(hooks) && ArrivesWith(hooks, h)
    ensures Returned(hooks, h, below) == below
  {
    hide Check, Typed, Edited;
    if hooks != [] {
      assert forall m :: 0 <= m < |hooks[1..]| ==> hooks[1..][m] == hooks[m + 1];
      BelowComesBack(hooks[1..], Edited(hooks[0], h), below);
      assert hooks[0].after(below) == below;
    }
  }

  lemma {:induction false} AnswerComesBack(p: Plan, l: nat, i: nat, bottom: Option<SaveError>)
    requires Planned(p) && l <= i <= |p.hooks|
    requires forall j :: l <= j < i ==> HandsBack(p.hooks[j]) && Arrives(p, j)
    ensures Answers(p, l, bottom) == Answers(p, i, bottom)
    decreases i - l
  {
    hide HandsBack, Returned, ArrivesWith, Start;
    if l < i {
      BelowComesBack(p.hooks[l], Start(p, l), Answers(p, l + 1, bottom));
      AnswerComesBack(p, l + 1, i, bottom);
    }
  }

  /** Save answers the first error: what the first builder that does not arrive stops with, with the words of its
      hook when one answered; and when all arrive, nothing or the failure of the insert. Nothing is inserted after
      an error of the first kind. */
  lemma FirstErrorIsAnswered(p: Plan, insert: Insert, i: nat, k: nat, error: Option<SaveError>)
    requires Planned(p) && 0 < |p.hooks| && i <= |p.hooks| && forall j :: 0 <= j < |p.hooks| ==> HandsBack(p.hooks[j])
    requires forall j :: 0 <= j < i ==> Arrives(p, j)
    requires i < |p.hooks| ==> StopsWith(p.hooks[i], Start(p, i), k, error)
    ensures i < |p.hooks| ==> SaveOutcome(p, insert).error == error && SaveOutcome(p, insert).batch.None?
    ensures i == |p.hooks| ==>
      SaveOutcome(p, insert).error == if insert(Specs(p, 0)).Some? then None else Some(InsertFailed)
  {
    hide *;
    var bottom := Bottom(p, insert);
    SaveEnds(p, insert);
    AnswerComesBack(p, 0, i, bottom);
    if i < |p.hooks| {
      StopComesBack(p.hooks[i], Start(p, i), k, error, Answers(p, i + 1, bottom));
      NextAnswers(p, i, bottom);
      StoppedIsNoArrival(p.hooks[i], Start(p, i), k, error);
      NoneAfterStop(p, i);
    } else {
      LastAnswers(p, insert, bottom);
    }
  }

  lemma NoneAfterStop(p: Plan, i: nat)
    requires Planned(p) && i < |p.hooks| && !ArrivesWith(p.hooks[i], Start(p, i))
    ensures !AllArrive(p, 0)
  {
    AllArriveIff(p, 0);
    assert !Arrives(p, i);
    hide *;
  }

  lemma LastAnswers(p: Plan, insert: Insert, bottom: Option<SaveError>)
    requires Planned(p) && bottom == Bottom(p, insert)
    ensures Answers(p, |p.hooks|, bottom) == if insert(Specs(p, 0)).Some? then None else Some(InsertFailed)
  {
    hide Specs, Returned;
  }

  lemma {:induction false} StoppedIsNoArrival(hooks: seq<Hook>, h: Held, k: nat, error: Option<SaveError>)
    requires StopsWith(hooks, h, k, error)
    ensures !ArrivesWith(hooks, h)
    decreases k
  {
    hide Check, Typed, Edited;
    if k > 0 {
      assert forall m :: 0 <= m < |hooks[1..]| ==> hooks[1..][m] == hooks[m + 1];
      StoppedIsNoArrival(hooks[1..], Edited(hooks[0], h), k - 1, error);
    }
  }

  // ---------------------------------------------------------------- which rows were checked

  /** A mutation that passes the check gives this insert. */
  ghost predicate Checked(spec: Spec) {
    exists v: Fields :: SpecOf(v) == spec && Check(v).None?
  }

  lemma SpecTells(v: Fields, w: Fields)
    requires SpecOf(v) == SpecOf(w)
    ensures v == w
  {
    forall c
      ensures (c in v <==> c in w) && (c in v ==> v[c] == w[c])
    {
      EveryColumnIsWritten(c);
      FieldsWritten(v, WRITTEN, c);
      FieldsWritten(w, WRITTEN, c);
      EdgesLinked(v, EDGES, c);
      EdgesLinked(w, EDGES, c);
      EdgesHoldIds(v);
      EdgesHoldIds(w);
      hide COLUMNS, WRITTEN, EDGES, KindOf, KindOfValue;
    }
  }

  lemma CheckedIff(v: Fields)
    ensures Checked(SpecOf(v)) <==> Check(v).None?
  {
    hide SpecOf, Check, Typed;
    if Checked(SpecOf(v)) {
      var w: Fields :| SpecOf(w) == SpecOf(v) && Check(w).None?;
      SpecTells(v, w);
    }
  }

  /** An inserted row was checked exactly when no hook passed another mutation on in the place of the builder's,
      or the one passed on would pass the check too. The builder's own mutation always passed it. */
  lemma InsertedIsCheckedIff(p: Plan, insert: Insert, j: nat)
    requires Planned(p) && 0 < |p.hooks| && SaveOutcome(p, insert).batch.Some? && j < |p.hooks|
    ensures
      var batch := SaveOutcome(p, insert).batch.value;
      var h := Arrival(p.hooks[j], Start(p, j));
      && |batch| == |p.hooks| && batch[j] == SpecOf(Passed(h)) && Check(h.own).None?
      && (Checked(batch[j]) <==> h.other.None? || Check(h.other.value).None?)
  {
    hide SaveOutcome, SpecOf, Check, Typed, Descend;
    SaveEnds(p, insert);
    AllArriveIff(p, 0);
    ArrivalsAre(p, 0, j);
    assert Arrives(p, j);
    CheckedIff(Passed(Arrival(p.hooks[j], Start(p, j))));
  }

  ghost predicate PassesOn(hooks: seq<Hook>) {
    forall k :: 0 <= k < |hooks| && hooks[k].CallOn? ==> hooks[k].pass.None?
  }

  lemma {:induction false} OwnArrives(hooks: seq<Hook>, h: Held)
    requires PassesOn(hooks) && h.other.None?
    ensures Descend(hooks, h).Some? ==> Descend(hooks, h).value.other.None?
  {
    hide Typed;
    if hooks != [] && hooks[0].CallOn? { OwnArrives(hooks[1..], Edited(hooks[0], h)); }
  }

  /** With hooks that pass the builder's mutation on, whatever they set in it and answer, no row reaches the batch
      insert unchecked or without its required fields, although the errors of defaults() are thrown away. */
  lemma InsertedAreChecked(p: Plan, insert: Insert, j: nat)
    requires Planned(p) && 0 < |p.hooks| && SaveOutcome(p, insert).batch.Some? && j < |p.hooks|
    requires PassesOn(p.hooks[j])
    ensures
      var batch := SaveOutcome(p, insert).batch.value;
      var v := Arrival(p.hooks[j], Start(p, j)).own;
      && |batch| == |p.hooks| && batch[j] == SpecOf(v) && Check(v).None? && Checked(batch[j])
      && forall c :: Required(c) ==> c in v
  {
    hide SaveOutcome, SpecOf, Check, Typed, Descend, Required, Checked, PassesOn;
    OwnArrives(p.hooks[j], Start(p, j));
    InsertedIsCheckedIff(p, insert, j);
    CheckPassesIff(Arrival(p.hooks[j], Start(p, j)).own);
  }

  /** A hook that calls on with an empty mutation. */
  function Emptying(): Hook {
    CallOn(v => v, Some(v => map[]), e => e)
  }

  lemma EmptyArrives(v: Fields)
    requires Check(v).None?
    ensures ArrivesWith([Emptying()], Held(v, None)) && Arrival([Emptying()], Held(v, None)) == Held(v, Some(map[]))
  {
    hide Check, Typed;
    var hooks, h := [Emptying()], Held(v, None);
    assert Edited(hooks[0], h) == Held(v, Some(map[]));
    assert hooks[1..] == [];
    assert Descend(hooks, h) == Descend(hooks[1..], Edited(hooks[0], h));
  }

  /** Such a hook has the empty mutation inserted, though nothing in it was checked. */
  lemma ReplacedIsUnchecked(v: Fields)
    requires Check(v).None?
    ensures
      var o := SaveOutcome(Plan([v], [[Emptying()]]), Inserting());
      o.error.None? && o.batch.Some? && |o.batch.value| == 1 && !Checked(o.batch.value[0])
  {
    var p := Plan([v], [[Emptying()]]);
    var insert := Inserting();
    EmptyFails();
    EmptyGoesIn(v, insert);
    hide *;
    SaveEnds(p, insert);
    FaithfulIsAllOrNothing(p, insert);
    InsertedIsCheckedIff(p, insert, 0);
  }

  lemma EmptyGoesIn(v: Fields, insert: Insert)
    requires Check(v).None? && forall b :: insert(b).Some?
    ensures
      var p := Plan([v], [[Emptying()]]);
      && Planned(p) && AllArrive(p, 0) && Inserted(p, insert)
        && (forall j :: 0 <= j < |p.hooks| ==> AllFaithful(p.hooks[j]))
      && p.hooks[0] == [Emptying()] && Arrival([Emptying()], Start(p, 0)) == Held(v, Some(map[]))
  {
    var p := Plan([v], [[Emptying()]]);
    hide SpecOf, Check, Typed, ArrivesWith, Arrival, Specs;
    EmptyArrives(v);
    assert AllArrive(p, 1) && Arrives(p, 0);
    var hooks := [Emptying()];
    assert AllFaithful(hooks);
    forall j | 0 <= j < |p.hooks|
      ensures AllFaithful(p.hooks[j])
    {
      assert p.hooks[j] == hooks;
    }
  }

  lemma EmptyFails()
    ensures Check(map[]).Some?
  {
    CheckPassesIff(map[]);
    assert Required(Name);
  }

  // ---------------------------------------------------------------- what hooks set

  predicate Has(v: Fields, c: Column, x: Value) {
    c in v && v[c] == x
  }

  /** What the hook hands on holds a value in a column, whatever the mutation it was given holds: it sets the column in
      that, or in the mutation it passes on in its place. */
  ghost predicate Sets(hook: Hook, c: Column, x: Value) {
    hook.CallOn? && forall v: Fields ::
      Has(if hook.pass.Some? then hook.pass.value(hook.edit(v)) else hook.edit(v), c, x)
  }

  /** The hook leaves a column as it is when that holds the value. */
  ghost predicate Keeps(hook: Hook, c: Column, x: Value) {
    hook.CallOn? ==> forall v: Fields :: Has(v, c, x) ==>
      Has(if hook.pass.Some? then hook.pass.value(hook.edit(v)) else hook.edit(v), c, x)
  }

  lemma HandedOn(hook: Hook, h: Held)
    requires hook.CallOn?
    ensures
      var v := hook.edit(Passed(h));
      Passed(Edited(hook, h)) == if hook.pass.Some? then hook.pass.value(v) else v
  {
    hide Typed;
  }

  lemma {:induction false} KeptDown(hooks: seq<Hook>, h: Held, c: Column, x: Value)
    requires Has(Passed(h), c, x) && forall m :: 0 <= m < |hooks| ==> Keeps(hooks[m], c, x)
    ensures Descend(hooks, h).Some? ==> Has(Passed(Descend(hooks, h).value), c, x)
  {
    hide Typed, Has, Edited, Passed;
    if hooks != [] && hooks[0].CallOn? {
      assert Keeps(hooks[0], c, x);
      HandedOn(hooks[0], h);
      assert forall m :: 0 <= m < |hooks[1..]| ==> hooks[1..][m] == hooks[m + 1];
      KeptDown(hooks[1..], Edited(hooks[0], h), c, x);
    }
  }

  lemma {:induction false} SetDown(hooks: seq<Hook>, h: Held, k: nat, c: Column, x: Value)
    requires k < |hooks| && Sets(hooks[k], c, x) && forall m :: k < m < |hooks| ==> Keeps(hooks[m], c, x)
    ensures Descend(hooks, h).Some? ==> Has(Passed(Descend(hooks, h).value), c, x)
    decreases k
  {
    hide Typed, Has, Edited, Passed;
    if hooks[0].CallOn? {
      HandedOn(hooks[0], h);
      assert forall m :: 0 <= m < |hooks[1..]| ==> hooks[1..][m] == hooks[m + 1];
      if k == 0 {
        KeptDown(hooks[1..], Edited(hooks[0], h), c, x);
      } else {
        SetDown(hooks[1..], Edited(hooks[0], h), k - 1, c, x);
      }
    }
  }

  /** What a hook sets, in the mutation it was given or in one that it passes on, is in the row inserted for its
      builder, unless a later hook sets the column again or passes on a mutation without it. */
  lemma HookSets(lib: JsonLibrary, id: int, p: Plan, insert: Insert, j: nat, k: nat, c: Column, x: Value)
    requires Planned(p) && 0 < |p.hooks| && SaveOutcome(p, insert).batch.Some? && j < |p.hooks|
    requires k < |p.hooks[j]| && Sets(p.hooks[j][k], c, x)
    requires forall m :: k < m < |p.hooks[j]| ==> Keeps(p.hooks[j][m], c, x)
    ensures
      var batch := SaveOutcome(p, insert).batch.value;
      |batch| == |p.hooks| && CellOf(lib, id, batch[j], c) == Stored(lib, x)
  {
    hide SaveOutcome, SpecOf, Check, Descend, Checked, CellOf, Sets, Keeps, Arrival, Passed;
    InsertedIsCheckedIff(p, insert, j);
    ArrivedHas(p, insert, j, k, c, x);
    var v := Passed(Arrival(p.hooks[j], Start(p, j)));
    HasColumn(v, c, x);
    RowHoldsMutation(lib, id, v, c);
  }

  lemma HasColumn(v: Fields, c: Column, x: Value)
    requires Has(v, c, x)
    ensures c in COLUMNS && c != Id && c in v && v[c] == x
  {
    hide COLUMNS, KindOf, KindOfValue;
  }

  lemma ArrivedHas(p: Plan, insert: Insert, j: nat, k: nat, c: Column, x: Value)
    requires Planned(p) && 0 < |p.hooks| && SaveOutcome(p, insert).batch.Some? && j < |p.hooks|
    requires k < |p.hooks[j]| && Sets(p.hooks[j][k], c, x)
    requires forall m :: k < m < |p.hooks[j]| ==> Keeps(p.hooks[j][m], c, x)
    ensures Has(Passed(Arrival(p.hooks[j], Start(p, j))), c, x)
  {
    hide Typed, Check, Has, Descend, Sets, Keeps, SaveOutcome, Passed, Specs;
    SaveEnds(p, insert);
    AllArriveIff(p, 0);
    assert Arrives(p, j);
    SetDown(p.hooks[j], Start(p, j), k, c, x);
  }

  // ---------------------------------------------------------------- the save as it runs

  lemma DefaultsByType(rt: Runtime, c: Column)
    requires DefaultOf(rt, c).Some?
    ensures
      match DefaultOf(rt, c).value
      case Time(_) => c in [CreatedAt, UpdatedAt]
      case Document(_) => c in [Credentials, Extra]
      case Integer(_) => c in [Concurrency, Priority]
      case Float(_) => c == RateMultiplier
      case Str(_) => c in [Status, QuotaDimension]
      case Boolean(_) => c in [AutoPauseOnExpired, Schedulable]
  {
  }

  lemma DefaultsHaveTypes(rt: Runtime, c: Column)
    requires DefaultOf(rt, c).Some?
    ensures !c.Other? && c != Id && KindOfValue(DefaultOf(rt, c).value) == KindOf(c)
  {
    DefaultsByType(rt, c);
    hide DefaultOf;
  }

  /** A builder's mutation once defaults() has run. */
  function Defaulted(rt: Runtime, v: Fields): Fields {
    DefaultsKeepTypes(rt, v);
    WithDefaults(rt, v, DEFAULTED)
  }

  lemma DefaultsKeepTypes(rt: Runtime, v: Fields)
    ensures Typed(WithDefaults(rt, v, DEFAULTED))
  {
    hide COLUMNS, DEFAULTED, DefaultOf, KindOf, KindOfValue;
    var w := WithDefaults(rt, v, DEFAULTED);
    forall c | c in w
      ensures c in COLUMNS && c != Id && KindOfValue(w[c]) == KindOf(c)
    {
      if c !in v { DefaultsHaveTypes(rt, c); }
      TableColumns(c);
    }
  }

  lemma CoreCalls(p: Plan, insert: Insert, i: nat, h: Held, specs: seq<Spec>)
    requires Planned(p) && i < |p.hooks|
    ensures
      var o := Next(p, insert, i, specs + [SpecOf(Passed(h))]);
      Call(p, insert, i, |p.hooks[i]|, h, specs) ==
        if Check(h.own).Some? then Outcome(Some(Validation(Check(h.own).value)), None, {})
        else if o.error.Some? then o else o.(done := o.done + {i})
  {
    hide SpecOf, Check, Typed, Next;
  }

  lemma SpecsAre(p: Plan)
    requires Planned(p)
    ensures |Specs(p, 0)| == |p.hooks| && forall j :: 0 <= j < |p.hooks| ==> Specs(p, 0)[j] == SpecOf(ValuesOf(p)[j])
  {
    hide SpecOf, Arrival, Typed;
    forall j | 0 <= j < |p.hooks|
      ensures Specs(p, 0)[j] == SpecOf(ValuesOf(p)[j])
    {
      ArrivalsAre(p, 0, j);
    }
  }

  /** A builder without hooks arrives, with its defaults filled in, exactly when what it has set is acceptable. */
  lemma PlainBuilder(p: Plan, rt: Runtime, v: Fields, j: nat)
    requires Planned(p) && j < |p.hooks| && p.hooks[j] == [] && p.starts[j] == Defaulted(rt, v) && rt.Imported?
    ensures AllFaithful(p.hooks[j]) && (Arrives(p, j) <==> Acceptable(v))
    ensures ValuesOf(p)[j] == Defaulted(rt, v) && FilledIn(rt, v, Defaulted(rt, v))
  {
    hide Check, Typed, FilledIn, Acceptable, WithDefaults;
    DefaultsFillIn(rt, v);
    CheckAfterDefaults(rt, v);
  }

  datatype Mutation = Mutation(values: Fields, done: bool, id: Option<int>)
  datatype Node = Node(id: int, fields: Values)

  /** The id of a node: the one the driver gave, or zero. */
  function IdFrom(ids: nat -> Option<int>, j: nat): int {
    if ids(j).Some? then ids(j).value else 0
  }

  function NoIds(): nat -> Option<int> {
    j => None
  }

  /** The values of the plan, with the one builder that is on its way to its innermost mutator. */
  ghost function ValuesAt(p: Plan, i: nat, hooks: seq<Hook>, h: Held): (vs: seq<Fields>)
    requires Planned(p) && i < |p.hooks|
    ensures |vs| == |p.hooks|
  {
    ValuesOf(p)[i := Passed(Arrival(hooks, h))]
  }

  /** The bulk builder with its driver: `batches` are the inserts asked for, `ids` the ids of the last. */
  class AccountCreateBulk {
    const err: Option<string>
    const hooks: seq<seq<Hook>>
    const insert: Insert
    const runtime: Runtime
    var mutations: seq<Mutation>
    var specs: seq<Option<Spec>>
    var nodes: seq<Option<Node>>
    var batches: seq<seq<Spec>>
    var ids: nat -> Option<int>

    ghost predicate Sized()
      reads this
    {
      |mutations| == |specs| == |nodes| == |hooks|
    }

    constructor (err: Option<string>, builders: seq<(Fields, seq<Hook>)>, insert: Insert, rt: Runtime)
      ensures Sized() && this.err == err && this.insert == insert && runtime == rt && batches == []
      ensures |hooks| == |builders| && forall i :: 0 <= i < |builders| ==>
        hooks[i] == builders[i].1 && mutations[i] == Mutation(builders[i].0, false, None)
    {
      this.err, this.insert, runtime, batches, ids := err, insert, rt, [], (i: nat) => None;
      hooks := seq(|builders|, i requires 0 <= i < |builders| => builders[i].1);
      mutations := seq(|builders|, i requires 0 <= i < |builders| => Mutation(builders[i].0, false, None));
      specs, nodes := seq(|builders|, i => None), seq(|builders|, i => None);
    }

    /** Inserts everything the spec slice holds: all inserts at once, or none. */
    method BatchCreate(ghost all: seq<Spec>) returns (error: Option<SaveError>)
      requires |specs| == |all| && forall j :: 0 <= j < |all| ==> specs[j] == Some(all[j])
      modifies this`batches, this`ids
      ensures batches == old(batches) + [all]
      ensures error == if insert(all).Some? then None else Some(InsertFailed)
      ensures ids == if insert(all).Some? then insert(all).value else old(ids)
    {
      var slice := specs;
      var batch := seq(|slice|, j requires 0 <= j < |slice| && slice[j].Some? => slice[j].value);
      assert batch == all;
      batches := batches + [batch];
      match insert(batch) {
        case None => return Some(InsertFailed);
        case Some(found) => ids := found;
      }
      error := None;
    }

    /** The batch, the ids and the marks of a call: one more batch if it came to that, with the ids the driver gave
        if it went in, and no mark but those the call makes, each for a builder finished with its value of `vs`. */
    ghost predicate Leaves(o: Outcome, vs: seq<Fields>, before: seq<Mutation>, asked: seq<seq<Spec>>,
                           given: nat -> Option<int>)
      reads this
    {
      && Sized() && |before| == |vs| == |hooks|
      && batches == asked + (if o.batch.Some? then [o.batch.value] else [])
      && ids == (if o.batch.Some? && insert(o.batch.value).Some? then insert(o.batch.value).value else given)
      && (forall j :: 0 <= j < |hooks| && mutations[j].done ==> before[j].done || j in o.done)
      && (forall j :: j in o.done ==> j < |hooks| && mutations[j].done && Finished(j, vs[j]))
    }

    /** What builder i's mutator leaves behind: the earlier builders untouched besides. */
    twostate predicate Left(i: nat, vs: seq<Fields>, o: Outcome)
      reads this
    {
      && old(Sized()) && i <= |hooks| && Leaves(o, vs, old(mutations), old(batches), old(ids))
      && (forall j :: 0 <= j < i ==>
            mutations[j] == old(mutations)[j] && specs[j] == old(specs)[j] && nodes[j] == old(nodes)[j])
      && (forall j :: j in o.done ==> i <= j)
    }

    /** A builder finished with a value: the mutation holds it, the insert and the node come from it, and the id is
        the one the driver gave, or zero. */
    ghost predicate Finished(j: nat, v: Fields)
      requires Sized() && j < |hooks|
      reads this
    {
      && mutations[j].values == v && specs[j] == Some(SpecOf(v))
      && nodes[j] == Some(Node(IdFrom(ids, j), NodeFields(v))) && mutations[j].id == Some(IdFrom(ids, j))
    }

    /** A hook sets fields of the mutation it was given, in place, and may pass another one on. */
    method CallHook(i: nat, hook: Hook, other: Option<Fields>) returns (passed: Option<Fields>)
      requires Sized() && i < |hooks| && hook.CallOn?
      modifies this`mutations
      ensures Sized() && mutations == old(mutations)[i := old(mutations)[i].(values := mutations[i].values)]
      ensures Held(mutations[i].values, passed) == Edited(hook, Held(old(mutations)[i].values, other))
    {
      hide Typed;
      passed := None;
      var v;
      if other.Some? {
        v := hook.edit(other.value);
        passed := Some(v);
      } else {
        v := hook.edit(mutations[i].values);
        mutations := mutations[i := mutations[i].(values := v)];
      }
      if hook.pass.Some? {
        passed := Some(hook.pass.value(v));
      }
    }

    /** Builder i's mutator, entered at its k-th hook with its own mutation or another one. */
    method Mutate(i: nat, k: nat, other: Option<Fields>, ghost p: Plan, ghost before: seq<Spec>)
      returns (error: Option<SaveError>)
      requires Sized() && i < |hooks| && k <= |hooks[i]| && |before| == i
      requires Planned(p) && p.hooks == hooks
      requires forall j :: i < j < |hooks| ==> mutations[j].values == p.starts[j]
      requires forall j :: 0 <= j < i ==> specs[j] == Some(before[j])
      modifies this
      ensures error == Call(p, insert, i, k, Held(old(mutations[i].values), other), before).error
      ensures
        var h := Held(old(mutations[i].values), other);
        Left(i, ValuesAt(p, i, hooks[i][k..], h), Call(p, insert, i, k, h, before))
      decreases |hooks| - i, 2, |hooks[i]| - k
    {
      hide SpecOf, NodeFields, Check, Typed, Edited, Arrival, ValuesOf;
      assert k < |hooks[i]| ==> hooks[i][k..][1..] == hooks[i][k + 1..];
      if k < |hooks[i]| {
        match hooks[i][k] {
          case Answer(why) => error := AsError(why);
          case CallOn(_, _, after) =>
            HookFirst(hooks[i][k..], Held(mutations[i].values, other));
            var passed := CallHook(i, hooks[i][k], other);
            error := Mutate(i, k + 1, passed, p, before);
            error := after(error);
        }
      } else {
        assert hooks[i][k..] == [];
        NoHooks(Held(mutations[i].values, other));
        error := Core(i, other, p, before);
      }
    }

    /** Hands the new id to the node and marks the mutation. */
    method Finish(i: nat, ghost v: Fields)
      requires Sized() && i < |hooks| && mutations[i].values == v
      requires specs[i] == Some(SpecOf(v)) && nodes[i] == Some(Node(0, NodeFields(v)))
      modifies this`nodes, this`mutations
      ensures Sized() && Finished(i, v) && mutations == old(mutations)[i := mutations[i]]
      ensures nodes == old(nodes)[i := nodes[i]] && mutations[i].done
      ensures forall j, w :: 0 <= j < |hooks| && j != i && old(Finished(j, w)) ==> Finished(j, w)
    {
      var id := ids(i);
      if id.Some? {
        nodes := nodes[i := Some(nodes[i].value.(id := id.value))];
      }
      mutations := mutations[i := mutations[i].(done := true, id := Some(nodes[i].value.id))];
    }

    method CallNext(i: nat, ghost p: Plan, ghost before: seq<Spec>) returns (error: Option<SaveError>)
      requires Sized() && i < |hooks| && |before| == i + 1
      requires Planned(p) && p.hooks == hooks
      requires forall j :: i < j < |hooks| ==> mutations[j].values == p.starts[j]
      requires forall j :: 0 <= j <= i ==> specs[j] == Some(before[j])
      modifies this
      ensures error == Next(p, insert, i, before).error
      ensures Left(i + 1, ValuesOf(p), Next(p, insert, i, before))
      decreases |hooks| - i, 0, 0
    {
      hide SpecOf, NodeFields, Check, Typed, Arrival;
      if i + 1 < |hooks| {
        assert hooks[i + 1][0..] == hooks[i + 1];
        assert ValuesAt(p, i + 1, hooks[i + 1], Start(p, i + 1)) == ValuesOf(p);
        error := Mutate(i + 1, 0, None, p, before);
      } else {
        error := BatchCreate(before);
      }
    }

    /** Builds the insert from the mutation, calls on, and marks the mutation on the way back. */
    method Proceed(i: nat, ghost v: Fields, ghost p: Plan, ghost before: seq<Spec>) returns (error: Option<SaveError>)
      requires Sized() && i < |hooks| && |before| == i && mutations[i].values == v
      requires Planned(p) && p.hooks == hooks
      requires forall j :: i < j < |hooks| ==> mutations[j].values == p.starts[j]
      requires forall j :: 0 <= j < i ==> specs[j] == Some(before[j])
      modifies this
      ensures
        var o := Next(p, insert, i, before + [SpecOf(v)]);
        error == o.error && Left(i, ValuesOf(p)[i := v], if o.error.Some? then o else o.(done := o.done + {i}))
      decreases |hooks| - i, 0, 1
    {
      hide SpecOf, NodeFields, Check, Typed, Next, Finished, ValuesOf;
      var fields, spec := CreateSpec(mutations[i].values);
      nodes, specs := nodes[i := Some(Node(0, fields))], specs[i := Some(spec)];
      error := CallNext(i, p, before + [spec]);
      if error.None? {
        Finish(i, v);
      }
    }

    /** The innermost mutator: checks the builder's own mutation, takes the one that was passed in its place,
        builds the insert, calls on, and marks the mutation on the way back. */
    method Core(i: nat, other: Option<Fields>, ghost p: Plan,
                ghost before: seq<Spec>) returns (error: Option<SaveError>)
      requires Sized() && i < |hooks| && |before| == i
      requires Planned(p) && p.hooks == hooks
      requires forall j :: i < j < |hooks| ==> mutations[j].values == p.starts[j]
      requires forall j :: 0 <= j < i ==> specs[j] == Some(before[j])
      modifies this
      ensures
        var h := Held(old(mutations[i].values), other);
        var o := Call(p, insert, i, |hooks[i]|, h, before);
        error == o.error && Left(i, ValuesOf(p)[i := Passed(h)], o)
      decreases |hooks| - i, 1, 0
    {
      hide SpecOf, NodeFields, Check, Typed, Next, Call, Finished, ValuesOf;
      CoreCalls(p, insert, i, Held(mutations[i].values, other), before);
      var fault := Check(mutations[i].values);
      if fault.Some? {
        return Some(Validation(fault.value));
      }
      if other.Some? {
        mutations := mutations[i := Mutation(other.value, false, None)];
      }
      error := Proceed(i, mutations[i].values, p, before);
    }

    /** The plan of a save: what the builders hold after defaults(), whose errors are thrown away. */
    ghost function PlanOf(): Plan
      requires Sized()
      reads this
    {
      var ms := mutations;
      Plan(seq(|ms|, i requires 0 <= i < |ms| => Defaulted(runtime, ms[i].values)), hooks)
    }

    method AllDefaults()
      requires Sized()
      modifies this`mutations
      ensures |mutations| == |old(mutations)|
      ensures forall j :: 0 <= j < |mutations| ==>
        mutations[j] == old(mutations)[j].(values := Defaulted(runtime, old(mutations)[j].values))
      ensures runtime.Imported? ==> forall j :: 0 <= j < |mutations| ==>
        FilledIn(runtime, old(mutations)[j].values, mutations[j].values)
    {
      forall v: Fields | runtime.Imported?
        ensures FilledIn(runtime, v, Defaulted(runtime, v))
      {
        DefaultsFillIn(runtime, v);
      }
      hide Defaulted, FilledIn;
      for i := 0 to |mutations|
        invariant |mutations| == |old(mutations)|
        invariant forall j :: 0 <= j < i ==>
          mutations[j] == old(mutations)[j].(values := Defaulted(runtime, old(mutations)[j].values))
        invariant forall j :: i <= j < |mutations| ==> mutations[j] == old(mutations)[j]
      {
        mutations := mutations[i := mutations[i].(values := Defaulted(runtime, mutations[i].values))];
      }
    }

    lemma MarkedBefore(o: Outcome, vs: seq<Fields>, before: seq<Mutation>, earlier: seq<Mutation>,
                       asked: seq<seq<Spec>>)
      requires Leaves(o, vs, before, asked, NoIds()) && |earlier| == |before|
      requires forall j :: 0 <= j < |before| ==> before[j].done == earlier[j].done
      ensures Leaves(o, vs, earlier, asked, NoIds())
    {
    }

    /** The node a successful save returns for builder j. */
    ghost function NodeOf(p: Plan, j: nat): Node
      requires Planned(p) && j < |p.hooks| && insert(Specs(p, 0)).Some?
    {
      Node(IdFrom(insert(Specs(p, 0)).value, j), NodeFields(ValuesOf(p)[j]))
    }

    lemma FaithfullyLeft(p: Plan, before: seq<Mutation>, asked: seq<seq<Spec>>)
      requires Planned(p) && 0 < |p.hooks| && p.hooks == hooks && forall j :: 0 <= j < |hooks| ==> AllFaithful(hooks[j])
      requires Leaves(SaveOutcome(p, insert), ValuesOf(p), before, asked, NoIds())
      ensures
        var o := SaveOutcome(p, insert);
        && (o.error.None? ==> Inserted(p, insert) && batches == asked + [Specs(p, 0)])
        && (o.error.None? ==> forall j :: 0 <= j < |hooks| ==> mutations[j].done && nodes[j] == Some(NodeOf(p, j)))
        && (o.error.Some? ==> forall j :: 0 <= j < |hooks| && mutations[j].done ==> before[j].done)
        && (o.error.Some? ==> batches == asked || (batches == asked + [Specs(p, 0)] && insert(Specs(p, 0)).None?))
    {
      hide AllFaithful, SaveOutcome, Specs, AllArrive, Typed, Marks, NodeFields, SpecOf, ValuesOf;
      SaveEnds(p, insert);
      FaithfulIsAllOrNothing(p, insert);
    }

    /** The runtime is imported, no builder has hooks, and the driver inserts every batch. */
    ghost predicate Undisturbed() {
      runtime.Imported? && (forall j :: 0 <= j < |hooks| ==> hooks[j] == []) && forall b :: insert(b).Some?
    }

    /** What a save without hooks leaves when everything went in: one more batch, with an insert and a node for every
        builder, made from what the builder had set and the defaults of the rest. */
    ghost predicate SavedAll(before: seq<Mutation>, asked: seq<seq<Spec>>)
      requires runtime.Imported?
      reads this
    {
      && Sized() && |before| == |hooks| && |batches| == |asked| + 1 && batches[..|asked|] == asked
      && |batches[|asked|]| == |hooks|
      && forall j :: 0 <= j < |hooks| ==>
           var w := mutations[j].values;
           && FilledIn(runtime, before[j].values, w) && batches[|asked|][j] == SpecOf(w)
           && nodes[j].Some? && nodes[j].value.fields == NodeFields(w)
           && nodes[j].value.id == (match ids(j) case Some(n) => n case None => 0)
    }

    lemma WithoutHooks(p: Plan, before: seq<Mutation>, asked: seq<seq<Spec>>)
      requires Planned(p) && 0 < |p.hooks| == |before| && p.hooks == hooks && Undisturbed()
      requires forall j :: 0 <= j < |hooks| ==> p.starts[j] == Defaulted(runtime, before[j].values)
      requires Leaves(SaveOutcome(p, insert), ValuesOf(p), before, asked, NoIds())
      ensures
        var o := SaveOutcome(p, insert);
        && (o.error.None? <==> forall j :: 0 <= j < |hooks| ==> Acceptable(before[j].values))
        && (o.error.None? ==> SavedAll(before, asked))
    {
      hide SaveOutcome, Specs, AllArrive, Typed, NodeFields, SpecOf, ValuesOf, Defaulted, Arrives, AllFaithful;
      hide FilledIn, Acceptable;
      forall j | 0 <= j < |hooks|
        ensures AllFaithful(p.hooks[j])
        ensures Arrives(p, j) <==> Acceptable(before[j].values)
        ensures ValuesOf(p)[j] == Defaulted(runtime, before[j].values)
        ensures FilledIn(runtime, before[j].values, Defaulted(runtime, before[j].values))
      {
        PlainBuilder(p, runtime, before[j].values, j);
      }
      AllArriveIff(p, 0);
      FaithfulIsAllOrNothing(p, insert);
      SpecsAre(p);
    }

    /** Empties the slices, as the new ones of a save are, and fills in the defaults. */
    method Prepare()
      requires Sized()
      modifies this
      ensures Sized() && batches == old(batches) && ids == NoIds()
      ensures forall j :: 0 <= j < |mutations| ==>
        mutations[j] == old(mutations)[j].(values := Defaulted(runtime, old(mutations)[j].values))
    {
      specs, nodes, ids := seq(|hooks|, i => None), seq(|hooks|, i => None), NoIds();
      AllDefaults();
    }

    lemma Planning(p: Plan, before: seq<Mutation>)
      requires Sized() && |before| == |hooks|
      requires p == Plan(seq(|before|, i requires 0 <= i < |before| => Defaulted(runtime, before[i].values)), hooks)
      requires forall j :: 0 <= j < |mutations| ==>
          mutations[j] == before[j].(values := Defaulted(runtime, before[j].values))
      ensures Planned(p) && p.hooks == hooks && forall j :: 0 <= j < |hooks| ==> mutations[j].values == p.starts[j]
      ensures forall j :: 0 <= j < |hooks| ==> mutations[j].done == before[j].done
      ensures hooks != [] ==> Start(p, 0) == Held(mutations[0].values, None)
    {
      hide Defaulted, Typed;
    }

    /** Creates all the accounts. With faithful hooks that is all or nothing: on success one batch of all inserts
        went in, every mutation is done, and the nodes returned have the values inserted, in builder order, and the
        ids the driver gave them; on failure no further mutation is done, and a batch was asked for only if it
        failed. With any hooks, a builder that is marked has a node of the value that reached its innermost mutator. */
    method Save() returns (r: Result<seq<Option<Node>>, SaveError>)
      requires Sized()
      modifies this
      ensures err.Some? ==> r == Err(BuilderError(err.value)) && unchanged(this)
      ensures err.None? && hooks == [] ==> r == Ok([]) && unchanged(this)
      ensures err.None? && hooks != [] ==>
        var o := SaveOutcome(old(PlanOf()), insert);
        r == (if o.error.Some? then Err(o.error.value) else Ok(nodes))
        && Leaves(o, ValuesOf(old(PlanOf())), old(mutations), old(batches), NoIds())
      ensures err.None? && hooks != [] && Undisturbed() ==>
        && (r.Ok? <==> forall j :: 0 <= j < |hooks| ==> Acceptable(old(mutations)[j].values))
        && (r.Ok? ==> r.value == nodes && SavedAll(old(mutations), old(batches)))
      ensures err.None? && hooks != [] && (forall j :: 0 <= j < |hooks| ==> AllFaithful(hooks[j])) ==>
        var p := old(PlanOf());
        && (r.Ok? ==> Inserted(p, insert) && batches == old(batches) + [Specs(p, 0)] && |r.value| == |hooks|)
        && (r.Ok? ==> forall j :: 0 <= j < |hooks| ==> mutations[j].done && r.value[j] == Some(NodeOf(p, j)))
        && (r.Err? ==> forall j :: 0 <= j < |hooks| && mutations[j].done ==> old(mutations)[j].done)
        && (r.Err? ==>
              || batches == old(batches)
              || (batches == old(batches) + [Specs(p, 0)] && insert(Specs(p, 0)).None?))
    {
      if err.Some? {
        return Err(BuilderError(err.value));
      }
      if |hooks| == 0 {
        return Ok([]);
      }
      ghost var p, earlier, asked := PlanOf(), mutations, batches;
      assert |earlier| == |hooks| && p.hooks == hooks;
      hide SpecOf, NodeFields, Check, Typed, Defaulted, Call, AllFaithful, Leaves, Specs, AllArrive, Arrival;
      Prepare();
      Planning(p, earlier);
      ghost var before := mutations;
      assert hooks[0][0..] == hooks[0];
      assert ValuesAt(p, 0, hooks[0], Start(p, 0)) == ValuesOf(p);
      var error := Mutate(0, 0, None, p, []);
      MarkedBefore(SaveOutcome(p, insert), ValuesOf(p), before, earlier, asked);
      if forall j :: 0 <= j < |hooks| ==> AllFaithful(hooks[j]) {
        FaithfullyLeft(p, earlier, asked);
      }
      if Undisturbed() {
        WithoutHooks(p, earlier, asked);
      }
      r := if error.Some? then Err(error.value) else Ok(nodes);
    }
  }
}
