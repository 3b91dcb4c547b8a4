/** The queries that a run of a builder sends, in order, and the row locks that they take. */
module Logs {
  import opened Collections
  import opened Storage
  import opened QueryTrees

  /** A query sent to the driver: for rows of a table, or for groups joined with accounts. */
  datatype Sent = Nodes(s: Settings) | Join(s: Settings)

  /** Rows that a query has locked. */
  datatype RowLock = Locked(typ: EntityType, rows: seq<Row>)

  /** A query that asks for row locks locks the rows it returns. */
  function LockBy(db: Database, sent: Sent): seq<RowLock> {
    if sent.s.modifiers == [] then []
    else [Locked(sent.s.typ, if sent.Nodes? then Rows(db, sent.s) else FirstRows(JoinRows(db, sent.s)))]
  }

  /** The locks of queries that all succeed. */
  function LocksFor(db: Database, sent: seq<Sent>): seq<RowLock> {
    if sent == [] then []
    else LocksFor(db, sent[..|sent| - 1]) + LockBy(db, sent[|sent| - 1])
  }

  /** The locks held after the queries of a log, of which the k-th may fail. */
  function LocksOf(db: Database, fails: nat -> bool, log: seq<Sent>): seq<RowLock> {
    if log == [] then []
    else
      LocksOf(db, fails, log[..|log| - 1]) + if fails(|log| - 1) then [] else LockBy(db, log[|log| - 1])
  }

  // ---------------------------------------------------------------- what a run sends

  /** A run sends the query of the builder; when rows are found, the edges follow in the order of the schema. */
  ghost function LogOf(db: Database, s: Settings, w: Subqueries): seq<Sent>
    decreases w, 1
  {
    var rows := Read(db, s, w.of.Keys);
    [Nodes(s)] + if rows == [] then [] else LogBelow(db, w, rows, EdgesOf(s.typ))
  }

  ghost function LogBelow(db: Database, w: Subqueries, rows: seq<Row>, es: seq<Edge>): seq<Sent>
    decreases w, 0, |es|
  {
    if es == [] then []
    else
      var e := es[|es| - 1];
      LogBelow(db, w, rows, es[..|es| - 1]) + if e in w.of then LogLoad(db, w.of[e], e, KeysOf(e, rows)) else []
  }

  /** Loading an edge runs the subquery restricted to the keys. A many-to-one edge without keys sends nothing;
      groups are joined in one query (their own edges are not part of this model). */
  ghost function LogLoad(db: Database, q: QueryTree, e: Edge, keys: seq<int>): seq<Sent>
    decreases q, 2
  {
    var s := LoadSettings(e, q.settings, keys);
    if e.kind.M2O? && keys == [] then []
    else if e.kind.M2M? then [Join(s)]
    else LogOf(db, s, q.withs)
  }

  /** What is sent for one edge of the schema. */
  ghost function LogNext(db: Database, w: Subqueries, rows: seq<Row>, e: Edge): seq<Sent> {
    if e in w.of then LogLoad(db, w.of[e], e, KeysOf(e, rows)) else []
  }

  // ---------------------------------------------------------------- what a failed run leaves in the builders

  predicate Selectable(db: Database, s: Settings) {
    forall f :: f in s.fields ==> f in db.columns(s.typ)
  }

  /** What a failed run leaves below its builder, when `n` queries were sent before: nothing is changed if the
      builder's own query could not be sent or failed. */
  ghost predicate Stopped(db: Database, fails: nat -> bool, n: nat, s: Settings, w: Subqueries, w': Subqueries)
    decreases w, 3
  {
    if Selectable(db, s) && !fails(n) then StoppedBelow(db, fails, n + 1, s, w, w') else w' == w
  }

  /** The run stopped at one of the edges, with those before it loaded. */
  ghost predicate StoppedBelow(db: Database, fails: nat -> bool, n: nat, s: Settings, w: Subqueries, w': Subqueries)
    decreases w, 2
  {
    exists k :: 0 <= k < |EdgesOf(s.typ)| && StoppedAt(db, fails, n, s, w, w', k)
  }

  ghost predicate StoppedAt(db: Database, fails: nat -> bool, n: nat, s: Settings, w: Subqueries, w': Subqueries,
                            k: nat)
    requires k < |EdgesOf(s.typ)|
    decreases w, 1
  {
    var es, rows := EdgesOf(s.typ), Read(db, s, w.of.Keys);
    && rows != []
    && StoppedIn(db, fails, n + |LogBelow(db, w, rows, es[..k])|, w, rows, (set e | e in es[..k]), es[k], w')
  }

  /** What a run leaves below a builder when it stops at edge `e`, with the edges in `done` loaded: the subquery
      of `e` is restricted, and those of the remaining edges are as they were. */
  ghost predicate StoppedIn(db: Database, fails: nat -> bool, n: nat, w: Subqueries, rows: seq<Row>, done: set<Edge>,
                            e: Edge, w': Subqueries)
    decreases w, 0
  {
    && e in w.of && e in w'.of
    && w' == Subqueries(AfterSome(db, w, rows, done).of[e := w'.of[e]])
    && EdgeStopped(db, fails, n, w.of[e], e, KeysOf(e, rows), w'.of[e])
  }

  /** What loading an edge leaves in its subquery when it fails: the restriction, and below it whatever the
      subquery's own run left. */
  ghost predicate EdgeStopped(db: Database, fails: nat -> bool, n: nat, q: QueryTree, e: Edge, keys: seq<int>,
                              q': QueryTree)
    decreases q, 4
  {
    && !(e.kind.M2O? && keys == [])
    && q'.settings == LoadSettings(e, q.settings, keys)
    && if e.kind.M2M? then q'.withs == q.withs else Stopped(db, fails, n, q'.settings, q.withs, q'.withs)
  }

  lemma StopsHere(db: Database, fails: nat -> bool, n: nat, s: Settings, w: Subqueries, w': Subqueries, k: nat,
                  rows: seq<Row>, done: set<Edge>, at: nat)
    requires k < |EdgesOf(s.typ)| && rows == Read(db, s, w.of.Keys) != []
    requires forall e :: e in done <==> e in EdgesOf(s.typ)[..k]
    requires at == n + |LogBelow(db, w, rows, EdgesOf(s.typ)[..k])|
    requires StoppedIn(db, fails, at, w, rows, done, EdgesOf(s.typ)[k], w')
    ensures StoppedBelow(db, fails, n, s, w, w')
  {
    hide StoppedIn, LogBelow, EdgesOf, Read;
    assert done == set e | e in EdgesOf(s.typ)[..k];
    assert StoppedAt(db, fails, n, s, w, w', k);
  }

  /** The edge at which a run stopped. */
  lemma StoppedWhere(db: Database, fails: nat -> bool, n: nat, s: Settings, w: Subqueries, w': Subqueries)
    returns (e: Edge, done: set<Edge>, at: nat)
    requires Stopped(db, fails, n, s, w, w') && w' != w
    ensures StoppedIn(db, fails, at, w, Read(db, s, w.of.Keys), done, e, w')
  {
    assert StoppedBelow(db, fails, n + 1, s, w, w');
    var k :| 0 <= k < |EdgesOf(s.typ)| && StoppedAt(db, fails, n + 1, s, w, w', k);
    hide EdgeStopped, AfterLoad, EdgesOf;
    e, done := EdgesOf(s.typ)[k], set e | e in EdgesOf(s.typ)[..k];
    at := n + 1 + |LogBelow(db, w, Read(db, s, w.of.Keys), EdgesOf(s.typ)[..k])|;
  }

  /** The subqueries after a run stopped at an edge. */
  lemma StoppedParts(db: Database, fails: nat -> bool, n: nat, w: Subqueries, rows: seq<Row>, done: set<Edge>,
                     e: Edge, w': Subqueries)
    requires StoppedIn(db, fails, n, w, rows, done, e, w')
    ensures w'.of.Keys == w.of.Keys && e in w.of && EdgeStopped(db, fails, n, w.of[e], e, KeysOf(e, rows), w'.of[e])
    ensures forall o :: o in w.of && o != e ==>
        w'.of[o] == if o in done then AfterLoad(db, w.of[o], o, KeysOf(o, rows)) else w.of[o]
  {
    hide EdgeStopped, AfterLoad, KeysOf;
  }

  // ---------------------------------------------------------------- one query per builder

  /** How many builders a query tree has. */
  ghost function QueriesOf(q: QueryTree): nat
    decreases q, 0
  {
    1 + QueriesBelow(q.withs, EdgesOf(q.settings.typ))
  }

  ghost function QueriesBelow(w: Subqueries, es: seq<Edge>): nat
    decreases w, |es|
  {
    if es == [] then 0
    else
      var e := es[|es| - 1];
      QueriesBelow(w, es[..|es| - 1]) + if e in w.of then QueriesOf(w.of[e]) else 0
  }

  /** No builder is run twice. */
  lemma {:induction false} OneQueryPerBuilder(db: Database, s: Settings, w: Subqueries)
    ensures |LogOf(db, s, w)| <= QueriesOf(QueryTree(s, w))
    decreases w, 1
  {
    hide Read, KeysOf, LoadSettings;
    OneQueryBelow(db, w, Read(db, s, w.of.Keys), EdgesOf(s.typ));
  }

  lemma {:induction false} OneQueryBelow(db: Database, w: Subqueries, rows: seq<Row>, es: seq<Edge>)
    ensures |LogBelow(db, w, rows, es)| <= QueriesBelow(w, es)
    decreases w, 0, |es|
  {
    hide Read, KeysOf;
    if es != [] {
      var e := es[|es| - 1];
      OneQueryBelow(db, w, rows, es[..|es| - 1]);
      if e in w.of {
        OneQueryForEdge(db, w.of[e], e, KeysOf(e, rows));
      }
    }
  }

  lemma {:induction false} OneQueryForEdge(db: Database, q: QueryTree, e: Edge, keys: seq<int>)
    ensures |LogLoad(db, q, e, keys)| <= QueriesOf(q)
    decreases q, 2
  {
    var s := LoadSettings(e, q.settings, keys);
    assert s.typ == q.settings.typ;
    hide LoadSettings, LogOf;
    OneQueryPerBuilder(db, s, q.withs);
  }

  // ---------------------------------------------------------------- a log being written

  /** The i-th of the queries to be sent can be sent and is answered, when `n` queries were sent before. */
  predicate Answered(db: Database, fails: nat -> bool, n: nat, whole: seq<Sent>, i: nat)
    requires i < |whole|
  {
    Selectable(db, whole[i].s) && !fails(n + i)
  }

  ghost predicate AllAnswered(db: Database, fails: nat -> bool, n: nat, whole: seq<Sent>) {
    forall i :: 0 <= i < |whole| ==> Answered(db, fails, n, whole, i)
  }

  /** A log that ends with the first query that is not answered, or before it if it cannot be sent. */
  ghost predicate BrokenOff(db: Database, fails: nat -> bool, before: seq<Sent>, after: seq<Sent>, whole: seq<Sent>,
                            i: nat) {
    && i < |whole| && !Answered(db, fails, |before|, whole, i)
    && (forall j :: 0 <= j < i ==> Answered(db, fails, |before|, whole, j))
    && after == before + if Selectable(db, whole[i].s) then whole[..i + 1] else whole[..i]
  }

  /** A log grown from `before` by a run that is to send `whole`: all of it when the run succeeds, and all is
      answered; when the run fails, what comes up to the first query that is not answered. */
  ghost predicate Follows(db: Database, fails: nat -> bool, before: seq<Sent>, after: seq<Sent>, whole: seq<Sent>,
                          ok: bool) {
    if ok then after == before + whole && AllAnswered(db, fails, |before|, whole)
    else exists i: nat :: BrokenOff(db, fails, before, after, whole, i)
  }

  lemma NothingSent(db: Database, fails: nat -> bool, log: seq<Sent>)
    ensures Follows(db, fails, log, log, [], true)
  {
  }

  lemma CannotBeSent(db: Database, fails: nat -> bool, log: seq<Sent>, whole: seq<Sent>)
    requires whole != [] && !Selectable(db, whole[0].s)
    ensures Follows(db, fails, log, log, whole, false)
  {
    assert BrokenOff(db, fails, log, log, whole, 0);
  }

  lemma OneSent(db: Database, fails: nat -> bool, log: seq<Sent>, sent: Sent)
    requires Selectable(db, sent.s)
    ensures Follows(db, fails, log, log + [sent], [sent], !fails(|log|))
  {
    if fails(|log|) {
      assert BrokenOff(db, fails, log, log + [sent], [sent], 0);
    }
  }

  lemma AnsweredIn(db: Database, fails: nat -> bool, n: nat, whole: seq<Sent>, more: seq<Sent>, i: nat)
    requires i < |whole + more|
    ensures Answered(db, fails, n, whole + more, i) <==>
      if i < |whole| then Answered(db, fails, n, whole, i) else Answered(db, fails, n + |whole|, more, i - |whole|)
  {
  }

  lemma FollowsThen(db: Database, fails: nat -> bool, before: seq<Sent>, mid: seq<Sent>, after: seq<Sent>,
                    whole: seq<Sent>, more: seq<Sent>, ok: bool)
    requires Follows(db, fails, before, mid, whole, true) && Follows(db, fails, mid, after, more, ok)
    ensures Follows(db, fails, before, after, whole + more, ok)
  {
    var all, m := whole + more, |whole|;
    assert |mid| == |before| + m;
    forall i | 0 <= i < |all|
      ensures Answered(db, fails, |before|, all, i) <==>
        if i < m then Answered(db, fails, |before|, whole, i) else Answered(db, fails, |mid|, more, i - m)
    {
      AnsweredIn(db, fails, |before|, whole, more, i);
    }
    hide Answered, Selectable;
    if ok {
      assert after == before + all;
    } else {
      var i: nat :| BrokenOff(db, fails, mid, after, more, i);
      assert all[..m + i] == whole + more[..i] && all[..m + i + 1] == whole + more[..i + 1];
      assert all[m + i] == more[i];
      assert BrokenOff(db, fails, before, after, all, m + i);
    }
  }

  lemma FollowsWithin(db: Database, fails: nat -> bool, before: seq<Sent>, after: seq<Sent>, some: seq<Sent>,
                      whole: seq<Sent>)
    requires Follows(db, fails, before, after, some, false) && some <= whole
    ensures Follows(db, fails, before, after, whole, false)
  {
    var i: nat :| BrokenOff(db, fails, before, after, some, i);
    assert forall j :: 0 <= j <= i ==> some[j] == whole[j];
    assert some[..i] == whole[..i] && some[..i + 1] == whole[..i + 1];
    forall j | 0 <= j <= i
      ensures Answered(db, fails, |before|, whole, j) <==> Answered(db, fails, |before|, some, j)
    {
    }
    hide Answered, Selectable;
    assert BrokenOff(db, fails, before, after, whole, i);
  }

  /** What a log says of the run that wrote it. */
  lemma FollowsParts(db: Database, fails: nat -> bool, before: seq<Sent>, after: seq<Sent>, whole: seq<Sent>, ok: bool)
    requires Follows(db, fails, before, after, whole, ok)
    ensures before <= after <= before + whole && (ok ==> after == before + whole)
    ensures ok <==> AllAnswered(db, fails, |before|, whole)
  {
    if !ok {
      var i: nat :| BrokenOff(db, fails, before, after, whole, i);
      assert whole == whole[..i + 1] + whole[i + 1..] && whole == whole[..i] + whole[i..];
    }
  }

  lemma LogStep(db: Database, w: Subqueries, rows: seq<Row>, es: seq<Edge>, k: nat)
    requires k < |es|
    ensures LogBelow(db, w, rows, es[..k + 1]) ==
        LogBelow(db, w, rows, es[..k]) + LogNext(db, w, rows, es[k])
  {
    assert es[..k + 1][..k] == es[..k];
  }

  lemma {:induction false} LogWithin(db: Database, w: Subqueries, rows: seq<Row>, es: seq<Edge>, k: nat)
    requires k <= |es|
    ensures LogBelow(db, w, rows, es[..k]) <= LogBelow(db, w, rows, es)
    decreases |es| - k
  {
    if k == |es| {
      assert es[..k] == es;
    } else {
      LogStep(db, w, rows, es, k);
      LogWithin(db, w, rows, es, k + 1);
    }
  }

  // ---------------------------------------------------------------- the locks of a run

  lemma AnsweredFront(db: Database, fails: nat -> bool, n: nat, whole: seq<Sent>)
    requires AllAnswered(db, fails, n, whole) && whole != []
    ensures AllAnswered(db, fails, n, whole[..|whole| - 1]) && !fails(n + |whole| - 1)
  {
    var last := |whole| - 1;
    assert Answered(db, fails, n, whole, last) && n + last == n + |whole| - 1;
    forall i | 0 <= i < last
      ensures Answered(db, fails, n, whole[..last], i)
    {
      assert Answered(db, fails, n, whole, i);
    }
  }

  lemma {:induction false} LocksAdd(db: Database, fails: nat -> bool, before: seq<Sent>, whole: seq<Sent>)
    requires AllAnswered(db, fails, |before|, whole)
    ensures LocksOf(db, fails, before + whole) == LocksOf(db, fails, before) + LocksFor(db, whole)
  {
    hide LockBy;
    if whole == [] {
      assert before + whole == before;
    } else {
      var n := |whole| - 1;
      assert (before + whole)[..|before| + n] == before + whole[..n];
      AnsweredFront(db, fails, |before|, whole);
      hide Answered, AllAnswered;
      LocksAdd(db, fails, before, whole[..n]);
    }
  }

  ghost predicate AsksNone(sent: seq<Sent>) {
    forall x :: x in sent ==> x.s.modifiers == []
  }

  lemma LastSent(before: seq<Sent>, after: seq<Sent>, whole: seq<Sent>)
    requires before <= after <= before + whole && |before| < |after|
    ensures before <= after[..|after| - 1] <= before + whole
    ensures after[|after| - 1] in whole
  {
    var n := |after| - 1;
    assert after[n] == whole[n - |before|];
  }

  lemma {:induction false} NoLocksAdded(db: Database, fails: nat -> bool, before: seq<Sent>, after: seq<Sent>,
                                        whole: seq<Sent>)
    requires before <= after <= before + whole && AsksNone(whole)
    ensures LocksOf(db, fails, after) == LocksOf(db, fails, before)
    decreases |after|
  {
    if |after| == |before| {
      assert after == before;
    } else {
      var n := |after| - 1;
      LastSent(before, after, whole);
      NoLocksAdded(db, fails, before, after[..n], whole);
      assert LockBy(db, after[n]) == [];
      hide AsksNone, LockBy;
    }
  }

  /** Builders that hold no lock send no query that asks for one. */
  lemma {:induction false} NoneAsked(db: Database, s: Settings, w: Subqueries)
    requires HoldsNoLock(QueryTree(s, w))
    ensures AsksNone(LogOf(db, s, w))
    decreases w, 1
  {
    hide Read, KeysOf, LoadSettings;
    NoneAskedBelow(db, w, Read(db, s, w.of.Keys), EdgesOf(s.typ));
  }

  lemma {:induction false} NoneAskedBelow(db: Database, w: Subqueries, rows: seq<Row>, es: seq<Edge>)
    requires forall e :: e in w.of ==> HoldsNoLock(w.of[e])
    ensures AsksNone(LogBelow(db, w, rows, es))
    decreases w, 0, |es|
  {
    hide Read, KeysOf;
    if es != [] {
      var e := es[|es| - 1];
      NoneAskedBelow(db, w, rows, es[..|es| - 1]);
      if e in w.of {
        NoneAskedForEdge(db, w.of[e], e, KeysOf(e, rows));
      }
    }
  }

  lemma {:induction false} NoneAskedForEdge(db: Database, q: QueryTree, e: Edge, keys: seq<int>)
    requires HoldsNoLock(q)
    ensures AsksNone(LogLoad(db, q, e, keys))
    decreases q, 2
  {
    var s := LoadSettings(e, q.settings, keys);
    assert s.modifiers == q.settings.modifiers;
    hide LoadSettings, LogOf;
    NoneAsked(db, s, q.withs);
  }

  /** A lock on the groups of accounts locks the joined groups, each once. */
  lemma GroupsLocked(db: Database, s: Settings)
    requires s.modifiers != []
    ensures |LockBy(db, Join(s))| == 1
    ensures
      var lock := LockBy(db, Join(s))[0];
      && lock.typ == s.typ && DistinctIds(lock.rows)
      && (forall r :: r in lock.rows ==> exists j :: j in JoinRows(db, s) && j.row == r)
      && (forall j :: j in JoinRows(db, s) ==> IdOf(j.row) in Ids(lock.rows))
  {
    hide IdOf, JoinRows;
    var join := JoinRows(db, s);
    forall j | j in join
      ensures IdOf(j.row) in Ids(FirstRows(join))
    {
      var i :| 0 <= i < |join| && join[i] == j;
      assert IdOf(join[i].row) in Ids(FirstRows(join));
    }
    forall r | r in FirstRows(join)
      ensures exists j :: j in join && j.row == r
    {
      var i :| 0 <= i < |join| && join[i].row == r;
      assert join[i] in join;
    }
  }

  lemma {:induction false} LocksAreKept(db: Database, sent: seq<Sent>, i: nat)
    requires i < |sent|
    ensures forall l :: l in LockBy(db, sent[i]) ==> l in LocksFor(db, sent)
    decreases |sent|
  {
    hide LockBy;
    if i < |sent| - 1 {
      LocksAreKept(db, sent[..|sent| - 1], i);
    }
  }

  /** Every edge asked for, when rows are found and there are keys to look for, is loaded by one query of the run that
      carries the order, the page and the lock of its subquery; and a lock asked for there locks the rows found for
      the edge. */
  lemma EdgeIsSent(db: Database, s: Settings, w: Subqueries, k: nat)
    requires k < |EdgesOf(s.typ)| && EdgesOf(s.typ)[k] in w.of && Read(db, s, w.of.Keys) != []
    requires EdgesOf(s.typ)[k].kind.M2O? ==> KeysOf(EdgesOf(s.typ)[k], Read(db, s, w.of.Keys)) != []
    ensures
      var e := EdgesOf(s.typ)[k];
      var asked, t := w.of[e].settings, LoadSettings(e, w.of[e].settings, KeysOf(e, Read(db, s, w.of.Keys)));
      && (if e.kind.M2M? then Join(t) else Nodes(t)) in LogOf(db, s, w)
      && t == asked.(predicates := t.predicates, fields := t.fields)
      && (asked.modifiers != [] ==>
            Locked(asked.typ, if e.kind.M2M? then FirstRows(JoinRows(db, t)) else Rows(db, t))
            in LocksFor(db, LogOf(db, s, w)))
  {
    var es, rows := EdgesOf(s.typ), Read(db, s, w.of.Keys);
    var e := es[k];
    var q, keys := w.of[e], KeysOf(e, rows);
    var t := LoadSettings(e, q.settings, keys);
    var sent := if e.kind.M2M? then Join(t) else Nodes(t);
    var log := LogOf(db, s, w);
    assert log == [Nodes(s)] + LogBelow(db, w, rows, es);
    assert t == q.settings.(predicates := t.predicates, fields := t.fields);
    assert LogLoad(db, q, e, keys) != [] && LogLoad(db, q, e, keys)[0] == sent;
    assert q.settings.modifiers != [] ==>
      Locked(q.settings.typ, if e.kind.M2M? then FirstRows(JoinRows(db, t)) else Rows(db, t)) in LockBy(db, sent);
    hide Read, KeysOf, LoadSettings, Rows, JoinRows, FirstRows, LogBelow, LogLoad, LogOf, EdgesOf;
    LogStep(db, w, rows, es, k);
    LogWithin(db, w, rows, es, k + 1);
    var i := 1 + |LogBelow(db, w, rows, es[..k])|;
    assert i < |log| && log[i] == sent;
    LocksAreKept(db, log, i);
  }
}
