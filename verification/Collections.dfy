/** Options, results and the few sequence operations that the rest of the project is written in.
    Everything is defined from the end of a sequence, so that a loop over a prefix unfolds in step. */
module Collections {

  datatype Option<+T> = None | Some(value: T)

  datatype Result<+T, +E> = Ok(value: T) | Err(error: E)

  function Filter<T(!new)>(xs: seq<T>, keep: T -> bool): (ys: seq<T>)
    ensures forall y :: y in ys <==> y in xs && keep(y)
    ensures |ys| <= |xs|
  {
    if xs == [] then []
    else
      var last := xs[|xs| - 1];
      assert xs == xs[..|xs| - 1] + [last];
      Filter(xs[..|xs| - 1], keep) + if keep(last) then [last] else []
  }

  lemma {:induction false} FilterOfFilter<T(!new)>(xs: seq<T>, p: T -> bool, q: T -> bool, both: T -> bool)
    requires forall x :: x in xs ==> (both(x) <==> p(x) && q(x))
    ensures Filter(Filter(xs, p), q) == Filter(xs, both)
  {
    if xs != [] {
      var front, last := xs[..|xs| - 1], xs[|xs| - 1];
      FilterOfFilter(front, p, q, both);
      if p(last) {
        assert Filter(xs, p)[..|Filter(xs, p)| - 1] == Filter(front, p);
      } else {
        assert Filter(xs, p) == Filter(front, p);
      }
    }
  }

  lemma {:induction false} FilterSame<T(!new)>(xs: seq<T>, p: T -> bool, q: T -> bool)
    requires forall x :: x in xs ==> p(x) == q(x)
    ensures Filter(xs, p) == Filter(xs, q)
  {
    if xs != [] { FilterSame(xs[..|xs| - 1], p, q); }
  }

  lemma {:induction false} FilterAll<T(!new)>(xs: seq<T>, keep: T -> bool)
    ensures (forall x :: x in xs ==> keep(x)) ==> Filter(xs, keep) == xs
    ensures (forall x :: x in xs ==> !keep(x)) ==> Filter(xs, keep) == []
    ensures (exists x :: x in xs && !keep(x)) ==> |Filter(xs, keep)| < |xs|
  {
    if xs != [] {
      assert xs == xs[..|xs| - 1] + [xs[|xs| - 1]];
      FilterAll(xs[..|xs| - 1], keep);
    }
  }

  ghost predicate Ascending<T>(xs: seq<T>, rank: T -> int) {
    forall i, j :: 0 <= i < j < |xs| ==> rank(xs[i]) < rank(xs[j])
  }

  lemma {:induction false} FilterKeepsAscending<T(!new)>(xs: seq<T>, keep: T -> bool, rank: T -> int)
    requires Ascending(xs, rank)
    ensures Ascending(Filter(xs, keep), rank)
  {
    if xs != [] {
      var kept, last := Filter(xs[..|xs| - 1], keep), xs[|xs| - 1];
      FilterKeepsAscending(xs[..|xs| - 1], keep, rank);
      forall i | 0 <= i < |kept|
        ensures rank(kept[i]) < rank(last)
      {
        assert kept[i] in xs[..|xs| - 1];
      }
    }
  }

  /** Ranks that agree on the elements order them alike, and a higher element can follow. */
  lemma AscendingPlus<T>(front: seq<T>, last: T, rank: T -> int, other: T -> int)
    requires Ascending(front, rank) && forall x :: x in front ==> other(x) == rank(x)
    ensures Ascending(front, other)
    ensures (forall x :: x in front ==> other(x) < other(last)) ==> Ascending(front + [last], other)
  {
    forall i, j | 0 <= i < j < |front|
      ensures other(front[i]) < other(front[j])
    {
      assert front[i] in front && front[j] in front;
    }
  }

  lemma LastIsHighest<T>(front: seq<T>, last: T, rank: T -> int)
    requires Ascending(front + [last], rank)
    ensures Ascending(front, rank)
    ensures forall x :: x in front ==> rank(x) < rank(last)
  {
    var xs := front + [last];
    forall i | 0 <= i < |front|
      ensures rank(front[i]) < rank(last)
    {
      assert xs[i] == front[i] && xs[|front|] == last;
    }
    forall i, j | 0 <= i < j < |front|
      ensures rank(front[i]) < rank(front[j])
    {
      assert xs[i] == front[i] && xs[j] == front[j];
    }
  }

  /** Two ascending sequences with the same elements are equal. */
  lemma {:induction false} SameAscending<T(!new)>(a: seq<T>, b: seq<T>, rank: T -> int)
    requires Ascending(a, rank) && Ascending(b, rank) && forall x :: x in a <==> x in b
    ensures a == b
    decreases |a|
  {
    hide Ascending;
    assert |a| > 0 ==> a[|a| - 1] in b;
    assert |b| > 0 ==> b[|b| - 1] in a;
    if |a| > 0 && |b| > 0 {
      var a', x, b', y := a[..|a| - 1], a[|a| - 1], b[..|b| - 1], b[|b| - 1];
      assert a == a' + [x] && b == b' + [y];
      LastIsHighest(a', x, rank);
      LastIsHighest(b', y, rank);
      assert y in a' || y == x;
      assert x in b' || x == y;
      forall z
        ensures z in a' <==> z in b'
      {
        assert z in a <==> z in a' || z == x;
        assert z in b <==> z in b' || z == y;
      }
      SameAscending(a', b', rank);
    }
  }

  lemma FilterOneMore<T(!new)>(xs: seq<T>, x: T, keep: T -> bool)
    ensures Filter(xs + [x], keep) == if keep(x) then Filter(xs, keep) + [x] else Filter(xs, keep)
  {
  }

  /** The elements of `xs` whose key, at the same index, is `key`. */
  function PickKey<T>(xs: seq<T>, keys: seq<Option<int>>, key: int): (ys: seq<T>)
    requires |xs| == |keys|
    ensures forall y :: y in ys ==> y in xs
  {
    if xs == [] then []
    else
      PickKey(xs[..|xs| - 1], keys[..|xs| - 1], key) + if keys[|xs| - 1] == Some(key) then [xs[|xs| - 1]] else []
  }

  lemma {:induction false} PickKeyMembers<T>(xs: seq<T>, keys: seq<Option<int>>, key: int)
    requires |xs| == |keys| && NoDuplicates(xs)
    ensures forall k :: 0 <= k < |xs| ==> (xs[k] in PickKey(xs, keys, key) <==> keys[k] == Some(key))
    ensures NoDuplicates(PickKey(xs, keys, key))
  {
    if xs != [] {
      var front, last := xs[..|xs| - 1], xs[|xs| - 1];
      PickKeyMembers(front, keys[..|xs| - 1], key);
      assert last !in front;
      assert last !in PickKey(front, keys[..|xs| - 1], key);
    }
  }

  /** Picking by key keeps a relation between two sequences. */
  lemma {:induction false} PickRelated<T, U>(xs: seq<T>, ys: seq<U>, keys: seq<Option<int>>, key: int,
                                             related: (T, U) -> bool)
    requires |xs| == |ys| == |keys| && forall i :: 0 <= i < |xs| ==> related(xs[i], ys[i])
    ensures |PickKey(xs, keys, key)| == |PickKey(ys, keys, key)|
    ensures forall i :: 0 <= i < |PickKey(xs, keys, key)| ==>
        related(PickKey(xs, keys, key)[i], PickKey(ys, keys, key)[i])
  {
    if xs != [] {
      PickRelated(xs[..|xs| - 1], ys[..|ys| - 1], keys[..|keys| - 1], key, related);
    }
  }

  /** `groups` files every element of `xs` under its key. */
  ghost predicate GroupedByKey<T>(xs: seq<T>, keys: seq<Option<int>>, groups: map<int, seq<T>>)
    requires |xs| == |keys|
  {
    && (forall f :: f in groups ==> Some(f) in keys && groups[f] == PickKey(xs, keys, f))
    && (forall k :: k in keys && k.Some? ==> k.value in groups)
  }

  lemma PickKeyAbsent<T>(xs: seq<T>, keys: seq<Option<int>>, key: int)
    requires |xs| == |keys| && Some(key) !in keys
    ensures PickKey(xs, keys, key) == []
  {
  }

  lemma GroupOneMore<T>(xs: seq<T>, keys: seq<Option<int>>, groups: map<int, seq<T>>, x: T, key: Option<int>)
    requires |xs| == |keys| && GroupedByKey(xs, keys, groups)
    ensures
      var group := if key.Some? && key.value in groups then groups[key.value] else [];
      GroupedByKey(xs + [x], keys + [key], if key.None? then groups else groups[key.value := group + [x]])
  {
    var group := if key.Some? && key.value in groups then groups[key.value] else [];
    var groups' := if key.None? then groups else groups[key.value := group + [x]];
    forall f | f in groups'
      ensures Some(f) in keys + [key] && groups'[f] == PickKey(xs + [x], keys + [key], f)
    {
      assert (xs + [x])[..|xs|] == xs && (keys + [key])[..|xs|] == keys;
      if f !in groups { PickKeyAbsent(xs, keys, f); }
    }
  }

  /** Picking from a mapped sequence is mapping what is kept. */
  lemma {:induction false} PickFromMapped<K(!new), T>(ts: seq<T>, keys: seq<Option<int>>, key: int, xs: seq<K>,
                                                      keep: K -> bool, f: K -> T)
    requires |ts| == |keys| == |xs|
    requires forall i :: 0 <= i < |xs| ==> ts[i] == f(xs[i]) && (keys[i] == Some(key) <==> keep(xs[i]))
    ensures
      var kept := Filter(xs, keep);
      PickKey(ts, keys, key) == seq(|kept|, i requires 0 <= i < |kept| => f(kept[i]))
  {
    if xs != [] {
      PickFromMapped(ts[..|xs| - 1], keys[..|xs| - 1], key, xs[..|xs| - 1], keep, f);
    }
  }

  /** The index of the last element equal to `x`. */
  function LastIndex(xs: seq<int>, x: int): (r: Option<nat>)
    ensures r.Some? ==> r.value < |xs| && xs[r.value] == x && forall j :: r.value < j < |xs| ==> xs[j] != x
    ensures r.None? ==> x !in xs
  {
    if xs == [] then None
    else if xs[|xs| - 1] == x then Some(|xs| - 1)
    else
      assert xs == xs[..|xs| - 1] + [xs[|xs| - 1]];
      LastIndex(xs[..|xs| - 1], x)
  }

  /** Files every element under its id; of two elements with one id, the later. */
  ghost predicate FiledById<T>(xs: seq<T>, ids: seq<int>, filed: map<int, T>)
    requires |ids| == |xs|
  {
    && (forall id :: id in filed <==> id in ids)
    && (forall id :: id in filed ==> LastIndex(ids, id).Some? && filed[id] == xs[LastIndex(ids, id).value])
  }

  lemma FileOneMore<T>(xs: seq<T>, ids: seq<int>, filed: map<int, T>, x: T, id: int)
    requires |ids| == |xs| && FiledById(xs, ids, filed)
    ensures FiledById(xs + [x], ids + [id], filed[id := x])
  {
  }

  ghost predicate NoDuplicates<T>(xs: seq<T>) {
    forall i, j :: 0 <= i < j < |xs| ==> xs[i] != xs[j]
  }

  /** The distinct present keys, in order of first appearance. */
  function DistinctKeys(keys: seq<Option<int>>): (ids: seq<int>)
    ensures NoDuplicates(ids)
    ensures forall k :: k in ids <==> Some(k) in keys
  {
    if keys == [] then []
    else
      var front, last := keys[..|keys| - 1], keys[|keys| - 1];
      assert keys == front + [last];
      var ids := DistinctKeys(front);
      if last.None? || last.value in ids then ids else ids + [last.value]
  }

  lemma DistinctOneMore(keys: seq<Option<int>>, key: Option<int>)
    ensures DistinctKeys(keys + [key]) ==
            if key.None? || key.value in DistinctKeys(keys) then DistinctKeys(keys)
            else DistinctKeys(keys) + [key.value]
  {
  }

  lemma {:induction false} CountWithoutDuplicates<T>(xs: seq<T>, x: T)
    requires NoDuplicates(xs)
    ensures multiset(xs)[x] == if x in xs then 1 else 0
  {
    if xs != [] {
      assert xs == xs[..|xs| - 1] + [xs[|xs| - 1]];
      CountWithoutDuplicates(xs[..|xs| - 1], x);
    }
  }

  /** Two duplicate-free sequences with the same elements are permutations of each other. */
  lemma SameElementsSameBag<T(!new)>(xs: seq<T>, ys: seq<T>)
    requires NoDuplicates(xs) && NoDuplicates(ys)
    requires forall x :: x in xs <==> x in ys
    ensures multiset(xs) == multiset(ys)
  {
    forall x | x in multiset(xs) || x in multiset(ys)
      ensures multiset(xs)[x] == multiset(ys)[x]
    {
      CountWithoutDuplicates(xs, x);
      CountWithoutDuplicates(ys, x);
    }
  }
}
