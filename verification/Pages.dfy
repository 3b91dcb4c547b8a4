/** A page of a sequence whose elements have owners, against the pages of what each owner has of it. */
module Pages {
  import opened Collections
  import opened Storage

  function Of<T(!new)>(owner: T -> Option<int>, id: int): T -> bool {
    (x: T) => owner(x) == Some(id)
  }

  function Skipped(offset: Option<nat>): nat {
    if offset.Some? then offset.value else 0
  }

  /** Where a page ends in a sequence of the given length. */
  function PageEnd(limit: Option<nat>, offset: Option<nat>, length: nat): nat {
    var m := Skipped(offset);
    if limit.Some? && 0 < limit.value && m + limit.value < length then m + limit.value else length
  }

  lemma PageIs<T>(limit: Option<nat>, offset: Option<nat>, xs: seq<T>)
    ensures |xs| <= Skipped(offset) ==> Page(limit, offset, xs) == []
    ensures Skipped(offset) < |xs| ==>
      && Skipped(offset) < PageEnd(limit, offset, |xs|) <= |xs|
      && Page(limit, offset, xs) == xs[Skipped(offset)..PageEnd(limit, offset, |xs|)]
  {
  }

  /** The page starts past the end, or it is everything, or all elements up to its end have one owner and every
      other owner has no more elements than are skipped. */
  ghost predicate Undisturbed<T(!new)>(all: seq<T>, owner: T -> Option<int>, limit: Option<nat>, offset: Option<nat>) {
    var m, end := Skipped(offset), PageEnd(limit, offset, |all|);
    |all| <= m || (m == 0 && end == |all|) || FirstOwned(all, owner, m, end)
  }

  ghost predicate FirstOwned<T(!new)>(all: seq<T>, owner: T -> Option<int>, m: nat, end: nat)
    requires m < end <= |all|
  {
    && (forall i :: 0 <= i < end ==> owner(all[i]) == owner(all[m]))
    && (forall x :: x in all && owner(x).Some? && owner(x) != owner(all[m]) ==>
          |Filter(all, Of(owner, owner(x).value))| <= m)
  }

  lemma LastFiltered<T(!new)>(a: seq<T>, front: seq<T>, last: T, keep: T -> bool)
    requires Filter(a + front, keep) == Filter(a, keep) + Filter(front, keep)
    ensures Filter(a + (front + [last]), keep) == Filter(a, keep) + Filter(front + [last], keep)
  {
    FilterOneMore(a + front, last, keep);
    FilterOneMore(front, last, keep);
    hide Filter;
    assert a + (front + [last]) == (a + front) + [last];
  }

  lemma {:induction false} FilterInTwo<T(!new)>(a: seq<T>, b: seq<T>, keep: T -> bool)
    ensures Filter(a + b, keep) == Filter(a, keep) + Filter(b, keep)
  {
    if b == [] {
      assert a + b == a;
    } else {
      var front, last := b[..|b| - 1], b[|b| - 1];
      FilterInTwo(a, front, keep);
      LastFiltered(a, front, last, keep);
      assert b == front + [last];
    }
  }

  lemma FilterCut<T(!new)>(xs: seq<T>, i: nat, keep: T -> bool)
    requires i <= |xs|
    ensures Filter(xs, keep) == Filter(xs[..i], keep) + Filter(xs[i..], keep)
  {
    assert xs == xs[..i] + xs[i..];
    FilterInTwo(xs[..i], xs[i..], keep);
  }

  // ---------------------------------------------------------------- when every share is a page of its own

  lemma OwnerOfFirst<T(!new)>(all: seq<T>, owner: T -> Option<int>, m: nat, end: nat, id: int)
    requires m < end <= |all| && FirstOwned(all, owner, m, end) && owner(all[m]) == Some(id)
    ensures Filter(all[m..end], Of(owner, id)) == all[m..end]
    ensures Filter(all, Of(owner, id)) == all[..end] + Filter(all[end..], Of(owner, id))
  {
    FilterCut(all, end, Of(owner, id));
    FilterAll(all[..end], Of(owner, id));
    FilterAll(all[m..end], Of(owner, id));
  }

  lemma OtherOwner<T(!new)>(all: seq<T>, owner: T -> Option<int>, m: nat, end: nat, id: int)
    requires m < end <= |all| && FirstOwned(all, owner, m, end) && owner(all[m]) != Some(id)
    ensures Filter(all[m..end], Of(owner, id)) == []
    ensures |Filter(all, Of(owner, id))| <= m
  {
    FilterAll(all[m..end], Of(owner, id));
    var own := Filter(all, Of(owner, id));
    if own != [] {
      assert own[0] in own;
      assert own[0] in all && owner(own[0]) == Some(id);
    }
  }

  /** What follows the page does not change it. */
  lemma FrontAlone<T>(limit: Option<nat>, offset: Option<nat>, all: seq<T>, own: seq<T>, more: seq<T>)
    requires Skipped(offset) < |all| && own == all[..PageEnd(limit, offset, |all|)] + more && |own| <= |all|
    ensures Page(limit, offset, own) == Page(limit, offset, all)
  {
    var m, end := Skipped(offset), PageEnd(limit, offset, |all|);
    PageIs(limit, offset, all);
    PageIs(limit, offset, own);
    hide Page;
    assert PageEnd(limit, offset, |own|) == end;
    assert own[m..end] == all[m..end];
  }

  /** What an owner has of an undisturbed page is the page of what it has. */
  lemma SharesAreOwn<T(!new)>(all: seq<T>, owner: T -> Option<int>, limit: Option<nat>, offset: Option<nat>, id: int)
    requires Undisturbed(all, owner, limit, offset)
    ensures Filter(Page(limit, offset, all), Of(owner, id)) == Page(limit, offset, Filter(all, Of(owner, id)))
  {
    var m, end, own := Skipped(offset), PageEnd(limit, offset, |all|), Filter(all, Of(owner, id));
    PageIs(limit, offset, all);
    PageIs(limit, offset, own);
    hide Page, FirstOwned, Of;
    if m < |all| && !(m == 0 && end == |all|) {
      if owner(all[m]) == Some(id) {
        OwnerOfFirst(all, owner, m, end, id);
        FrontAlone(limit, offset, all, own, Filter(all[end..], Of(owner, id)));
      } else {
        OtherOwner(all, owner, m, end, id);
      }
    }
  }

  // ---------------------------------------------------------------- what equal shares tell of the page

  /** An owner has as many elements of the page as its own page has. */
  ghost predicate SameLength<T(!new)>(all: seq<T>, owner: T -> Option<int>, limit: Option<nat>, offset: Option<nat>,
                                      id: int) {
    |Filter(Page(limit, offset, all), Of(owner, id))| == |Page(limit, offset, Filter(all, Of(owner, id)))|
  }

  lemma AllKept<T(!new)>(xs: seq<T>, keep: T -> bool)
    requires |Filter(xs, keep)| == |xs|
    ensures forall x :: x in xs ==> keep(x)
  {
    FilterAll(xs, keep);
  }

  lemma CutHasAll<T(!new)>(all: seq<T>, owner: T -> Option<int>, i: nat, k: nat, id: int)
    requires i <= k < |all| && owner(all[k]) == Some(id)
    ensures Filter(all[i..], Of(owner, id)) != []
  {
    assert all[i..][k - i] == all[k];
    assert all[k] in Filter(all[i..], Of(owner, id));
  }

  lemma FrontKept<T(!new)>(all: seq<T>, owner: T -> Option<int>, i: nat, id: int)
    requires i <= |all| && |Filter(all[..i], Of(owner, id))| == i
    ensures forall k :: 0 <= k < i ==> owner(all[k]) == Some(id)
    ensures forall other :: other != id ==> Filter(all[..i], Of(owner, other)) == []
  {
    AllKept(all[..i], Of(owner, id));
    assert forall k :: 0 <= k < i ==> all[k] in all[..i];
    forall other | other != id
      ensures Filter(all[..i], Of(owner, other)) == []
    {
      FilterAll(all[..i], Of(owner, other));
    }
  }

  ghost predicate AllSameLength<T(!new)>(all: seq<T>, owner: T -> Option<int>, limit: Option<nat>,
                                         offset: Option<nat>) {
    && (forall x :: x in all ==> owner(x).Some?)
    && forall x :: x in all ==> SameLength(all, owner, limit, offset, owner(x).value)
  }

  /** The lengths for one owner, when the page is cut off at `end` alone or starts at `m` alone. */
  lemma LimitLengths<T(!new)>(all: seq<T>, owner: T -> Option<int>, limit: Option<nat>, offset: Option<nat>, x: T)
    requires AllSameLength(all, owner, limit, offset) && x in all
    requires Skipped(offset) == 0 && PageEnd(limit, offset, |all|) < |all|
    ensures owner(x).Some?
    ensures
      var end, id := PageEnd(limit, offset, |all|), owner(x).value;
      var front, back := Filter(all[..end], Of(owner, id)), Filter(all[end..], Of(owner, id));
      0 < end && (|front| + |back| <= end ==> |back| == 0) && (|front| + |back| > end ==> |front| == end)
  {
    var end, id := PageEnd(limit, offset, |all|), owner(x).value;
    assert SameLength(all, owner, limit, offset, id);
    FilterCut(all, end, Of(owner, id));
    PageIs(limit, offset, all);
    PageIs(limit, offset, Filter(all, Of(owner, id)));
    hide Filter, Page, Of;
  }

  lemma OffsetLengths<T(!new)>(all: seq<T>, owner: T -> Option<int>, limit: Option<nat>, offset: Option<nat>, x: T)
    requires AllSameLength(all, owner, limit, offset) && x in all
    requires 0 < Skipped(offset) < |all| && (limit.None? || limit.value == 0)
    ensures owner(x).Some?
    ensures
      var m, id := Skipped(offset), owner(x).value;
      var front, back := Filter(all[..m], Of(owner, id)), Filter(all[m..], Of(owner, id));
      |back| > 0 ==> |front| == m
  {
    var m, id := Skipped(offset), owner(x).value;
    assert SameLength(all, owner, limit, offset, id);
    FilterCut(all, m, Of(owner, id));
    PageIs(limit, offset, all);
    PageIs(limit, offset, Filter(all, Of(owner, id)));
    hide Filter, Page, Of;
  }

  /** Where a limit alone cuts, or an offset alone starts. */
  function Cut(limit: Option<nat>, offset: Option<nat>, length: nat): nat {
    if Skipped(offset) == 0 then PageEnd(limit, offset, length) else Skipped(offset)
  }

  ghost predicate OneBound(limit: Option<nat>, offset: Option<nat>) {
    Skipped(offset) == 0 || limit.None? || limit.value == 0
  }

  lemma Lengths<T(!new)>(all: seq<T>, owner: T -> Option<int>, limit: Option<nat>, offset: Option<nat>, x: T)
    requires AllSameLength(all, owner, limit, offset) && OneBound(limit, offset) && x in all
    requires Cut(limit, offset, |all|) < |all|
    ensures owner(x).Some?
    ensures
      var k, id := Cut(limit, offset, |all|), owner(x).value;
      Filter(all[k..], Of(owner, id)) != [] ==> |Filter(all[..k], Of(owner, id))| == k
  {
    hide Filter, Of, AllSameLength;
    if Skipped(offset) == 0 {
      LimitLengths(all, owner, limit, offset, x);
    } else {
      OffsetLengths(all, owner, limit, offset, x);
    }
  }

  /** With a limit alone or an offset alone, equal lengths leave one owner when something is cut off. */
  lemma LengthsLeaveOne<T(!new)>(all: seq<T>, owner: T -> Option<int>, limit: Option<nat>, offset: Option<nat>, i: nat)
    requires AllSameLength(all, owner, limit, offset) && OneBound(limit, offset)
    requires 0 < Cut(limit, offset, |all|) < |all| && i < |all|
    ensures owner(all[i]) == owner(all[0])
  {
    var k := Cut(limit, offset, |all|);
    hide *;
    OwnerKnown(all, owner, limit, offset, k);
    OwnerKnown(all, owner, limit, offset, i);
    var id, other := owner(all[k]).value, owner(all[i]).value;
    CutHasAll(all, owner, k, k, id);
    Lengths(all, owner, limit, offset, all[k]);
    FrontKept(all, owner, k, id);
    if other != id {
      Lengths(all, owner, limit, offset, all[i]);
      CutHasAll(all, owner, k, i, other);
    }
  }

  lemma OneOwnerOwns<T(!new)>(all: seq<T>, owner: T -> Option<int>, m: nat, end: nat)
    requires m < end <= |all| && forall i :: 0 <= i < |all| ==> owner(all[i]) == owner(all[0])
    ensures FirstOwned(all, owner, m, end)
  {
    hide Filter, Of;
  }

  /** With a limit alone or an offset alone, equal lengths leave the page undisturbed. */
  lemma LengthsTell<T(!new)>(all: seq<T>, owner: T -> Option<int>, limit: Option<nat>, offset: Option<nat>)
    requires AllSameLength(all, owner, limit, offset) && OneBound(limit, offset)
    ensures Undisturbed(all, owner, limit, offset)
  {
    var m, end := Skipped(offset), PageEnd(limit, offset, |all|);
    if m < |all| && !(m == 0 && end == |all|) {
      PageIs(limit, offset, all);
      hide *;
      forall i | 0 <= i < |all|
        ensures owner(all[i]) == owner(all[0])
      {
        LengthsLeaveOne(all, owner, limit, offset, i);
      }
      OneOwnerOwns(all, owner, m, end);
    }
  }

  lemma OwnerKnown<T(!new)>(all: seq<T>, owner: T -> Option<int>, limit: Option<nat>, offset: Option<nat>, i: nat)
    requires AllSameLength(all, owner, limit, offset) && i < |all|
    ensures all[i] in all && owner(all[i]).Some?
  {
  }

  // ---------------------------------------------------------------- the same for distinct elements

  /** An owner has the elements of the page that its own page has. */
  ghost predicate SameMembers<T(!new)>(all: seq<T>, owner: T -> Option<int>, limit: Option<nat>, offset: Option<nat>,
                                       id: int) {
    forall x :: x in Filter(Page(limit, offset, all), Of(owner, id)) <==>
                x in Page(limit, offset, Filter(all, Of(owner, id)))
  }

  /** How many elements before the i-th have its owner. */
  ghost function Place<T(!new)>(all: seq<T>, owner: T -> Option<int>, i: nat): nat
    requires i < |all| && owner(all[i]).Some?
  {
    |Filter(all[..i], Of(owner, owner(all[i]).value))|
  }

  lemma PlaceIsIndex<T(!new)>(all: seq<T>, owner: T -> Option<int>, i: nat)
    requires i < |all| && owner(all[i]).Some?
    ensures
      var own, r := Filter(all, Of(owner, owner(all[i]).value)), Place(all, owner, i);
      r <= i && r < |own| && own[r] == all[i]
  {
    var mine := Of(owner, owner(all[i]).value);
    assert mine(all[i]) && all[..i + 1] == all[..i] + [all[i]];
    FilterOneMore(all[..i], all[i], mine);
    FilterCut(all, i + 1, mine);
    hide Filter, Of;
  }

  lemma {:induction false} FilterKeepsDistinct<T(!new)>(xs: seq<T>, keep: T -> bool)
    requires NoDuplicates(xs)
    ensures NoDuplicates(Filter(xs, keep))
  {
    if xs != [] {
      var front, last := xs[..|xs| - 1], xs[|xs| - 1];
      FilterKeepsDistinct(front, keep);
      assert last !in front;
    }
  }

  lemma InPage<T>(limit: Option<nat>, offset: Option<nat>, xs: seq<T>, i: nat)
    requires NoDuplicates(xs) && i < |xs|
    ensures xs[i] in Page(limit, offset, xs) <==> Skipped(offset) <= i < PageEnd(limit, offset, |xs|)
  {
    PageIs(limit, offset, xs);
    var m, end := Skipped(offset), PageEnd(limit, offset, |xs|);
    hide Page, PageEnd;
    if m <= i < end {
      assert xs[i] == xs[m..end][i - m];
    }
    if m < |xs| && xs[i] in xs[m..end] {
      var k :| 0 <= k < end - m && xs[m..end][k] == xs[i];
      assert xs[m + k] == xs[i];
    }
  }

  /** An element is in its owner's share exactly when its index falls into the page, and in its owner's page
      exactly when its place does. */
  lemma PlacedLikeIndexed<T(!new)>(all: seq<T>, owner: T -> Option<int>, limit: Option<nat>, offset: Option<nat>,
                                   i: nat)
    requires NoDuplicates(all) && i < |all| && owner(all[i]).Some?
    requires SameMembers(all, owner, limit, offset, owner(all[i]).value)
    ensures
      var own := Filter(all, Of(owner, owner(all[i]).value));
      Skipped(offset) <= i < PageEnd(limit, offset, |all|) <==>
        Skipped(offset) <= Place(all, owner, i) < PageEnd(limit, offset, |own|)
  {
    var own := Filter(all, Of(owner, owner(all[i]).value));
    PlaceIsIndex(all, owner, i);
    FilterKeepsDistinct(all, Of(owner, owner(all[i]).value));
    InPage(limit, offset, all, i);
    InPage(limit, offset, own, Place(all, owner, i));
    hide Place, Page, PageEnd, NoDuplicates;
  }

  ghost predicate AllSameMembers<T(!new)>(all: seq<T>, owner: T -> Option<int>, limit: Option<nat>,
                                          offset: Option<nat>) {
    && NoDuplicates(all) && (forall x :: x in all ==> owner(x).Some?)
    && forall x :: x in all ==> SameMembers(all, owner, limit, offset, owner(x).value)
  }

  lemma Placed<T(!new)>(all: seq<T>, owner: T -> Option<int>, limit: Option<nat>, offset: Option<nat>, i: nat)
    requires AllSameMembers(all, owner, limit, offset) && i < |all|
    ensures owner(all[i]).Some?
    ensures
      var own := Filter(all, Of(owner, owner(all[i]).value));
      Skipped(offset) <= i < PageEnd(limit, offset, |all|) <==>
        Skipped(offset) <= Place(all, owner, i) < PageEnd(limit, offset, |own|)
  {
    assert all[i] in all;
    assert SameMembers(all, owner, limit, offset, owner(all[i]).value);
    PlacedLikeIndexed(all, owner, limit, offset, i);
  }

  lemma FullPlace<T(!new)>(all: seq<T>, owner: T -> Option<int>, i: nat)
    requires i < |all| && owner(all[i]).Some? && Place(all, owner, i) == i
    ensures forall k :: 0 <= k < i ==> owner(all[k]) == owner(all[i])
  {
    AllKept(all[..i], Of(owner, owner(all[i]).value));
    assert forall k :: 0 <= k < i ==> all[k] in all[..i];
  }

  lemma NoPlace<T(!new)>(all: seq<T>, owner: T -> Option<int>, i: nat)
    requires i < |all| && owner(all[i]).Some? && forall k :: 0 <= k < i ==> owner(all[k]) != owner(all[i])
    ensures Place(all, owner, i) == 0
  {
    FilterAll(all[..i], Of(owner, owner(all[i]).value));
  }

  /** With an offset: up to the end of the page the first owner's elements follow each other. */
  lemma {:induction false} FirstRun<T(!new)>(all: seq<T>, owner: T -> Option<int>, limit: Option<nat>,
                                             offset: Option<nat>, p: nat)
    requires AllSameMembers(all, owner, limit, offset) && 0 < Skipped(offset) < p <= PageEnd(limit, offset, |all|)
    requires Skipped(offset) < |all|
    ensures p <= |all| && forall i :: 0 <= i < p ==> owner(all[i]) == owner(all[Skipped(offset)])
  {
    hide *;
    var m := Skipped(offset);
    PageIs(limit, offset, all);
    if p == m + 1 {
      Placed(all, owner, limit, offset, m);
      PlaceIsIndex(all, owner, m);
      FullPlace(all, owner, m);
    } else {
      FirstRun(all, owner, limit, offset, p - 1);
      Placed(all, owner, limit, offset, p - 1);
      if owner(all[p - 1]) != owner(all[m]) {
        NoPlace(all, owner, p - 1);
      }
    }
  }

  lemma FirstOwner<T(!new)>(all: seq<T>, owner: T -> Option<int>, limit: Option<nat>, offset: Option<nat>)
    requires AllSameMembers(all, owner, limit, offset) && Skipped(offset) < |all|
    requires Skipped(offset) > 0 || PageEnd(limit, offset, |all|) < |all|
    ensures forall i :: 0 <= i < PageEnd(limit, offset, |all|) <= |all| ==> owner(all[i]) == owner(all[Skipped(offset)])
  {
    var m, end := Skipped(offset), PageEnd(limit, offset, |all|);
    PageIs(limit, offset, all);
    if m > 0 {
      FirstRun(all, owner, limit, offset, end);
    } else {
      Placed(all, owner, limit, offset, end);
      PlaceIsIndex(all, owner, end);
      FullPlace(all, owner, end);
    }
  }

  lemma OthersAreSkipped<T(!new)>(all: seq<T>, owner: T -> Option<int>, limit: Option<nat>, offset: Option<nat>, x: T)
    requires AllSameMembers(all, owner, limit, offset) && Skipped(offset) < |all|
    requires forall i :: 0 <= i < PageEnd(limit, offset, |all|) <= |all| ==>
        owner(all[i]) == owner(all[Skipped(offset)])
    requires x in all && owner(x) != owner(all[Skipped(offset)])
    ensures owner(x).Some? && |Filter(all, Of(owner, owner(x).value))| <= Skipped(offset)
  {
    var m, own := Skipped(offset), Filter(all, Of(owner, owner(x).value));
    if m < |own| {
      assert own[m] in own;
      var i :| 0 <= i < |all| && all[i] == own[m];
      Placed(all, owner, limit, offset, i);
      PlaceIsIndex(all, owner, i);
      FilterKeepsDistinct(all, Of(owner, owner(x).value));
      PageIs(limit, offset, own);
      PageIs(limit, offset, all);
    }
  }

  /** Equal shares of distinct elements leave the page undisturbed. */
  lemma MembersTell<T(!new)>(all: seq<T>, owner: T -> Option<int>, limit: Option<nat>, offset: Option<nat>)
    requires AllSameMembers(all, owner, limit, offset)
    ensures Undisturbed(all, owner, limit, offset)
  {
    var m, end := Skipped(offset), PageEnd(limit, offset, |all|);
    if m < |all| && !(m == 0 && end == |all|) {
      PageIs(limit, offset, all);
      FirstOwner(all, owner, limit, offset);
      forall x | x in all && owner(x) != owner(all[m])
        ensures owner(x).Some? && |Filter(all, Of(owner, owner(x).value))| <= m
      {
        OthersAreSkipped(all, owner, limit, offset, x);
      }
    }
  }
}
