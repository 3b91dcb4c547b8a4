/** Go slices: a length and an array they may share, whose spare capacity an append writes into. */
module Slices {

  datatype Slice<T> = Nil | Slice(arr: array<T>, len: nat)

  ghost predicate Fits<T>(s: Slice<T>) {
    s.Slice? ==> s.len <= s.arr.Length
  }

  /** The array behind a slice. */
  ghost function Backing<T>(s: Slice<T>): set<object> {
    if s.Nil? then {} else {s.arr}
  }

  function Contents<T>(s: Slice<T>): seq<T>
    requires Fits(s)
    reads Backing(s)
  {
    if s.Nil? then [] else s.arr[..s.len]
  }

  predicate HasRoom<T>(s: Slice<T>, n: nat) {
    s.Slice? && s.len + n <= s.arr.Length
  }

  /** append(s, xs...): writes behind the end of the slice when there is room, and moves to a larger array, of
      a capacity that the runtime chooses, when there is none. */
  method Append<T>(s: Slice<T>, xs: seq<T>) returns (r: Slice<T>)
    requires Fits(s)
    modifies Backing(s)
    ensures Fits(r) && Contents(r) == old(Contents(s)) + xs
    ensures if xs == [] then r == s else
      if HasRoom(s, |xs|) then r == Slice(s.arr, s.len + |xs|) else r.Slice? && fresh(Backing(r))
    ensures Backing(r) == Backing(s) || fresh(Backing(r))
    ensures Contents(s) == old(Contents(s))
  {
    if |xs| == 0 {
      r := s;
    } else if HasRoom(s, |xs|) {
      WriteBehind(s, xs);
      r := Slice(s.arr, s.len + |xs|);
    } else {
      var all := Contents(s) + xs;
      var room: nat :| |all| <= room;
      var grown := new T[room](i requires i >= 0 => if i < |all| then all[i] else xs[0]);
      r := Slice(grown, |all|);
      assert grown[..|all|] == all;
    }
  }

  method WriteBehind<T>(s: Slice<T>, xs: seq<T>)
    requires Fits(s) && HasRoom(s, |xs|)
    modifies Backing(s)
    ensures s.arr[..s.len + |xs|] == old(Contents(s)) + xs
  {
    for i := 0 to |xs|
      invariant s.arr[..s.len + i] == old(Contents(s)) + xs[..i]
    {
      s.arr[s.len + i] := xs[i];
      assert s.arr[..s.len + i + 1] == s.arr[..s.len + i] + [xs[i]];
      assert xs[..i + 1] == xs[..i] + [xs[i]];
    }
    assert xs[..|xs|] == xs;
  }

  /** append([]T{}, s...): the same contents in an array of its own. */
  method Copy<T>(s: Slice<T>) returns (r: Slice<T>)
    requires Fits(s)
    ensures Fits(r) && Contents(r) == Contents(s) && fresh(Backing(r))
  {
    r := Append(Nil, Contents(s));
  }

  /** Why a clone must copy: two holders of one slice with spare capacity overwrite what the other appends. */
  method AppendsInterfere<T>(s: Slice<T>, x: T, y: T) returns (first: Slice<T>, second: Slice<T>)
    requires Fits(s) && HasRoom(s, 1)
    modifies Backing(s)
    ensures Fits(first) && Contents(first) == old(Contents(s)) + [y]
    ensures Fits(second) && Contents(second) == old(Contents(s)) + [y]
  {
    first := Append(s, [x]);
    second := Append(s, [y]);
  }

  /** After a copy each holder keeps what it appends. */
  method CopiesKeepApart<T>(s: Slice<T>, xs: seq<T>, ys: seq<T>) returns (first: Slice<T>, second: Slice<T>)
    requires Fits(s)
    modifies Backing(s)
    ensures Fits(first) && Contents(first) == old(Contents(s)) + xs
    ensures Fits(second) && Contents(second) == old(Contents(s)) + ys
  {
    var copy := Copy(s);
    first := Append(s, xs);
    second := Append(copy, ys);
  }
}
