/**
 * Python slicing on byte strings. `s[a:b]` never raises: both bounds are
 * clamped to the length, and an empty range gives the empty string. The
 * library relies on this whenever a declared length runs past the data.
 */
module Slices {

  function Min(a: nat, b: nat): nat
  {
    if a <= b then a else b
  }

  /** `s[a:b]` for non-negative `a` and `b`. */
  function Slice<T>(s: seq<T>, a: nat, b: nat): seq<T>
  {
    var lo, hi := Min(a, |s|), Min(b, |s|);
    if hi <= lo then [] else s[lo..hi]
  }

  /** The slice holds the elements from `a` up to `b`, as far as the string reaches. */
  lemma SliceFacts<T>(s: seq<T>, a: nat, b: nat)
    ensures var r := Slice(s, a, b);
      |r| == (if Min(b, |s|) <= Min(a, |s|) then 0 else Min(b, |s|) - Min(a, |s|)) &&
      forall k :: 0 <= k < |r| ==> r[k] == s[a + k]
  {
  }

  /** `s[a:]`. */
  function From<T>(s: seq<T>, a: nat): (r: seq<T>)
    ensures |r| == if a <= |s| then |s| - a else 0
    ensures forall k :: 0 <= k < |r| ==> r[k] == s[a + k]
  {
    if a <= |s| then s[a..] else []
  }

  /** Inside the bounds a Python slice is Dafny's subsequence. */
  lemma SliceInside<T>(s: seq<T>, a: nat, b: nat)
    requires a <= b <= |s|
    ensures Slice(s, a, b) == s[a..b]
  {
  }

  /** Two adjacent slices make up the slice over their union. */
  lemma SliceAppend<T>(s: seq<T>, a: nat, b: nat, c: nat)
    requires a <= b <= c
    ensures Slice(s, a, b) + Slice(s, b, c) == Slice(s, a, c)
  {
    var x, y, z := Slice(s, a, b), Slice(s, b, c), Slice(s, a, c);
    SliceFacts(s, a, b);
    SliceFacts(s, b, c);
    SliceFacts(s, a, c);
    assert |x| + |y| == |z|;
    forall k | 0 <= k < |z|
      ensures (x + y)[k] == z[k]
    {
      if k < |x| {
      } else {
        assert (x + y)[k] == y[k - |x|] == s[b + (k - |x|)];
      }
    }
  }

  /** A slice followed by the rest of the string is the rest of the string from the slice's start. */
  lemma SliceFrom<T>(s: seq<T>, a: nat, b: nat)
    requires a <= b
    ensures Slice(s, a, b) + From(s, b) == From(s, a)
  {
    var x, y, z := Slice(s, a, b), From(s, b), From(s, a);
    SliceFacts(s, a, b);
    assert |x| + |y| == |z|;
    forall k | 0 <= k < |z|
      ensures (x + y)[k] == z[k]
    {
      if k < |x| {
      } else {
        assert (x + y)[k] == y[k - |x|] == s[b + (k - |x|)];
      }
    }
  }

  /** The pieces joined back together, `b''.join(pieces)`. */
  function Concat<T>(ss: seq<seq<T>>): seq<T>
  {
    if ss == [] then [] else ss[0] + Concat(ss[1..])
  }

  /** Joining distributes over appending lists of pieces. */
  lemma {:induction false} ConcatAppend<T>(a: seq<seq<T>>, b: seq<seq<T>>)
    ensures Concat(a + b) == Concat(a) + Concat(b)
    decreases |a|
  {
    if a != [] {
      assert (a + b)[1..] == a[1..] + b;
      ConcatAppend(a[1..], b);
    } else {
      assert a + b == b;
    }
  }

  /** Joining a non-empty list after a prefix: the first piece, then the rest joined. */
  lemma ConcatUnfold<T>(pre: seq<T>, ss: seq<seq<T>>)
    requires ss != []
    ensures pre + Concat(ss) == pre + ss[0] + Concat(ss[1..])
    ensures |Concat(ss)| == |ss[0]| + |Concat(ss[1..])|
  {
    assert Concat(ss) == ss[0] + Concat(ss[1..]);
    assert pre + (ss[0] + Concat(ss[1..])) == pre + ss[0] + Concat(ss[1..]);
  }

  /** Joining a piece put in front of a list: the piece, then the list joined. */
  lemma ConcatCons<T>(d: seq<T>, rest: seq<seq<T>>)
    ensures Concat([d] + rest) == d + Concat(rest)
  {
    assert ([d] + rest)[0] == d && ([d] + rest)[1..] == rest;
  }

  /** Regrouping a piece and what follows it after a prefix. */
  lemma Regroup3<T>(pre: seq<T>, d: seq<T>, c: seq<T>)
    ensures pre + (d + c) == pre + d + c
  {
  }

  lemma Regroup<T>(pre: seq<T>, d: seq<T>, c: seq<T>, post: seq<T>)
    ensures pre + (d + c) + post == pre + d + (c + post)
    ensures pre + d + c + post == pre + d + (c + post)
  {
  }
}
