/** Sequence helpers shared by the network model: the length of Python's
    `range(n)`, `min` of two lengths, and the flattening comprehension
    `[p for s in ss for p in s]` together with the positions it produces. */
module Seqs {

  /** Number of iterations of `range(n)`: a negative count gives an empty range. */
  function RangeLen(n: int): nat
  {
    if n < 0 then 0 else n
  }

  function Min(a: nat, b: nat): nat
  {
    if a <= b then a else b
  }

  /** `[p for s in ss for p in s]`: the lists of `ss` concatenated in order. */
  function Flatten<T>(ss: seq<seq<T>>): seq<T>
  {
    if ss == [] then [] else ss[0] + Flatten(ss[1..])
  }

  /** Total length of the first `j` lists of `ss`, that is, the position in
      `Flatten(ss)` where list `j` starts. */
  function Offset<T>(ss: seq<seq<T>>, j: nat): nat
    requires j <= |ss|
  {
    if j == 0 then 0 else |ss[0]| + Offset(ss[1..], j - 1)
  }

  lemma {:induction false} FlattenLength<T>(ss: seq<seq<T>>)
    ensures |Flatten(ss)| == Offset(ss, |ss|)
  {
    if ss != [] {
      FlattenLength(ss[1..]);
    }
  }

  /** Element `i` of list `j` sits at position `Offset(ss, j) + i` of the flattening. */
  lemma {:induction false} FlattenAt<T>(ss: seq<seq<T>>, j: nat, i: nat)
    requires j < |ss| && i < |ss[j]|
    ensures Offset(ss, j) + i < |Flatten(ss)|
    ensures Flatten(ss)[Offset(ss, j) + i] == ss[j][i]
  {
    if j > 0 {
      FlattenAt(ss[1..], j - 1, i);
    }
  }

  /** When every list has length `c`, list `j` starts at `j * c`. */
  lemma {:induction false} OffsetUniform<T>(ss: seq<seq<T>>, j: nat, c: nat)
    requires j <= |ss|
    requires forall k :: 0 <= k < |ss| ==> |ss[k]| == c
    ensures Offset(ss, j) == j * c
  {
    if j > 0 {
      OffsetUniform(ss[1..], j - 1, c);
      assert j * c == c + (j - 1) * c;
    }
  }

  /** Every element of the flattening comes from one of the lists. */
  lemma {:induction false} FlattenMember<T>(ss: seq<seq<T>>, x: T)
    requires x in Flatten(ss)
    ensures exists j :: 0 <= j < |ss| && x in ss[j]
  {
    if x !in ss[0] {
      FlattenMember(ss[1..], x);
      var j :| 0 <= j < |ss[1..]| && x in ss[1..][j];
      assert x in ss[j + 1];
    }
  }

  /** An element is in the flattening exactly when it is in one of the lists. */
  lemma FlattenMembers<T>(ss: seq<seq<T>>)
    ensures forall x :: x in Flatten(ss) <==> exists j :: 0 <= j < |ss| && x in ss[j]
  {
    forall x | x in Flatten(ss)
      ensures exists j :: 0 <= j < |ss| && x in ss[j]
    {
      FlattenMember(ss, x);
    }
    forall x, j | 0 <= j < |ss| && x in ss[j]
      ensures x in Flatten(ss)
    {
      var i :| 0 <= i < |ss[j]| && ss[j][i] == x;
      FlattenAt(ss, j, i);
    }
  }
}
