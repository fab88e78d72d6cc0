/** The scans over a table of slots that every file operation is made of. */
module Scan {
  /** The first slot that satisfies p, or the number of slots. */
  function First<T>(t: seq<T>, p: T -> bool): (i: nat)
    ensures i <= |t| && (i < |t| ==> p(t[i])) && forall j | 0 <= j < i :: !p(t[j])
  {
    if t == [] then 0 else if p(t[0]) then 0 else 1 + First(t[1..], p)
  }

  /** The last slot that satisfies p, or -1. */
  function Last<T>(t: seq<T>, p: T -> bool): (i: int)
    ensures -1 <= i < |t| && (i >= 0 ==> p(t[i])) && forall j | i < j < |t| :: !p(t[j])
  {
    if t == [] then -1 else if p(t[|t| - 1]) then |t| - 1 else Last(t[..|t| - 1], p)
  }

  /** How many slots satisfy p. */
  function Count<T>(t: seq<T>, p: T -> bool): (n: nat)
    ensures n <= |t|
  {
    if t == [] then 0 else Count(t[..|t| - 1], p) + if p(t[|t| - 1]) then 1 else 0
  }

  /** Where a new record goes: the last hole, or the end. */
  function Place<T>(t: seq<T>, hole: T -> bool): (k: nat)
    ensures k <= |t|
  {
    var i := Last(t, hole);
    if i == -1 then |t| else i
  }

  /** Writing a record at a slot; writing past the end fills the gap with zeroed records. */
  function Write<T>(t: seq<T>, k: nat, x: T, zero: T): (u: seq<T>)
    ensures |u| == if k < |t| then |t| else k + 1
    ensures k < |u| && u[k] == x && forall i | 0 <= i < |t| && i != k :: u[i] == t[i]
  {
    if k < |t| then t[k := x] else t + seq(k - |t|, _ => zero) + [x]
  }

  /** A table without holes grows at the end. */
  lemma NoHoleMeansAppend<T>(t: seq<T>, hole: T -> bool)
    requires forall i | 0 <= i < |t| :: !hole(t[i])
    ensures Place(t, hole) == |t|
  {
  }

  /** The first match is known once one match is, and no earlier one. */
  lemma FirstIs<T>(t: seq<T>, p: T -> bool, i: nat)
    requires i < |t| && p(t[i]) && forall j | 0 <= j < i :: !p(t[j])
    ensures First(t, p) == i
  {
  }

  lemma FirstNone<T>(t: seq<T>, p: T -> bool)
    requires forall j | 0 <= j < |t| :: !p(t[j])
    ensures First(t, p) == |t|
  {
  }

  /** The last hole is known once one is, and none after it; without any, the place is the end. */
  lemma PlaceIs<T>(t: seq<T>, hole: T -> bool, i: int)
    requires -1 <= i < |t| && (i >= 0 ==> hole(t[i])) && forall j | i < j < |t| :: !hole(t[j])
    ensures Place(t, hole) == if i == -1 then |t| else i
  {
  }

  lemma {:induction false} CountAll<T>(t: seq<T>, p: T -> bool, k: nat)
    requires k <= |t|
    requires (forall i | 0 <= i < k :: p(t[i])) && (forall i | k <= i < |t| :: !p(t[i]))
    ensures Count(t, p) == k
  {
    if t != [] {
      CountAll(t[..|t| - 1], p, if k == |t| then k - 1 else k);
    }
  }

  method FindFirst<T>(t: seq<T>, p: T -> bool) returns (i: nat)
    ensures i == First(t, p)
  {
    i := 0;
    while i < |t|
      invariant i <= |t| && forall j | 0 <= j < i :: !p(t[j])
    {
      if p(t[i]) {
        return;
      }
      i := i + 1;
    }
  }

  /** The scan that remembers the last hole on its way to the end of the file. */
  method FindPlace<T>(t: seq<T>, hole: T -> bool) returns (k: nat)
    ensures k == Place(t, hole)
  {
    var firstEmptySpace := -1;
    var entryNumber := 0;
    while entryNumber < |t|
      invariant entryNumber <= |t| && -1 <= firstEmptySpace < entryNumber
      invariant firstEmptySpace >= 0 ==> hole(t[firstEmptySpace])
      invariant forall j | firstEmptySpace < j < entryNumber :: !hole(t[j])
    {
      if hole(t[entryNumber]) {
        firstEmptySpace := entryNumber;
      }
      entryNumber := entryNumber + 1;
    }
    k := if firstEmptySpace == -1 then |t| else firstEmptySpace;
  }

  method CountSlots<T>(t: seq<T>, p: T -> bool) returns (n: nat)
    ensures n == Count(t, p)
  {
    n := 0;
    for i := 0 to |t|
      invariant n == Count(t[..i], p)
    {
      assert t[..i + 1][..i] == t[..i];
      if p(t[i]) {
        n := n + 1;
      }
    }
    assert t[..|t|] == t;
  }
}
