/** The "first position of the maximum" selection used everywhere in the combiners:
    numpy's `argmax` on the vote vector and Python's `xs.index(max(xs))` on the
    candidate accuracies and expert scores both return the lowest index among the
    positions holding the largest value. */
module FirstMax {

  /** `k` is the first position of a maximum of `v`. */
  predicate IsFirstMax(v: seq<real>, k: int)
  {
    && 0 <= k < |v|
    && (forall j :: 0 <= j < |v| ==> v[j] <= v[k])
    && (forall j :: 0 <= j < k ==> v[j] < v[k])
  }

  /** The first position of the maximum, by recursion on the prefix. */
  function ArgMax(v: seq<real>): (k: nat)
    requires |v| > 0
    ensures IsFirstMax(v, k)
  {
    if |v| == 1 then 0
    else
      var j := ArgMax(v[..|v| - 1]);
      if v[|v| - 1] > v[j] then |v| - 1 else j
  }

  /** The first maximum is determined by `v` alone. */
  lemma FirstMaxUnique(v: seq<real>, k1: int, k2: int)
    requires IsFirstMax(v, k1) && IsFirstMax(v, k2)
    ensures k1 == k2
  {
    assert v[k1] == v[k2];
  }

  /** A vector whose entries are all equal has its first maximum at 0: in particular
      an all-zero vote vector always selects index 0. */
  lemma {:induction false} ConstantPicksFirst(v: seq<real>, c: real)
    requires |v| > 0
    requires forall j :: 0 <= j < |v| ==> v[j] == c
    ensures ArgMax(v) == 0
  {
    assert IsFirstMax(v, 0);
    FirstMaxUnique(v, 0, ArgMax(v));
  }

  /** The scan `xs.index(max(xs))` performs: one pass keeping the first position
      of the largest value seen so far. */
  method FindFirstMax(v: seq<real>) returns (k: nat)
    requires |v| > 0
    ensures IsFirstMax(v, k)
    ensures k == ArgMax(v)
  {
    k := 0;
    var i := 1;
    while i < |v|
      invariant 1 <= i <= |v|
      invariant IsFirstMax(v[..i], k)
    {
      if v[i] > v[k] {
        k := i;
      }
      i := i + 1;
    }
    assert v[..i] == v;
    FirstMaxUnique(v, k, ArgMax(v));
  }
}
