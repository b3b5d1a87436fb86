/** Counting flags in a sequence. */
module Tally {
  function Count(b: seq<bool>): nat {
    if b == [] then 0 else Count(b[..|b| - 1]) + if b[|b| - 1] then 1 else 0
  }

  lemma {:induction false} CountUpdate(b: seq<bool>, i: nat, v: bool)
    requires i < |b|
    ensures Count(b[i := v]) == Count(b) - (if b[i] then 1 else 0) + (if v then 1 else 0)
  {
    var l := |b| - 1;
    if i == l {
      assert b[i := v][..l] == b[..l];
    } else {
      assert b[i := v][..l] == b[..l][i := v];
      CountUpdate(b[..l], i, v);
    }
  }

  lemma CountAppend(b: seq<bool>, v: bool)
    ensures Count(b + [v]) == Count(b) + (if v then 1 else 0)
  {
    assert (b + [v])[..|b|] == b;
  }

  /** The extreme counts say what every flag is. */
  lemma {:induction false} CountExtremes(b: seq<bool>)
    ensures Count(b) <= |b|
    ensures Count(b) == 0 <==> forall i :: 0 <= i < |b| ==> !b[i]
    ensures Count(b) == |b| <==> forall i :: 0 <= i < |b| ==> b[i]
  {
    if b != [] {
      CountExtremes(b[..|b| - 1]);
      assert forall i :: 0 <= i < |b| - 1 ==> b[..|b| - 1][i] == b[i];
    }
  }
}
