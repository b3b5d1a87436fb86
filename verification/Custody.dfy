/** Containers of numbered items, each item in exactly one place. */
module Custody {
  ghost predicate Distinct(q: seq<nat>) { forall i, j :: 0 <= i < j < |q| ==> q[i] != q[j] }

  /** `q` holds exactly the items whose place is `place`, each once. */
  ghost predicate Box<P>(q: seq<nat>, at: seq<P>, place: P) {
    && Distinct(q)
    && (forall i :: 0 <= i < |q| ==> q[i] < |at| && at[q[i]] == place)
    && (forall b :: 0 <= b < |at| && at[b] == place ==> b in q)
  }

  lemma BoxPush<P>(q: seq<nat>, at: seq<P>, place: P, b: nat)
    requires Box(q, at, place) && b < |at| && at[b] != place
    ensures Box(q + [b], at[b := place], place)
  {
    var r := q + [b];
    forall x | 0 <= x < |at| && at[b := place][x] == place ensures x in r {
      if x == b { assert r[|q|] == b; } else { assert x in q; }
    }
  }

  lemma BoxPopFront<P>(q: seq<nat>, at: seq<P>, place: P, other: P)
    requires Box(q, at, place) && q != [] && other != place
    ensures q[0] < |at| && at[q[0]] == place && Box(q[1..], at[q[0] := other], place)
  {
    forall x | 0 <= x < |at| && at[q[0] := other][x] == place ensures x in q[1..] {
      assert x in q;
      var i :| 0 <= i < |q| && q[i] == x;
      assert q[1..][i - 1] == x;
    }
  }

  lemma BoxPopBack<P>(q: seq<nat>, at: seq<P>, place: P, other: P)
    requires Box(q, at, place) && q != [] && other != place
    ensures var b := q[|q| - 1]; b < |at| && at[b] == place && Box(q[..|q| - 1], at[b := other], place)
  {
    var b, rest := q[|q| - 1], q[..|q| - 1];
    forall x | 0 <= x < |at| && at[b := other][x] == place ensures x in rest {
      assert x in q;
      var i :| 0 <= i < |q| && q[i] == x;
      assert rest[i] == x;
    }
  }

  lemma BoxOther<P>(q: seq<nat>, at: seq<P>, place: P, b: nat, other: P)
    requires Box(q, at, place) && b < |at| && at[b] != place && other != place
    ensures Box(q, at[b := other], place)
  {
  }

  lemma BoxPushFront<P>(q: seq<nat>, at: seq<P>, place: P, b: nat)
    requires Box(q, at, place) && b < |at| && at[b] != place
    ensures Box([b] + q, at[b := place], place)
  {
    var r := [b] + q;
    forall x | 0 <= x < |at| && at[b := place][x] == place ensures x in r {
      if x == b { assert r[0] == b; } else { assert x in q; }
    }
  }

  /** A new item somewhere else. */
  lemma BoxGrow<P>(q: seq<nat>, at: seq<P>, place: P, other: P)
    requires Box(q, at, place) && other != place
    ensures Box(q, at + [other], place)
  {
  }

  function Elements(q: seq<nat>): set<nat> { set i | 0 <= i < |q| :: q[i] }

  lemma {:induction false} ElementsCount(q: seq<nat>)
    requires Distinct(q)
    ensures |Elements(q)| == |q|
  {
    if q == [] {
      assert Elements(q) == {};
    } else {
      var l := |q| - 1;
      ElementsCount(q[..l]);
      assert Elements(q) == Elements(q[..l]) + {q[l]};
    }
  }

  lemma SubsetCount(a: set<nat>, b: set<nat>)
    requires a <= b
    ensures |a| <= |b|
  {
    assert b == a + (b - a);
  }

  /** A container never holds everything while some item is elsewhere. */
  lemma BoxRoom<P>(q: seq<nat>, at: seq<P>, place: P, b: nat)
    requires Box(q, at, place) && b < |at| && at[b] != place
    ensures |q| < |at|
  {
    ElementsCount(q);
    var range: seq<nat> := seq(|at|, i => i);
    ElementsCount(range);
    var all := Elements(range);
    forall x | x in Elements(q) + {b} ensures x in all { assert range[x] == x; }
    assert b !in Elements(q);
    SubsetCount(Elements(q), all - {b});
  }
}
