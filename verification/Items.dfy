/** Received values tagged with their producer. */
module Items {
  /** The receiver's calls: try_recv, recv, try_recv_many. */
  datatype Kind = TryRecv | Recv | Many(max: nat)

  datatype Item<V> = Item(producer: nat, value: V)

  function Tagged<V>(p: nat, vals: seq<V>): (r: seq<Item<V>>)
    ensures |r| == |vals|
  {
    seq(|vals|, i requires 0 <= i < |vals| => Item(p, vals[i]))
  }

  /** The values of producer `p` among the items, in order. */
  function From<V>(items: seq<Item<V>>, p: nat): seq<V> {
    if items == [] then []
    else From(items[..|items| - 1], p) + if items[|items| - 1].producer == p then [items[|items| - 1].value] else []
  }

  lemma {:induction false} FromConcat<V>(a: seq<Item<V>>, b: seq<Item<V>>, p: nat)
    ensures From(a + b, p) == From(a, p) + From(b, p)
  {
    if b == [] {
      assert a + b == a;
    } else {
      var l := |b| - 1;
      assert (a + b)[..|a| + l] == a + b[..l];
      FromConcat(a, b[..l], p);
    }
  }

  lemma {:induction false} FromTagged<V>(o: nat, vals: seq<V>, p: nat)
    ensures From(Tagged(o, vals), p) == if o == p then vals else []
  {
    if vals != [] {
      var l := |vals| - 1;
      var items := Tagged(o, vals);
      assert items[..l] == Tagged(o, vals[..l]);
      assert items[l] == Item(o, vals[l]);
      FromTagged(o, vals[..l], p);
      hide Tagged;
      assert From(items, p) == From(items[..l], p) + if o == p then [vals[l]] else [];
      hide From;
      assert vals == vals[..l] + [vals[l]];
    }
  }

  /** Every item comes from one of the first `n` producers. */
  ghost predicate Known<V>(items: seq<Item<V>>, n: nat) {
    forall m :: 0 <= m < |items| ==> items[m].producer < n
  }

  lemma {:induction false} FromUnknown<V>(items: seq<Item<V>>, n: nat, p: nat)
    requires Known(items, n) && p >= n
    ensures From(items, p) == []
  {
    if items != [] { FromUnknown(items[..|items| - 1], n, p); }
  }

  lemma Regroup<V>(a: seq<V>, q: seq<V>, g: nat)
    requires g <= |q|
    ensures a + q == (a + q[..g]) + q[g..]
  {
    assert q == q[..g] + q[g..];
  }

  /** How many values a drain moves: none only from an empty ring, otherwise the backend's choice `j` within bounds. */
  function Amount(avail: nat, limit: nat, j: nat): nat {
    var most := if limit < avail then limit else avail;
    if most == 0 then 0 else if j == 0 then 1 else if j < most then j else most
  }
}
