/** Facts about remainders by a variable modulus, used wherever a counter selects a slot. */
module Arith {

  function Min(a: nat, b: nat): nat { if a < b then a else b }

  lemma MulAtLeast(k: int, m: nat)
    requires k >= 1
    ensures k * m >= m
  {
    assert k * m == m + (k - 1) * m;
    assert (k - 1) * m >= 0;
  }

  /** Quotient and remainder are unique. */
  lemma DivMod(n: int, d: int, r: nat, m: nat)
    requires r < m && n == d * m + r
    ensures n % m == r && n / m == d
  {
    var d', r' := n / m, n % m;
    assert n == d' * m + r';
    assert (d - d') * m == r' - r;
    if d > d' { MulAtLeast(d - d', m); }
    if d < d' { MulAtLeast(d' - d, m); }
  }

  /** Going round once returns to the same slot. */
  lemma SameSlot(n: int, m: nat)
    requires m > 0
    ensures (n + m) % m == n % m && (n + m) / m == n / m + 1
  {
    DivMod(n + m, n / m + 1, n % m, m);
  }

  /** Two positions less than one lap apart use different slots. */
  lemma DistinctSlots(a: int, b: int, m: nat)
    requires a < b < a + m
    ensures a % m != b % m
  {
    var k := b / m - a / m;
    assert b - a == k * m + (b % m - a % m) by {
      assert b == (b / m) * m + b % m;
      assert a == (a / m) * m + a % m;
      Distribute(b / m, a / m, m);
    }
    NoSmallMultiple(k, m, b - a);
  }

  lemma Distribute(x: int, y: int, m: int)
    ensures (x - y) * m == x * m - y * m
  {
  }

  /** No multiple of `m` lies strictly between 0 and `m`. */
  lemma NoSmallMultiple(k: int, m: nat, x: int)
    requires 0 < x < m
    ensures k * m != x
  {
    if k >= 1 { MulAtLeast(k, m); } else { assert k * m <= 0; }
  }

  /** Adding whole laps does not change the remainder. */
  lemma Laps(x: int, d: int, m: nat)
    requires m > 0
    ensures (x + d * m) % m == x % m
  {
    assert x + d * m == (x / m + d) * m + x % m;
    DivMod(x + d * m, x / m + d, x % m, m);
  }

  /** Reducing before adding makes no difference. */
  lemma AddReduced(a: int, k: int, m: nat)
    requires m > 0
    ensures (a % m + k) % m == (a + k) % m
  {
    assert a + k == (a % m + k) + (a / m) * m;
    Laps(a % m + k, a / m, m);
  }

  /** Differences below the modulus survive reduction of both sides. */
  lemma SubReduced(a: int, b: int, m: nat)
    requires 0 <= a - b < m
    ensures (a % m - b % m) % m == a - b
  {
    assert a % m - b % m == (a - b) + (b / m - a / m) * m by {
      assert a == (a / m) * m + a % m;
      assert b == (b / m) * m + b % m;
      Distribute(b / m, a / m, m);
    }
    Laps(a - b, b / m - a / m, m);
    DivMod(a - b, 0, a - b, m);
  }

  /** Reduced counters less than a word apart are equal only if the counters are. */
  lemma EqualReduced(a: int, b: int, m: nat)
    requires 0 <= a - b < m
    ensures a % m == b % m <==> a == b
  {
    if a > b { DistinctSlots(b, a, m); }
  }

  /** When the modulus is a whole number of laps, a reduced counter selects the same slot. */
  lemma SlotReduced(a: int, word: nat, cap: nat)
    requires cap > 0 && word > 0 && word % cap == 0
    ensures a % word % cap == a % cap
  {
    var c, d := word / cap, a / word;
    assert word == c * cap;
    assert a == a % word + d * word;
    Assoc(d, c, cap);
    Laps(a % word, d * c, cap);
  }

  lemma Assoc(x: int, y: int, z: int)
    ensures x * (y * z) == (x * y) * z
  {
  }

  /** One lap starting anywhere visits every slot. */
  lemma LapCovers(start: int, i: nat, m: nat) returns (q: int)
    requires i < m
    ensures start <= q < start + m && q % m == i
  {
    q := start + (i - start) % m;
    assert i - start == ((i - start) / m) * m + (i - start) % m;
    assert q == i + (-((i - start) / m)) * m;
    Laps(i, -((i - start) / m), m);
    DivMod(i, 0, i, m);
  }
}
