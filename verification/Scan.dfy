/** Consumer-local scan order: round robin with a bounded preference for the last productive ring. */
module Scan {
  import opened Arith

  const QUANTUM: nat := 16

  /** What a cursor holds between calls. */
  datatype Position = Position(next: nat, credits: nat)

  predicate Valid(p: Position) { p.credits < QUANTUM }

  function Fresh(seed: nat): Position { Position(seed, QUANTUM - 1) }

  function Index(cursor: nat, len: nat): nat { if cursor < len then cursor else 0 }

  function Advance(p: Position, len: nat): Position { p.(next := Index(p.next, len) + 1) }

  function Preferred(p: Position): Position
    requires p.next > 0
  {
    Position(if p.credits != 0 then p.next - 1 else p.next, (p.credits + QUANTUM - 1) % QUANTUM)
  }

  /** The index selected `k` turns into a scan of `n` that began at `first`, and how far into it an index lies. */
  function Spot(first: nat, k: nat, n: nat): int { if first + k < n then first + k else first + k - n }
  function Place(first: nat, i: nat, n: nat): int { if i >= first then i - first else i + n - first }

  class Cursor {
    var next: nat
    var credits: nat

    function At(): Position reads this { Position(next, credits) }

    constructor (seed: nat)
      ensures At() == Fresh(seed)
    {
      next, credits := seed, QUANTUM - 1;
    }

    method Next(len: nat) returns (i: nat)
      requires len > 0 && Valid(At())
      modifies this
      ensures i == Index(old(next), len) && i < len
      ensures At() == Advance(old(At()), len) && next > 0
    {
      i := if next < len then next else 0;
      next := i + 1;
    }

    method Prefer()
      requires next > 0 && Valid(At())
      modifies this
      ensures At() == Preferred(old(At())) && Valid(At())
    {
      if credits != 0 { next := next - 1; }
      credits := if credits == 0 then QUANTUM - 1 else credits - 1;
    }
  }

  // ---- whole scans over a fixed membership ------------------------------------------

  /** One selection, then the preference if its drain was productive. */
  function Turn(p: Position, len: nat, productive: bool): (q: Position)
    requires len > 0 && Valid(p)
    ensures Valid(q)
  {
    if productive then Preferred(Advance(p, len)) else Advance(p, len)
  }

  function After(p: Position, len: nat, pattern: seq<bool>): (q: Position)
    requires len > 0 && Valid(p)
    ensures Valid(q)
    decreases |pattern|
  {
    if pattern == [] then p else After(Turn(p, len, pattern[0]), len, pattern[1..])
  }

  /** The ring selected by turn `j`. */
  function Pick(p: Position, len: nat, pattern: seq<bool>, j: nat): (i: nat)
    requires len > 0 && Valid(p) && j <= |pattern|
    ensures i < len
  {
    Index(After(p, len, pattern[..j]).next, len)
  }

  /** How far ahead of the cursor a ring lies. */
  function Ahead(p: Position, len: nat, ring: nat): (d: int)
    requires ring < len
    ensures 0 <= d < len && (d == 0 <==> Index(p.next, len) == ring)
  {
    var i := Index(p.next, len);
    if i <= ring then ring - i else ring + len - i
  }

  /** An upper bound on the turns before the ring is selected. */
  function Patience(p: Position, len: nat, ring: nat): int
    requires ring < len
  {
    var d := Ahead(p, len, ring);
    if d == 0 then 0 else QUANTUM * (d - 1) + p.credits + 1
  }

  lemma TurnCloser(p: Position, len: nat, ring: nat, productive: bool)
    requires ring < len && Valid(p) && Ahead(p, len, ring) > 0
    ensures Patience(Turn(p, len, productive), len, ring) < Patience(p, len, ring)
  {
    var q := Turn(p, len, productive);
    if productive && p.credits != 0 {
      assert (p.credits + QUANTUM - 1) % QUANTUM == p.credits - 1;
    } else {
      assert Ahead(q, len, ring) == Ahead(p, len, ring) - 1;
    }
  }

  lemma {:induction false} Reached(p: Position, len: nat, ring: nat, pattern: seq<bool>) returns (j: nat)
    requires ring < len && Valid(p) && Patience(p, len, ring) <= |pattern|
    ensures j <= Patience(p, len, ring) && Pick(p, len, pattern, j) == ring
    decreases |pattern|
  {
    if Ahead(p, len, ring) == 0 {
      j := 0;
    } else {
      TurnCloser(p, len, ring, pattern[0]);
      var k := Reached(Turn(p, len, pattern[0]), len, ring, pattern[1..]);
      j := k + 1;
      assert pattern[..j][1..] == pattern[1..][..k];
    }
  }

  lemma {:induction false} AfterSplit(p: Position, len: nat, a: seq<bool>, b: seq<bool>)
    requires len > 0 && Valid(p)
    ensures After(p, len, a + b) == After(After(p, len, a), len, b)
    decreases |a|
  {
    if a == [] {
      assert a + b == b;
    } else {
      assert (a + b)[1..] == a[1..] + b;
      AfterSplit(Turn(p, len, a[0]), len, a[1..], b);
    }
  }

  /** Bounded starvation: from any turn `from` of any run, whatever is productive, every ring is
      selected within the next 16 * (len - 1) + 1 turns; so any 16 * len consecutive turns cover all. */
  lemma BoundedStarvation(p: Position, len: nat, pattern: seq<bool>, from: nat, ring: nat)
    requires ring < len && Valid(p) && from + QUANTUM * (len - 1) <= |pattern|
    ensures exists j :: from <= j <= from + QUANTUM * (len - 1) && Pick(p, len, pattern, j) == ring
  {
    var q := After(p, len, pattern[..from]);
    var rest := pattern[from..];
    var d := Ahead(q, len, ring);
    assert Patience(q, len, ring) <= QUANTUM * d <= QUANTUM * (len - 1);
    var k := Reached(q, len, ring, rest);
    assert pattern[..from + k] == pattern[..from] + rest[..k];
    AfterSplit(p, len, pattern[..from], rest[..k]);
    assert Pick(p, len, pattern, from + k) == ring;
  }

  lemma HotTurn(p: Position, len: nat, j: nat)
    requires len > 0 && Valid(p) && Index(p.next, len) == j / QUANTUM % len && p.credits == QUANTUM - 1 - j % QUANTUM
    ensures var q := Turn(p, len, true);
      Index(q.next, len) == (j + 1) / QUANTUM % len && q.credits == QUANTUM - 1 - (j + 1) % QUANTUM
  {
    if j % QUANTUM == QUANTUM - 1 {
      assert (j + 1) / QUANTUM == j / QUANTUM + 1 && (j + 1) % QUANTUM == 0;
      NextModulo(j / QUANTUM, len);
    } else {
      assert (j + 1) / QUANTUM == j / QUANTUM && (j + 1) % QUANTUM == j % QUANTUM + 1;
    }
  }

  /** The bound is met exactly: with every drain productive, turn `j` selects ring (j / 16) mod len. */
  lemma {:induction false} HotService(len: nat, j: nat)
    requires len > 0
    ensures var p := After(Fresh(0), len, seq(j, _ => true));
      Index(p.next, len) == j / QUANTUM % len && p.credits == QUANTUM - 1 - j % QUANTUM
  {
    if j > 0 {
      HotService(len, j - 1);
      var before := seq(j - 1, _ => true);
      assert seq(j, _ => true) == before + [true];
      AfterSplit(Fresh(0), len, before, [true]);
      var p := After(Fresh(0), len, before);
      assert After(p, len, [true]) == Turn(p, len, true) by { assert [true][1..] == []; }
      hide Turn, Index;
      HotTurn(p, len, j - 1);
    }
  }

  lemma NextModulo(a: nat, len: nat)
    requires len > 0
    ensures (a + 1) % len == if a % len + 1 == len then 0 else a % len + 1
  {
    AddReduced(a, 1, len);
  }

  /** Without preference, turn `j` selects the j-th ring after the first, cyclically. */
  lemma {:induction false} PlainTurns(p: Position, len: nat, j: nat)
    requires len > 0 && Valid(p) && j <= len
    ensures var first := Index(p.next, len);
      Index(After(p, len, seq(j, _ => false)).next, len) == if j == len then first else if first + j < len then first + j else first + j - len
  {
    if j > 0 {
      PlainTurns(p, len, j - 1);
      var before := seq(j - 1, _ => false);
      assert seq(j, _ => false) == before + [false];
      AfterSplit(p, len, before, [false]);
      var q := After(p, len, before);
      assert After(q, len, [false]) == Turn(q, len, false) by { assert [false][1..] == []; }
    }
  }

  /** `len` selections without preference visit each ring exactly once. */
  lemma EachOnce(p: Position, len: nat, ring: nat)
    requires Valid(p) && ring < len
    ensures var pattern := seq(len, _ => false);
      exists j :: 0 <= j < len && Pick(p, len, pattern, j) == ring
        && forall k :: 0 <= k < len && Pick(p, len, pattern, k) == ring ==> k == j
  {
    var pattern := seq(len, _ => false);
    var first := Index(p.next, len);
    var j := if ring >= first then ring - first else ring + len - first;
    forall k | 0 <= k < len
      ensures Pick(p, len, pattern, k) == if first + k < len then first + k else first + k - len
    {
      assert pattern[..k] == seq(k, _ => false);
      PlainTurns(p, len, k);
    }
    assert Pick(p, len, pattern, j) == ring;
  }
}
