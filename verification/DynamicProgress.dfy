/** Calls of the dynamic competing-consumer channel end, and end as they should: a value whenever one can be had, the end once
    nobody can send and nothing is left to take. */
module DynamicProgress {
  import opened Wrappers
  import opened Dynamic
  import opened DynamicSafety
  import Scan

  /** Consumer `c` takes `n` steps on its own. */
  function Alone<V>(s: State<V>, c: nat, n: nat): (t: State<V>)
    requires c < |s.consumers|
    ensures |t.consumers| == |s.consumers|
  {
    if n == 0 then s else GoStep(Alone(s, c, n - 1), c, 0)
  }

  lemma {:induction false} AloneFirst<V>(s: State<V>, c: nat, n: nat)
    requires c < |s.consumers| && n > 0
    ensures |GoStep(s, c, 0).consumers| == |s.consumers| && Alone(s, c, n) == Alone(GoStep(s, c, 0), c, n - 1)
  {
    hide GoStep;
    assert Alone(s, c, 1) == GoStep(s, c, 0);
    if n > 1 { AloneFirst(s, c, n - 1); }
  }

  lemma {:induction false} AloneSplit<V>(s: State<V>, c: nat, a: nat, b: nat)
    requires c < |s.consumers|
    ensures Alone(s, c, a + b) == Alone(Alone(s, c, a), c, b)
    decreases b
  {
    hide GoStep;
    if b > 0 { AloneSplit(s, c, a, b - 1); }
  }

  predicate InCall(pc: Pc) { pc.Entry? || pc.LoadCount? || Scanning(pc) || pc.CheckLive? }

  /** Nothing to be had: the ring is drained or a peer holds it. */
  predicate Spent<V>(r: Ring<V>) { |r.took| == |r.sent| || r.claim.Some? }

  predicate AllSpent<V>(s: State<V>) { forall i :: 0 <= i < |s.rings| ==> Spent(s.rings[i]) }

  /** Every registration that entered has been listed. */
  predicate Listed<V>(s: State<V>) {
    && s.count == |s.rings|
    && (forall i :: 0 <= i < |s.rings| ==> !s.rings[i].stage.Entered? && |s.rings[i].took| <= |s.rings[i].sent|)
  }

  // ---- one pass over the rings ----------------------------------------------------------------

  /** The steps a pass may still take. */
  function Rank<V>(x: Consumer<V>, rings: nat): int {
    var d := 7 * (x.n - x.k);
    match x.pc
    case LoadCount => 7 * rings + 7
    case Select => d + 6
    case Refresh => d + 5
    case Pick => d + 4
    case Claim => d + 9
    case Drain => d + 8
    case Release => d + 7
    case _ => 0
  }

  /** Where the pass is: it visits the `n` rings in turn from `first` on. */
  ghost predicate Place<V>(x: Consumer<V>, n: nat) {
    && x.n == n && x.k <= n && (n > 0 ==> x.first < n)
    && (x.k < n ==> Scan.Index(x.scan.next, n) == Scan.Spot(x.first, x.k, n))
    && (x.pc.Refresh? || x.pc.Pick? ==> x.k < n)
    && (x.pc.Pick? ==> x.len == n)
    && (x.pc.Claim? || x.pc.Drain? || x.pc.Release? ==> x.k > 0 && x.i == Scan.Spot(x.first, x.k - 1, n) && x.scan.next > 0)
  }

  predicate Holding(pc: Pc) { pc.Drain? || pc.Release? }

  /** How many of the rings, in scan order, were found spent. */
  function SeenSpent<V>(x: Consumer<V>): int { if x.pc.Claim? || x.pc.Drain? then x.k - 1 else x.k }

  /** What the call does not change while it has found nothing. */
  ghost predicate SameCall<V>(a: Consumer<V>, x: Consumer<V>) {
    && x.out == a.out && x.staging == [] && x.done == a.done && x.kind == a.kind && x.blocking == a.blocking && x.final == a.final
    && x.batch == a.batch > 0 && (x.kind.InPlace? ==> x.done < x.kind.max)
  }

  ghost predicate SameElse<V>(s: State<V>, u: State<V>, c: nat) {
    && c < |s.consumers| == |u.consumers|
    && u == s.(rings := u.rings, consumers := s.consumers[c := u.consumers[c]])
    && |u.rings| == |s.rings|
  }

  /** Consumer `c`, alone since `s`, is looking and has found nothing yet. */
  ghost predicate Searching<V>(s: State<V>, u: State<V>, c: nat) {
    && SameElse(s, u, c) && Listed(s) && !s.fault
    && var (x, n) := (u.consumers[c], |s.rings|);
       && SameCall(s.consumers[c], x) && x.snap <= n && Scan.Valid(x.scan)
       && (x.pc.LoadCount? || (Scanning(x.pc) && Place(x, n)))
       && (x.pc.Release? ==> x.got == 0 && x.i < n && |s.rings[x.i].took| == |s.rings[x.i].sent|)
       && (Holding(x.pc) ==> x.i < n && s.rings[x.i].claim.None?)
       && (forall r :: 0 <= r < n ==> u.rings[r] == if Holding(x.pc) && x.i == r then s.rings[r].(claim := Some(c)) else s.rings[r])
       && (!x.pc.LoadCount? ==> forall r :: 0 <= r < n && Scan.Place(x.first, r, n) < SeenSpent(x) ==> Spent(s.rings[r]))
  }

  /** It has drained something from a ring that was to be had. */
  ghost predicate Found<V>(s: State<V>, u: State<V>, c: nat) {
    && c < |s.consumers| == |u.consumers|
    && var (a, x) := (s.consumers[c], u.consumers[c]);
       && x.pc.Release? && x.got > 0 && x.scan.next > 0 && x.i < |s.rings| == |u.rings| && !Spent(s.rings[x.i])
       && x.kind == a.kind && (if x.kind.InPlace? then |x.out| > |a.out| && a.out <= x.out else x.out == a.out && x.staging != [])
  }

  /** It has looked everywhere: everything is as at the start, and every ring is spent. */
  ghost predicate Ended<V>(s: State<V>, u: State<V>, c: nat) {
    && SameElse(s, u, c) && u.rings == s.rings && AllSpent(s)
    && var (a, x) := (s.consumers[c], u.consumers[c]);
       && x.out == a.out && x.staging == [] && x.done == a.done && x.kind == a.kind && x.blocking == a.blocking && x.batch == a.batch
       && x.snap <= |s.rings| && Scan.Valid(x.scan)
       && x.pc == (if x.done > 0 || !x.blocking then Idle else if a.final then Finished else CheckLive)
       && !x.final
  }

  lemma SearchLoad<V>(s: State<V>, u: State<V>, c: nat)
    requires Searching(s, u, c) && u.consumers[c].pc.LoadCount?
    ensures var t := GoStep(u, c, 0); Searching(s, t, c) && Rank(t.consumers[c], |s.rings|) < Rank(u.consumers[c], |s.rings|)
  {
  }

  lemma SearchOver<V>(s: State<V>, u: State<V>, c: nat)
    requires Searching(s, u, c) && u.consumers[c].pc.Select? && (u.consumers[c].k >= u.consumers[c].n || u.count == 0)
    ensures Ended(s, GoStep(u, c, 0), c)
  {
    var (x, n) := (u.consumers[c], |s.rings|);
    forall r | 0 <= r < n ensures Spent(s.rings[r]) { assert Scan.Place(x.first, r, n) < n; }
    assert u.rings == s.rings;
  }

  lemma SearchSelect<V>(s: State<V>, u: State<V>, c: nat)
    requires Searching(s, u, c) && u.consumers[c].pc.Select? && u.consumers[c].k < u.consumers[c].n && u.count > 0
    ensures var t := GoStep(u, c, 0); Searching(s, t, c) && Rank(t.consumers[c], |s.rings|) < Rank(u.consumers[c], |s.rings|)
  {
    hide Spent;
  }

  lemma SearchRefresh<V>(s: State<V>, u: State<V>, c: nat)
    requires Searching(s, u, c) && u.consumers[c].pc.Refresh?
    ensures var t := GoStep(u, c, 0); Searching(s, t, c) && Rank(t.consumers[c], |s.rings|) < Rank(u.consumers[c], |s.rings|)
  {
    hide Spent;
  }

  lemma SearchPick<V>(s: State<V>, u: State<V>, c: nat)
    requires Searching(s, u, c) && u.consumers[c].pc.Pick?
    ensures var t := GoStep(u, c, 0); Searching(s, t, c) && Rank(t.consumers[c], |s.rings|) < Rank(u.consumers[c], |s.rings|)
  {
    hide Spent;
  }

  lemma SearchClaim<V>(s: State<V>, u: State<V>, c: nat)
    requires Searching(s, u, c) && u.consumers[c].pc.Claim?
    ensures var t := GoStep(u, c, 0); Searching(s, t, c) && Rank(t.consumers[c], |s.rings|) < Rank(u.consumers[c], |s.rings|)
  {
    var (x, n) := (u.consumers[c], |s.rings|);
    var t := GoStep(u, c, 0);
    if s.rings[x.i].claim.Some? {
      forall r | 0 <= r < n && Scan.Place(x.first, r, n) < x.k ensures Spent(s.rings[r]) {
        if Scan.Place(x.first, r, n) == x.k - 1 { assert r == x.i; }
      }
    }
  }

  lemma SearchDrain<V>(s: State<V>, u: State<V>, c: nat)
    requires Searching(s, u, c) && u.consumers[c].pc.Drain?
    ensures var t := GoStep(u, c, 0);
      (Searching(s, t, c) && Rank(t.consumers[c], |s.rings|) < Rank(u.consumers[c], |s.rings|)) || Found(s, t, c)
  {
    var (x, n) := (u.consumers[c], |s.rings|);
    var t := GoStep(u, c, 0);
    if |s.rings[x.i].took| == |s.rings[x.i].sent| {
      assert Portion(u.rings[x.i], x, 0) == 0;
      assert u.rings[x.i].took + seq(0, _ => c) == u.rings[x.i].took && x.out + [] == x.out && x.log + [] == x.log;
      forall r | 0 <= r < n && Scan.Place(x.first, r, n) < x.k ensures Spent(s.rings[r]) {
        if Scan.Place(x.first, r, n) == x.k - 1 { assert r == x.i; }
      }
    } else {
      assert Portion(u.rings[x.i], x, 0) == 1;
    }
  }

  lemma SearchRelease<V>(s: State<V>, u: State<V>, c: nat)
    requires Searching(s, u, c) && u.consumers[c].pc.Release?
    ensures var t := GoStep(u, c, 0); Searching(s, t, c) && Rank(t.consumers[c], |s.rings|) < Rank(u.consumers[c], |s.rings|)
  {
  }

  lemma SearchStep<V>(s: State<V>, u: State<V>, c: nat)
    requires Searching(s, u, c)
    ensures |GoStep(u, c, 0).consumers| == |u.consumers|
    ensures var t := GoStep(u, c, 0);
      (Searching(s, t, c) && Rank(t.consumers[c], |s.rings|) < Rank(u.consumers[c], |s.rings|)) || Found(s, t, c) || Ended(s, t, c)
  {
    AloneFirst(u, c, 1);
    var pc := u.consumers[c].pc;
    if pc.LoadCount? { SearchLoad(s, u, c); }
    else if pc.Select? {
      if u.consumers[c].k >= u.consumers[c].n || u.count == 0 { SearchOver(s, u, c); } else { SearchSelect(s, u, c); }
    }
    else if pc.Refresh? { SearchRefresh(s, u, c); }
    else if pc.Pick? { SearchPick(s, u, c); }
    else if pc.Claim? { SearchClaim(s, u, c); }
    else if pc.Drain? { SearchDrain(s, u, c); }
    else { SearchRelease(s, u, c); }
  }

  /** The call came back with something, and there was something to be had. */
  ghost predicate Served<V>(s: State<V>, u: State<V>, c: nat) {
    c < |s.consumers| == |u.consumers| && u.consumers[c].pc.Idle? && s.consumers[c].out < u.consumers[c].out && !AllSpent(s)
  }

  lemma FoundEnds<V>(s: State<V>, u: State<V>, c: nat)
    requires Found(s, u, c)
    ensures Served(s, GoStep(u, c, 0), c)
  {
    assert !Spent(s.rings[u.consumers[c].i]);
  }

  lemma RankBound<V>(s: State<V>, u: State<V>, c: nat)
    requires Searching(s, u, c)
    ensures c < |s.consumers| == |u.consumers| && Rank(u.consumers[c], |s.rings|) >= 1
  {
    hide Listed, SameCall, Spent;
  }

  /** A pass made alone hands over a value when some ring has one to be had, and otherwise ends empty-handed. */
  lemma {:induction false} PassEnds<V>(s: State<V>, u: State<V>, c: nat) returns (n: nat)
    requires Searching(s, u, c)
    ensures n <= Rank(u.consumers[c], |s.rings|) + 1
    ensures Served(s, Alone(u, c, n), c) || Ended(s, Alone(u, c, n), c)
    decreases Rank(u.consumers[c], |s.rings|)
  {
    hide Searching, Rank, Found, Ended, Served, GoStep;
    RankBound(s, u, c);
    var t := GoStep(u, c, 0);
    SearchStep(s, u, c);
    AloneFirst(u, c, 1);
    assert Alone(t, c, 0) == t;
    if Found(s, t, c) {
      FoundEnds(s, t, c);
      AloneFirst(u, c, 2);
      AloneFirst(t, c, 1);
      assert Alone(GoStep(t, c, 0), c, 0) == GoStep(t, c, 0);
      n := 2;
    } else if Ended(s, t, c) {
      n := 1;
    } else {
      RankBound(s, t, c);
      n := PassEnds(s, t, c);
      n := n + 1;
      AloneFirst(u, c, n);
    }
  }

  // ---- a whole call -----------------------------------------------------------------------------

  /** A call that asks for something, at its start or at the start of its second pass. */
  ghost predicate Asking<V>(s: State<V>, c: nat) {
    && c < |s.consumers| && Listed(s) && !s.fault
    && var x := s.consumers[c];
       x.pc.Entry? && Scan.Valid(x.scan) && x.batch > 0 && x.snap <= |s.rings| && (x.kind.InPlace? ==> x.kind.max > 0)
  }

  /** Values staged by an earlier call are handed over at once. */
  lemma StagedFirst<V>(s: State<V>, c: nat)
    requires Asking(s, c) && s.consumers[c].staging != []
    ensures var t := GoStep(s, c, 0);
      && s.consumers[c].out < t.consumers[c].out && |t.rings| == |s.rings|
      && (t.consumers[c].pc.Idle? || (t.consumers[c].pc.LoadCount? && t.consumers[c].done > 0 && Searching(t, t, c)))
  {
  }

  lemma NothingStaged<V>(s: State<V>, c: nat)
    requires Asking(s, c) && s.consumers[c].staging == [] && (s.consumers[c].kind.InPlace? || s.consumers[c].done == 0)
    ensures var t := GoStep(s, c, 0);
      && t == SetCon(s, c, s.consumers[c].(pc := LoadCount, done := 0)) && Searching(t, t, c) && AllSpent(t) == AllSpent(s)
  {
    var x := s.consumers[c];
    assert x.out + [] == x.out && x.staging[..0] == [] == x.staging[0..];
    assert EntryStep(x) == x.(pc := LoadCount, done := 0);
  }

  /** One pass of a call: a value if one is staged or to be had; otherwise the pass ends empty-handed with everything as it was. */
  lemma OnePass<V>(s: State<V>, c: nat) returns (n: nat)
    requires Asking(s, c) && (s.consumers[c].kind.InPlace? || s.consumers[c].done == 0)
    ensures n <= 7 * |s.rings| + 9
    ensures var (a, u) := (s.consumers[c], Alone(s, c, n)); var x := u.consumers[c];
      if a.staging != [] || !AllSpent(s) then x.pc.Idle? && a.out < x.out
      else Ended(SetCon(s, c, a.(pc := LoadCount, done := 0)), u, c)
  {
    hide GoStep;
    var t := GoStep(s, c, 0);
    AloneFirst(s, c, 1);
    assert Alone(t, c, 0) == t;
    if s.consumers[c].staging != [] {
      StagedFirst(s, c);
      if t.consumers[c].pc.Idle? { return 1; }
    } else {
      NothingStaged(s, c);
    }
    n := PassEnds(t, t, c);
    n := n + 1;
    AloneFirst(s, c, n);
  }

  /** Whether a call is owed something: a value it staged before, or a ring with a value and no peer at it. */
  predicate Owed<V>(s: State<V>, c: nat)
    requires c < |s.consumers|
  {
    s.consumers[c].staging != [] || !AllSpent(s)
  }

  /** A pass that ended empty-handed, with nobody left to send, is followed by one that decides. */
  lemma Recheck<V>(s: State<V>, u: State<V>, c: nat)
    requires Asking(s, c) && s.consumers[c].blocking && !s.consumers[c].final && s.live == 0
    requires Ended(SetCon(s, c, s.consumers[c].(pc := LoadCount, done := 0)), u, c)
    ensures var t := GoStep(u, c, 0);
      && Asking(t, c) && t.rings == s.rings && t.consumers[c].final && t.consumers[c].blocking && t.consumers[c].done == 0
      && t.consumers[c].out == s.consumers[c].out && t.consumers[c].staging == []
  {
  }

  /** A blocking call made once nobody can send, and left alone: a value if one is owed, and otherwise the end. */
  lemma BlockingCall<V>(s: State<V>, c: nat) returns (n: nat)
    requires Asking(s, c) && s.consumers[c].done == 0 && s.consumers[c].blocking && !s.consumers[c].final && s.live == 0
    ensures n <= 14 * |s.rings| + 19
    ensures var (a, x) := (s.consumers[c], Alone(s, c, n).consumers[c]);
      if Owed(s, c) then x.pc.Idle? && a.out < x.out else x.pc.Finished? && x.out == a.out
  {
    hide Spent, Listed, GoStep;
    n := OnePass(s, c);
    if Owed(s, c) { return; }
    var u := Alone(s, c, n);
    var t := GoStep(u, c, 0);
    Recheck(s, u, c);
    assert Alone(s, c, n + 1) == t;
    var m := OnePass(t, c);
    AloneSplit(s, c, n + 1, m);
    n := n + 1 + m;
  }

  /** A non-blocking call over a settled membership: a value if one is owed, and otherwise nothing. */
  lemma TryCall<V>(s: State<V>, c: nat) returns (n: nat)
    requires Asking(s, c) && s.consumers[c].done == 0 && !s.consumers[c].blocking
    ensures n <= 7 * |s.rings| + 9
    ensures var (a, x) := (s.consumers[c], Alone(s, c, n).consumers[c]);
      x.pc.Idle? && if Owed(s, c) then a.out < x.out else x.out == a.out
  {
    n := OnePass(s, c);
  }

  // ---- every run --------------------------------------------------------------------------------

  /** Events of consumer `c` alone. */
  function Steps<V>(c: nat, n: nat): (es: seq<Event<V>>)
    ensures |es| == n
  {
    if n == 0 then [] else Steps(c, n - 1) + [Go(c, 0)]
  }

  lemma RunNext<V>(runtime: Runtime, cap: nat, es: seq<Event<V>>, e: Event<V>)
    ensures Run(runtime, cap, es + [e]) == Step(Run(runtime, cap, es), e)
  {
    hide Step;
    assert (es + [e])[..|es|] == es;
  }

  lemma {:induction false} RunAlone<V>(runtime: Runtime, cap: nat, es: seq<Event<V>>, c: nat, n: nat)
    requires c < |Run(runtime, cap, es).consumers|
    ensures Run(runtime, cap, es + Steps(c, n)) == Alone(Run(runtime, cap, es), c, n)
  {
    hide GoStep, Run;
    if n == 0 {
      assert es + [] == es;
    } else {
      RunAlone(runtime, cap, es, c, n - 1);
      RunNext(runtime, cap, es + Steps(c, n - 1), Go(c, 0));
      assert es + Steps(c, n) == es + Steps(c, n - 1) + [Go(c, 0)];
    }
  }

  lemma ListedAtEnd<V>(s: State<V>)
    requires Inv(s) && s.live == 0
    ensures Listed(s)
  {
    Settled(s);
    hide Counts, Claims, ClaimRange, Local, Final, LogTrue, Duty;
    forall i | 0 <= i < |s.rings| ensures |s.rings[i].took| <= |s.rings[i].sent| { assert RingTold(s, i); }
  }

  lemma CalledAsks<V>(s: State<V>, c: nat, kind: Kind, blocking: bool)
    requires Inv(s) && Listed(s) && c < |s.consumers| && Resting(s.consumers[c].pc) && (kind.InPlace? ==> kind.max > 0)
    ensures var (t, a) := (Step(s, Call(c, kind, blocking)), s.consumers[c]);
      && t == SetCon(s, c, a.(pc := Entry, kind := kind, blocking := blocking, final := false, done := 0)) && Asking(t, c)
  {
    hide Counts, Claims, ClaimRange, Final, LogTrue, Duty, RingTold;
    assert Local(s, s.consumers[c]);
  }

  /** In every run: a receive begun when nobody can send any more and left alone ends within a bounded number of steps, with a
      value when one is staged or lies in a ring no peer holds, and with the report of the end otherwise. */
  lemma CallOutcome<V>(runtime: Runtime, cap: nat, es: seq<Event<V>>, c: nat, kind: Kind) returns (n: nat)
    requires var s := Run(runtime, cap, es);
      c < |s.consumers| && Resting(s.consumers[c].pc) && s.live == 0 && (kind.InPlace? ==> kind.max > 0)
    ensures n <= 14 * |Run(runtime, cap, es).rings| + 19
    ensures var (s, u) := (Run(runtime, cap, es), Run(runtime, cap, es + [Call(c, kind, true)] + Steps(c, n)));
      && |u.consumers| == |s.consumers|
      && if Owed(s, c) then u.consumers[c].pc.Idle? && s.consumers[c].out < u.consumers[c].out
         else u.consumers[c].pc.Finished? && u.consumers[c].out == s.consumers[c].out
  {
    var s := Run(runtime, cap, es);
    RunInv(runtime, cap, es);
    ListedAtEnd(s);
    CalledAsks(s, c, kind, true);
    RunNext(runtime, cap, es, Call(c, kind, true));
    hide Run, Step, Inv;
    n := BlockingCall(Run(runtime, cap, es + [Call(c, kind, true)]), c);
    RunAlone(runtime, cap, es + [Call(c, kind, true)], c, n);
  }

  /** The same of a non-blocking receive, at any time no registration is under way. */
  lemma TryOutcome<V>(runtime: Runtime, cap: nat, es: seq<Event<V>>, c: nat, kind: Kind) returns (n: nat)
    requires var s := Run(runtime, cap, es);
      c < |s.consumers| && Resting(s.consumers[c].pc) && Listed(s) && (kind.InPlace? ==> kind.max > 0)
    ensures n <= 7 * |Run(runtime, cap, es).rings| + 9
    ensures var (s, u) := (Run(runtime, cap, es), Run(runtime, cap, es + [Call(c, kind, false)] + Steps(c, n)));
      && |u.consumers| == |s.consumers| && u.consumers[c].pc.Idle?
      && if Owed(s, c) then s.consumers[c].out < u.consumers[c].out else u.consumers[c].out == s.consumers[c].out
  {
    var s := Run(runtime, cap, es);
    RunInv(runtime, cap, es);
    CalledAsks(s, c, kind, false);
    RunNext(runtime, cap, es, Call(c, kind, false));
    hide Run, Step, Inv;
    n := TryCall(Run(runtime, cap, es + [Call(c, kind, false)]), c);
    RunAlone(runtime, cap, es + [Call(c, kind, false)], c, n);
  }

  // ---- from the middle of a call ---------------------------------------------------------------

  function Ahead(n: nat, k: nat): (r: nat) { if k < n then 7 * (n - k) else 0 }

  /** The steps a call may still take once nobody can send. */
  function Left<V>(s: State<V>, c: nat): (r: nat)
    requires c < |s.consumers|
  {
    var x := s.consumers[c];
    var pass := 7 * s.count;
    (if x.final || x.pc.CheckLive? then 0 else pass + 10) +
      match x.pc
      case Entry => pass + 8
      case LoadCount => pass + 7
      case Select => Ahead(x.n, x.k) + 6
      case Refresh => Ahead(x.n, x.k + 1) + 12
      case Pick => Ahead(x.n, x.k + 1) + 11
      case Claim => Ahead(x.n, x.k) + 9
      case Drain => Ahead(x.n, x.k) + 8
      case Release => Ahead(x.n, x.k) + 7
      case CheckLive => pass + 9
      case _ => 0
  }

  /** The call has handed something over already. */
  predicate Had<V>(x: Consumer<V>) { x.done > 0 || (x.pc.Release? && x.kind.InPlace? && x.got > 0) }

  /** What has become of the call since its consumer was `a`. */
  ghost predicate Since<V>(a: Consumer<V>, x: Consumer<V>) {
    && x.kind == a.kind && x.blocking == a.blocking && a.out <= x.out
    && (InCall(x.pc) ==> (Had(x) || x.out == a.out) && (Had(x) ==> Had(a) || a.out < x.out))
    && (x.pc.Idle? && x.blocking ==> a.out < x.out || Had(a) || x.kind == InPlace(0))
    && (x.pc.Finished? ==> x.out == a.out)
  }

  ghost predicate Nearer<V>(s: State<V>, t: State<V>, c: nat, a: Consumer<V>) {
    && c < |s.consumers| == |t.consumers| && t.live == 0 && t.count == s.count && Since(a, t.consumers[c])
    && (Resting(t.consumers[c].pc) || (InCall(t.consumers[c].pc) && Left(t, c) < Left(s, c)))
  }

  /** Both passes begin with nothing handed over in place. */
  ghost predicate Fresh<V>(s: State<V>) {
    forall c :: 0 <= c < |s.consumers| && (s.consumers[c].pc.Entry? || s.consumers[c].pc.CheckLive?) ==> s.consumers[c].done == 0
  }

  lemma GoOwn<V>(s: State<V>, c: nat, j: nat)
    requires c < |s.consumers|
    ensures var t := GoStep(s, c, j); |t.consumers| == |s.consumers| && t.consumers == s.consumers[c := t.consumers[c]]
  {
    hide Portion, Parcels, Scan.Index, Scan.Advance, Scan.Preferred, EntryStep, LoadCountStep, SelectStep, PickStep, Delivered;
  }

  lemma StepPcs<V>(s: State<V>, x: Consumer<V>)
    ensures var pc := EntryStep(x).pc; pc.Idle? || pc.LoadCount?
    ensures LoadCountStep(s, x).pc.Select?
    ensures var pc := PickStep(s, x).pc; pc.Select? || pc.Claim?
    ensures var y := SelectStep(s, x); y.done == x.done && !y.pc.Entry? && (y.pc.CheckLive? ==> y.done == 0)
  {
    hide Scan.Index, Scan.Advance;
  }

  lemma TakePcs<V>(s: State<V>, c: nat, j: nat)
    requires c < |s.consumers| && s.consumers[c].i < |s.rings|
    ensures |ReleaseStep(s, c).consumers| == |s.consumers|
    ensures var (x, y) := (s.consumers[c], ReleaseStep(s, c).consumers[c]); y == x || y.pc.Select? || y.pc.Idle?
    ensures |s.rings[s.consumers[c].i].took| <= |s.rings[s.consumers[c].i].sent| ==>
      |DrainStep(s, c, j).consumers| == |s.consumers| && DrainStep(s, c, j).consumers[c].pc.Release?
  {
    hide Scan.Preferred, Delivered, Portion, Parcels;
  }

  lemma LookFresh<V>(s: State<V>, c: nat, j: nat)
    requires c < |s.consumers| && (s.consumers[c].pc.CheckLive? ==> s.consumers[c].done == 0)
    requires var pc := s.consumers[c].pc; !pc.Claim? && !pc.Drain? && !pc.Release?
    ensures var (x, y) := (s.consumers[c], GoStep(s, c, j).consumers[c]); y == x || ((y.pc.Entry? || y.pc.CheckLive?) ==> y.done == 0)
  {
    hide EntryStep, LoadCountStep, SelectStep, PickStep, ReleaseStep, DrainStep;
    StepPcs(s, s.consumers[c]);
  }

  lemma TakeFresh<V>(s: State<V>, c: nat, j: nat)
    requires c < |s.consumers|
    requires var pc := s.consumers[c].pc; pc.Claim? || pc.Drain? || pc.Release?
    ensures var (x, y) := (s.consumers[c], GoStep(s, c, j).consumers[c]); y == x || !(y.pc.Entry? || y.pc.CheckLive?)
  {
    hide EntryStep, LoadCountStep, SelectStep, PickStep, ReleaseStep, DrainStep;
    if s.consumers[c].i < |s.rings| { TakePcs(s, c, j); }
  }

  lemma GoFresh<V>(s: State<V>, c: nat, j: nat)
    requires Fresh(s) && c < |s.consumers|
    ensures Fresh(GoStep(s, c, j))
  {
    hide GoStep;
    GoOwn(s, c, j);
    var pc := s.consumers[c].pc;
    if pc.Claim? || pc.Drain? || pc.Release? { TakeFresh(s, c, j); } else { LookFresh(s, c, j); }
  }

  lemma FreshKeeps<V>(s: State<V>, e: Event<V>)
    requires Fresh(s)
    ensures Fresh(Step(s, e))
  {
    hide GoStep, MemberStep;
    MemberGrows(s, e);
    if e.Go? && e.c < |s.consumers| { GoFresh(s, e.c, e.j); }
  }

  lemma {:induction false} RunFresh<V>(runtime: Runtime, cap: nat, es: seq<Event<V>>)
    ensures Fresh(Run(runtime, cap, es))
  {
    hide Step;
    if es != [] {
      RunFresh(runtime, cap, es[..|es| - 1]);
      FreshKeeps(Run(runtime, cap, es[..|es| - 1]), es[|es| - 1]);
    }
  }

  lemma EntrySince<V>(a: Consumer<V>, x: Consumer<V>)
    requires Since(a, x) && x.pc.Entry? && x.done == 0
    ensures Since(a, EntryStep(x))
  {
  }

  lemma QuietSince<V>(s: State<V>, c: nat, a: Consumer<V>)
    requires c < |s.consumers| && Local(s, s.consumers[c]) && s.live == 0 && Since(a, s.consumers[c])
    requires var x := s.consumers[c]; (x.pc.Entry? || x.pc.LoadCount? || x.pc.CheckLive?) && (x.pc.LoadCount? || x.done == 0)
    ensures Nearer(s, GoStep(s, c, 0), c, a)
  {
    var x := s.consumers[c];
    if x.pc.Entry? { EntrySince(a, x); }
  }

  lemma SelectSince<V>(s: State<V>, c: nat, a: Consumer<V>)
    requires c < |s.consumers| && Local(s, s.consumers[c]) && s.live == 0 && Since(a, s.consumers[c])
    requires s.consumers[c].pc.Select?
    ensures Nearer(s, GoStep(s, c, 0), c, a)
  {
  }

  lemma PickSince<V>(s: State<V>, c: nat, a: Consumer<V>)
    requires c < |s.consumers| && Local(s, s.consumers[c]) && s.live == 0 && Since(a, s.consumers[c])
    requires s.consumers[c].pc.Refresh? || s.consumers[c].pc.Pick?
    ensures Nearer(s, GoStep(s, c, 0), c, a)
  {
    hide Scan.Index;
  }

  lemma ClaimSince<V>(s: State<V>, c: nat, a: Consumer<V>)
    requires c < |s.consumers| && Local(s, s.consumers[c]) && s.live == 0 && Since(a, s.consumers[c])
    requires s.consumers[c].pc.Claim?
    ensures Nearer(s, GoStep(s, c, 0), c, a)
  {
  }

  lemma DrainSince<V>(s: State<V>, c: nat, a: Consumer<V>)
    requires c < |s.consumers| && Local(s, s.consumers[c]) && s.live == 0 && Since(a, s.consumers[c])
    requires s.consumers[c].pc.Drain?
    requires |s.rings[s.consumers[c].i].took| <= |s.rings[s.consumers[c].i].sent|
    ensures Nearer(s, GoStep(s, c, 0), c, a)
  {
    hide Portion;
  }

  lemma ReleaseSince<V>(s: State<V>, c: nat, a: Consumer<V>)
    requires c < |s.consumers| && Local(s, s.consumers[c]) && s.live == 0 && Since(a, s.consumers[c])
    requires s.consumers[c].pc.Release?
    ensures Nearer(s, GoStep(s, c, 0), c, a)
  {
  }

  /** Every step of a call keeps that account of it, and comes nearer to its end. */
  lemma StepSince<V>(s: State<V>, c: nat, a: Consumer<V>)
    requires Inv(s) && Fresh(s) && s.live == 0 && c < |s.consumers| && InCall(s.consumers[c].pc) && Since(a, s.consumers[c])
    ensures Nearer(s, GoStep(s, c, 0), c, a)
  {
    hide GoStep, Since, Counts, Claims, ClaimRange, Final, LogTrue, Duty, Nearer;
    var x := s.consumers[c];
    assert Local(s, x);
    if x.pc.Entry? || x.pc.LoadCount? || x.pc.CheckLive? { QuietSince(s, c, a); }
    else if x.pc.Select? { SelectSince(s, c, a); }
    else if x.pc.Refresh? || x.pc.Pick? { PickSince(s, c, a); }
    else if x.pc.Claim? { ClaimSince(s, c, a); }
    else if x.pc.Release? { ReleaseSince(s, c, a); }
    else { assert RingTold(s, x.i); DrainSince(s, c, a); }
  }

  /** Every ring is drained, and a blocking call holds nothing it could still hand over. */
  ghost predicate Bare<V>(s: State<V>, c: nat) {
    && c < |s.consumers| && (forall i :: 0 <= i < |s.rings| ==> |s.rings[i].took| == |s.rings[i].sent|)
    && var x := s.consumers[c];
       x.blocking && x.staging == [] && x.done == 0 && (x.pc.Release? ==> x.got == 0) && (x.kind.InPlace? ==> x.kind.max > 0)
  }

  lemma BareLook<V>(s: State<V>, c: nat)
    requires Bare(s, c) && InCall(s.consumers[c].pc)
    requires var pc := s.consumers[c].pc; !pc.Claim? && !pc.Drain? && !pc.Release?
    ensures var t := GoStep(s, c, 0); Bare(t, c) && (InCall(t.consumers[c].pc) || t.consumers[c].pc.Finished?)
  {
    hide Scan.Index, Scan.Advance;
  }

  lemma BareTake<V>(s: State<V>, c: nat)
    requires Bare(s, c) && Local(s, s.consumers[c])
    requires var pc := s.consumers[c].pc; pc.Claim? || pc.Drain? || pc.Release?
    ensures var t := GoStep(s, c, 0); Bare(t, c) && InCall(t.consumers[c].pc)
  {
    hide Scan.Valid, Scan.Preferred, Delivered;
    var x := s.consumers[c];
    assert Portion(s.rings[x.i], x, 0) == 0;
  }

  /** With nobody left to send, a call ends within a bounded number of its own steps wherever it stands. */
  lemma {:induction false} EndsFrom<V>(s: State<V>, c: nat, a: Consumer<V>) returns (n: nat)
    requires Inv(s) && Fresh(s) && s.live == 0 && c < |s.consumers| && InCall(s.consumers[c].pc) && Since(a, s.consumers[c])
    ensures n <= Left(s, c) + 1
    ensures var u := Alone(s, c, n);
      && Inv(u) && Resting(u.consumers[c].pc) && Since(a, u.consumers[c])
      && (Bare(s, c) ==> u.consumers[c].pc.Finished?)
    decreases Left(s, c)
  {
    hide GoStep, Inv, Fresh, Since, Bare, Left;
    StepSince(s, c, a);
    GoKeeps(s, c, 0);
    GoFresh(s, c, 0);
    if Bare(s, c) { BareStep(s, c); }
    AloneFirst(s, c, 1);
    var t := GoStep(s, c, 0);
    assert Alone(t, c, 0) == t;
    if Resting(t.consumers[c].pc) {
      n := 1;
    } else {
      n := EndsFrom(t, c, a);
      n := n + 1;
      AloneFirst(s, c, n);
    }
  }

  lemma BareStep<V>(s: State<V>, c: nat)
    requires Inv(s) && c < |s.consumers| && Bare(s, c) && InCall(s.consumers[c].pc)
    ensures var t := GoStep(s, c, 0); Bare(t, c) && (InCall(t.consumers[c].pc) || t.consumers[c].pc.Finished?)
  {
    hide GoStep, Bare, Counts, Claims, ClaimRange, Final, LogTrue, Duty, RingTold;
    assert Local(s, s.consumers[c]);
    var pc := s.consumers[c].pc;
    if pc.Claim? || pc.Drain? || pc.Release? { BareTake(s, c); } else { BareLook(s, c); }
  }

  /** What is left in ring `i` is still to be looked at by a consumer other than `c`. */
  ghost predicate PeerObliged<V>(s: State<V>, c: nat, i: nat) {
    exists d :: 0 <= d < |s.consumers| && d != c && Obliged(s.consumers[d], i)
  }

  /** In every run, wherever a call stands once nobody can send any more, a bounded number of its own steps ends it. A blocking
      call then hands over a value, or reports the end, for certain if every ring is drained; and what it leaves in a ring is
      for a peer that has not reported the end. */
  lemma EndsWithin<V>(runtime: Runtime, cap: nat, es: seq<Event<V>>, c: nat) returns (n: nat)
    requires var s := Run(runtime, cap, es); c < |s.consumers| && InCall(s.consumers[c].pc) && s.live == 0
    ensures n <= Left(Run(runtime, cap, es), c) + 1
    ensures var (s, u) := (Run(runtime, cap, es), Run(runtime, cap, es + Steps(c, n)));
      && |u.consumers| == |s.consumers|
      && var (a, x) := (s.consumers[c], u.consumers[c]);
         && (x.pc.Idle? || x.pc.Finished?)
         && (x.pc.Idle? && a.blocking ==> a.out < x.out || Had(a) || a.kind == InPlace(0))
         && (x.pc.Finished? ==> x.out == a.out && forall i :: 0 <= i < |u.rings| && |u.rings[i].took| < |u.rings[i].sent| ==> PeerObliged(u, c, i))
         && (Bare(s, c) ==> x.pc.Finished?)
  {
    var s := Run(runtime, cap, es);
    RunInv(runtime, cap, es);
    RunFresh(runtime, cap, es);
    hide Run, GoStep;
    n := EndsFrom(s, c, s.consumers[c]);
    RunAlone(runtime, cap, es, c, n);
    var u := Alone(s, c, n);
    hide Counts, Claims, ClaimRange, Final, LogTrue, Local, RingTold;
    forall i | 0 <= i < |u.rings| && |u.rings[i].took| < |u.rings[i].sent| && u.consumers[c].pc.Finished? ensures PeerObliged(u, c, i) {
      assert Duty(u, i);
    }
  }
}
