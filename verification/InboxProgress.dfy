/** Pushes to the inbox land and drains hand out everything that was there. */
module InboxProgress {
  import opened Wrappers
  import opened Custody
  import opened Inbox

  function Again(s: State, e: Event, n: nat): (t: State)
    requires |s.nodes| == |s.next|
    ensures |t.nodes| == |t.next|
    decreases n
  {
    if n == 0 then s else Again(Step(s, e), e, n - 1)
  }

  predicate Pushing(n: Node) { n.Load? || n.Link? || n.Cas? }

  /** The steps left of a push whose compare-and-swap meets nobody. */
  function PushLeft(s: State, i: nat): nat
    requires i < |s.nodes|
  {
    match s.nodes[i]
    case Load => 3
    case Link(h) => if h == s.head then 2 else 4
    case Cas(h) => if h == s.head then 1 else 3
    case _ => 0
  }

  lemma {:induction false} PushEnds(s: State, i: nat) returns (n: nat)
    requires |s.nodes| == |s.next| && i < |s.nodes| && Pushing(s.nodes[i])
    ensures n <= PushLeft(s, i)
    ensures var t := Again(s, Push(i, false), n);
      t.stack == [i] + s.stack && t.pushed == s.pushed + [i] && t.received == s.received && t.chain == s.chain && t.head == Some(i)
    decreases PushLeft(s, i)
  {
    var t := Step(s, Push(i, false));
    if t.nodes[i].Stacked? {
      assert Again(t, Push(i, false), 0) == t;
      n := 1;
    } else {
      n := PushEnds(t, i);
      n := n + 1;
    }
  }

  lemma WalkTurn(s: State)
    requires Inv(s) && s.pc.Walk?
    ensures |s.nodes| == |s.next|
    ensures var t := Step(s, Drain);
      && t.stack == s.stack && t.pushed == s.pushed
      && if s.chain == [] then t.pc.Idle? && t.received == s.received
         else t.pc.Walk? && t.chain == s.chain[1..] && t.received == s.received + [s.chain[0]]
  {
    hide Box;
    StepKeeps(s, Drain);
    assert s.pc.node == (if s.chain == [] then None else Some(s.chain[0]));
    assert !Step(s, Drain).fault;
    hide Inv, Linked;
  }

  /** The walk hands out the whole chain. */
  lemma {:induction false} WalkEnds(s: State)
    requires Inv(s) && s.pc.Walk?
    ensures |s.nodes| == |s.next|
    ensures var t := Again(s, Drain, |s.chain| + 1);
      t.pc.Idle? && t.received == s.received + s.chain && t.stack == s.stack && t.pushed == s.pushed
    decreases |s.chain|
  {
    hide Inv, Step;
    WalkTurn(s);
    StepKeeps(s, Drain);
    var t := Step(s, Drain);
    if s.chain == [] {
      assert s.received + [] == s.received;
      assert Again(t, Drain, 0) == t;
    } else {
      WalkEnds(t);
      assert s.received + s.chain == (s.received + [s.chain[0]]) + s.chain[1..];
    }
  }

  function Repeat(e: Event, n: nat): (es: seq<Event>)
    ensures |es| == n
  {
    if n == 0 then [] else [e] + Repeat(e, n - 1)
  }

  lemma RunNext(es: seq<Event>, e: Event)
    ensures Run(es + [e]) == Step(Run(es), e)
  {
    hide Step;
    assert (es + [e])[..|es|] == es;
  }

  lemma {:induction false} RunAgain(es: seq<Event>, e: Event, n: nat)
    ensures Run(es + Repeat(e, n)) == Again(Run(es), e, n)
    decreases n
  {
    hide Step, Run;
    if n == 0 {
      assert es + [] == es;
    } else {
      RunNext(es, e);
      RunAgain(es + [e], e, n - 1);
      assert es + Repeat(e, n) == es + [e] + Repeat(e, n - 1);
    }
  }

  /** In every run, a push under way that is left alone puts its ring on top of the stack within four attempts. */
  lemma PushLands(es: seq<Event>, i: nat) returns (n: nat)
    requires i < |Run(es).nodes| && Pushing(Run(es).nodes[i])
    ensures n <= 4
    ensures var (s, t) := (Run(es), Run(es + Repeat(Push(i, false), n))); t.stack == [i] + s.stack && t.pushed == s.pushed + [i]
  {
    hide Run, Step;
    n := PushEnds(Run(es), i);
    RunAgain(es, Push(i, false), n);
  }

  /** In every run, a drain left alone hands out what was being walked and, if it begins anew, the whole stack, newest first. */
  lemma DrainEnds(es: seq<Event>)
    ensures var s := Run(es); var t := Run(es + Repeat(Drain, |if s.pc.Idle? then s.stack else s.chain| + (if s.pc.Idle? then 2 else 1)));
      && t.pc.Idle? && t.pushed == s.pushed
      && t.received == s.received + (if s.pc.Idle? then s.stack else s.chain) && t.stack == (if s.pc.Idle? then [] else s.stack)
  {
    RunInv(es);
    var s := Run(es);
    hide Run;
    if s.pc.Idle? {
      SwapKeeps(s);
      var t := Step(s, Drain);
      assert t.pc.Walk? && t.chain == s.stack && t.stack == [] && t.received == s.received && t.pushed == s.pushed;
      hide Inv, Step;
      WalkEnds(t);
      RunAgain(es, Drain, |s.stack| + 2);
    } else {
      hide Inv, Step;
      WalkEnds(s);
      RunAgain(es, Drain, |s.chain| + 1);
    }
  }
}
