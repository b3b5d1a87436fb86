/** The intrusive lock-free inbox: producers push rings with a compare-and-swap on the head, the one consumer detaches the
    whole chain with a swap and walks it. Rings are pushed again after they were handed out. */
module Inbox {
  import opened Wrappers
  import opened Custody

  /** A node's holder: nobody's business, a pusher about to load the head / link / swap, the stack, or the detached chain. */
  datatype Node = Away | Load | Link(h: Option<nat>) | Cas(h: Option<nat>) | Stacked | Detached

  datatype Pc = Idle | Walk(node: Option<nat>)

  /** History: `stack` and `chain` are what head and walker should reach, `pushed` and `received` what went in and came out. */
  datatype State = State(
    next: seq<Option<nat>>, head: Option<nat>, nodes: seq<Node>, pc: Pc,
    stack: seq<nat>, chain: seq<nat>, pushed: seq<nat>, received: seq<nat>, fault: bool)

  datatype Event = NewRing | StartPush(i: nat) | Push(i: nat, spurious: bool) | Drain

  function Init(): State { State([], None, [], Idle, [], [], [], [], false) }

  function PushStep(s: State, i: nat, spurious: bool): State
    requires i < |s.nodes| == |s.next|
  {
    match s.nodes[i]
    case Load => s.(nodes := s.nodes[i := Link(s.head)])
    case Link(h) => s.(next := s.next[i := h], nodes := s.nodes[i := Cas(h)])
    case Cas(h) =>
      if s.head == h && !spurious
      then s.(head := Some(i), nodes := s.nodes[i := Stacked], stack := [i] + s.stack, pushed := s.pushed + [i])
      else s.(nodes := s.nodes[i := Link(s.head)])
    case _ => s
  }

  function TakenOver(nodes: seq<Node>): seq<Node> {
    seq(|nodes|, i requires 0 <= i < |nodes| => if nodes[i].Stacked? then Detached else nodes[i])
  }

  function DrainStep(s: State): State
    requires |s.nodes| == |s.next|
  {
    match s.pc
    case Idle => s.(head := None, pc := Walk(s.head), chain := s.stack, stack := [], nodes := TakenOver(s.nodes))
    case Walk(node) =>
      if node.None? then s.(pc := Idle)
      else if node.value >= |s.next| || !s.nodes[node.value].Detached? || s.chain == [] then s.(fault := true)
      else s.(pc := Walk(s.next[node.value]), nodes := s.nodes[node.value := Away], chain := s.chain[1..], received := s.received + [node.value])
  }

  function Step(s: State, e: Event): (t: State)
    requires |s.nodes| == |s.next|
    ensures |t.nodes| == |t.next|
  {
    match e
    case NewRing => s.(next := s.next + [None], nodes := s.nodes + [Away])
    case StartPush(i) => if i < |s.nodes| && s.nodes[i].Away? then s.(nodes := s.nodes[i := Load]) else s
    case Push(i, spurious) => if i < |s.nodes| then PushStep(s, i, spurious) else s
    case Drain => DrainStep(s)
  }

  function Run(es: seq<Event>): (s: State)
    ensures |s.nodes| == |s.next|
  {
    if es == [] then Init() else Step(Run(es[..|es| - 1]), es[|es| - 1])
  }

  // ---- invariant ------------------------------------------------------------------------

  function Below(q: seq<nat>, j: nat): Option<nat> { if j + 1 < |q| then Some(q[j + 1]) else None }

  /** Following `next` from `head` visits exactly `q`. */
  ghost predicate Linked(next: seq<Option<nat>>, head: Option<nat>, q: seq<nat>) {
    && head == (if q == [] then None else Some(q[0]))
    && forall j :: 0 <= j < |q| ==> q[j] < |next| && next[q[j]] == Below(q, j)
  }

  ghost predicate Inv(s: State) {
    && |s.nodes| == |s.next| && !s.fault
    && Box(s.stack, s.nodes, Stacked) && Box(s.chain, s.nodes, Detached)
    && Linked(s.next, s.head, s.stack)
    && (s.pc.Walk? ==> Linked(s.next, s.pc.node, s.chain))
    && (s.pc.Idle? ==> s.chain == [])
    && (forall i :: 0 <= i < |s.nodes| && s.nodes[i].Cas? ==> s.next[i] == s.nodes[i].h)
    && multiset(s.pushed) == multiset(s.received) + multiset(s.chain) + multiset(s.stack)
  }

  lemma LinkElsewhere(next: seq<Option<nat>>, head: Option<nat>, q: seq<nat>, i: nat, h: Option<nat>)
    requires Linked(next, head, q) && i < |next| && i !in q
    ensures Linked(next[i := h], head, q)
  {
    forall j | 0 <= j < |q| ensures next[i := h][q[j]] == next[q[j]] { assert q[j] in q; }
  }

  lemma LinkOnTop(next: seq<Option<nat>>, head: Option<nat>, q: seq<nat>, i: nat)
    requires Linked(next, head, q) && i < |next| && next[i] == head
    ensures Linked(next, Some(i), [i] + q)
  {
    var r := [i] + q;
    forall j | 0 <= j < |r| ensures r[j] < |next| && next[r[j]] == Below(r, j) {
      if j > 0 { assert r[j] == q[j - 1] && Below(r, j) == Below(q, j - 1); }
    }
  }

  lemma LinkRest(next: seq<Option<nat>>, q: seq<nat>)
    requires q != [] && Linked(next, Some(q[0]), q)
    ensures q[0] < |next| && Linked(next, next[q[0]], q[1..])
  {
    var r := q[1..];
    assert next[q[0]] == Below(q, 0);
    forall j | 0 <= j < |r| ensures r[j] < |next| && next[r[j]] == Below(r, j) {
      assert r[j] == q[j + 1] && Below(r, j) == Below(q, j + 1);
    }
  }

  lemma TakenOverBoxes(stack: seq<nat>, nodes: seq<Node>)
    requires Box(stack, nodes, Stacked) && Box([], nodes, Detached)
    ensures Box([], TakenOver(nodes), Stacked) && Box(stack, TakenOver(nodes), Detached)
  {
    forall b | 0 <= b < |nodes| && TakenOver(nodes)[b] == Detached ensures b in stack {
      assert nodes[b] == Detached ==> b in [];
    }
  }

  lemma Outside(q: seq<nat>, nodes: seq<Node>, place: Node, i: nat)
    requires Box(q, nodes, place) && i < |nodes| && nodes[i] != place
    ensures i !in q
  {
  }

  /** A pusher between pcs: its node is in neither chain. */
  lemma OwnNode(s: State, i: nat, n: Node, h: Option<nat>)
    requires Inv(s) && i < |s.nodes| && !s.nodes[i].Stacked? && !s.nodes[i].Detached?
    requires !n.Stacked? && !n.Detached? && (n.Cas? ==> n.h == h) && (s.next[i] == h || n.Cas?)
    ensures Inv(s.(nodes := s.nodes[i := n], next := s.next[i := h]))
  {
    hide Box, Linked;
    BoxOther(s.stack, s.nodes, Stacked, i, n);
    BoxOther(s.chain, s.nodes, Detached, i, n);
    Outside(s.stack, s.nodes, Stacked, i);
    Outside(s.chain, s.nodes, Detached, i);
    LinkElsewhere(s.next, s.head, s.stack, i, h);
    if s.pc.Walk? { LinkElsewhere(s.next, s.pc.node, s.chain, i, h); }
  }

  lemma CountedPush(pushed: seq<nat>, received: seq<nat>, chain: seq<nat>, stack: seq<nat>, i: nat)
    requires multiset(pushed) == multiset(received) + multiset(chain) + multiset(stack)
    ensures multiset(pushed + [i]) == multiset(received) + multiset(chain) + multiset([i] + stack)
  {
    assert multiset(pushed + [i]) == multiset(pushed) + multiset{i};
    assert multiset([i] + stack) == multiset{i} + multiset(stack);
  }

  lemma PublishKeeps(s: State, i: nat)
    requires Inv(s) && i < |s.nodes| && s.nodes[i] == Cas(s.head)
    ensures Inv(PushStep(s, i, false))
  {
    hide Box, Linked;
    BoxPushFront(s.stack, s.nodes, Stacked, i);
    BoxOther(s.chain, s.nodes, Detached, i, Stacked);
    LinkOnTop(s.next, s.head, s.stack, i);
    CountedPush(s.pushed, s.received, s.chain, s.stack, i);
  }

  lemma PushKeeps(s: State, i: nat, spurious: bool)
    requires Inv(s) && i < |s.nodes|
    ensures Inv(PushStep(s, i, spurious))
  {
    var n := s.nodes[i];
    hide Box, Linked;
    assert s.next == s.next[i := s.next[i]];
    if n.Load? {
      OwnNode(s, i, Link(s.head), s.next[i]);
    } else if n.Link? {
      OwnNode(s, i, Cas(n.h), n.h);
    } else if n.Cas? {
      if n.h == s.head && !spurious { PublishKeeps(s, i); } else { OwnNode(s, i, Link(s.head), s.next[i]); }
    }
  }

  lemma SwapKeeps(s: State)
    requires Inv(s) && s.pc.Idle?
    ensures Inv(DrainStep(s))
  {
    TakenOverBoxes(s.stack, s.nodes);
    hide Box;
  }

  lemma Counted(pushed: seq<nat>, received: seq<nat>, chain: seq<nat>, stack: seq<nat>)
    requires chain != [] && multiset(pushed) == multiset(received) + multiset(chain) + multiset(stack)
    ensures multiset(pushed) == multiset(received + [chain[0]]) + multiset(chain[1..]) + multiset(stack)
  {
    assert chain == [chain[0]] + chain[1..];
  }

  lemma WalkKeeps(s: State)
    requires Inv(s) && s.pc.Walk?
    ensures Inv(DrainStep(s))
  {
    hide Box;
    if s.pc.node.Some? {
      var x := s.chain[0];
      assert s.pc.node == Some(x);
      BoxPopFront(s.chain, s.nodes, Detached, Away);
      BoxOther(s.stack, s.nodes, Stacked, x, Away);
      LinkRest(s.next, s.chain);
      Counted(s.pushed, s.received, s.chain, s.stack);
      hide Linked;
    }
  }

  lemma NewRingKeeps(s: State)
    requires Inv(s)
    ensures Inv(Step(s, NewRing))
  {
    BoxGrow(s.stack, s.nodes, Stacked, Away);
    BoxGrow(s.chain, s.nodes, Detached, Away);
    hide Box;
    var next := s.next + [None];
    assert Linked(next, s.head, s.stack);
    assert s.pc.Walk? ==> Linked(next, s.pc.node, s.chain);
    hide Linked;
  }

  lemma StartKeeps(s: State, i: nat)
    requires Inv(s) && i < |s.nodes| && s.nodes[i].Away?
    ensures Inv(s.(nodes := s.nodes[i := Load]))
  {
    OwnNode(s, i, Load, s.next[i]);
    hide Inv;
    assert s.next == s.next[i := s.next[i]];
  }

  lemma StepKeeps(s: State, e: Event)
    requires Inv(s)
    ensures Inv(Step(s, e))
  {
    assert |s.nodes| == |s.next|;
    hide Inv;
    match e
    case NewRing => NewRingKeeps(s);
    case StartPush(i) =>
      if i < |s.nodes| && s.nodes[i].Away? { StartKeeps(s, i); }
    case Push(i, spurious) => if i < |s.nodes| { PushKeeps(s, i, spurious); }
    case Drain => if s.pc.Idle? { SwapKeeps(s); } else { WalkKeeps(s); }
  }

  lemma {:induction false} RunInv(es: seq<Event>)
    ensures Inv(Run(es))
  {
    if es != [] {
      RunInv(es[..|es| - 1]);
      StepKeeps(Run(es[..|es| - 1]), es[|es| - 1]);
    }
  }

  // ---- theorems -----------------------------------------------------------------------------

  /** Every ring pushed is on the stack, on the chain being walked, or was handed out, once per push; the walk never
      touches a ring it does not own, whatever was pushed again meanwhile. */
  lemma PushedOnce(es: seq<Event>)
    ensures var s := Run(es); !s.fault && multiset(s.pushed) == multiset(s.received) + multiset(s.chain) + multiset(s.stack)
    ensures var s := Run(es); s.pc.Idle? && s.stack == [] ==> multiset(s.pushed) == multiset(s.received)
  {
    RunInv(es);
  }

  /** The detaching swap takes exactly the stack, newest first: following the links from the old head visits it, now and
      for as long as the walk lasts. */
  lemma DetachesAll(es: seq<Event>)
    ensures var s := Run(es); Linked(s.next, s.head, s.stack) && (s.pc.Walk? ==> Linked(s.next, s.pc.node, s.chain))
    ensures var s := Run(es); s.pc.Idle? ==> var t := Step(s, Drain); t.pc == Walk(s.head) && t.chain == s.stack && t.stack == [] && Linked(t.next, s.head, s.stack)
  {
    RunInv(es);
  }
}
