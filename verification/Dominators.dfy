/** Proc::rebuild_dom (src/opt-dom.cpp) and the searches that use its result. */
module Dominators {
  import opened Digraph
  import opened Lists
  import opened Ir
  import opened Cfg
  import opened DomTheory

  /** Runs backwards from the exits, through live blocks only. */
  ghost function ExitGraph(ops: seq<Op>, code: seq<seq<OpId>>, live: seq<BlockId>): Graph<BlockId> {
    Graph(iset b: BlockId | b in live && Succ(ops, code, b) == [] :: b,
          iset a: BlockId, b: BlockId | a in live && b in live && a in Succ(ops, code, b) :: (a, b))
  }

  /** Drop from t whatever other does not hold, by swapping with the back. */
  method Intersect(t0: seq<BlockId>, other: seq<BlockId>) returns (t: seq<BlockId>)
    requires NoDup(t0)
    ensures NoDup(t)
    ensures forall d :: d in t <==> d in t0 && d in other
  {
    t := t0;
    var i := 0;
    while i < |t|
      invariant i <= |t| && NoDup(t)
      invariant forall d :: d in t ==> d in t0
      invariant forall d :: d in t0 && d in other ==> d in t
      invariant forall j :: 0 <= j < i ==> t[j] in other
      decreases |t| - i
    {
      if t[i] in other {
        i := i + 1;
      } else {
        ghost var before := t;
        var back := t[|t| - 1];
        t := t[i := back];
        t := t[..|t| - 1];
        forall d | d in before && d != before[i] ensures d in t {
          var j :| 0 <= j < |before| && before[j] == d;
          if j == |before| - 1 { assert t[i] == d; } else { assert t[j] == d; }
        }
      }
    }
  }

  /** One recomputation: intersect the lists of all given blocks, then add b itself. */
  method Meet(live: seq<BlockId>, dom: DomLists, from: seq<BlockId>, b: BlockId) returns (t: seq<BlockId>)
    requires NoDup(live) && b in live
    requires forall k :: 0 <= k < |from| ==> from[k] < |dom|
    ensures NoDup(t)
    ensures forall d :: d in t <==> d in live && (d == b || forall k :: 0 <= k < |from| ==> d in dom[from[k]])
  {
    t := live;
    for k := 0 to |from|
      invariant NoDup(t)
      invariant forall d :: d in t <==> d in live && forall j :: 0 <= j < k ==> d in dom[from[j]]
    {
      t := Intersect(t, dom[from[k]]);
    }
    if b !in t {
      NoDupAppend(t, b);
      t := t + [b];
    }
  }

  /** One sweep of either pass over the blocks in `order`, reading predecessor lists `from`;
      the lists of `fixed` blocks are never recomputed. */
  method Sweep(proc: Proc, ghost g: Graph<BlockId>, order: seq<BlockId>, from: seq<seq<BlockId>>, fixed: set<BlockId>)
    returns (iterate: bool)
    requires NoDup(proc.live) && Above(g, proc.live, proc.dom) && |proc.dom| == |from|
    requires forall b :: b in order <==> b in proc.live
    requires forall k :: 0 <= k < |order| ==> order[k] in proc.live
    requires forall b, a :: b in proc.live && b !in g.roots ==>
               (a in from[b] <==> a in proc.live && (a, b) in g.edges)
    requires forall b :: b in proc.live ==> (b in g.roots <==> b in fixed)
    modifies proc`dom
    ensures |proc.dom| == |from| && Above(g, proc.live, proc.dom)
    ensures Total(proc.dom) <= Total(old(proc.dom))
    ensures iterate ==> Total(proc.dom) < Total(old(proc.dom))
    ensures !iterate ==> forall b :: b in proc.live ==> Settled(g, proc.live, proc.dom, b)
  {
    iterate := false;
    ghost var live := proc.live;
    for i := 0 to |order|
      invariant |proc.dom| == |from| && Above(g, live, proc.dom)
      invariant Total(proc.dom) <= Total(old(proc.dom))
      invariant iterate ==> Total(proc.dom) < Total(old(proc.dom))
      invariant !iterate ==> forall b :: b in order[..i] ==> b in live && Settled(g, live, proc.dom, b)
    {
      var b := order[i];
      assert order[..i + 1] == order[..i] + [b];
      if b in fixed { continue; }
      forall k | 0 <= k < |from[b]| ensures from[b][k] < |proc.dom| {
        assert from[b][k] in from[b] && b !in g.roots;
        assert from[b][k] in proc.live;
      }
      var t := Meet(proc.live, proc.dom, from[b], b);
      forall d: nat ensures d in t <==> d in live && Meets(g, live, proc.dom, b, d) {
        if d in live && Meets(g, live, proc.dom, b, d) && d != b {
          forall k | 0 <= k < |from[b]| ensures d in proc.dom[from[b][k]] {
            assert from[b][k] in from[b];
          }
        }
      }
      MeetShrinks(g, live, proc.dom, b, t);
      MeetKeepsAbove(g, live, proc.dom, b, t);
      TotalUpdate(proc.dom, b, t);
      if |t| != |proc.dom[b]| { iterate := true; }
      if !iterate {
        QuietMeet(g, live, proc.dom, b, t, order[..i]);
      }
      proc.dom := proc.dom[b := t];
    }
    assert order[..|order|] == order;
  }

  /** Sweep until no list changes size. */
  method Solve(proc: Proc, ghost g: Graph<BlockId>, order: seq<BlockId>, from: seq<seq<BlockId>>, fixed: set<BlockId>)
    requires NoDup(proc.live) && |proc.dom| == |from|
    requires forall b :: b in proc.live ==> b < |proc.dom|
    requires forall b :: b in order <==> b in proc.live
    requires forall k :: 0 <= k < |order| ==> order[k] in proc.live
    requires forall b, a :: b in proc.live && b !in g.roots ==>
               (a in from[b] <==> a in proc.live && (a, b) in g.edges)
    requires forall b :: b in proc.live ==> (b in g.roots <==> b in fixed)
    requires AllListed(g, proc.live)
    modifies proc`dom
    ensures |proc.dom| == |from| && Exact(g, proc.live, proc.dom)
  {
    ghost var live := proc.live;
    for i := 0 to |proc.live|
      invariant |proc.dom| == |from|
      invariant forall b :: b in live[..i] ==> b < |proc.dom| && proc.dom[b] == if b in fixed then [b] else live
    {
      var b := proc.live[i];
      assert b in proc.live && b !in live[..i];
      assert live[..i + 1] == live[..i] + [b];
      proc.dom := proc.dom[b := if b in fixed then [b] else proc.live];
    }
    assert live[..|live|] == live;
    StartsAbove(g, live, proc.dom);
    var iterate := true;
    while iterate
      invariant |proc.dom| == |from| && Above(g, live, proc.dom)
      invariant !iterate ==> forall b :: b in live ==> Settled(g, live, proc.dom, b)
      decreases Total(proc.dom), iterate
    {
      iterate := Sweep(proc, g, order, from, fixed);
    }
    SettledIsExact(g, live, proc.dom);
  }

  function Reversed(s: seq<BlockId>): (r: seq<BlockId>)
    ensures |r| == |s| && forall k :: 0 <= k < |s| ==> r[k] == s[|s| - 1 - k]
    ensures forall b :: b in r <==> b in s
  {
    if s == [] then [] else
      var r := Reversed(s[1..]);
      assert s == [s[0]] + s[1..];
      r + [s[0]]
  }

  /** The first listed dominator with one dominator less, or `none`. */
  method FindImmediate(dom: DomLists, b: BlockId, none: BlockId) returns (i: BlockId)
    requires b < |dom| && forall d :: d in dom[b] ==> d == NoVal || d < |dom|
    ensures || (i != NoVal && i in dom[b] && |dom[i]| == |dom[b]| - 1)
            || (i == none && forall d :: d in dom[b] && d != NoVal ==> |dom[d]| != |dom[b]| - 1)
  {
    i := none;
    for k := 0 to |dom[b]|
      invariant i == none
      invariant forall d :: d in dom[b][..k] ==> d == NoVal || (d < |dom| && |dom[d]| != |dom[b]| - 1)
    {
      var d := dom[b][k];
      assert d in dom[b];
      assert dom[b][..k + 1] == dom[b][..k] + [d];
      if d == NoVal { continue; }
      if |dom[d]| == |dom[b]| - 1 {
        i := d;
        return;
      }
    }
    assert dom[b][..|dom[b]|] == dom[b];
  }

  // ---- immediate post-dominators ------------------------------------------------------

  /** pdom[b] is the immediate post-dominator of b, or NoVal if b has none but itself. */
  ghost predicate PostImmediate(x: Graph<BlockId>, live: seq<BlockId>, pdom: seq<BlockId>) {
    forall b :: b in live && Reachable(x, b) ==>
      b < |pdom|
      && (pdom[b] != NoVal ==> Immediate(x, pdom[b], b))
      && (pdom[b] == NoVal ==> forall d: nat :: Dominates(x, d, b) ==> d == b)
  }

  lemma ExitGraphLive(ops: seq<Op>, code: seq<seq<OpId>>, live: seq<BlockId>)
    ensures AllListed(ExitGraph(ops, code, live), live)
  {
    var x := ExitGraph(ops, code, live);
    forall b | Reachable(x, b) ensures b in live {
      var p :| RunTo(x, p, b);
      if |p| > 1 {
        assert (p[|p| - 2], p[|p| - 2 + 1]) in x.edges;
      }
    }
  }

  lemma SuccLive(ops: seq<Op>, code: seq<seq<OpId>>, live: seq<BlockId>, a: BlockId, b: BlockId)
    requires LiveExact(ops, code, live) && a in live && b in Succ(ops, code, a)
    ensures b in live
  {
    assert LiveBlock(ops, code, a);
    ReachableStep(BlockGraph(ops, code), a, b);
    assert LiveBlock(ops, code, b);
  }

  /** The size test finds the immediate dominator, for lists that may all carry one extra
      element. */
  lemma FoundIsImmediate(g: Graph<BlockId>, live: seq<BlockId>, dom: DomLists, b: BlockId, i: BlockId, none: BlockId)
    requires Exact(g, live, dom) && b in live && Reachable(g, b)
    requires AllListed(g, live)
    requires || (i in dom[b] && |dom[i]| == |dom[b]| - 1)
             || (i == none && forall d :: d in dom[b] ==> |dom[d]| != |dom[b]| - 1)
    ensures Immediate(g, i, b) || (i == none && forall d: nat :: Dominates(g, d, b) ==> d == b)
  {
    if i in dom[b] && |dom[i]| == |dom[b]| - 1 {
      OneLessIsImmediate(g, live, dom, i, b);
    } else {
      forall d: nat | Dominates(g, d, b) ensures d == b {
        DomReachable(g, d, b);
        assert d in dom[b];
        if d != b {
          var m := ImmediateExists(g, live, dom, b);
          OneLessIsImmediate(g, live, dom, m, b);
        }
      }
    }
  }

  /** The theoretical exit block joins every list. */
  method PushExit(proc: Proc)
    requires NoDup(proc.live) && forall k :: 0 <= k < |proc.live| ==> proc.live[k] < |proc.dom|
    modifies proc`dom
    ensures |proc.dom| == |old(proc.dom)|
    ensures forall b :: b in proc.live ==> b < |proc.dom| && proc.dom[b] == old(proc.dom[b]) + [NoVal]
  {
    var live := proc.live;
    ghost var exact := proc.dom;
    for i := 0 to |live|
      invariant |proc.dom| == |exact|
      invariant forall b :: 0 <= b < |exact| ==> proc.dom[b] == if b in live[..i] then exact[b] + [NoVal] else exact[b]
    {
      var b := live[i];
      assert b !in live[..i] && live[..i + 1] == live[..i] + [b];
      proc.dom := proc.dom[b := proc.dom[b] + [NoVal]];
    }
    assert live[..|live|] == live;
  }

  method FindPdoms(proc: Proc, ghost x: Graph<BlockId>, ghost exact: DomLists)
    requires NoDup(proc.live) && |proc.dom| == |proc.pdom| == |exact| < NoVal
    requires forall b :: b in proc.live ==> b < |proc.dom| && proc.dom[b] == exact[b] + [NoVal]
    requires forall k :: 0 <= k < |proc.live| ==> proc.live[k] < |proc.dom|
    requires Exact(x, proc.live, exact) && AllListed(x, proc.live)
    modifies proc`pdom
    ensures |proc.pdom| == |old(proc.pdom)| && PostImmediate(x, proc.live, proc.pdom)
  {
    var live := proc.live;
    for i := 0 to |live|
      invariant |proc.pdom| == |exact|
      invariant PostImmediate(x, live[..i], proc.pdom)
    {
      var b := live[i];
      assert b in live && b !in live[..i] && live[..i + 1] == live[..i] + [b];
      assert forall d :: d in exact[b] ==> d in live && d < |exact| && d in proc.dom[b] && d != NoVal;
      var d := FindImmediate(proc.dom, b, NoVal);
      proc.pdom := proc.pdom[b := d];
      if Reachable(x, b) {
        FoundIsImmediate(x, live, exact, b, d, NoVal);
        if Immediate(x, d, b) {
          DomReachable(x, d, b);
        }
      }
    }
    assert live[..|live|] == live;
  }

  lemma ExitPreds(ops: seq<Op>, code: seq<seq<OpId>>, live: seq<BlockId>, from: seq<seq<BlockId>>)
    requires LiveExact(ops, code, live)
    requires forall b :: b in live ==> b < |from| && from[b] == Succ(ops, code, b)
    ensures var x := ExitGraph(ops, code, live);
            forall b, a :: b in live ==> (a in from[b] <==> a in live && (a, b) in x.edges)
  {
    forall b, a | b in live && a in Succ(ops, code, b) ensures a in live {
      SuccLive(ops, code, live, b, a);
    }
  }

  method PostDominators(proc: Proc)
    requires proc.Shape()
    requires CfgBuilt(proc.prog.ops, proc.prog.code, proc.live, proc.comeFrom)
    modifies proc`dom, proc`pdom
    ensures proc.Shape()
    ensures PostImmediate(ExitGraph(proc.prog.ops, proc.prog.code, proc.live), proc.live, proc.pdom)
  {
    var ops, code, live := proc.prog.ops, proc.prog.code, proc.live;
    ghost var x := ExitGraph(ops, code, live);
    var from := seq(|code|, b requires b >= 0 => Succ(ops, code, b));
    ExitPreds(ops, code, live, from);
    ExitGraphLive(ops, code, live);
    SolveAndFind(proc, x, from, set b | b in live && Succ(ops, code, b) == []);
  }

  method SolveAndFind(proc: Proc, ghost x: Graph<BlockId>, from: seq<seq<BlockId>>, exits: set<BlockId>)
    requires NoDup(proc.live) && |proc.dom| == |proc.pdom| == |from| < NoVal
    requires forall k :: 0 <= k < |proc.live| ==> proc.live[k] < |proc.dom|
    requires forall b, a :: b in proc.live && b !in x.roots && b < |from| ==>
               (a in from[b] <==> a in proc.live && (a, b) in x.edges)
    requires forall b :: b in proc.live ==> (b in x.roots <==> b in exits)
    requires AllListed(x, proc.live)
    modifies proc`dom, proc`pdom
    ensures |proc.dom| == |proc.pdom| == |from|
    ensures PostImmediate(x, proc.live, proc.pdom)
  {
    assert |proc.pdom| == |from|;
    Solve(proc, x, Reversed(proc.live), from, exits);
    ghost var exact := proc.dom;
    PushExit(proc);
    FindPdoms(proc, x, exact);
  }

  // ---- dominators ---------------------------------------------------------------------

  /** What rebuild_dom leaves behind for the later passes. */
  ghost predicate DomBuilt(ops: seq<Op>, code: seq<seq<OpId>>, live: seq<BlockId>,
                           dom: seq<seq<BlockId>>, idom: seq<BlockId>)
  {
    var g := BlockGraph(ops, code);
    && |dom| == |idom| == |code|
    && Exact(g, live, dom)
    && Ordered(live, dom)
    && IdomsFound(g, live, idom)
  }

  /** What the size tests established: every live block but the entry knows its immediate
      dominator. */
  ghost predicate IdomsFound(g: Graph<BlockId>, live: seq<BlockId>, idom: seq<BlockId>) {
    && (forall a :: a in live ==> a < |idom|)
    && (forall a {:trigger idom[a]} :: a in live && a != 0 ==> idom[a] in live && Immediate(g, idom[a], a))
  }

  /** The same in terms of the unordered lists alone: each step up drops just one element. */
  ghost predicate StepsUp(live: seq<BlockId>, exact: DomLists, idom: seq<BlockId>) {
    && (forall a :: a in live ==> a < |idom| && a < |exact| && a in exact[a] && NoDup(exact[a]))
    && (forall a {:trigger idom[a]} :: a in live && |exact[a]| > 1 ==>
          && idom[a] in live && |exact[idom[a]]| == |exact[a]| - 1
          && forall d :: d in exact[idom[a]] ==> d in exact[a])
  }

  lemma RootHasOne(g: Graph<BlockId>, live: seq<BlockId>, exact: DomLists)
    requires Exact(g, live, exact) && g.roots == iset{0} && 0 in live
    ensures |exact[0]| == 1
  {
    assert RunTo(g, [0], 0);
    forall d | d in exact[0] ensures d == 0 {
      assert d in [0];
    }
    NoDupSize(exact[0]);
    assert SetOf(exact[0]) == {0};
  }

  lemma IdomsStepUp(g: Graph<BlockId>, live: seq<BlockId>, exact: DomLists, idom: seq<BlockId>)
    requires Exact(g, live, exact) && g.roots == iset{0} && 0 in live
    requires JustReachable(g, live)
    requires IdomsFound(g, live, idom)
    ensures StepsUp(live, exact, idom)
  {
    RootHasOne(g, live, exact);
    forall a | a in live ensures a in exact[a] {
      assert Dominates(g, a, a);
    }
    forall a {:trigger idom[a]} | a in live && |exact[a]| > 1
      ensures idom[a] in live && |exact[idom[a]]| == |exact[a]| - 1
      ensures forall d :: d in exact[idom[a]] ==> d in exact[a]
    {
      assert Reachable(g, a);
      OneLessIsImmediate(g, live, exact, idom[a], a);
      DominatorSubset(g, live, exact, idom[a], a);
    }
  }

  /** Follow immediate dominators backwards from b, filling every place from the back. */
  method FillChain(ghost live: seq<BlockId>, ghost exact: DomLists, idom: seq<BlockId>, b: BlockId, n: nat)
    returns (c: seq<BlockId>)
    requires StepsUp(live, exact, idom) && b in live && |exact[b]| == n > 0
    ensures |c| == n && IsChain(live, exact, idom, c) && c[n - 1] == b
  {
    c := seq(n, _ => NoVal);
    var d := b;
    var i := n;
    while i > 0
      invariant 0 <= i <= n && |c| == n
      invariant i > 0 ==> d in live && |exact[d]| == i
      invariant forall k :: i <= k < n ==> c[k] in live && |exact[c[k]]| == k + 1
      invariant forall k :: i < k < n ==> c[k - 1] == idom[c[k]]
      invariant if i == n then d == b else c[n - 1] == b && (i > 0 ==> d == idom[c[i]])
    {
      i := i - 1;
      c := c[i := d];
      if i > 0 { d := idom[d]; }
    }
  }

  /** A list that follows immediate dominators down from the entry. */
  ghost predicate IsChain(live: seq<BlockId>, exact: DomLists, idom: seq<BlockId>, c: seq<BlockId>) {
    && (forall a :: a in live ==> a < |idom| && a < |exact|)
    && (forall k :: 0 <= k < |c| ==> c[k] in live && |exact[c[k]]| == k + 1)
    && (forall k :: 0 < k < |c| ==> c[k - 1] == idom[c[k]])
  }

  lemma {:induction false} ChainsAgree(live: seq<BlockId>, exact: DomLists, idom: seq<BlockId>,
                                       c: seq<BlockId>, e: seq<BlockId>)
    requires IsChain(live, exact, idom, c) && IsChain(live, exact, idom, e)
    requires |c| == |e| > 0 && c[|c| - 1] == e[|e| - 1]
    ensures c == e
    decreases |c|
  {
    if |c| > 1 {
      ChainsAgree(live, exact, idom, c[..|c| - 1], e[..|e| - 1]);
      assert c == c[..|c| - 1] + [c[|c| - 1]];
    }
  }

  lemma {:induction false} ChainListed(live: seq<BlockId>, exact: DomLists, idom: seq<BlockId>,
                                       c: seq<BlockId>, k: nat)
    requires StepsUp(live, exact, idom) && IsChain(live, exact, idom, c) && k < |c|
    ensures forall d :: d in exact[c[k]] ==> d in exact[c[|c| - 1]]
    decreases |c| - k
  {
    if k < |c| - 1 {
      ChainListed(live, exact, idom, c, k + 1);
      assert c[k + 1 - 1] == idom[c[k + 1]];
    }
  }

  /** A chain holds the same elements as the unordered list. */
  lemma ChainIsList(live: seq<BlockId>, exact: DomLists, idom: seq<BlockId>, b: BlockId, c: seq<BlockId>)
    requires StepsUp(live, exact, idom) && IsChain(live, exact, idom, c) && b in live
    requires |c| == |exact[b]| > 0 && c[|c| - 1] == b
    ensures NoDup(c) && forall d :: d in c <==> d in exact[b]
  {
    forall d | d in c ensures d in exact[b] {
      var k :| 0 <= k < |c| && c[k] == d;
      ChainListed(live, exact, idom, c, k);
    }
    SubListSize(c, exact[b]);
  }

  lemma ChainsAreOrdered(live: seq<BlockId>, exact: DomLists, idom: seq<BlockId>, dom: DomLists)
    requires forall b :: b in live ==> b < |dom| && Listed(live, exact, idom, b, dom[b])
    ensures Ordered(live, dom)
  {
    forall b: nat, i: nat | b in live && b < |dom| && i < |dom[b]| ensures ChainAt(live, dom, b, i) {
      ChainsAgree(live, exact, idom, dom[b][..i + 1], dom[dom[b][i]]);
    }
  }

  lemma ForwardPreds(ops: seq<Op>, code: seq<seq<OpId>>, live: seq<BlockId>, comeFrom: seq<seq<BlockId>>)
    requires ComeFromExact(ops, code, live, comeFrom)
    ensures var g := BlockGraph(ops, code);
            forall b, a :: b in live && b < |comeFrom| ==> (a in comeFrom[b] <==> a in live && (a, b) in g.edges)
  {
  }

  lemma LiveIsReachable(ops: seq<Op>, code: seq<seq<OpId>>, live: seq<BlockId>)
    requires LiveExact(ops, code, live)
    ensures JustReachable(BlockGraph(ops, code), live)
  {
    forall a: BlockId ensures Reachable(BlockGraph(ops, code), a) <==> a in live {
      assert LiveBlock(ops, code, a) <==> a in live;
    }
  }

  method ForwardDominators(proc: Proc)
    requires proc.Shape()
    requires CfgBuilt(proc.prog.ops, proc.prog.code, proc.live, proc.comeFrom)
    modifies proc`dom, proc`idom
    ensures proc.Shape()
    ensures DomBuilt(proc.prog.ops, proc.prog.code, proc.live, proc.dom, proc.idom)
  {
    ghost var g := BlockGraph(proc.prog.ops, proc.prog.code);
    RootReachable(g, 0);
    assert LiveBlock(proc.prog.ops, proc.prog.code, 0);
    LiveIsReachable(proc.prog.ops, proc.prog.code, proc.live);
    ForwardPreds(proc.prog.ops, proc.prog.code, proc.live, proc.comeFrom);
    assert |proc.idom| == |proc.prog.code|;
    Solve(proc, g, proc.live, proc.comeFrom, {0});
    OrderDominators(proc, g);
  }

  /** Everything after the fixpoint. */
  method OrderDominators(proc: Proc, ghost g: Graph<BlockId>)
    requires NoDup(proc.live) && |proc.dom| == |proc.idom| < NoVal
    requires g.roots == iset{0} && 0 in proc.live
    requires forall k :: 0 <= k < |proc.live| ==> proc.live[k] < |proc.dom|
    requires Exact(g, proc.live, proc.dom) && JustReachable(g, proc.live)
    modifies proc`dom, proc`idom
    ensures |proc.dom| == |proc.idom| == |old(proc.dom)|
    ensures Exact(g, proc.live, proc.dom) && Ordered(proc.live, proc.dom)
    ensures IdomsFound(g, proc.live, proc.idom)
  {
    FindIdoms(proc, g);
    Reorder(proc, g);
  }

  method Reorder(proc: Proc, ghost g: Graph<BlockId>)
    requires NoDup(proc.live) && |proc.dom| == |proc.idom|
    requires Exact(g, proc.live, proc.dom) && IdomsFound(g, proc.live, proc.idom)
    requires g.roots == iset{0} && 0 in proc.live
    requires JustReachable(g, proc.live)
    modifies proc`dom
    ensures |proc.dom| == |old(proc.dom)|
    ensures Exact(g, proc.live, proc.dom) && Ordered(proc.live, proc.dom)
  {
    ghost var exact := proc.dom;
    IdomsStepUp(g, proc.live, exact, proc.idom);
    OrderLists(proc);
    SameContents(g, proc.live, exact, proc.dom);
  }

  lemma SameContents(g: Graph<BlockId>, live: seq<BlockId>, exact: DomLists, dom: DomLists)
    requires Exact(g, live, exact) && |dom| == |exact|
    requires forall b :: b in live ==> b < |dom| && NoDup(dom[b])
    requires forall b, d :: b in live && b < |dom| ==> (d in dom[b] <==> d in exact[b])
    ensures Exact(g, live, dom)
  {
  }

  method FindIdoms(proc: Proc, ghost g: Graph<BlockId>)
    requires |proc.idom| == |proc.dom| && Exact(g, proc.live, proc.dom) && NoDup(proc.live)
    requires g.roots == iset{0} && 0 in proc.live
    requires JustReachable(g, proc.live)
    requires forall k :: 0 <= k < |proc.live| ==> proc.live[k] < |proc.dom|
    requires |proc.dom| < NoVal
    modifies proc`idom
    ensures |proc.idom| == |proc.dom| && IdomsFound(g, proc.live, proc.idom)
  {
    ghost var live, exact := proc.live, proc.dom;
    for i := 0 to |proc.live|
      invariant |proc.idom| == |exact|
      invariant forall b {:trigger proc.idom[b]} :: b in live[..i] && b != 0 ==> proc.idom[b] in live && Immediate(g, proc.idom[b], b)
    {
      var b := proc.live[i];
      assert b in live && b !in live[..i] && live[..i + 1] == live[..i] + [b];
      assert forall d :: d in exact[b] ==> d in live && d < |exact|;
      var d := FindImmediate(proc.dom, b, 0);
      proc.idom := proc.idom[b := d];
      assert Reachable(g, b);
      FoundIsImmediate(g, live, exact, b, d, 0);
      if b != 0 {
        EntryDominates(g, b);
        DomReachable(g, d, b);
      }
    }
    assert live[..|live|] == live;
  }

  /** c is the ordered form of b's list. */
  ghost predicate Listed(live: seq<BlockId>, exact: DomLists, idom: seq<BlockId>, b: BlockId, c: seq<BlockId>) {
    b < |exact| && 0 < |c| == |exact[b]| && IsChain(live, exact, idom, c) && c[|c| - 1] == b
  }

  method OrderLists(proc: Proc)
    requires |proc.idom| == |proc.dom| && NoDup(proc.live)
    requires StepsUp(proc.live, proc.dom, proc.idom)
    modifies proc`dom
    ensures |proc.dom| == |old(proc.dom)| && Ordered(proc.live, proc.dom)
    ensures forall b :: b in proc.live ==> NoDup(proc.dom[b])
    ensures forall b, d :: b in proc.live ==> (d in proc.dom[b] <==> d in old(proc.dom)[b])
  {
    ghost var live, exact := proc.live, proc.dom;
    for i := 0 to |proc.live|
      invariant |proc.dom| == |exact|
      invariant forall b :: b in live && b !in live[..i] ==> proc.dom[b] == exact[b]
      invariant forall b :: b in live && b in live[..i] ==> Listed(live, exact, proc.idom, b, proc.dom[b])
    {
      var b := proc.live[i];
      assert b in live && b !in live[..i] && live[..i + 1] == live[..i] + [b];
      var c := FillChain(live, exact, proc.idom, b, |proc.dom[b]|);
      proc.dom := proc.dom[b := c];
    }
    assert live[..|live|] == live;
    ChainsAreOrdered(live, exact, proc.idom, proc.dom);
    forall b | b in live ensures NoDup(proc.dom[b]) && forall d :: d in proc.dom[b] <==> d in exact[b] {
      ChainIsList(live, exact, proc.idom, b, proc.dom[b]);
    }
  }

  lemma EntryDominates(g: Graph<BlockId>, b: BlockId)
    requires g.roots == iset{0}
    ensures Dominates(g, 0, b)
  {
  }

  /** rebuild_dom: on return every dominator list is exact and ordered, every immediate
      dominator and post-dominator is the true one. */
  method RebuildDom(proc: Proc)
    requires proc.Shape() && CfgOk(proc.prog.ops, proc.prog.code)
    requires forall b :: 0 <= b < |proc.liveFlag| && proc.liveFlag[b] ==> b in proc.live
    requires forall b :: b in proc.live ==> b < |proc.prog.code|
    modifies proc`live, proc`liveFlag, proc`comeFrom, proc`prog, proc`dom, proc`idom, proc`pdom
    ensures proc.Shape()
    ensures proc.prog.ops == old(proc.prog.ops) && proc.prog.code == old(proc.prog.code)
    ensures CfgBuilt(proc.prog.ops, proc.prog.code, proc.live, proc.comeFrom)
    ensures CountedBy(proc.prog.ops, proc.prog.code, proc.live, proc.comeFrom, proc.live)
    ensures DomBuilt(proc.prog.ops, proc.prog.code, proc.live, proc.dom, proc.idom)
    ensures PostImmediate(ExitGraph(proc.prog.ops, proc.prog.code, proc.live), proc.live, proc.pdom)
  {
    RebuildCfg(proc);
    PostDominators(proc);
    ForwardDominators(proc);
  }

  // ---- the search in csePair (src/opt-cse.cpp) ------------------------------------------

  ghost predicate LongestCommon(p: seq<BlockId>, q: seq<BlockId>, i: nat) {
    i <= |p| && i <= |q| && p[..i] == q[..i] && (i < |p| && i < |q| ==> p[i] != q[i])
  }

  /** A dominator of both blocks lies within the longest common prefix of their lists. */
  lemma CommonDominatorInPrefix(g: Graph<BlockId>, live: seq<BlockId>, dom: seq<seq<BlockId>>,
                                b0: BlockId, b1: BlockId, i: nat, d: BlockId)
    requires Exact(g, live, dom) && Ordered(live, dom) && b0 in live && b1 in live && d in live
    requires LongestCommon(dom[b0], dom[b1], i)
    requires Dominates(g, d, b0) && Dominates(g, d, b1)
    ensures d in dom[b0][..i]
  {
    PrefixOf(g, live, dom, d, b0);
    PrefixOf(g, live, dom, d, b1);
    PrefixInCommon(dom[b0], dom[b1], i, dom[d]);
    assert dom[b0][..i][|dom[d]| - 1] == d;
  }

  lemma PrefixOf(g: Graph<BlockId>, live: seq<BlockId>, dom: seq<seq<BlockId>>, d: BlockId, b: BlockId)
    requires Exact(g, live, dom) && Ordered(live, dom) && b in live && d in live && Dominates(g, d, b)
    ensures dom[d] <= dom[b] && dom[d][|dom[d]| - 1] == d
  {
    var i :| 0 <= i < |dom[b]| && dom[b][i] == d;
    assert ChainAt(live, dom, b, i);
  }

  lemma PrefixInCommon(p: seq<BlockId>, q: seq<BlockId>, i: nat, e: seq<BlockId>)
    requires LongestCommon(p, q, i) && e <= p && e <= q
    ensures e <= p[..i]
  {
    assert forall j :: 0 <= j < |e| ==> p[j] == q[j];
  }

  lemma PrefixIsNearest(g: Graph<BlockId>, live: seq<BlockId>, dom: seq<seq<BlockId>>,
                        b0: BlockId, b1: BlockId, i: nat)
    requires Exact(g, live, dom) && Ordered(live, dom) && b0 in live && b1 in live
    requires g.roots == iset{0} && 0 in live
    requires LongestCommon(dom[b0], dom[b1], i)
    ensures i > 0 && Dominates(g, dom[b0][i - 1], b0) && Dominates(g, dom[b0][i - 1], b1)
    ensures forall d: nat :: d in live && Dominates(g, d, b0) && Dominates(g, d, b1) ==> Dominates(g, d, dom[b0][i - 1])
  {
    EntryDominates(g, b0);
    EntryDominates(g, b1);
    CommonDominatorInPrefix(g, live, dom, b0, b1, i, 0);
    var ccd := dom[b0][i - 1];
    assert ccd == dom[b0][..i][i - 1] == dom[b1][..i][i - 1];
    assert ccd in dom[b0] && ccd in dom[b1];
    assert ChainAt(live, dom, b0, i - 1);
    forall d: nat | d in live && Dominates(g, d, b0) && Dominates(g, d, b1) ensures Dominates(g, d, ccd) {
      CommonDominatorInPrefix(g, live, dom, b0, b1, i, d);
      assert d in dom[ccd];
    }
  }

  /** The nearest common dominator: the last element of the longest common prefix. Whatever
      dominates both blocks, such as the definitions of shared operands, dominates it. */
  method ClosestCommonDominator(live: seq<BlockId>, dom: seq<seq<BlockId>>, b0: BlockId, b1: BlockId,
                                ghost g: Graph<BlockId>) returns (ccd: BlockId)
    requires Exact(g, live, dom) && Ordered(live, dom) && b0 in live && b1 in live
    requires g.roots == iset{0} && 0 in live
    ensures Dominates(g, ccd, b0) && Dominates(g, ccd, b1)
    ensures forall d: nat :: d in live && Dominates(g, d, b0) && Dominates(g, d, b1) ==> Dominates(g, d, ccd)
  {
    ghost var i;
    ccd, i := LastCommon(dom[b0], dom[b1]);
    PrefixIsNearest(g, live, dom, b0, b1, i);
  }

  method LastCommon(p: seq<BlockId>, q: seq<BlockId>) returns (ccd: BlockId, ghost n: nat)
    ensures LongestCommon(p, q, n) && ccd == if n == 0 then 0 else p[n - 1]
  {
    ccd := 0;
    var iMax := if |p| <= |q| then |p| else |q|;
    var i := 0;
    while i < iMax
      invariant i <= iMax && p[..i] == q[..i]
      invariant ccd == if i == 0 then 0 else p[i - 1]
    {
      if p[i] == q[i] {
        ccd := p[i];
      } else {
        break;
      }
      assert p[..i + 1] == p[..i] + [p[i]] && q[..i + 1] == q[..i] + [q[i]];
      i := i + 1;
    }
    n := i;
  }
}
