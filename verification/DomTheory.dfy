/** What the dominator lists of src/opt-dom.cpp mean, independent of how they are computed. */
module DomTheory {
  import opened Digraph
  import opened Lists

  type DomLists = seq<seq<nat>>

  /** Each list holds exactly the listed nodes that lie on every run to its node. */
  ghost predicate Exact(g: Graph<nat>, live: seq<nat>, dom: DomLists) {
    forall b :: b in live ==>
      b < |dom| && NoDup(dom[b]) && forall d: nat :: d in dom[b] <==> d in live && Dominates(g, d, b)
  }

  ghost predicate AllListed(g: Graph<nat>, live: seq<nat>) {
    forall a: nat {:trigger Reachable(g, a)} :: Reachable(g, a) ==> a in live
  }

  ghost predicate JustReachable(g: Graph<nat>, live: seq<nat>) {
    forall a: nat {:trigger Reachable(g, a)} :: Reachable(g, a) <==> a in live
  }

  /** i is the dominator of b closest to it. */
  ghost predicate Immediate(g: Graph<nat>, i: nat, b: nat) {
    i != b && Dominates(g, i, b) && forall d: nat :: d != b && Dominates(g, d, b) ==> Dominates(g, d, i)
  }

  // ---- the fixpoint -------------------------------------------------------------------

  ghost predicate Meets(g: Graph<nat>, live: seq<nat>, dom: DomLists, b: nat, d: nat)
    requires forall a :: a in live ==> a < |dom|
  {
    d == b || forall a :: a in live && (a, b) in g.edges ==> d in dom[a]
  }

  /** Nothing is listed for b beyond what all its predecessors list. */
  ghost predicate Settled(g: Graph<nat>, live: seq<nat>, dom: DomLists, b: nat)
    requires b in live && forall a :: a in live ==> a < |dom|
  {
    b !in g.roots ==> forall d :: d in dom[b] ==> Meets(g, live, dom, b, d)
  }

  /** What every assignment of the iteration keeps: the lists never lose a dominator, and
      recomputing any of them can only shrink it. */
  ghost predicate Above(g: Graph<nat>, live: seq<nat>, dom: DomLists) {
    && (forall b :: b in live ==>
          && b < |dom| && NoDup(dom[b])
          && (forall d :: d in dom[b] ==> d in live)
          && (b in g.roots ==> dom[b] == [b]))
    && (forall b, d :: b in live && d in live && Dominates(g, d, b) ==> d in dom[b])
    && (forall b, d :: b in live && b !in g.roots && d in live && Meets(g, live, dom, b, d) ==> d in dom[b])
  }

  /** The recomputed list of b. */
  ghost predicate IsMeet(g: Graph<nat>, live: seq<nat>, dom: DomLists, b: nat, t: seq<nat>)
    requires forall a :: a in live ==> a < |dom|
  {
    NoDup(t) && forall d: nat :: d in t <==> d in live && Meets(g, live, dom, b, d)
  }

  lemma StartsAbove(g: Graph<nat>, live: seq<nat>, dom: DomLists)
    requires NoDup(live)
    requires forall b :: b in live ==> b < |dom| && dom[b] == if b in g.roots then [b] else live
    ensures Above(g, live, dom)
  {
    forall b, d | b in live && d in live && Dominates(g, d, b) ensures d in dom[b] {
      if b in g.roots {
        assert RunTo(g, [b], b);
      }
    }
  }

  lemma MeetShrinks(g: Graph<nat>, live: seq<nat>, dom: DomLists, b: nat, t: seq<nat>)
    requires Above(g, live, dom) && b in live && b !in g.roots
    requires IsMeet(g, live, dom, b, t)
    ensures |t| <= |dom[b]|
    ensures |t| == |dom[b]| ==> forall d :: d in t <==> d in dom[b]
  {
    forall d | d in t ensures d in dom[b] {
      assert Meets(g, live, dom, b, d);
    }
    SubListSize(t, dom[b]);
  }

  lemma MeetKeepsAbove(g: Graph<nat>, live: seq<nat>, dom: DomLists, b: nat, t: seq<nat>)
    requires Above(g, live, dom) && b in live && b !in g.roots
    requires IsMeet(g, live, dom, b, t)
    ensures Above(g, live, dom[b := t])
  {
    var next := dom[b := t];
    forall c, d | c in live && d in live && Dominates(g, d, c) ensures d in next[c] {
      if c == b && d != b {
        forall a | a in live && (a, b) in g.edges ensures d in dom[a] {
          DomThroughEdge(g, d, a, b);
        }
        assert Meets(g, live, dom, b, d);
      }
    }
    forall d | d in t ensures d in dom[b] {
      assert Meets(g, live, dom, b, d);
    }
    forall c, d | c in live && c !in g.roots && d in live && Meets(g, live, next, c, d)
      ensures d in next[c]
    {
      assert Meets(g, live, dom, c, d);
    }
  }

  /** An update that changes no size changes no contents, so everything settled stays settled
      and the updated block is settled as well. */
  lemma QuietMeet(g: Graph<nat>, live: seq<nat>, dom: DomLists, b: nat, t: seq<nat>, done: seq<nat>)
    requires Above(g, live, dom) && b in live && b !in g.roots
    requires IsMeet(g, live, dom, b, t) && |t| == |dom[b]|
    requires forall c :: c in done ==> c in live && Settled(g, live, dom, c)
    ensures forall c :: c in done + [b] ==> Settled(g, live, dom[b := t], c)
  {
    MeetShrinks(g, live, dom, b, t);
    var next := dom[b := t];
    assert forall a, d :: a in live ==> (d in next[a] <==> d in dom[a]);
    forall c | c in done + [b] ensures Settled(g, live, next, c) {
      if c !in g.roots {
        forall d | d in next[c] ensures Meets(g, live, next, c, d) {
          assert Meets(g, live, dom, c, d);
        }
      }
    }
  }

  /** Whatever a settled system lists lies on every run. */
  lemma {:induction false} SettledIsSound(g: Graph<nat>, live: seq<nat>, dom: DomLists, p: seq<nat>, d: nat)
    requires Above(g, live, dom) && forall b :: b in live ==> Settled(g, live, dom, b)
    requires AllListed(g, live)
    requires IsRun(g, p) && p[|p| - 1] in live && d in dom[p[|p| - 1]]
    ensures d in p
    decreases |p|
  {
    var n := |p| - 1;
    var b := p[n];
    if b in g.roots {
    } else if d != b {
      assert Settled(g, live, dom, b) && Meets(g, live, dom, b, d);
      RunPrefix(g, p, n - 1);
      assert (p[n - 1], p[n - 1 + 1]) in g.edges;
      assert Reachable(g, p[n - 1]);
      SettledIsSound(g, live, dom, p[..n], d);
    }
  }

  /** The iteration can only stop at the exact answer. */
  lemma SettledIsExact(g: Graph<nat>, live: seq<nat>, dom: DomLists)
    requires Above(g, live, dom) && forall b :: b in live ==> Settled(g, live, dom, b)
    requires AllListed(g, live)
    ensures Exact(g, live, dom)
  {
    forall b, d: nat | b in live && d in dom[b] ensures Dominates(g, d, b) {
      forall p | RunTo(g, p, b) ensures d in p {
        SettledIsSound(g, live, dom, p, d);
      }
    }
  }

  // ---- immediate dominators -----------------------------------------------------------

  lemma DominatorSubset(g: Graph<nat>, live: seq<nat>, dom: DomLists, d: nat, b: nat)
    requires Exact(g, live, dom) && b in live && d in dom[b]
    ensures forall e :: e in dom[d] ==> e in dom[b]
  {
    forall e | e in dom[d] ensures e in dom[b] {
      DomTransitive(g, e, d, b);
    }
  }

  /** The immediate dominator is the dominator with exactly one dominator less. */
  lemma OneLessIsImmediate(g: Graph<nat>, live: seq<nat>, dom: DomLists, d: nat, b: nat)
    requires Exact(g, live, dom) && b in live && Reachable(g, b) && d in dom[b]
    requires AllListed(g, live)
    ensures |dom[d]| == |dom[b]| - 1 <==> Immediate(g, d, b)
  {
    NoDupSize(dom[d]);
    NoDupSize(dom[b]);
    DominatorSubset(g, live, dom, d, b);
    var D, B := SetOf(dom[d]), SetOf(dom[b]);
    assert D <= B && b in B;
    if d != b {
      if b in D {
        DomAntisymmetric(g, b, d);
        assert false;
      }
      SubsetSize(D, B - {b});
    }
    if |D| == |B| - 1 {
      forall e: nat | e != b && Dominates(g, e, b) ensures Dominates(g, e, d) {
        DomReachable(g, e, b);
        assert e in B - {b};
      }
    }
    if Immediate(g, d, b) {
      forall e | e in B - {b} ensures e in D {
      }
      assert D == B - {b};
    }
  }

  /** Among the strict dominators of b in s, one is dominated by all the others. */
  lemma {:induction false} ClosestIn(g: Graph<nat>, b: nat, s: seq<nat>) returns (m: nat)
    requires Reachable(g, b) && s != [] && forall d :: d in s ==> Dominates(g, d, b)
    ensures m in s && forall d :: d in s ==> Dominates(g, d, m)
  {
    var x := s[|s| - 1];
    var t := s[..|s| - 1];
    if t == [] {
      m := x;
    } else {
      m := ClosestIn(g, b, t);
      DomChain(g, m, x, b);
      if Dominates(g, m, x) {
        forall d | d in s ensures Dominates(g, d, x) {
          if d in t { DomTransitive(g, d, m, x); }
        }
        m := x;
      }
    }
  }

  ghost function Without(s: seq<nat>, b: nat): (r: seq<nat>)
    ensures forall d :: d in r <==> d in s && d != b
  {
    if s == [] then [] else
      var r := Without(s[..|s| - 1], b);
      if s[|s| - 1] == b then r else r + [s[|s| - 1]]
  }

  /** A reachable node with any strict dominator has an immediate one, and only one. */
  lemma ImmediateExists(g: Graph<nat>, live: seq<nat>, dom: DomLists, b: nat) returns (i: nat)
    requires Exact(g, live, dom) && b in live && Reachable(g, b)
    requires AllListed(g, live)
    requires exists d :: d in dom[b] && d != b
    ensures i in dom[b] && Immediate(g, i, b)
    ensures forall j: nat :: Immediate(g, j, b) ==> j == i
  {
    var s := Without(dom[b], b);
    var d0 :| d0 in dom[b] && d0 != b;
    assert d0 in s;
    i := ClosestIn(g, b, s);
    forall d: nat | d != b && Dominates(g, d, b) ensures Dominates(g, d, i) {
      DomReachable(g, d, b);
      assert d in s;
    }
    forall j: nat | Immediate(g, j, b) ensures j == i {
      DomReachable(g, j, b);
      DomAntisymmetric(g, j, i);
    }
  }

  // ---- ordered lists ------------------------------------------------------------------

  /** Every list ends in its own node, and cutting it after any dominator leaves that
      dominator's own list: the lists spell out the dominator tree from the entry. */
  ghost predicate Ordered(live: seq<nat>, dom: DomLists) {
    && (forall b :: b in live ==> b < |dom| && dom[b] != [] && dom[b][|dom[b]| - 1] == b)
    && (forall b: nat, i: nat :: b in live && b < |dom| && i < |dom[b]| ==> ChainAt(live, dom, b, i))
  }

  /** Up to index i, the list of b is the list of its i-th dominator. */
  ghost predicate ChainAt(live: seq<nat>, dom: DomLists, b: nat, i: nat)
    requires b < |dom| && i < |dom[b]|
  {
    dom[b][i] in live && dom[b][i] < |dom| && dom[b][..i + 1] == dom[dom[b][i]]
  }

  /** Dominance is one array lookup in the ordered lists. */
  lemma LookupDecidesDominance(g: Graph<nat>, live: seq<nat>, dom: DomLists, t: nat, b: nat)
    requires Exact(g, live, dom) && Ordered(live, dom) && b in live && t in live
    ensures Dominates(g, t, b) <==> |dom[t]| <= |dom[b]| && dom[b][|dom[t]| - 1] == t
  {
    if Dominates(g, t, b) {
      var i :| 0 <= i < |dom[b]| && dom[b][i] == t;
      assert ChainAt(live, dom, b, i);
    }
  }

  /** Two dominators of one node compare by the length of their lists. */
  lemma LengthOrdersChain(g: Graph<nat>, live: seq<nat>, dom: DomLists, c: nat, d: nat, b: nat)
    requires Exact(g, live, dom) && Ordered(live, dom) && b in live
    requires c in dom[b] && d in dom[b]
    ensures |dom[c]| <= |dom[d]| <==> Dominates(g, c, d)
    ensures |dom[c]| == |dom[d]| <==> c == d
  {
    var i :| 0 <= i < |dom[b]| && dom[b][i] == c;
    var j :| 0 <= j < |dom[b]| && dom[b][j] == d;
    assert ChainAt(live, dom, b, i) && ChainAt(live, dom, b, j);
    if i <= j {
      assert dom[d][i] == c;
      assert c in dom[d];
    }
  }
}
