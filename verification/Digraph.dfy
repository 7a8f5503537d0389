/** Paths and dominance in a rooted directed graph.

    The same theory is used at three levels: blocks reached forwards from the entry, blocks
    reached backwards from the exits (post-dominance), and single program points. */
module Digraph {

  datatype Graph<!T(!new)> = Graph(roots: iset<T>, edges: iset<(T, T)>)

  /** A non-empty walk along edges. */
  ghost predicate IsPath<T(!new)>(g: Graph<T>, p: seq<T>) {
    |p| > 0 && forall i :: 0 <= i < |p| - 1 ==> (p[i], p[i + 1]) in g.edges
  }

  /** A walk that starts at a root. */
  ghost predicate IsRun<T(!new)>(g: Graph<T>, p: seq<T>) {
    IsPath(g, p) && p[0] in g.roots
  }

  ghost predicate RunTo<T(!new)>(g: Graph<T>, p: seq<T>, z: T) {
    IsRun(g, p) && p[|p| - 1] == z
  }

  ghost predicate Reachable<T(!new)>(g: Graph<T>, z: T) {
    exists p :: RunTo(g, p, z)
  }

  /** d is on every run to z. */
  ghost predicate Dominates<T(!new)>(g: Graph<T>, d: T, z: T) {
    forall p :: RunTo(g, p, z) ==> d in p
  }

  lemma RunPrefix<T(!new)>(g: Graph<T>, p: seq<T>, i: nat)
    requires IsRun(g, p) && i < |p|
    ensures RunTo(g, p[..i + 1], p[i])
  {
  }

  lemma RunExtend<T(!new)>(g: Graph<T>, p: seq<T>, a: T, b: T)
    requires RunTo(g, p, a) && (a, b) in g.edges
    ensures RunTo(g, p + [b], b)
  {
  }

  lemma ReachableStep<T(!new)>(g: Graph<T>, a: T, b: T)
    requires Reachable(g, a) && (a, b) in g.edges
    ensures Reachable(g, b)
  {
    var p :| RunTo(g, p, a);
    RunExtend(g, p, a, b);
  }

  lemma RootReachable<T(!new)>(g: Graph<T>, r: T)
    requires r in g.roots
    ensures Reachable(g, r)
  {
    assert RunTo(g, [r], r);
  }

  /** The index of the first occurrence. */
  ghost function First<T>(p: seq<T>, x: T): (i: nat)
    requires x in p
    ensures i < |p| && p[i] == x && x !in p[..i]
  {
    if p[0] == x then 0 else First(p[1..], x) + 1
  }

  /** The index of the last occurrence. */
  ghost function Last<T>(p: seq<T>, x: T): (i: nat)
    requires x in p
    ensures i < |p| && p[i] == x && x !in p[i + 1..]
  {
    if p[|p| - 1] == x then |p| - 1 else
      var i := Last(p[..|p| - 1], x);
      assert p[i + 1..] == p[..|p| - 1][i + 1..] + [p[|p| - 1]];
      i
  }

  /** A run can be cut at its first visit to z. */
  lemma FirstVisit<T(!new)>(g: Graph<T>, p: seq<T>, z: T) returns (q: seq<T>)
    requires IsRun(g, p) && z in p
    ensures RunTo(g, q, z) && z !in q[..|q| - 1]
    ensures |q| <= |p| && q == p[..|q|]
  {
    var i := First(p, z);
    q := p[..i + 1];
    RunPrefix(g, p, i);
    assert q[..|q| - 1] == p[..i];
  }

  lemma DomTransitive<T(!new)>(g: Graph<T>, a: T, b: T, c: T)
    requires Dominates(g, a, b) && Dominates(g, b, c)
    ensures Dominates(g, a, c)
  {
    forall p | RunTo(g, p, c) ensures a in p {
      var i := First(p, b);
      RunPrefix(g, p, i);
      assert a in p[..i + 1];
    }
  }

  lemma DomAntisymmetric<T(!new)>(g: Graph<T>, a: T, b: T)
    requires Reachable(g, a)
    requires Dominates(g, a, b) && Dominates(g, b, a)
    ensures a == b
  {
    var p :| RunTo(g, p, a);
    var q := FirstVisit(g, p, a);
    if a != b {
      assert b in q;
      var j := First(q, b);
      RunPrefix(g, q, j);
      assert false;
    }
  }

  /** A strict dominator of the head of an edge already dominates its tail. */
  lemma DomThroughEdge<T(!new)>(g: Graph<T>, d: T, a: T, b: T)
    requires (a, b) in g.edges && Dominates(g, d, b) && d != b
    ensures Dominates(g, d, a)
  {
    forall p | RunTo(g, p, a) ensures d in p {
      RunExtend(g, p, a, b);
    }
  }

  /** Strict dominators of a non-root are exactly what dominates all predecessors. */
  lemma DomFromPreds<T(!new)>(g: Graph<T>, d: T, b: T)
    requires b !in g.roots
    requires forall a :: (a, b) in g.edges && Reachable(g, a) ==> Dominates(g, d, a)
    ensures Dominates(g, d, b)
  {
    forall p | RunTo(g, p, b) ensures d in p {
      var n := |p|;
      assert n > 1;
      RunPrefix(g, p, n - 2);
      var a := p[n - 2];
      assert (p[n - 2], p[n - 2 + 1]) in g.edges;
      assert d in p[..n - 1];
    }
  }

  lemma DomReachable<T(!new)>(g: Graph<T>, d: T, b: T)
    requires Reachable(g, b) && Dominates(g, d, b)
    ensures Reachable(g, d)
  {
    var p :| RunTo(g, p, b);
    RunPrefix(g, p, First(p, d));
  }

  lemma PathSuffix<T(!new)>(g: Graph<T>, p: seq<T>, i: nat)
    requires IsPath(g, p) && i < |p|
    ensures IsPath(g, p[i..])
  {
    var s := p[i..];
    forall k | 0 <= k < |s| - 1 ensures (s[k], s[k + 1]) in g.edges {
      assert (p[i + k], p[i + k + 1]) in g.edges;
    }
  }

  lemma PathJoin<T(!new)>(g: Graph<T>, s: seq<T>, q: seq<T>)
    requires IsPath(g, s) && IsPath(g, q) && s[|s| - 1] == q[0]
    ensures IsPath(g, s + q[1..])
  {
    var r := s + q[1..];
    forall k | 0 <= k < |r| - 1 ensures (r[k], r[k + 1]) in g.edges {
      if k >= |s| - 1 {
        var m := k - (|s| - 1);
        assert (q[m], q[m + 1]) in g.edges;
      }
    }
  }

  /** Join two runs that meet: follow q to x, then p from its position i where p[i] == x. */
  lemma Splice<T(!new)>(g: Graph<T>, q: seq<T>, p: seq<T>, i: nat)
    requires IsRun(g, q) && IsPath(g, p) && i < |p| && q[|q| - 1] == p[i]
    ensures RunTo(g, q + p[i + 1..], p[|p| - 1])
  {
    var r := q + p[i + 1..];
    forall k | 0 <= k < |r| - 1 ensures (r[k], r[k + 1]) in g.edges {
      if k < |q| - 1 {
      } else {
        var m := i + (k - (|q| - 1));
        assert r[k] == p[m] && r[k + 1] == p[m + 1];
      }
    }
  }

  /** The dominators of a reachable node are totally ordered by dominance. */
  lemma DomChain<T(!new)>(g: Graph<T>, a: T, b: T, z: T)
    requires Reachable(g, z) && Dominates(g, a, z) && Dominates(g, b, z)
    ensures Dominates(g, a, b) || Dominates(g, b, a)
  {
    if a != b && !Dominates(g, a, b) && !Dominates(g, b, a) {
      var p :| RunTo(g, p, z);
      if Last(p, a) < Last(p, b) {
        DomChainStep(g, a, b, z, p);
      } else {
        DomChainStep(g, b, a, z, p);
      }
    }
  }

  lemma DomChainStep<T(!new)>(g: Graph<T>, a: T, b: T, z: T, p: seq<T>)
    requires RunTo(g, p, z) && Dominates(g, a, z)
    requires a in p && b in p && Last(p, a) < Last(p, b)
    ensures Dominates(g, a, b)
  {
    forall q | RunTo(g, q, b) ensures a in q {
      var j := Last(p, b);
      Splice(g, q, p, j);
      assert a !in p[j + 1..];
    }
  }

  /** A run to x that avoids y goes on along a path that avoids y. */
  lemma AvoidingRun<T(!new)>(g: Graph<T>, x: T, y: T, q: seq<T>, p: seq<T>, j: nat)
    requires RunTo(g, q, x) && y !in q && IsPath(g, p) && j < |p| && p[j] == x && y !in p[j + 1..]
    ensures !Dominates(g, y, p[|p| - 1])
  {
    Splice(g, q, p, j);
    assert y !in q + p[j + 1..];
  }

  /** After the last visit to y on a run to a node that y dominates, nothing that strictly
      dominates y is visited again. */
  lemma NoReentry<T(!new)>(g: Graph<T>, x: T, y: T, p: seq<T>, i: nat)
    requires IsRun(g, p) && i < |p| && p[i] == y && y !in p[i + 1..]
    requires Dominates(g, x, y) && Dominates(g, y, p[|p| - 1]) && x != y
    ensures x !in p[i + 1..]
  {
    if x in p[i + 1..] {
      var j :| i < j < |p| && p[j] == x;
      RunPrefix(g, p, i);
      var q := FirstVisit(g, p[..i + 1], y);
      var k := First(q, x);
      assert k < |q| - 1;
      RunPrefix(g, q, k);
      assert y !in q[..k + 1] by {
        assert q[..k + 1] == q[..|q| - 1][..k + 1];
      }
      assert p[j + 1..] == p[i + 1..][j - i..];
      AvoidingRun(g, x, y, q[..k + 1], p, j);
      assert false;
    }
  }
}
