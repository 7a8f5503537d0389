/** The later passes of Proc::findSCC (src/opt-ra.cpp) and breakEdge (src/bjit.h): break
    critical edges, then rename on every edge what is not in the class of its phi. */
module SccEdges {
  import opened Ir
  import opened Lists
  import opened Cfg

  /** What the passes change. */
  datatype Flow = Flow(
    ops: seq<Op>,
    code: seq<seq<OpId>>,
    alts: seq<seq<PhiAlt>>,
    comeFrom: seq<seq<BlockId>>,
    live: seq<BlockId>)

  function Targets(f: Flow, b: BlockId): seq<BlockId> { Succ(f.ops, f.code, b) }

  /** Listed blocks end in jumps to listed blocks or in exits, the two labels of a conditional
      jump differ, and comeFrom lists every predecessor once. */
  ghost predicate FlowOk(f: Flow) {
    && |f.code| == |f.alts| == |f.comeFrom| && NoDup(f.live)
    && (forall b :: b in f.live ==> EndsPlaced(f, b))
    && (forall b :: b in f.live ==> b < |f.comeFrom| && FedExactly(f, b))
  }

  /** The last op of b occurs nowhere else, and a conditional one has two targets. */
  ghost predicate JumpPlaced(f: Flow, b: BlockId)
    requires EndsOk(f.ops, f.code, b)
  {
    var c := f.code[b][|f.code[b]| - 1];
    && f.ops[c].block == b
    && (f.ops[c].opcode.Cond? ==> f.ops[c].label0 != f.ops[c].label1)
  }

  /** An edge is critical if its source has other targets and its target other sources. */
  ghost predicate Critical(f: Flow, a: BlockId, t: BlockId) {
    && a in f.live && t in Targets(f, a)
    && (exists u :: u in Targets(f, a) && u != t)
    && (exists c :: c in f.live && c != a && t in Targets(f, c))
  }

  // ---- breakEdge ------------------------------------------------------------------------

  function Replaced(s: seq<BlockId>, from: BlockId, via: BlockId): (r: seq<BlockId>)
    ensures |r| == |s| && forall k :: 0 <= k < |s| ==> r[k] == if s[k] == from then via else s[k]
  {
    seq(|s|, k requires 0 <= k < |s| => if s[k] == from then via else s[k])
  }

  function Resourced(alts: seq<PhiAlt>, from: BlockId, via: BlockId): (r: seq<PhiAlt>)
    ensures |r| == |alts|
    ensures forall k :: 0 <= k < |alts| ==> r[k] == if alts[k].src == from then alts[k].(src := via) else alts[k]
  {
    seq(|alts|, k requires 0 <= k < |alts| => if alts[k].src == from then alts[k].(src := via) else alts[k])
  }

  /** A new block that jumps to `to`; it takes over the edge from `from` in the target's
      predecessors and alternatives, but the jump of `from` is not changed here. */
  function BreakEdge(f: Flow, from: BlockId, to: BlockId): Flow
    requires to < |f.comeFrom| && to < |f.alts|
  {
    var b, j := |f.code|, |f.ops|;
    Flow(f.ops + [Op(Jmp, [], 0, to, NoVal, b, 0, 0)],
         f.code + [[j]],
         f.alts[to := Resourced(f.alts[to], from, b)] + [[]],
         f.comeFrom[to := Replaced(f.comeFrom[to], from, b)] + [[from]],
         f.live + [b])
  }

  /** The op that ends b, or one past all ops. */
  function Last(f: Flow, b: BlockId): OpId {
    if b < |f.code| && f.code[b] != [] then f.code[b][|f.code[b]| - 1] else |f.ops|
  }

  function Label(op: Op, k: nat): BlockId { if k == 0 then op.label0 else op.label1 }

  /** The k-th label of b's jump is given and has several predecessors. */
  predicate CanSplit(f: Flow, b: BlockId, k: nat) {
    && Last(f, b) < |f.ops| && |f.alts| == |f.comeFrom|
    && Label(f.ops[Last(f, b)], k) < |f.comeFrom| && |f.comeFrom[Label(f.ops[Last(f, b)], k)]| >= 2
  }

  /** One edge of a conditional jump, broken if its target has another predecessor. */
  function Split(f: Flow, b: BlockId, k: nat): Flow {
    if CanSplit(f, b, k) then
      var c, n := Last(f, b), |f.code|;
      var g := BreakEdge(f, b, Label(f.ops[c], k));
      g.(ops := g.ops[c := if k == 0 then g.ops[c].(label0 := n) else g.ops[c].(label1 := n)])
    else f
  }

  // ---- what a split keeps -----------------------------------------------------------------

  ghost predicate Conditional(f: Flow, b: BlockId) {
    b in f.live && EndsOk(f.ops, f.code, b) && f.ops[Last(f, b)].opcode.Cond?
  }

  /** b ends in a conditional jump whose k-th target is `to`; the edge has to be broken. */
  ghost predicate Splitting(f: Flow, b: BlockId, k: nat, to: BlockId) {
    && FlowOk(f) && Conditional(f, b) && CanSplit(f, b, k) && k < 2
    && to == Label(f.ops[Last(f, b)], k) && to in f.live
    && Targets(f, b) == [f.ops[Last(f, b)].label0, f.ops[Last(f, b)].label1]
    && f.ops[Last(f, b)].label0 != f.ops[Last(f, b)].label1
    && |f.code| !in f.live && b < |f.code| && f.ops[Last(f, b)].block == b
  }

  lemma IsSplitting(f: Flow, b: BlockId, k: nat)
    requires FlowOk(f) && Conditional(f, b) && CanSplit(f, b, k) && k < 2
    ensures Splitting(f, b, k, Label(f.ops[Last(f, b)], k))
  {
    assert JumpPlaced(f, b);
    assert Label(f.ops[Last(f, b)], k) in Targets(f, b);
    forall a | a in f.live ensures a < |f.code| {
      assert EndsOk(f.ops, f.code, a);
    }
  }

  lemma SplitTargets(f: Flow, b: BlockId, k: nat, to: BlockId)
    requires Splitting(f, b, k, to)
    ensures var g := Split(f, b, k);
            && (forall a :: a in f.live && a != b ==> Targets(g, a) == Targets(f, a))
            && Targets(g, |f.code|) == [to]
            && Targets(g, b) == if k == 0 then [|f.code|, Targets(f, b)[1]] else [Targets(f, b)[0], |f.code|]
  {
    var g := Split(f, b, k);
    forall a | a in f.live && a != b ensures Targets(g, a) == Targets(f, a) {
      OtherJump(f, b, k, to, a);
    }
  }

  lemma OtherJump(f: Flow, b: BlockId, k: nat, to: BlockId, a: BlockId)
    requires Splitting(f, b, k, to) && a in f.live && a != b
    ensures a < |f.code| && Last(f, a) < |f.ops| && Last(f, a) != Last(f, b)
    ensures var g := Split(f, b, k); g.code[a] == f.code[a] && g.ops[Last(f, a)] == f.ops[Last(f, a)]
  {
    assert EndsOk(f.ops, f.code, a) && JumpPlaced(f, a);
  }

  ghost predicate FedExactly(f: Flow, t: BlockId)
    requires t < |f.comeFrom|
  {
    NoDup(f.comeFrom[t]) && forall a :: a in f.comeFrom[t] <==> a in f.live && t in Targets(f, a)
  }

  lemma SplitComeFrom(f: Flow, b: BlockId, k: nat, to: BlockId, t: BlockId)
    requires Splitting(f, b, k, to) && (t in f.live || t == |f.code|)
    ensures var g := Split(f, b, k); t < |g.comeFrom| && FedExactly(g, t)
  {
    var g, n := Split(f, b, k), |f.code|;
    SplitTargets(f, b, k, to);
    assert forall a :: a in g.live <==> a in f.live || a == n;
    if t in f.live {
      assert EndsOk(f.ops, f.code, t) && FedExactly(f, t);
      if t == to {
        ReplacedOnce(f.comeFrom[to], b, n);
      }
    } else {
      NewFedByOne(f, b, k, to);
    }
  }

  lemma NewFedByOne(f: Flow, b: BlockId, k: nat, to: BlockId)
    requires Splitting(f, b, k, to)
    ensures FedExactly(Split(f, b, k), |f.code|)
  {
    var g, n := Split(f, b, k), |f.code|;
    SplitTargets(f, b, k, to);
    forall a | a in f.live ensures n !in Targets(f, a) {
      assert EndsOk(f.ops, f.code, a);
    }
  }

  lemma ReplacedOnce(s: seq<BlockId>, from: BlockId, via: BlockId)
    requires NoDup(s) && via !in s
    ensures NoDup(Replaced(s, from, via))
    ensures forall a :: a in Replaced(s, from, via) <==> (a in s && a != from) || (a == via && from in s)
  {
    var r := Replaced(s, from, via);
    if from in s {
      var k :| 0 <= k < |s| && s[k] == from;
      assert r[k] == via;
    }
    forall a | a in s && a != from ensures a in r {
      var k :| 0 <= k < |s| && s[k] == a;
      assert r[k] == a;
    }
  }

  ghost predicate EndsPlaced(f: Flow, a: BlockId) {
    && EndsOk(f.ops, f.code, a) && JumpPlaced(f, a)
    && (forall t :: t in Targets(f, a) ==> t in f.live)
    && forall v :: v in f.code[a] ==> v < |f.ops|
  }

  lemma SplitEnds(f: Flow, b: BlockId, k: nat, to: BlockId, a: BlockId)
    requires Splitting(f, b, k, to) && (a in f.live || a == |f.code|)
    ensures EndsPlaced(Split(f, b, k), a)
  {
    var g, n := Split(f, b, k), |f.code|;
    SplitTargets(f, b, k, to);
    if a in f.live {
      assert EndsPlaced(f, a);
      if a != b {
        OtherJump(f, b, k, to, a);
      } else {
        assert g.code[b] == f.code[b] && g.ops[Last(f, b)].opcode.Cond?;
        forall t | t in Targets(g, b) ensures t in g.live && t < |g.code| {
          assert t == n || t in Targets(f, b);
        }
      }
    }
  }

  lemma SplitKeeps(f: Flow, b: BlockId, k: nat)
    requires FlowOk(f) && Conditional(f, b) && k < 2
    ensures FlowOk(Split(f, b, k)) && Conditional(Split(f, b, k), b) && f.live <= Split(f, b, k).live
  {
    var g, n := Split(f, b, k), |f.code|;
    if CanSplit(f, b, k) {
      IsSplitting(f, b, k);
      var to := Label(f.ops[Last(f, b)], k);
      assert forall a :: a in g.live <==> a in f.live || a == n;
      forall a | a in g.live ensures EndsPlaced(g, a) {
        SplitEnds(f, b, k, to, a);
      }
      forall t | t in g.live ensures t < |g.comeFrom| && FedExactly(g, t) {
        SplitComeFrom(f, b, k, to, t);
      }
    }
  }

  // ---- no critical edges --------------------------------------------------------------------

  /** b has one target, or each of its targets has no other predecessor. */
  ghost predicate Uncritical(f: Flow, b: BlockId) {
    |Targets(f, b)| < 2 || forall t :: t in Targets(f, b) ==> t < |f.comeFrom| && |f.comeFrom[t]| < 2
  }

  lemma SplitUncritical(f: Flow, b: BlockId, k: nat, to: BlockId, a: BlockId)
    requires Splitting(f, b, k, to) && a in f.live && a != b && Uncritical(f, a)
    ensures Uncritical(Split(f, b, k), a)
  {
    SplitTargets(f, b, k, to);
    OtherJump(f, b, k, to, a);
  }

  /** After its split the k-th target has one predecessor; the other target is as before. */
  lemma SplitLabel(f: Flow, b: BlockId, k: nat)
    requires FlowOk(f) && Conditional(f, b) && k < 2
    ensures var g := Split(f, b, k);
            && |Targets(f, b)| == |Targets(g, b)| == 2 && Targets(g, b)[1 - k] == Targets(f, b)[1 - k]
            && Targets(g, b)[k] < |g.comeFrom| && |g.comeFrom[Targets(g, b)[k]]| < 2
            && Targets(f, b)[1 - k] < |f.comeFrom| && Targets(f, b)[1 - k] < |g.comeFrom|
            && |g.comeFrom[Targets(f, b)[1 - k]]| == |f.comeFrom[Targets(f, b)[1 - k]]|
  {
    assert EndsPlaced(f, b);
    forall i | 0 <= i < 2 ensures Targets(f, b)[i] < |f.comeFrom| {
      assert Targets(f, b)[i] in Targets(f, b);
    }
    if CanSplit(f, b, k) {
      IsSplitting(f, b, k);
      SplitTargets(f, b, k, Label(f.ops[Last(f, b)], k));
    }
  }

  lemma UncriticalIsNotCritical(f: Flow, a: BlockId, t: BlockId)
    requires FlowOk(f) && a in f.live && Uncritical(f, a)
    ensures !Critical(f, a, t)
  {
  }

  /** Both edges of b. */
  lemma BothSplit(f: Flow, b: BlockId)
    requires FlowOk(f) && Conditional(f, b)
    ensures var g := Split(Split(f, b, 0), b, 1); FlowOk(g) && f.live <= g.live && Uncritical(g, b)
  {
    var h := Split(f, b, 0);
    SplitKeeps(f, b, 0);
    SplitLabel(f, b, 0);
    SplitKeeps(h, b, 1);
    SplitLabel(h, b, 1);
  }

  /** A split adds at most one block, which has one target, and disturbs no other block. */
  lemma SplitOthers(f: Flow, b: BlockId, k: nat, a: BlockId)
    requires FlowOk(f) && Conditional(f, b) && k < 2
    requires a in Split(f, b, k).live && (a !in f.live || (a != b && Uncritical(f, a)))
    ensures Uncritical(Split(f, b, k), a)
  {
    if CanSplit(f, b, k) {
      IsSplitting(f, b, k);
      var to := Label(f.ops[Last(f, b)], k);
      SplitTargets(f, b, k, to);
      if a in f.live {
        SplitUncritical(f, b, k, to, a);
      }
    }
  }

  // ---- what is left alone -------------------------------------------------------------------

  ghost predicate SameButLabels(a: Op, b: Op) {
    a.(label0 := b.label0, label1 := b.label1) == b
  }

  ghost predicate SameButSources(a: seq<PhiAlt>, b: seq<PhiAlt>) {
    |a| == |b| && forall i :: 0 <= i < |a| ==> a[i].phi == b[i].phi && a[i].val == b[i].val
  }

  /** f is f0 with edges broken: new blocks hold new jumps only and have no alternatives, and
      otherwise nothing but labels and the sources of alternatives has changed. */
  ghost predicate Grown(f0: Flow, f: Flow) {
    && |f0.ops| <= |f.ops| && |f0.code| <= |f.code| && |f.alts| == |f.code| && |f0.alts| == |f0.code| == |f0.comeFrom|
    && (forall v :: 0 <= v < |f0.ops| ==> SameButLabels(f0.ops[v], f.ops[v]))
    && (forall v :: |f0.ops| <= v < |f.ops| ==> f.ops[v].opcode == Jmp && f.ops[v].ins == [])
    && f0.code <= f.code
    && (forall b :: |f0.code| <= b < |f.code| ==> f.alts[b] == [])
    && (forall b :: 0 <= b < |f0.alts| ==> SameButSources(f0.alts[b], f.alts[b]))
    && (forall b :: b in f.live ==> b in f0.live || b >= |f0.code|)
  }

  lemma SplitGrows(f0: Flow, f: Flow, b: BlockId, k: nat)
    requires FlowOk(f) && Conditional(f, b) && k < 2 && Grown(f0, f)
    ensures Grown(f0, Split(f, b, k))
  {
    if CanSplit(f, b, k) {
      IsSplitting(f, b, k);
      var g, to := Split(f, b, k), Label(f.ops[Last(f, b)], k);
      forall v | 0 <= v < |f0.ops| ensures SameButLabels(f0.ops[v], g.ops[v]) {
        assert SameButLabels(f0.ops[v], f.ops[v]);
      }
      forall t | 0 <= t < |f0.alts| ensures SameButSources(f0.alts[t], g.alts[t]) {
        assert SameButSources(f0.alts[t], f.alts[t]);
      }
    }
  }

  // ---- where every edge goes ----------------------------------------------------------------

  /** The alternatives of t from x are those that came from a. */
  ghost predicate SourceIs(f0: Flow, f: Flow, t: BlockId, a: BlockId, x: BlockId) {
    && t < |f0.alts| && t < |f.alts| && |f0.alts[t]| == |f.alts[t]|
    && forall i :: 0 <= i < |f.alts[t]| ==> (f.alts[t][i].src == x <==> f0.alts[t][i].src == a)
  }

  ghost predicate SameCount(f0: Flow, f: Flow, a: BlockId, k: nat) {
    a < |f0.code| && |Targets(f0, a)| == |Targets(f, a)| && k < |Targets(f0, a)|
  }

  /** The k-th edge of a is as it was. */
  ghost predicate EdgeSame(f0: Flow, f: Flow, a: BlockId, k: nat) {
    && SameCount(f0, f, a, k) && Targets(f, a)[k] == Targets(f0, a)[k]
    && SourceIs(f0, f, Targets(f0, a)[k], a, a)
  }

  /** It now goes through a new block that holds one jump to where it went. */
  ghost predicate EdgeBroken(f0: Flow, f: Flow, a: BlockId, k: nat) {
    && SameCount(f0, f, a, k)
    && var n := Targets(f, a)[k];
       && |f0.code| <= n < |f.code| && n in f.live && n < |f.comeFrom| && f.comeFrom[n] == [a]
       && |f.code[n]| == 1 && f.code[n][0] >= |f0.ops|
       && Targets(f, n) == [Targets(f0, a)[k]] && SourceIs(f0, f, Targets(f0, a)[k], a, n)
  }

  /** An edge is broken if its source has two targets and its target several predecessors. */
  predicate Breaks(f0: Flow, a: BlockId, k: nat) {
    |Targets(f0, a)| == 2 && k < 2 && Targets(f0, a)[k] < |f0.comeFrom| && |f0.comeFrom[Targets(f0, a)[k]]| >= 2
  }

  /** A new block stands on an edge that was there. */
  ghost predicate Bridge(f0: Flow, f: Flow, n: BlockId) {
    && n in f.live && n < |f.comeFrom| && |f.comeFrom[n]| == 1 && f.comeFrom[n][0] in f0.live
    && exists k: nat :: EdgeBroken(f0, f, f.comeFrom[n][0], k) && Targets(f, f.comeFrom[n][0])[k] == n
  }

  /** The edges in done have been dealt with, the others are as they were. */
  ghost predicate EdgesAre(f0: Flow, f: Flow, done: set<(BlockId, nat)>) {
    && (forall a, k: nat :: a in f0.live && k < |Targets(f0, a)| ==>
          if (a, k) in done && Breaks(f0, a, k) then EdgeBroken(f0, f, a, k) else EdgeSame(f0, f, a, k))
    && (forall n :: |f0.code| <= n < |f.code| ==> Bridge(f0, f, n))
    && |f0.comeFrom| <= |f.comeFrom| && forall t :: 0 <= t < |f0.comeFrom| ==> |f.comeFrom[t]| == |f0.comeFrom[t]|
  }

  /** Alternatives come from blocks that exist. */
  ghost predicate SourcesIn(f: Flow) {
    forall t, i :: 0 <= t < |f.alts| && 0 <= i < |f.alts[t]| ==> f.alts[t][i].src < |f.code|
  }

  lemma SourceStays(f0: Flow, f: Flow, b: BlockId, k: nat, to: BlockId, t: BlockId, a: BlockId, x: BlockId)
    requires Splitting(f, b, k, to) && SourceIs(f0, f, t, a, x) && x < |f.code| && (t != to || x != b)
    ensures SourceIs(f0, Split(f, b, k), t, a, x)
  {
  }

  lemma SourceMoves(f0: Flow, f: Flow, b: BlockId, k: nat, to: BlockId)
    requires Splitting(f, b, k, to) && SourceIs(f0, f, to, b, b) && SourcesIn(f)
    ensures SourceIs(f0, Split(f, b, k), to, b, |f.code|)
  {
  }

  lemma SourcesStayIn(f: Flow, b: BlockId, k: nat)
    requires SourcesIn(f) && |f.alts| == |f.code|
    ensures SourcesIn(Split(f, b, k))
  {
  }

  lemma SameStays(f0: Flow, f: Flow, b: BlockId, k: nat, to: BlockId, a: BlockId, j: nat)
    requires Splitting(f, b, k, to) && EdgeSame(f0, f, a, j) && a in f.live && (a != b || j != k)
    ensures EdgeSame(f0, Split(f, b, k), a, j)
  {
    SplitTargets(f, b, k, to);
    assert EndsPlaced(f, a);
    SourceStays(f0, f, b, k, to, Targets(f0, a)[j], a, a);
  }

  lemma BrokenStays(f0: Flow, f: Flow, b: BlockId, k: nat, to: BlockId, a: BlockId, j: nat)
    requires Splitting(f, b, k, to) && EdgeBroken(f0, f, a, j) && a in f.live && (a != b || j != k)
    requires b < |f0.code| && to < |f0.code|
    ensures EdgeBroken(f0, Split(f, b, k), a, j) && Targets(Split(f, b, k), a)[j] == Targets(f, a)[j]
  {
    SplitTargets(f, b, k, to);
    assert EndsPlaced(f, a);
    SourceStays(f0, f, b, k, to, Targets(f0, a)[j], a, Targets(f, a)[j]);
  }

  lemma SameBreaks(f0: Flow, f: Flow, b: BlockId, k: nat, to: BlockId)
    requires Splitting(f, b, k, to) && EdgeSame(f0, f, b, k) && SourcesIn(f) && |f0.code| <= |f.code| && |f0.ops| <= |f.ops|
    ensures EdgeBroken(f0, Split(f, b, k), b, k) && Targets(Split(f, b, k), b)[k] == |f.code|
  {
    SplitTargets(f, b, k, to);
    SourceMoves(f0, f, b, k, to);
    assert Split(f, b, k).live == f.live + [|f.code|];
  }

  lemma BridgeStays(f0: Flow, f: Flow, b: BlockId, k: nat, to: BlockId, n: BlockId)
    requires Splitting(f, b, k, to) && EdgeSame(f0, f, b, k) && Bridge(f0, f, n) && |f0.alts| == |f0.code|
    requires forall a :: a in f0.live ==> a in f.live
    ensures Bridge(f0, Split(f, b, k), n)
  {
    var a := f.comeFrom[n][0];
    var j: nat :| EdgeBroken(f0, f, a, j) && Targets(f, a)[j] == n;
    BrokenStays(f0, f, b, k, to, a, j);
  }

  lemma BreaksIsCanSplit(f0: Flow, f: Flow, b: BlockId, k: nat, done: set<(BlockId, nat)>)
    requires FlowOk(f) && Conditional(f, b) && k < 2 && Grown(f0, f) && EdgesAre(f0, f, done) && EdgeSame(f0, f, b, k)
    requires |Targets(f0, b)| == 2
    ensures Breaks(f0, b, k) <==> CanSplit(f, b, k)
  {
    assert EndsPlaced(f, b);
  }

  /** One split deals with one edge. */
  lemma SplitEdges(f0: Flow, f: Flow, b: BlockId, k: nat, done: set<(BlockId, nat)>)
    requires FlowOk(f) && Conditional(f, b) && k < 2 && Grown(f0, f) && f0.live <= f.live && SourcesIn(f)
    requires EdgesAre(f0, f, done) && b in f0.live && (b, k) !in done && |Targets(f0, b)| == 2
    ensures EdgesAre(f0, Split(f, b, k), done + {(b, k)})
  {
    assert EdgeSame(f0, f, b, k);
    BreaksIsCanSplit(f0, f, b, k, done);
    if CanSplit(f, b, k) {
      IsSplitting(f, b, k);
      SplitBreaks(f0, f, b, k, Label(f.ops[Last(f, b)], k), done);
    }
  }

  lemma SplitBreaks(f0: Flow, f: Flow, b: BlockId, k: nat, to: BlockId, done: set<(BlockId, nat)>)
    requires Splitting(f, b, k, to) && Breaks(f0, b, k) && f0.live <= f.live && SourcesIn(f)
    requires |f0.alts| == |f0.code| <= |f.code| && |f0.ops| <= |f.ops|
    requires EdgesAre(f0, f, done) && b in f0.live && EdgeSame(f0, f, b, k)
    ensures EdgesAre(f0, Split(f, b, k), done + {(b, k)})
  {
    var g := Split(f, b, k);
    SameBreaks(f0, f, b, k, to);
    forall a, j: nat | a in f0.live && j < |Targets(f0, a)|
      ensures if (a, j) in done + {(b, k)} && Breaks(f0, a, j) then EdgeBroken(f0, g, a, j) else EdgeSame(f0, g, a, j)
    {
      EdgeAfter(f0, f, b, k, to, done, a, j);
    }
    forall n | |f0.code| <= n < |g.code| ensures Bridge(f0, g, n) {
      if n < |f.code| {
        BridgeStays(f0, f, b, k, to, n);
      }
    }
  }

  lemma EdgeAfter(f0: Flow, f: Flow, b: BlockId, k: nat, to: BlockId, done: set<(BlockId, nat)>, a: BlockId, j: nat)
    requires Splitting(f, b, k, to) && EdgesAre(f0, f, done) && Breaks(f0, b, k) && f0.live <= f.live && |f0.alts| == |f0.code|
    requires b in f0.live && EdgeSame(f0, f, b, k) && EdgeBroken(f0, Split(f, b, k), b, k) && a in f0.live && j < |Targets(f0, a)|
    ensures if (a, j) in done + {(b, k)} && Breaks(f0, a, j) then EdgeBroken(f0, Split(f, b, k), a, j) else EdgeSame(f0, Split(f, b, k), a, j)
  {
    if (a, j) != (b, k) {
      if (a, j) in done && Breaks(f0, a, j) {
        BrokenStays(f0, f, b, k, to, a, j);
      } else {
        SameStays(f0, f, b, k, to, a, j);
      }
    }
  }

  /** Every edge out of a block that was listed goes where it went: directly, or, just if it
      has to be broken, through a new block; and there are no other new blocks. */
  ghost predicate EdgesKept(f0: Flow, f: Flow) {
    && (forall a, k: nat :: a in f0.live && k < |Targets(f0, a)| ==>
          if Breaks(f0, a, k) then EdgeBroken(f0, f, a, k) else EdgeSame(f0, f, a, k))
    && forall n :: |f0.code| <= n < |f.code| ==> Bridge(f0, f, n)
  }

  /** The second pass: afterwards no edge is critical. */
  method BreakEdges(f0: Flow) returns (f: Flow)
    requires FlowOk(f0) && Carried(f0) && SourcesIn(f0)
    ensures FlowOk(f) && Carried(f) && SourcesIn(f) && forall a, t :: !Critical(f, a, t)
    ensures Grown(f0, f) && f0.live <= f.live && EdgesKept(f0, f)
  {
    f := f0;
    ghost var done: set<(BlockId, nat)> := {};
    NothingBroken(f0);
    for li := 0 to |f0.live|
      invariant Breaking(f0, f, done, li)
    {
      var b := f0.live[li];
      BlockBroken(f0, f, done, li);
      if f.ops[Last(f, b)].opcode.Cond? {
        f := Split(f, b, 0);
        f := Split(f, b, 1);
        done := done + {(b, 0)} + {(b, 1)};
      }
    }
    NoneCritical(f);
    AllDone(f0, f, done);
  }

  /** The second pass has come to the block at index li. */
  ghost predicate Breaking(f0: Flow, f: Flow, done: set<(BlockId, nat)>, li: nat) {
    && li <= |f0.live| && FlowOk(f0) && FlowOk(f) && Carried(f) && SourcesIn(f) && f0.live <= f.live && Grown(f0, f)
    && (forall a :: a in f.live && a !in f0.live[li..] ==> Uncritical(f, a))
    && EdgesAre(f0, f, done) && DoneUntil(f0, done, li)
  }

  lemma BlockBroken(f0: Flow, f: Flow, done: set<(BlockId, nat)>, li: nat)
    requires Breaking(f0, f, done, li) && li < |f0.live|
    ensures EndsOk(f.ops, f.code, f0.live[li])
    ensures var b := f0.live[li];
            if f.ops[Last(f, b)].opcode.Cond? then Breaking(f0, Split(Split(f, b, 0), b, 1), done + {(b, 0)} + {(b, 1)}, li + 1)
            else Breaking(f0, f, done, li + 1)
  {
    var b := f0.live[li];
    BlockFits(f0, f, done, li);
    DoneNext(f0, f, done, li);
    assert f0.live[li..] == [b] + f0.live[li + 1..];
    if f.ops[Last(f, b)].opcode.Cond? {
      SplitBoth(f0, f, b, done);
      BothUncritical(f, b, f0.live[li..], f0.live[li + 1..]);
    }
  }

  /** The block at index li has not been dealt with, and is what it was. */
  lemma BlockFits(f0: Flow, f: Flow, done: set<(BlockId, nat)>, li: nat)
    requires Breaking(f0, f, done, li) && li < |f0.live|
    ensures var b := f0.live[li];
            && b in f.live && EndsPlaced(f, b) && EndsPlaced(f0, b) && (b, 0) !in done && (b, 1) !in done
            && (f.ops[Last(f, b)].opcode.Cond? <==> |Targets(f0, b)| == 2)
            && (!f.ops[Last(f, b)].opcode.Cond? ==> Uncritical(f, b))
  {
    var b := f0.live[li];
    assert b in f0.live && b in f.live && EndsPlaced(f, b) && EndsPlaced(f0, b);
    assert SameButLabels(f0.ops[Last(f0, b)], f.ops[Last(f0, b)]);
  }

  lemma NoneCritical(f: Flow)
    requires FlowOk(f) && forall a :: a in f.live ==> Uncritical(f, a)
    ensures forall a, t :: !Critical(f, a, t)
  {
    forall a, t ensures !Critical(f, a, t) {
      if a in f.live {
        UncriticalIsNotCritical(f, a, t);
      }
    }
  }

  /** For the blocks up to li both edges of conditional jumps are in done, and no others. */
  ghost predicate DoneUntil(f0: Flow, done: set<(BlockId, nat)>, li: nat)
    requires li <= |f0.live|
  {
    && (forall a, k: nat :: (a, k) in done ==> a in f0.live[..li])
    && forall a, k: nat :: a in f0.live[..li] && |Targets(f0, a)| == 2 && k < 2 ==> (a, k) in done
  }

  lemma DoneNext(f0: Flow, f: Flow, done: set<(BlockId, nat)>, li: nat)
    requires li < |f0.live| && DoneUntil(f0, done, li) && EndsPlaced(f0, f0.live[li])
    ensures |Targets(f0, f0.live[li])| == 2 ==> DoneUntil(f0, done + {(f0.live[li], 0)} + {(f0.live[li], 1)}, li + 1)
    ensures |Targets(f0, f0.live[li])| != 2 ==> DoneUntil(f0, done, li + 1)
  {
    assert f0.live[..li + 1] == f0.live[..li] + [f0.live[li]];
  }

  lemma NothingBroken(f0: Flow)
    requires FlowOk(f0)
    ensures EdgesAre(f0, f0, {})
  {
    forall a, k: nat | a in f0.live && k < |Targets(f0, a)| ensures EdgeSame(f0, f0, a, k) {
      assert EndsPlaced(f0, a) && Targets(f0, a)[k] in Targets(f0, a);
    }
  }

  lemma AllDone(f0: Flow, f: Flow, done: set<(BlockId, nat)>)
    requires EdgesAre(f0, f, done) && DoneUntil(f0, done, |f0.live|)
    ensures EdgesKept(f0, f)
  {
    assert f0.live[..|f0.live|] == f0.live;
  }

  lemma SplitBoth(f0: Flow, f: Flow, b: BlockId, done: set<(BlockId, nat)>)
    requires FlowOk(f) && Conditional(f, b) && Carried(f) && SourcesIn(f) && f0.live <= f.live && Grown(f0, f)
    requires EdgesAre(f0, f, done) && b in f0.live && (b, 0) !in done && (b, 1) !in done && |Targets(f0, b)| == 2
    ensures var g := Split(Split(f, b, 0), b, 1);
            && FlowOk(g) && Carried(g) && SourcesIn(g) && f0.live <= g.live && Grown(f0, g)
            && EdgesAre(f0, g, done + {(b, 0)} + {(b, 1)})
  {
    var h := Split(f, b, 0);
    SplitKeeps(f, b, 0);
    SplitCarries(f, b, 0);
    SplitGrows(f0, f, b, 0);
    SourcesStayIn(f, b, 0);
    SplitEdges(f0, f, b, 0, done);
    SplitKeeps(h, b, 1);
    SplitCarries(h, b, 1);
    SplitGrows(f0, h, b, 1);
    SourcesStayIn(h, b, 1);
    SplitEdges(f0, h, b, 1, done + {(b, 0)});
  }

  lemma BothUncritical(f: Flow, b: BlockId, todo: seq<BlockId>, rest: seq<BlockId>)
    requires FlowOk(f) && Conditional(f, b) && todo == [b] + rest
    requires forall a :: a in f.live && a !in todo ==> Uncritical(f, a)
    ensures var g := Split(Split(f, b, 0), b, 1); forall a :: a in g.live && a !in rest ==> Uncritical(g, a)
  {
    var h := Split(f, b, 0);
    var g := Split(h, b, 1);
    BothSplit(f, b);
    SplitKeeps(f, b, 0);
    forall a | a in g.live && a !in rest ensures Uncritical(g, a) {
      if a != b {
        if a in h.live {
          SplitOthers(f, b, 0, a);
        }
        SplitOthers(h, b, 1, a);
      }
    }
  }

  // ---- alternatives of broken edges -----------------------------------------------------------

  /** On the edge from a, phi v of block t has an alternative. */
  ghost predicate HasAlt(f: Flow, a: BlockId, t: BlockId, v: OpId) {
    t < |f.alts| && exists i :: 0 <= i < |f.alts[t]| && f.alts[t][i].phi == v && f.alts[t][i].src == a
  }

  ghost predicate IsPhiIn(f: Flow, t: BlockId, v: OpId) {
    t < |f.code| && v in f.code[t] && v < |f.ops| && f.ops[v].opcode.Phi?
  }

  /** Every phi has an alternative on every edge. */
  ghost predicate Carried(f: Flow) {
    forall a, t, v :: a in f.live && t in Targets(f, a) && IsPhiIn(f, t, v) ==> HasAlt(f, a, t, v)
  }

  lemma SplitCarries(f: Flow, b: BlockId, k: nat)
    requires FlowOk(f) && Conditional(f, b) && k < 2 && Carried(f)
    ensures Carried(Split(f, b, k))
  {
    if CanSplit(f, b, k) {
      IsSplitting(f, b, k);
      var g, n, to := Split(f, b, k), |f.code|, Label(f.ops[Last(f, b)], k);
      SplitTargets(f, b, k, to);
      forall a, t, v | a in g.live && t in Targets(g, a) && IsPhiIn(g, t, v) ensures HasAlt(g, a, t, v) {
        EdgeCarries(f, b, k, to, a, t, v);
      }
    }
  }

  /** The alternatives for the broken edge now name the new block as their source. */
  lemma EdgeCarries(f: Flow, b: BlockId, k: nat, to: BlockId, a: BlockId, t: BlockId, v: OpId)
    requires Splitting(f, b, k, to) && Carried(f)
    requires var g := Split(f, b, k); a in g.live && t in Targets(g, a) && IsPhiIn(g, t, v)
    ensures HasAlt(Split(f, b, k), a, t, v)
  {
    var g, n := Split(f, b, k), |f.code|;
    SplitTargets(f, b, k, to);
    assert g.code[n] == [|f.ops|] && g.ops[|f.ops|].opcode.Jmp?;
    if t != n {
      var a0 := if a == n then b else a;
      if a0 in f.live {
        assert EndsPlaced(f, a0);
      }
      assert t in Targets(f, a0) && t in f.live && IsPhiIn(f, t, v);
      assert HasAlt(f, a0, t, v);
      var i :| 0 <= i < |f.alts[t]| && f.alts[t][i].phi == v && f.alts[t][i].src == a0;
      assert g.alts[t][i].phi == v && g.alts[t][i].src == a;
    }
  }

  /** If both labels were equal, breaking both edges would leave the second new block without
      any alternative in the target that it jumps to. */
  lemma EqualLabelsLoseAlternatives(f: Flow, b: BlockId, t: BlockId)
    requires |f.code| == |f.alts| == |f.comeFrom| && b < |f.code| && Last(f, b) < |f.ops| && f.ops[Last(f, b)].opcode.Cond?
    requires f.ops[Last(f, b)].label0 == t && f.ops[Last(f, b)].label1 == t && t < |f.code| && |f.comeFrom[t]| >= 2
    requires forall i :: 0 <= i < |f.alts[t]| ==> f.alts[t][i].src < |f.code|
    ensures var g, second := Split(Split(f, b, 0), b, 1), |f.code| + 1;
            t in Targets(g, second) && forall v :: !HasAlt(g, second, t, v)
  {
    var h := Split(f, b, 0);
    assert CanSplit(f, b, 0) && Last(h, b) == Last(f, b);
    assert h.alts[t] == Resourced(f.alts[t], b, |f.code|);
    assert CanSplit(h, b, 1);
  }

  // ---- the third pass ---------------------------------------------------------------------------

  /** What the third pass changes; owner says for which alternative each new op was made. */
  datatype Renames = Renames(
    ops: seq<Op>,
    code: seq<seq<OpId>>,
    alts: seq<seq<PhiAlt>>,
    scc: seq<nat>)

  /** The alternative's value stays just if it is in its phi's class; else it is now a new rename
      of what it was, in a class of its own. */
  ghost predicate AltOk(w: Renames, s0: PhiAlt, s: PhiAlt, n0: nat, nScc: nat)
    requires s0.val < |w.scc| && s0.phi < |w.scc| && |w.scc| == |w.ops|
  {
    && s.phi == s0.phi && s.src == s0.src
    && if w.scc[s0.val] == w.scc[s0.phi] then s.val == s0.val
       else n0 <= s.val < |w.ops| && w.ops[s.val].opcode == Rename && w.ops[s.val].ins == [s0.val]
            && w.ops[s.val].block == s.src && w.scc[s.val] >= nScc
  }

  ghost predicate InRange(alts: seq<seq<PhiAlt>>, n: nat) {
    forall t, i :: 0 <= t < |alts| && 0 <= i < |alts[t]| ==> alts[t][i].val < n && alts[t][i].phi < n
  }

  /** Original ops and classes are kept, and every new op is the value of one alternative. */
  ghost predicate Tracked(w0: Renames, w: Renames, owner: seq<(nat, nat)>) {
    var n0 := |w0.ops|;
    && w0.ops <= w.ops && w0.scc <= w.scc && |w0.scc| == n0 && |w.scc| == |w.ops| == n0 + |owner|
    && |w.alts| == |w0.alts| && InRange(w0.alts, n0)
    && (forall t :: 0 <= t < |w.alts| ==> |w.alts[t]| == |w0.alts[t]|)
    && (forall t, i :: 0 <= t < |w.alts| && 0 <= i < |w.alts[t]| ==> OwnedAt(w0, w, owner, t, i))
    && forall k :: 0 <= k < |owner| ==> UsedAt(w, owner[k].0, owner[k].1, n0 + k)
  }

  /** The value v is what alternative i of t takes. */
  ghost predicate UsedAt(w: Renames, t: BlockId, i: nat, v: OpId) {
    t < |w.alts| && i < |w.alts[t]| && w.alts[t][i].val == v
  }

  ghost predicate OwnedAt(w0: Renames, w: Renames, owner: seq<(nat, nat)>, t: nat, i: nat)
    requires t < |w.alts| && i < |w.alts[t]| && t < |w0.alts| && i < |w0.alts[t]|
  {
    var v, n0 := w.alts[t][i].val, |w0.ops|;
    && w.alts[t][i].phi == w0.alts[t][i].phi && w.alts[t][i].src == w0.alts[t][i].src
    && (if v < n0 then v == w0.alts[t][i].val else v - n0 < |owner| && owner[v - n0] == (t, i))
  }

  /** One alternative of the edge from b. */
  function RenameOne(w: Renames, b: BlockId, p: nat, t: BlockId, i: nat, cls: nat): Renames
    requires t < |w.alts| && i < |w.alts[t]| && b < |w.code| && p <= |w.code[b]|
  {
    var rr := |w.ops|;
    Renames(w.ops + [Op(Rename, [w.alts[t][i].val], 0, NoVal, NoVal, b, p, 0)],
            w.code[b := w.code[b][..p] + [rr] + w.code[b][p..]],
            w.alts[t := w.alts[t][i := w.alts[t][i].(val := rr)]],
            w.scc + [cls])
  }

  lemma OneTracked(w0: Renames, w: Renames, owner: seq<(nat, nat)>, b: BlockId, p: nat, t: BlockId, i: nat, cls: nat)
    requires Tracked(w0, w, owner) && t < |w.alts| && i < |w.alts[t]| && b < |w.code| && p <= |w.code[b]|
    requires w.alts[t][i] == w0.alts[t][i]
    ensures Tracked(w0, RenameOne(w, b, p, t, i, cls), owner + [(t, i)])
  {
    var x, owner' := RenameOne(w, b, p, t, i, cls), owner + [(t, i)];
    forall u, j | 0 <= u < |x.alts| && 0 <= j < |x.alts[u]| ensures OwnedAt(w0, x, owner', u, j) {
      assert OwnedAt(w0, w, owner, u, j);
    }
    forall k | 0 <= k < |owner'| ensures UsedAt(x, owner'[k].0, owner'[k].1, |w0.ops| + k) {
      if k < |owner| {
        assert UsedAt(w, owner[k].0, owner[k].1, |w0.ops| + k);
      }
    }
  }

  /** New ops of one block have classes of their own, none of them used before. */
  ghost predicate FreshClasses(w: Renames, n0: nat, nScc: nat)
    requires |w.scc| == |w.ops|
  {
    && (forall v :: n0 <= v < |w.ops| ==> w.scc[v] >= nScc)
    && forall u, v :: n0 <= u < v < |w.ops| && w.ops[u].block == w.ops[v].block ==> w.scc[u] != w.scc[v]
  }

  ghost predicate ClassesBelow(w: Renames, n0: nat, b: BlockId, cls: nat)
    requires |w.scc| == |w.ops|
  {
    forall v :: n0 <= v < |w.ops| && w.ops[v].block == b ==> w.scc[v] < cls
  }

  /** The alternatives of t that come from b, the first i of them done. */
  ghost predicate DoneUpTo(w0: Renames, w: Renames, b: BlockId, t: BlockId, i: nat, nScc: nat)
    requires t < |w.alts| && t < |w0.alts| && |w.alts[t]| == |w0.alts[t]| && |w.scc| == |w.ops|
    requires InRange(w0.alts, |w.scc|)
  {
    forall j :: 0 <= j < |w.alts[t]| && w0.alts[t][j].src == b ==> if j < i then AltOk(w, w0.alts[t][j], w.alts[t][j], |w0.ops|, nScc) else w.alts[t][j] == w0.alts[t][j]
  }

  lemma AltOkStable(w: Renames, x: Renames, s0: PhiAlt, s: PhiAlt, n0: nat, nScc: nat)
    requires s0.val < |w.scc| && s0.phi < |w.scc| && |w.scc| == |w.ops| && AltOk(w, s0, s, n0, nScc)
    requires w.ops <= x.ops && w.scc <= x.scc && |x.scc| == |x.ops|
    ensures AltOk(x, s0, s, n0, nScc)
  {
  }

  /** Only alternatives of t from b differ, and only the code of b, in front of its jump. */
  ghost predicate OnlyEdge(w: Renames, x: Renames, b: BlockId, p: nat, t: BlockId) {
    && w.ops <= x.ops && w.scc <= x.scc && |x.alts| == |w.alts| && |x.code| == |w.code|
    && (forall v :: |w.ops| <= v < |x.ops| ==> x.ops[v].block == b)
    && b < |w.code| && p <= |w.code[b]| && |w.code[b]| <= |x.code[b]|
    && (forall c :: 0 <= c < |w.code| && c != b ==> x.code[c] == w.code[c])
    && x.code[b][..p] == w.code[b][..p] && x.code[b][|x.code[b]| - (|w.code[b]| - p)..] == w.code[b][p..]
    && (forall u :: 0 <= u < |w.alts| && u != t ==> x.alts[u] == w.alts[u])
    && (t < |w.alts| ==> |x.alts[t]| == |w.alts[t]| && forall j :: 0 <= j < |w.alts[t]| && w.alts[t][j].src != b ==> x.alts[t][j] == w.alts[t][j])
  }

  lemma OnlyEdgeStep(w: Renames, x: Renames, b: BlockId, p: nat, t: BlockId, i: nat, cls: nat)
    requires OnlyEdge(w, x, b, p, t) && t < |x.alts| && i < |x.alts[t]| && w.alts[t][i].src == b && |x.scc| == |x.ops|
    ensures OnlyEdge(w, RenameOne(x, b, p, t, i, cls), b, p, t)
  {
    var y, rr := RenameOne(x, b, p, t, i, cls), |x.ops|;
    var m := |w.code[b]| - p;
    assert y.code[b] == x.code[b][..p] + [rr] + x.code[b][p..];
    assert y.code[b][|y.code[b]| - m..] == x.code[b][|x.code[b]| - m..];
  }

  /** What stands between the old code of b, p ops long, and its jump. */
  function Inserted(w: Renames, b: BlockId, p: nat): seq<OpId> {
    if b < |w.code| && p < |w.code[b]| then w.code[b][p..|w.code[b]| - 1] else []
  }

  /** Those are the new ops of b, each once. */
  ghost predicate CopiesStand(w: Renames, n0: nat, b: BlockId, p: nat) {
    NoDup(Inserted(w, b, p)) && forall v :: v in Inserted(w, b, p) <==> n0 <= v < |w.ops| && w.ops[v].block == b
  }

  /** New ops are renames of original values. */
  ghost predicate NewAreCopies(w: Renames, n0: nat) {
    forall v :: n0 <= v < |w.ops| ==>
      w.ops[v].opcode == Rename && |w.ops[v].ins| == 1 && w.ops[v].ins[0] < n0 && w.ops[v].block < |w.code|
  }

  lemma CopyInserted(w: Renames, n0: nat, b: BlockId, p: nat, t: BlockId, i: nat, cls: nat)
    requires CopiesStand(w, n0, b, p) && NewAreCopies(w, n0) && n0 <= |w.ops|
    requires t < |w.alts| && i < |w.alts[t]| && w.alts[t][i].val < n0 && b < |w.code| && p < |w.code[b]|
    ensures CopiesStand(RenameOne(w, b, p, t, i, cls), n0, b, p) && NewAreCopies(RenameOne(w, b, p, t, i, cls), n0)
  {
    var x := RenameOne(w, b, p, t, i, cls);
    assert x.code[b] == w.code[b][..p] + [|w.ops|] + w.code[b][p..];
    assert Inserted(x, b, p) == [|w.ops|] + Inserted(w, b, p);
    assert forall k :: 0 <= k < |Inserted(w, b, p)| ==> Inserted(w, b, p)[k] in Inserted(w, b, p);
    forall v ensures v in Inserted(x, b, p) <==> n0 <= v < |x.ops| && x.ops[v].block == b {
      assert v in Inserted(x, b, p) <==> v == |w.ops| || v in Inserted(w, b, p);
    }
  }

  /** The alternatives of t from b have been gone through up to i, starting from w. */
  ghost predicate Going(w0: Renames, w: Renames, x: Renames, owner: seq<(nat, nat)>, b: BlockId, p: nat, t: BlockId, i: nat, nScc: nat, cls: nat) {
    && Tracked(w0, x, owner) && OnlyEdge(w, x, b, p, t) && t < |x.alts| && i <= |x.alts[t]| && p < |w.code[b]| && nScc <= cls
    && DoneUpTo(w0, x, b, t, i, nScc) && FreshClasses(x, |w0.ops|, nScc) && ClassesBelow(x, |w0.ops|, b, cls)
    && CopiesStand(x, |w0.ops|, b, p) && NewAreCopies(x, |w0.ops|)
  }

  /** One label of b's jump. */
  method RenameTarget(w: Renames, b: BlockId, p: nat, t: BlockId, nScc: nat, cls0: nat, ghost w0: Renames, ghost owner0: seq<(nat, nat)>)
    returns (x: Renames, cls: nat, ghost owner: seq<(nat, nat)>)
    requires Tracked(w0, w, owner0) && t < |w.alts| && b < |w.code| && p < |w.code[b]| && nScc <= cls0
    requires DoneUpTo(w0, w, b, t, 0, nScc) && CopiesStand(w, |w0.ops|, b, p) && NewAreCopies(w, |w0.ops|)
    requires FreshClasses(w, |w0.ops|, nScc) && ClassesBelow(w, |w0.ops|, b, cls0)
    ensures Tracked(w0, x, owner) && OnlyEdge(w, x, b, p, t) && DoneUpTo(w0, x, b, t, |w.alts[t]|, nScc)
    ensures FreshClasses(x, |w0.ops|, nScc) && cls0 <= cls && ClassesBelow(x, |w0.ops|, b, cls)
    ensures CopiesStand(x, |w0.ops|, b, p) && NewAreCopies(x, |w0.ops|)
  {
    x, cls, owner := w, cls0, owner0;
    for i := 0 to |w.alts[t]|
      invariant Going(w0, w, x, owner, b, p, t, i, nScc, cls) && cls0 <= cls
    {
      var s := x.alts[t][i];
      AltIs(w0, w, x, owner, b, p, t, i, nScc, cls);
      if s.src == b && x.scc[s.val] != x.scc[s.phi] {
        AltRenamed(w0, w, x, owner, b, p, t, i, nScc, cls);
        x, cls, owner := RenameOne(x, b, p, t, i, cls), cls + 1, owner + [(t, i)];
      } else {
        AltStays(w0, w, x, owner, b, p, t, i, nScc, cls);
      }
    }
  }

  lemma AltIs(w0: Renames, w: Renames, x: Renames, owner: seq<(nat, nat)>, b: BlockId, p: nat, t: BlockId, i: nat, nScc: nat, cls: nat)
    requires Going(w0, w, x, owner, b, p, t, i, nScc, cls) && i < |x.alts[t]|
    ensures t < |w0.alts| && i < |w0.alts[t]| && x.alts[t][i].src == w0.alts[t][i].src && x.alts[t][i].phi == w0.alts[t][i].phi < |w0.ops|
    ensures x.alts[t][i].src == b ==> x.alts[t][i] == w0.alts[t][i] && w.alts[t][i].src == b
    ensures x.alts[t][i].val < |x.scc| && x.alts[t][i].phi < |x.scc|
  {
    assert OwnedAt(w0, x, owner, t, i);
  }

  lemma AltStays(w0: Renames, w: Renames, x: Renames, owner: seq<(nat, nat)>, b: BlockId, p: nat, t: BlockId, i: nat, nScc: nat, cls: nat)
    requires Going(w0, w, x, owner, b, p, t, i, nScc, cls) && i < |x.alts[t]| && x.alts[t][i].val < |x.scc| && x.alts[t][i].phi < |x.scc|
    requires x.alts[t][i].src == b ==> x.scc[x.alts[t][i].val] == x.scc[x.alts[t][i].phi]
    ensures Going(w0, w, x, owner, b, p, t, i + 1, nScc, cls)
  {
    AltIs(w0, w, x, owner, b, p, t, i, nScc, cls);
  }

  lemma AltRenamed(w0: Renames, w: Renames, x: Renames, owner: seq<(nat, nat)>, b: BlockId, p: nat, t: BlockId, i: nat, nScc: nat, cls: nat)
    requires Going(w0, w, x, owner, b, p, t, i, nScc, cls) && i < |x.alts[t]| && x.alts[t][i].val < |x.scc| && x.alts[t][i].phi < |x.scc|
    requires x.alts[t][i].src == b && x.scc[x.alts[t][i].val] != x.scc[x.alts[t][i].phi]
    ensures Going(w0, w, RenameOne(x, b, p, t, i, cls), owner + [(t, i)], b, p, t, i + 1, nScc, cls + 1)
  {
    AltIs(w0, w, x, owner, b, p, t, i, nScc, cls);
    OneTracked(w0, x, owner, b, p, t, i, cls);
    OnlyEdgeStep(w, x, b, p, t, i, cls);
    CopyInserted(x, |w0.ops|, b, p, t, i, cls);
    DoneStep(w0, x, b, p, t, i, nScc, cls);
  }

  lemma DoneStep(w0: Renames, x: Renames, b: BlockId, p: nat, t: BlockId, i: nat, nScc: nat, cls: nat)
    requires t < |x.alts| && t < |w0.alts| && |x.alts[t]| == |w0.alts[t]| && |x.scc| == |x.ops| && i < |x.alts[t]|
    requires InRange(w0.alts, |w0.ops|) && |w0.ops| <= |x.ops| && b < |x.code| && p <= |x.code[b]|
    requires DoneUpTo(w0, x, b, t, i, nScc) && x.alts[t][i] == w0.alts[t][i] && x.alts[t][i].src == b && cls >= nScc
    requires x.scc[w0.alts[t][i].val] != x.scc[w0.alts[t][i].phi]
    ensures DoneUpTo(w0, RenameOne(x, b, p, t, i, cls), b, t, i + 1, nScc)
  {
    var y := RenameOne(x, b, p, t, i, cls);
    forall j | 0 <= j < |y.alts[t]| && w0.alts[t][j].src == b
      ensures if j < i + 1 then AltOk(y, w0.alts[t][j], y.alts[t][j], |w0.ops|, nScc) else y.alts[t][j] == w0.alts[t][j]
    {
      if j < i {
        AltOkStable(x, y, w0.alts[t][j], x.alts[t][j], |w0.ops|, nScc);
      }
    }
  }

  // ---- all edges -----------------------------------------------------------------------------------

  /** Every alternative of an edge out of b is in order. */
  ghost predicate EdgesDone(w0: Renames, w: Renames, b: BlockId, nScc: nat)
    requires |w.scc| == |w.ops| && InRange(w0.alts, |w.scc|)
  {
    forall t :: t in Succ(w0.ops, w0.code, b) && t < |w.alts| && t < |w0.alts| && |w.alts[t]| == |w0.alts[t]| ==>
      DoneUpTo(w0, w, b, t, |w.alts[t]|, nScc)
  }

  /** The alternatives from b are still the original ones. */
  ghost predicate Untouched(w0: Renames, w: Renames, b: BlockId) {
    && b < |w.code| && b < |w0.code| && w.code[b] == w0.code[b]
    && forall t, j :: 0 <= t < |w.alts| && t < |w0.alts| && 0 <= j < |w.alts[t]| && j < |w0.alts[t]| && w0.alts[t][j].src == b ==>
         w.alts[t][j] == w0.alts[t][j]
  }

  lemma EdgesStay(w0: Renames, w: Renames, x: Renames, b: BlockId, p: nat, t: BlockId, a: BlockId, nScc: nat)
    requires OnlyEdge(w, x, b, p, t) && a != b && |w.scc| == |w.ops| && |x.scc| == |x.ops| && InRange(w0.alts, |w.scc|)
    requires forall u, j :: 0 <= u < |w.alts| && u < |w0.alts| && 0 <= j < |w.alts[u]| && j < |w0.alts[u]| ==> w.alts[u][j].src == w0.alts[u][j].src
    ensures EdgesDone(w0, w, a, nScc) ==> EdgesDone(w0, x, a, nScc)
    ensures Untouched(w0, w, a) ==> Untouched(w0, x, a)
  {
    if EdgesDone(w0, w, a, nScc) {
      forall u | u in Succ(w0.ops, w0.code, a) && u < |x.alts| && u < |w0.alts| && |x.alts[u]| == |w0.alts[u]|
        ensures DoneUpTo(w0, x, a, u, |x.alts[u]|, nScc)
      {
        assert DoneUpTo(w0, w, a, u, |w.alts[u]|, nScc);
        forall j | 0 <= j < |x.alts[u]| && w0.alts[u][j].src == a
          ensures AltOk(x, w0.alts[u][j], x.alts[u][j], |w0.ops|, nScc)
        {
          AltOkStable(w, x, w0.alts[u][j], w.alts[u][j], |w0.ops|, nScc);
        }
      }
    }
  }

  lemma DoneStays(w0: Renames, w: Renames, x: Renames, b: BlockId, p: nat, t: BlockId, u: BlockId, nScc: nat)
    requires OnlyEdge(w, x, b, p, t) && u != t && |w.scc| == |w.ops| && |x.scc| == |x.ops| && InRange(w0.alts, |w.scc|)
    requires u < |w.alts| && u < |w0.alts| && |w.alts[u]| == |w0.alts[u]| && DoneUpTo(w0, w, b, u, |w.alts[u]|, nScc)
    ensures DoneUpTo(w0, x, b, u, |x.alts[u]|, nScc)
  {
    forall j | 0 <= j < |x.alts[u]| && w0.alts[u][j].src == b ensures AltOk(x, w0.alts[u][j], x.alts[u][j], |w0.ops|, nScc) {
      AltOkStable(w, x, w0.alts[u][j], w.alts[u][j], |w0.ops|, nScc);
    }
  }

  /** The jump of b still comes last, after what it had before and the new ops of b. */
  ghost predicate JumpLast(w0: Renames, w: Renames, b: BlockId) {
    && b < |w0.code| && b < |w.code| && 0 < |w0.code[b]| <= |w.code[b]|
    && var p := |w0.code[b]| - 1;
       && w.code[b][..p] == w0.code[b][..p] && w.code[b][|w.code[b]| - 1] == w0.code[b][p]
       && CopiesStand(w, |w0.ops|, b, p)
  }

  /** No new op belongs to b yet. */
  ghost predicate NoneIn(w: Renames, n0: nat, b: BlockId) {
    forall v :: n0 <= v < |w.ops| ==> w.ops[v].block != b
  }

  ghost predicate Ready(w0: Renames, w: Renames, owner: seq<(nat, nat)>, nScc: nat) {
    Tracked(w0, w, owner) && FreshClasses(w, |w0.ops|, nScc) && |w.code| == |w0.code| && NewAreCopies(w, |w0.ops|)
  }

  ghost predicate LabelsDiffer(w: Renames, b: BlockId) {
    && EndsOk(w.ops, w.code, b)
    && var c := w.ops[w.code[b][|w.code[b]| - 1]];
       c.opcode.Cond? ==> c.label0 != c.label1
  }

  /** Only alternatives on the edges out of b have changed. */
  ghost predicate AltsFrom(w: Renames, x: Renames, w0: Renames, b: BlockId) {
    && |x.alts| == |w.alts|
    && forall t, i :: 0 <= t < |w.alts| && 0 <= i < |w.alts[t]| && i < |x.alts[t]| && x.alts[t][i] != w.alts[t][i] ==>
         w.alts[t][i].src == b && t in Succ(w0.ops, w0.code, b)
  }

  /** The third pass at one block: both labels of its jump. */
  method RenameBlock(w: Renames, b: BlockId, nScc: nat, ghost w0: Renames, ghost owner0: seq<(nat, nat)>)
    returns (x: Renames, ghost owner: seq<(nat, nat)>)
    requires Ready(w0, w, owner0, nScc) && Untouched(w0, w, b) && LabelsDiffer(w0, b) && |w0.alts| == |w0.code|
    requires ClassesBelow(w, |w0.ops|, b, nScc)
    ensures Ready(w0, x, owner, nScc) && EdgesDone(w0, x, b, nScc) && JumpLast(w0, x, b)
    ensures forall a: nat :: a != b && a < |w.code| ==> x.code[a] == w.code[a]
    ensures forall a :: a != b ==> (EdgesDone(w0, w, a, nScc) ==> EdgesDone(w0, x, a, nScc)) && (Untouched(w0, w, a) ==> Untouched(w0, x, a))
    ensures w.ops <= x.ops && forall v :: |w.ops| <= v < |x.ops| ==> x.ops[v].block == b
    ensures AltsFrom(w, x, w0, b)
  {
    x, owner := w, owner0;
    var p := |w.code[b]| - 1;
    var op := w.ops[w.code[b][p]];
    assert op == w0.ops[w0.code[b][p]];
    NoCopiesYet(w, |w0.ops|, b, nScc);
    if op.IsJump() {
      var cls;
      assert op.label0 in Succ(w0.ops, w0.code, b);
      x, cls, owner := RenameTarget(w, b, p, op.label0, nScc, nScc, w0, owner0);
      OneLabel(w0, w, owner0, x, b, p, op.label0, nScc);
      if op.opcode.Cond? {
        ghost var y, middle := x, owner;
        assert op.label1 in Succ(w0.ops, w0.code, b);
        x, cls, owner := RenameTarget(x, b, p, op.label1, nScc, cls, w0, owner);
        OneLabel(w0, y, middle, x, b, p, op.label1, nScc);
        DoneStays(w0, y, x, b, p, op.label1, op.label0, nScc);
      }
    }
  }

  lemma NoCopiesYet(w: Renames, n0: nat, b: BlockId, nScc: nat)
    requires |w.scc| == |w.ops| && FreshClasses(w, n0, nScc) && ClassesBelow(w, n0, b, nScc) && b < |w.code| && w.code[b] != []
    ensures CopiesStand(w, n0, b, |w.code[b]| - 1)
  {
    assert Inserted(w, b, |w.code[b]| - 1) == [];
  }

  /** One label leaves all other blocks' edges alone. */
  lemma OneLabel(w0: Renames, w: Renames, owner: seq<(nat, nat)>, x: Renames, b: BlockId, p: nat, t: BlockId, nScc: nat)
    requires Tracked(w0, w, owner) && OnlyEdge(w, x, b, p, t) && |x.scc| == |x.ops| && t in Succ(w0.ops, w0.code, b)
    ensures forall a :: a != b ==> (EdgesDone(w0, w, a, nScc) ==> EdgesDone(w0, x, a, nScc)) && (Untouched(w0, w, a) ==> Untouched(w0, x, a))
    ensures AltsFrom(w, x, w0, b)
  {
    SourcesKept(w0, w, owner);
    EdgesAway(w0, w, x, b, p, t, nScc);
  }

  lemma SourcesKept(w0: Renames, w: Renames, owner: seq<(nat, nat)>)
    requires Tracked(w0, w, owner)
    ensures forall u, j :: 0 <= u < |w.alts| && u < |w0.alts| && 0 <= j < |w.alts[u]| && j < |w0.alts[u]| ==> w.alts[u][j].src == w0.alts[u][j].src
  {
    forall u, j | 0 <= u < |w.alts| && u < |w0.alts| && 0 <= j < |w.alts[u]| && j < |w0.alts[u]|
      ensures w.alts[u][j].src == w0.alts[u][j].src
    {
      assert OwnedAt(w0, w, owner, u, j);
    }
  }

  lemma EdgesAway(w0: Renames, w: Renames, x: Renames, b: BlockId, p: nat, t: BlockId, nScc: nat)
    requires OnlyEdge(w, x, b, p, t) && |w.scc| == |w.ops| && |x.scc| == |x.ops| && InRange(w0.alts, |w.scc|)
    requires forall u, j :: 0 <= u < |w.alts| && u < |w0.alts| && 0 <= j < |w.alts[u]| && j < |w0.alts[u]| ==> w.alts[u][j].src == w0.alts[u][j].src
    ensures forall a :: a != b ==> (EdgesDone(w0, w, a, nScc) ==> EdgesDone(w0, x, a, nScc)) && (Untouched(w0, w, a) ==> Untouched(w0, x, a))
  {
    forall a | a != b ensures (EdgesDone(w0, w, a, nScc) ==> EdgesDone(w0, x, a, nScc)) && (Untouched(w0, w, a) ==> Untouched(w0, x, a)) {
      EdgesStay(w0, w, x, b, p, t, a, nScc);
    }
  }

  /** Code, new ops and alternatives have changed only at the listed blocks and on their edges. */
  ghost predicate OnlyListed(w0: Renames, w: Renames, live: seq<BlockId>) {
    && |w.code| == |w0.code| && |w.alts| == |w0.alts|
    && (forall b :: 0 <= b < |w.code| && b !in live ==> w.code[b] == w0.code[b])
    && (forall v :: |w0.ops| <= v < |w.ops| ==> w.ops[v].block in live)
    && forall t, i :: 0 <= t < |w.alts| && 0 <= i < |w.alts[t]| && i < |w0.alts[t]| && w.alts[t][i] != w0.alts[t][i] ==>
         w0.alts[t][i].src in live && t in Succ(w0.ops, w0.code, w0.alts[t][i].src)
  }

  lemma ListedNext(w0: Renames, w: Renames, owner: seq<(nat, nat)>, x: Renames, done: seq<BlockId>, b: BlockId)
    requires OnlyListed(w0, w, done) && AltsFrom(w, x, w0, b) && |x.code| == |w.code| && w.ops <= x.ops && Tracked(w0, w, owner)
    requires forall t :: 0 <= t < |w.alts| ==> |x.alts[t]| == |w0.alts[t]|
    requires forall a: nat :: a != b && a < |w.code| ==> x.code[a] == w.code[a]
    requires forall v :: |w.ops| <= v < |x.ops| ==> x.ops[v].block == b
    ensures OnlyListed(w0, x, done + [b])
  {
    forall t, i | 0 <= t < |x.alts| && 0 <= i < |x.alts[t]| && i < |w0.alts[t]| && x.alts[t][i] != w0.alts[t][i]
      ensures w0.alts[t][i].src in done + [b] && t in Succ(w0.ops, w0.code, w0.alts[t][i].src)
    {
      assert OwnedAt(w0, w, owner, t, i);
    }
  }

  lemma JumpLastStays(w0: Renames, w: Renames, x: Renames, b: BlockId, a: BlockId)
    requires JumpLast(w0, w, a) && a != b && |x.code| == |w.code| && x.code[a] == w.code[a] && w.ops <= x.ops
    requires forall v :: |w.ops| <= v < |x.ops| ==> x.ops[v].block == b
    ensures JumpLast(w0, x, a)
  {
    assert Inserted(x, a, |w0.code[a]| - 1) == Inserted(w, a, |w0.code[a]| - 1);
  }

  /** The third pass. Afterwards every alternative on every edge is in the class of its phi or
      a rename in a class of its own. */
  method AddRenames(w0: Renames, live: seq<BlockId>, nScc: nat) returns (w: Renames, ghost owner: seq<(nat, nat)>)
    requires |w0.scc| == |w0.ops| && InRange(w0.alts, |w0.ops|) && |w0.alts| == |w0.code| && NoDup(live)
    requires forall b :: b in live ==> LabelsDiffer(w0, b)
    ensures Ready(w0, w, owner, nScc) && OnlyListed(w0, w, live)
    ensures forall b :: b in live ==> EdgesDone(w0, w, b, nScc) && JumpLast(w0, w, b)
  {
    w, owner := w0, [];
    for li := 0 to |live|
      invariant Ready(w0, w, owner, nScc) && OnlyListed(w0, w, live[..li])
      invariant forall b :: b in live[..li] ==> EdgesDone(w0, w, b, nScc) && JumpLast(w0, w, b)
      invariant forall b :: b in live[li..] ==> Untouched(w0, w, b) && NoneIn(w, |w0.ops|, b)
    {
      var b := live[li];
      assert live[li..] == [b] + live[li + 1..] && live[..li + 1] == live[..li] + [b];
      assert b in live[li..] && b !in live[..li] && b !in live[li + 1..];
      ghost var y := w;
      ghost var before := owner;
      w, owner := RenameBlock(w, b, nScc, w0, owner);
      ListedNext(w0, y, before, w, live[..li], b);
      forall a | a in live[..li] ensures EdgesDone(w0, w, a, nScc) && JumpLast(w0, w, a) {
        assert EdgesDone(w0, y, a, nScc);
        JumpLastStays(w0, y, w, b, a);
      }
      forall a | a in live[li + 1..] ensures Untouched(w0, w, a) && NoneIn(w, |w0.ops|, a) {
        assert a in live[li..];
        assert Untouched(w0, y, a) && NoneIn(y, |w0.ops|, a);
      }
    }
    assert live[..|live|] == live;
  }

  /** Distinct phis of one block in distinct classes have distinct sources on every edge. */
  lemma DistinctSources(w0: Renames, w: Renames, owner: seq<(nat, nat)>, nScc: nat, b: BlockId, t: BlockId, i: nat, j: nat)
    requires Ready(w0, w, owner, nScc) && EdgesDone(w0, w, b, nScc) && t in Succ(w0.ops, w0.code, b) && t < |w.alts|
    requires i < j < |w.alts[t]| && w.alts[t][i].src == b && w.alts[t][j].src == b
    requires w.scc[w0.alts[t][i].phi] != w.scc[w0.alts[t][j].phi]
    ensures w.alts[t][i].val != w.alts[t][j].val
  {
    assert OwnedAt(w0, w, owner, t, i) && OwnedAt(w0, w, owner, t, j);
    assert DoneUpTo(w0, w, b, t, |w.alts[t]|, nScc);
    assert AltOk(w, w0.alts[t][i], w.alts[t][i], |w0.ops|, nScc);
    assert AltOk(w, w0.alts[t][j], w.alts[t][j], |w0.ops|, nScc);
  }

  /** The rename's class is shared with no original value and with no other rename of its
      block. */
  lemma OwnClass(w0: Renames, w: Renames, owner: seq<(nat, nat)>, nScc: nat, v: OpId, x: OpId)
    requires Ready(w0, w, owner, nScc) && |w0.ops| <= v < |w.ops| && x < |w.ops| && x != v
    requires forall y :: 0 <= y < |w0.ops| && w0.scc[y] != NoVal ==> w0.scc[y] < nScc
    requires x < |w0.ops| ==> w0.scc[x] != NoVal
    requires x >= |w0.ops| ==> w.ops[x].block == w.ops[v].block
    ensures w.scc[x] != w.scc[v]
  {
  }
}
