/** Proc::findSCC (src/opt-ra.cpp) as a whole: its three passes one after another. */
module StackClasses {
  import Digraph
  import opened Ir
  import opened Lists
  import opened Cfg
  import opened Ssa
  import opened Liveness
  import Scc
  import opened SccEdges
  import opened SccMeaning

  function FlowOf(p: Program, live: seq<BlockId>, comeFrom: seq<seq<BlockId>>): Flow {
    Flow(p.ops, p.code, p.alts, comeFrom, live)
  }

  /** The two labels of every conditional jump differ. */
  ghost predicate LabelsApart(p: Program, live: seq<BlockId>) {
    forall b: BlockId :: b in live ==> TargetsApart(p, b)
  }

  ghost predicate TargetsApart(p: Program, b: BlockId) {
    var s := Succ(p.ops, p.code, b);
    |s| == 2 ==> s[0] != s[1]
  }

  /** What rebuild_cfg leaves is what the second pass starts from, if no jump names one label
      twice. */
  lemma RebuiltFlow(p: Program, live: seq<BlockId>, comeFrom: seq<seq<BlockId>>)
    requires Placed(p) && CfgBuilt(p.ops, p.code, live, comeFrom) && CountedBy(p.ops, p.code, live, comeFrom, live)
    requires LabelsApart(p, live)
    ensures FlowOk(FlowOf(p, live, comeFrom))
  {
    var f := FlowOf(p, live, comeFrom);
    forall b | b in f.live ensures EndsPlaced(f, b) {
      assert LiveBlock(p.ops, p.code, b) && EndsOk(p.ops, p.code, b) && TargetsApart(p, b);
      assert PlacedAt(p, b, |p.code[b]| - 1);
      forall t | t in Targets(f, b) ensures t in f.live {
        SuccLive(p, b, t);
      }
      forall v | v in f.code[b] ensures v < |f.ops| {
        var j :| 0 <= j < |p.code[b]| && p.code[b][j] == v;
        assert PlacedAt(p, b, j);
      }
    }
    forall b | b in f.live ensures b < |f.comeFrom| && FedExactly(f, b) {
      OncePerSource(p, live, comeFrom, b);
    }
  }

  lemma SuccLive(p: Program, b: BlockId, t: BlockId)
    requires LiveBlock(p.ops, p.code, b) && t in Succ(p.ops, p.code, b)
    ensures LiveBlock(p.ops, p.code, t)
  {
    assert (b, t) in BlockGraph(p.ops, p.code).edges;
    Digraph.ReachableStep(BlockGraph(p.ops, p.code), b, t);
  }

  /** With different labels every predecessor is listed once. */
  lemma OncePerSource(p: Program, live: seq<BlockId>, comeFrom: seq<seq<BlockId>>, b: BlockId)
    requires CountedBy(p.ops, p.code, live, comeFrom, live) && LabelsApart(p, live) && b in live && b < |p.code|
    ensures NoDup(comeFrom[b])
  {
    forall a: BlockId ensures multiset(comeFrom[b])[a] <= 1 {
      assert Counts(p.ops, p.code, comeFrom, live, b, a);
      if a in live {
        assert TargetsApart(p, a);
      }
    }
    var s := comeFrom[b];
    forall i, j | 0 <= i < j < |s| ensures s[i] != s[j] {
      if s[i] == s[j] {
        TwiceCounted(s, i, j);
      }
    }
  }

  lemma TwiceCounted(s: seq<BlockId>, i: nat, j: nat)
    requires i < j < |s| && s[i] == s[j]
    ensures multiset(s)[s[i]] >= 2
  {
    assert s == s[..j] + [s[j]] + s[j + 1..];
    assert s[..j][i] in multiset(s[..j]);
  }

  /** In strict SSA every phi has an alternative on every edge. */
  lemma StrictIsCarried(p: Program, live: seq<BlockId>, comeFrom: seq<seq<BlockId>>)
    requires StrictSsa(p) && LiveExact(p.ops, p.code, live) && FlowOk(FlowOf(p, live, comeFrom))
    ensures Carried(FlowOf(p, live, comeFrom))
  {
    var f := FlowOf(p, live, comeFrom);
    forall a, t, v | a in live && t in Targets(f, a) && IsPhiIn(f, t, v) ensures HasAlt(f, a, t, v) {
      assert EndsPlaced(f, a) && t in live;
      assert LiveBlock(p.ops, p.code, a) && LiveBlock(p.ops, p.code, t);
      var j :| 0 <= j < |p.code[t]| && p.code[t][j] == v;
      assert PlacedAt(p, t, j);
      assert IsPhiOf(p, t, v) && EdgeOk(p, a, t, v);
      var x := PhiSource(p.alts[t], v, a);
      var i :| 0 <= i < |p.alts[t]| && p.alts[t][i] == PhiAlt(v, a, x);
    }
  }

  /** Alternatives i and j of t are on the edge from b and belong to different phis. */
  ghost predicate TwoSources(f: Flow, w: Renames, b: BlockId, t: BlockId, i: nat, j: nat) {
    && b in f.live && t in Targets(f, b) && t < |w.alts| && i < |w.alts[t]| && j < |w.alts[t]|
    && w.alts[t][i].src == b && w.alts[t][j].src == b && w.alts[t][i].phi != w.alts[t][j].phi
    && IsPhiIn(f, t, w.alts[t][i].phi) && IsPhiIn(f, t, w.alts[t][j].phi)
  }

  /** On every edge, different phis of the target take different values. */
  ghost predicate SourcesDiffer(f: Flow, w: Renames) {
    forall b: BlockId, t: BlockId, i: nat, j: nat :: TwoSources(f, w, b, t, i, j) ==> w.alts[t][i].val != w.alts[t][j].val
  }

  /** A value added for an edge has a class that no value of the program has, live at the jump
      or not, and no other value added in its block. */
  ghost predicate OwnClasses(p: Program, f: Flow, w: Renames) {
    |w.scc| == |w.ops| && forall v, x ::
      |f.ops| <= v < |w.ops| && 0 <= x < |w.ops| && x != v && (Defined(p, x) || (x >= |f.ops| && w.ops[x].block == w.ops[v].block))
      ==> w.scc[x] != w.scc[v]
  }

  lemma PhisDiffer(p: Program, live: seq<BlockId>, scc: Scc.Classes, t: BlockId, x: OpId, y: OpId)
    requires Placed(p) && LiveExact(p.ops, p.code, live) && Scc.ClassesOk(p, scc) && Scc.PhisApart(p, scc)
    requires t in live && t < |p.code| && x in p.code[t] && y in p.code[t] && x != y
    requires x < |p.ops| && y < |p.ops| && p.ops[x].opcode.Phi? && p.ops[y].opcode.Phi?
    ensures scc[x] != scc[y]
  {
    assert LiveBlock(p.ops, p.code, t);
    var i :| 0 <= i < |p.code[t]| && p.code[t][i] == x;
    var j :| 0 <= j < |p.code[t]| && p.code[t][j] == y;
    assert PlacedAt(p, t, i) && PlacedAt(p, t, j);
    assert Defined(p, x) && Defined(p, y);
  }

  lemma TwoSourcesDiffer(p: Program, live: seq<BlockId>, scc: Scc.Classes, f: Flow, w0: Renames, w: Renames, owner: seq<(nat, nat)>,
                         nScc: nat, comeFrom: seq<seq<BlockId>>, b: BlockId, t: BlockId, i: nat, j: nat)
    requires Placed(p) && LiveExact(p.ops, p.code, live) && Scc.ClassesOk(p, scc) && Scc.PhisApart(p, scc)
    requires Grown(FlowOf(p, live, comeFrom), f) && FlowOk(f)
    requires w0.ops == f.ops && w0.code == f.code && w0.alts == f.alts && scc <= w0.scc
    requires Ready(w0, w, owner, nScc) && EdgesDone(w0, w, b, nScc) && TwoSources(f, w, b, t, i, j)
    ensures w.alts[t][i].val != w.alts[t][j].val
  {
    var x, y := w.alts[t][i].phi, w.alts[t][j].phi;
    assert EndsPlaced(f, b) && t in f.live;
    assert OwnedAt(w0, w, owner, t, i) && OwnedAt(w0, w, owner, t, j);
    assert t < |p.code| && f.code[t] == p.code[t];
    assert x < |p.ops| && SameButLabels(p.ops[x], f.ops[x]) && y < |p.ops| && SameButLabels(p.ops[y], f.ops[y]);
    PhisDiffer(p, live, scc, t, x, y);
    if i < j {
      DistinctSources(w0, w, owner, nScc, b, t, i, j);
    } else {
      DistinctSources(w0, w, owner, nScc, b, t, j, i);
    }
  }

  lemma AllSourcesDiffer(p: Program, live: seq<BlockId>, scc: Scc.Classes, f: Flow, w0: Renames, w: Renames,
                         owner: seq<(nat, nat)>, nScc: nat, comeFrom: seq<seq<BlockId>>)
    requires Placed(p) && LiveExact(p.ops, p.code, live) && Scc.ClassesOk(p, scc) && Scc.PhisApart(p, scc)
    requires Grown(FlowOf(p, live, comeFrom), f) && FlowOk(f)
    requires w0.ops == f.ops && w0.code == f.code && w0.alts == f.alts && scc <= w0.scc
    requires Ready(w0, w, owner, nScc) && forall b :: b in f.live ==> EdgesDone(w0, w, b, nScc)
    ensures SourcesDiffer(f, w)
  {
    forall b: BlockId, t: BlockId, i: nat, j: nat | TwoSources(f, w, b, t, i, j) ensures w.alts[t][i].val != w.alts[t][j].val {
      TwoSourcesDiffer(p, live, scc, f, w0, w, owner, nScc, comeFrom, b, t, i, j);
    }
  }

  lemma AllOwnClasses(p: Program, scc: Scc.Classes, f: Flow, w0: Renames, w: Renames, owner: seq<(nat, nat)>, nScc: nat)
    requires w0.ops == f.ops && scc <= w0.scc && |scc| == |p.ops| <= |f.ops| && Scc.ClassesOk(p, scc)
    requires forall x :: 0 <= x < |w0.scc| ==> w0.scc[x] < nScc || w0.scc[x] == NoVal
    requires Ready(w0, w, owner, nScc)
    ensures OwnClasses(p, f, w)
  {
    forall v, x |
      |f.ops| <= v < |w.ops| && 0 <= x < |w.ops| && x != v && (Defined(p, x) || (x >= |f.ops| && w.ops[x].block == w.ops[v].block))
      ensures w.scc[x] != w.scc[v]
    {
      OwnClass(w0, w, owner, nScc, v, x);
    }
  }

  lemma AllInClass(f: Flow, w0: Renames, w: Renames, owner: seq<(nat, nat)>, nScc: nat)
    requires w0.ops == f.ops && w0.code == f.code && w0.alts == f.alts
    requires Ready(w0, w, owner, nScc) && forall b :: b in f.live ==> EdgesDone(w0, w, b, nScc)
    ensures EdgesInClass(f, w)
  {
    forall b, t: BlockId, i: nat | OnEdge(f, b, t, i) ensures AltOk(w, f.alts[t][i], w.alts[t][i], |f.ops|, 0) {
      assert DoneUpTo(w0, w, b, t, |w.alts[t]|, nScc);
    }
  }

  lemma AllUsed(f: Flow, w0: Renames, w: Renames, owner: seq<(nat, nat)>, nScc: nat)
    requires w0.ops == f.ops && Ready(w0, w, owner, nScc)
    ensures CopiesUsed(f, w)
  {
    forall v | |f.ops| <= v < |w.ops| ensures CopyUsed(w, v) {
      var k := v - |f.ops|;
      assert UsedAt(w, owner[k].0, owner[k].1, |w0.ops| + k);
    }
  }

  lemma AllRenamed(f: Flow, w0: Renames, w: Renames, owner: seq<(nat, nat)>, nScc: nat)
    requires w0.ops == f.ops && w0.code == f.code && w0.alts == f.alts && Ready(w0, w, owner, nScc) && OnlyListed(w0, w, f.live)
    requires forall b :: b in f.live ==> EdgesDone(w0, w, b, nScc) && JumpLast(w0, w, b)
    ensures Renamed(f, w)
  {
    AllInClass(f, w0, w, owner, nScc);
    AllUsed(f, w0, w, owner, nScc);
    forall b | b in f.live ensures JumpLast(Unrenamed(f), w, b) {
      assert JumpLast(w0, w, b);
    }
  }

  lemma InputsGiven(p: Program, live: seq<BlockId>, livein: LiveLists, comeFrom: seq<seq<BlockId>>)
    requires Scc.Inputs(p, live, livein) && InRange(p.alts, |p.ops|)
    ensures Given(FlowOf(p, live, comeFrom))
  {
    assert ProgramOf(FlowOf(p, live, comeFrom)) == p;
  }

  /** findSCC: first classes for all values, then no critical edges, then renames on edges.
      Values that are live together keep different classes, a phi has the class of one of its
      alternatives unless those are taken, on every edge each phi takes a
      value of its own class or a new copy whose class nothing else at that jump has, and
      different phis take different values. Otherwise the program is what it was: every edge
      goes where it went, and copies stand in front of the jumps of the edges they are for. */
  method FindScc(p: Program, live: seq<BlockId>, livein: LiveLists, comeFrom: seq<seq<BlockId>>, nUse0: seq<nat>)
    returns (f: Flow, w: Renames)
    requires Scc.Inputs(p, live, livein) && |nUse0| == |p.ops|
    requires FlowOk(FlowOf(p, live, comeFrom)) && InRange(p.alts, |p.ops|) && SourcesIn(FlowOf(p, live, comeFrom))
    ensures |p.ops| <= |w.scc| && Scc.ClassesOk(p, w.scc[..|p.ops|]) && Carried(f) && forall a, t :: !Critical(f, a, t)
    ensures Scc.ChosenUpTo(p, live, livein, w.scc[..|p.ops|], |live|, 0)
    ensures SourcesDiffer(f, w) && OwnClasses(p, f, w)
    ensures Passes(FlowOf(p, live, comeFrom), f, w)
    ensures Numbers(w) ==> Done(FlowOf(p, live, comeFrom), f, w)
  {
    var f0 := FlowOf(p, live, comeFrom);
    StrictIsCarried(p, live, comeFrom);
    InputsGiven(p, live, livein, comeFrom);
    var scc, nScc := Scc.FindScc(p, live, livein, nUse0);
    f := BreakEdges(f0);
    ghost var owner;
    w, owner := RenameEdges(f0, f, scc, nScc);
    FinishRenames(p, live, livein, comeFrom, scc, nScc, f, w, owner);
  }

  /** The third pass, with the classes of the first one for the program's values. */
  method RenameEdges(f0: Flow, f: Flow, scc: Scc.Classes, nScc: nat) returns (w: Renames, ghost owner: seq<(nat, nat)>)
    requires FlowOk(f) && Grown(f0, f) && InRange(f0.alts, |f0.ops|) && |scc| == |f0.ops|
    ensures var w0 := Start(f0, f, scc);
            Ready(w0, w, owner, nScc) && OnlyListed(w0, w, f.live) && forall b :: b in f.live ==> EdgesDone(w0, w, b, nScc) && JumpLast(w0, w, b)
  {
    StillInRange(f0, f);
    forall b | b in f.live ensures LabelsDiffer(Start(f0, f, scc), b) {
      assert EndsPlaced(f, b) && JumpPlaced(f, b);
    }
    w, owner := AddRenames(Start(f0, f, scc), f.live, nScc);
  }

  /** New jumps have no class. */
  function Start(f0: Flow, f: Flow, scc: Scc.Classes): Renames
    requires |f0.ops| <= |f.ops|
  {
    Renames(f.ops, f.code, f.alts, scc + seq(|f.ops| - |f0.ops|, _ => NoVal))
  }

  lemma FinishRenames(p: Program, live: seq<BlockId>, livein: LiveLists, comeFrom: seq<seq<BlockId>>, scc: Scc.Classes, nScc: nat,
                      f: Flow, w: Renames, owner: seq<(nat, nat)>)
    requires Scc.Inputs(p, live, livein) && Scc.ClassesOk(p, scc) && Scc.PhisApart(p, scc)
    requires forall x: OpId :: x < |scc| ==> scc[x] < nScc || (scc[x] == NoVal && !Defined(p, x))
    requires FlowOk(f) && Grown(FlowOf(p, live, comeFrom), f) && InRange(p.alts, |p.ops|)
    requires var w0 := Start(FlowOf(p, live, comeFrom), f, scc);
             Ready(w0, w, owner, nScc) && OnlyListed(w0, w, f.live) && forall b :: b in f.live ==> EdgesDone(w0, w, b, nScc) && JumpLast(w0, w, b)
    ensures |p.ops| <= |w.scc| && w.scc[..|p.ops|] == scc && SourcesDiffer(f, w) && OwnClasses(p, f, w) && Renamed(f, w)
  {
    var w0 := Start(FlowOf(p, live, comeFrom), f, scc);
    AllSourcesDiffer(p, live, scc, f, w0, w, owner, nScc, comeFrom);
    AllOwnClasses(p, scc, f, w0, w, owner, nScc);
    AllRenamed(f, w0, w, owner, nScc);
    assert w.scc[..|p.ops|] == scc;
  }

  lemma StillInRange(f0: Flow, f: Flow)
    requires Grown(f0, f) && InRange(f0.alts, |f0.ops|)
    ensures InRange(f.alts, |f.ops|)
  {
    forall t, i | 0 <= t < |f.alts| && 0 <= i < |f.alts[t]| ensures f.alts[t][i].val < |f.ops| && f.alts[t][i].phi < |f.ops| {
      if t < |f0.alts| {
        assert SameButSources(f0.alts[t], f.alts[t]);
      }
    }
  }
}
