/** Proc::rebuild_cfg (src/opt-dom.cpp): live blocks in discovery order, predecessor lists
    and removal of phi alternatives that no edge feeds. */
module Cfg {
  import opened Digraph
  import opened Lists
  import opened Ir

  /** Block live[k] is a successor of one listed before it. */
  ghost predicate FoundEarlier(ops: seq<Op>, code: seq<seq<OpId>>, live: seq<BlockId>, k: nat)
    requires k < |live|
  {
    exists j :: 0 <= j < k && live[k] in Succ(ops, code, live[j])
  }

  /** Each block after the entry is a successor of one listed before it. */
  ghost predicate DiscoveryOrder(ops: seq<Op>, code: seq<seq<OpId>>, live: seq<BlockId>) {
    && live != [] && live[0] == 0 && NoDup(live)
    && (forall b :: b in live ==> b < |code|)
    && (forall k :: 0 <= k < |live| ==> live[k] < |code|)
    && forall k :: 0 < k < |live| ==> FoundEarlier(ops, code, live, k)
  }

  ghost predicate LiveExact(ops: seq<Op>, code: seq<seq<OpId>>, live: seq<BlockId>) {
    forall b {:trigger LiveBlock(ops, code, b)} :: b in live <==> LiveBlock(ops, code, b)
  }

  ghost predicate ComeFromExact(ops: seq<Op>, code: seq<seq<OpId>>, live: seq<BlockId>,
                                comeFrom: seq<seq<BlockId>>)
  {
    && |comeFrom| == |code|
    && forall b, a :: b in live && b < |code| ==>
         (a in comeFrom[b] <==> a in live && b in Succ(ops, code, a))
  }

  /** The facts about control flow that every later pass relies on. */
  ghost predicate CfgBuilt(ops: seq<Op>, code: seq<seq<OpId>>, live: seq<BlockId>,
                           comeFrom: seq<seq<BlockId>>)
  {
    && CfgOk(ops, code)
    && DiscoveryOrder(ops, code, live)
    && LiveExact(ops, code, live)
    && ComeFromExact(ops, code, live, comeFrom)
  }

  /** Discovery order visits dominators first: every dominator of a listed block is listed at
      or before it. */
  lemma {:induction false} DominatorsFirst(ops: seq<Op>, code: seq<seq<OpId>>, live: seq<BlockId>,
                                           k: nat, d: BlockId)
    requires DiscoveryOrder(ops, code, live) && k < |live|
    requires Dominates(BlockGraph(ops, code), d, live[k])
    ensures exists j :: 0 <= j <= k && live[j] == d
  {
    var p := DiscoveryRun(ops, code, live, k);
  }

  /** The run that discovery follows to a block uses only earlier blocks. */
  lemma {:induction false} DiscoveryRun(ops: seq<Op>, code: seq<seq<OpId>>, live: seq<BlockId>, k: nat)
    returns (p: seq<BlockId>)
    requires DiscoveryOrder(ops, code, live) && k < |live|
    ensures RunTo(BlockGraph(ops, code), p, live[k])
    ensures forall b :: b in p ==> b in live[..k + 1]
    decreases k
  {
    var g := BlockGraph(ops, code);
    if k == 0 {
      p := [0];
    } else {
      assert FoundEarlier(ops, code, live, k);
      var j :| 0 <= j < k && live[k] in Succ(ops, code, live[j]);
      var q := DiscoveryRun(ops, code, live, j);
      assert (live[j], live[k]) in g.edges;
      RunExtend(g, q, live[j], live[k]);
      p := q + [live[k]];
      forall b | b in p ensures b in live[..k + 1] {
        if b in q {
          assert live[..j + 1] <= live[..k + 1];
        } else {
          assert live[..k + 1][k] == b;
        }
      }
    }
  }

  /** A set of blocks that holds the entry and is closed under jumps holds every live block. */
  lemma ClosedHoldsLive(ops: seq<Op>, code: seq<seq<OpId>>, live: seq<BlockId>, b: BlockId)
    requires 0 in live
    requires forall a, s :: a in live && s in Succ(ops, code, a) ==> s in live
    requires LiveBlock(ops, code, b)
    ensures b in live
  {
    var g := BlockGraph(ops, code);
    var p :| RunTo(g, p, b);
    var i := 0;
    while i < |p| - 1
      invariant i < |p| && p[i] in live
    {
      assert (p[i], p[i + 1]) in g.edges;
      i := i + 1;
    }
  }

  /** A phi alternative that survives the cleanup. */
  predicate KeepAlt(ops: seq<Op>, from: seq<BlockId>, a: PhiAlt) {
    !(a.val < |ops| && ops[a.val].opcode.Nop?) && a.src in from
  }

  function KeepAlts(ops: seq<Op>, from: seq<BlockId>, alts: seq<PhiAlt>): seq<PhiAlt> {
    if alts == [] then [] else
      var rest := KeepAlts(ops, from, alts[..|alts| - 1]);
      if KeepAlt(ops, from, alts[|alts| - 1]) then rest + [alts[|alts| - 1]] else rest
  }

  /** What the cleanup keeps is exactly what an edge feeds with a value. */
  lemma {:induction false} KeepAltsExact(ops: seq<Op>, from: seq<BlockId>, alts: seq<PhiAlt>)
    ensures forall a :: a in KeepAlts(ops, from, alts) <==> a in alts && KeepAlt(ops, from, a)
  {
    if alts != [] {
      KeepAltsExact(ops, from, alts[..|alts| - 1]);
    }
  }

  /** The in-place compaction of one alternative list. */
  method CleanAlts(ops: seq<Op>, from: seq<BlockId>, old_: seq<PhiAlt>) returns (alts: seq<PhiAlt>)
    ensures alts == KeepAlts(ops, from, old_)
  {
    alts := old_;
    var j := 0;
    for i := 0 to |alts|
      invariant |alts| == |old_| && j <= i
      invariant alts[..j] == KeepAlts(ops, from, old_[..i])
      invariant alts[i..] == old_[i..]
    {
      assert old_[..i + 1][..i] == old_[..i] && old_[..i + 1][i] == old_[i];
      assert alts[i] == alts[i..][0] == old_[i];
      ghost var kept := alts[..j];
      if KeepAlt(ops, from, alts[i]) {
        if i != j {
          alts := alts[j := alts[i]];
        }
        j := j + 1;
        assert alts[..j] == kept + [old_[i]];
      }
      assert alts[i + 1..] == old_[i + 1..] by {
        assert forall k :: i < k < |alts| ==> old_[i..][k - i] == alts[k];
      }
    }
    assert old_[..|old_|] == old_;
    alts := alts[..j];
  }

  lemma ListGrows(ops: seq<Op>, code: seq<seq<OpId>>, live: seq<BlockId>, b: BlockId, t: BlockId)
    requires DiscoveryOrder(ops, code, live) && b in live
    requires t in Succ(ops, code, b) && t !in live && t < |code|
    ensures DiscoveryOrder(ops, code, live + [t])
  {
    var next := live + [t];
    forall k | 0 < k < |next| ensures FoundEarlier(ops, code, next, k) {
      if k < |live| {
        assert FoundEarlier(ops, code, live, k);
        var j :| 0 <= j < k && live[k] in Succ(ops, code, live[j]);
        assert next[k] in Succ(ops, code, next[j]);
      } else {
        assert next[k] in Succ(ops, code, next[Last(live, b)]);
      }
    }
  }

  /** Blocks found so far, with matching flags. */
  ghost predicate Found(ops: seq<Op>, code: seq<seq<OpId>>, live: seq<BlockId>, flags: seq<bool>) {
    && |flags| == |code|
    && DiscoveryOrder(ops, code, live)
    && (forall b :: 0 <= b < |code| ==> (flags[b] <==> b in live))
    && (forall b :: b in live ==> LiveBlock(ops, code, b))
  }

  lemma FoundGrows(ops: seq<Op>, code: seq<seq<OpId>>, live: seq<BlockId>, flags: seq<bool>, b: BlockId, t: BlockId)
    requires Found(ops, code, live, flags) && b in live
    requires t in Succ(ops, code, b) && t < |code| && !flags[t]
    ensures Found(ops, code, live + [t], flags[t := true])
  {
    assert (b, t) in BlockGraph(ops, code).edges;
    ReachableStep(BlockGraph(ops, code), b, t);
    ListGrows(ops, code, live, b, t);
  }

  /** Put the targets of b that were not seen yet on both lists. */
  method Visit(proc: Proc, b: BlockId, todo0: seq<BlockId>) returns (todo: seq<BlockId>)
    requires CfgOk(proc.prog.ops, proc.prog.code)
    requires Found(proc.prog.ops, proc.prog.code, proc.live, proc.liveFlag) && b in proc.live
    requires forall a :: a in todo0 ==> a in proc.live
    modifies proc`live, proc`liveFlag
    ensures Found(proc.prog.ops, proc.prog.code, proc.live, proc.liveFlag)
    ensures old(proc.live) <= proc.live && (proc.live == old(proc.live) ==> todo == todo0)
    ensures forall s :: s in Succ(proc.prog.ops, proc.prog.code, b) ==> s in proc.live
    ensures forall a :: a in todo <==> a in todo0 || a in proc.live[|old(proc.live)|..]
  {
    var ops, code := proc.prog.ops, proc.prog.code;
    var targets := Succ(ops, code, b);
    ghost var live0 := proc.live;
    todo := todo0;
    assert LiveBlock(ops, code, b) && EndsOk(ops, code, b);
    for k := 0 to |targets|
      invariant Found(ops, code, proc.live, proc.liveFlag)
      invariant live0 <= proc.live && todo == todo0 + proc.live[|live0|..]
      invariant forall s :: s in targets[..k] ==> s in proc.live
    {
      var t := targets[k];
      assert t in targets && targets[..k + 1] == targets[..k] + [t];
      if !proc.liveFlag[t] {
        FoundGrows(ops, code, proc.live, proc.liveFlag, b, t);
        todo := todo + [t];
        proc.live := proc.live + [t];
        proc.liveFlag := proc.liveFlag[t := true];
      }
    }
    assert targets[..|targets|] == targets;
  }

  /** The worklist traversal from the entry. */
  method FindLive(proc: Proc)
    requires proc.Shape() && CfgOk(proc.prog.ops, proc.prog.code)
    requires forall b :: 0 <= b < |proc.liveFlag| && proc.liveFlag[b] ==> b in proc.live
    requires forall b :: b in proc.live ==> b < |proc.prog.code|
    modifies proc`live, proc`liveFlag
    ensures proc.Shape()
    ensures DiscoveryOrder(proc.prog.ops, proc.prog.code, proc.live)
    ensures LiveExact(proc.prog.ops, proc.prog.code, proc.live)
    ensures forall b :: 0 <= b < |proc.liveFlag| ==> (proc.liveFlag[b] <==> b in proc.live)
  {
    var ops, code := proc.prog.ops, proc.prog.code;
    ghost var g := BlockGraph(ops, code);
    for i := 0 to |proc.live|
      invariant proc.live == old(proc.live) && |proc.liveFlag| == |code|
      invariant forall b :: 0 <= b < |code| && proc.liveFlag[b] ==> b in proc.live[i..]
    {
      var b := proc.live[i];
      assert b in proc.live;
      proc.liveFlag := proc.liveFlag[b := false];
    }
    var todo: seq<BlockId> := [0];
    proc.live := [0];
    proc.liveFlag := proc.liveFlag[0 := true];
    RootReachable(g, 0);
    while todo != []
      invariant Found(ops, code, proc.live, proc.liveFlag)
      invariant forall b :: b in todo ==> b in proc.live
      invariant forall a, s :: a in proc.live && a !in todo && s in Succ(ops, code, a) ==> s in proc.live
      decreases |code| - |proc.live|, |todo|
    {
      var b := todo[|todo| - 1];
      ghost var todo0 := todo;
      assert b in todo && forall a :: a in todo0 ==> a == b || a in todo0[..|todo0| - 1];
      todo := todo[..|todo| - 1];
      ghost var live0 := proc.live;
      todo := Visit(proc, b, todo);
      assert proc.live == live0 + proc.live[|live0|..];
      BoundedSize(proc.live, |code|);
    }
    forall b | LiveBlock(ops, code, b) ensures b in proc.live {
      ClosedHoldsLive(ops, code, proc.live, b);
    }
  }

  /** The lists hold the edges out of the given blocks. */
  ghost predicate FedBy(ops: seq<Op>, code: seq<seq<OpId>>, live: seq<BlockId>,
                        comeFrom: seq<seq<BlockId>>, done: seq<BlockId>)
  {
    && |comeFrom| == |code|
    && forall b, a :: b in live && b < |code| ==> (a in comeFrom[b] <==> a in done && b in Succ(ops, code, a))
  }

  lemma FedByStep(ops: seq<Op>, code: seq<seq<OpId>>, live: seq<BlockId>, before: seq<seq<BlockId>>,
                  after: seq<seq<BlockId>>, from: BlockId, done: seq<BlockId>)
    requires FedBy(ops, code, live, before, done) && |after| == |code|
    requires forall b, a :: 0 <= b < |code| ==>
               (a in after[b] <==> a in before[b] || (a == from && b in Succ(ops, code, from)))
    ensures FedBy(ops, code, live, after, [from] + done)
  {
  }

  /** How often a jump of a names b, for a in done; the lists name a that often. */
  ghost predicate Counts(ops: seq<Op>, code: seq<seq<OpId>>, comeFrom: seq<seq<BlockId>>, done: seq<BlockId>, b: BlockId, a: BlockId)
    requires b < |comeFrom|
  {
    multiset(comeFrom[b])[a] == if a in done then multiset(Succ(ops, code, a))[b] else 0
  }

  ghost predicate CountedBy(ops: seq<Op>, code: seq<seq<OpId>>, live: seq<BlockId>, comeFrom: seq<seq<BlockId>>, done: seq<BlockId>) {
    |comeFrom| == |code| && forall b: BlockId, a: BlockId :: b in live && b < |code| ==> Counts(ops, code, comeFrom, done, b, a)
  }

  lemma CountedByStep(ops: seq<Op>, code: seq<seq<OpId>>, live: seq<BlockId>, before: seq<seq<BlockId>>,
                      after: seq<seq<BlockId>>, from: BlockId, done: seq<BlockId>)
    requires CountedBy(ops, code, live, before, done) && |after| == |code| && from !in done
    requires forall b, a: BlockId :: 0 <= b < |code| ==>
               multiset(after[b])[a] == multiset(before[b])[a] + if a == from then multiset(Succ(ops, code, from))[b] else 0
    ensures CountedBy(ops, code, live, after, [from] + done)
  {
    forall b: BlockId, a: BlockId | b in live && b < |code| ensures Counts(ops, code, after, [from] + done, b, a) {
      assert Counts(ops, code, before, done, b, a);
    }
  }

  /** Add a block to the lists of its targets, once for each label. */
  method FeedTargets(ops: seq<Op>, code: seq<seq<OpId>>, comeFrom0: seq<seq<BlockId>>, from: BlockId) returns (comeFrom: seq<seq<BlockId>>)
    requires EndsOk(ops, code, from) && |comeFrom0| == |code|
    ensures |comeFrom| == |code|
    ensures forall b, a :: 0 <= b < |code| ==>
              (a in comeFrom[b] <==> a in comeFrom0[b] || (a == from && b in Succ(ops, code, from)))
    ensures forall b, a: BlockId :: 0 <= b < |code| ==>
              multiset(comeFrom[b])[a] == multiset(comeFrom0[b])[a] + if a == from then multiset(Succ(ops, code, from))[b] else 0
  {
    comeFrom := comeFrom0;
    var op := ops[code[from][|code[from]| - 1]];
    if op.opcode.Cond? {
      assert op.label1 in Succ(ops, code, from);
      comeFrom := comeFrom[op.label1 := comeFrom[op.label1] + [from]];
    }
    if op.IsJump() {
      assert op.label0 in Succ(ops, code, from);
      comeFrom := comeFrom[op.label0 := comeFrom[op.label0] + [from]];
    }
  }

  /** Predecessor lists, filled in reverse discovery order. */
  method FillComeFrom(proc: Proc)
    requires proc.Shape() && CfgOk(proc.prog.ops, proc.prog.code)
    requires DiscoveryOrder(proc.prog.ops, proc.prog.code, proc.live)
    requires LiveExact(proc.prog.ops, proc.prog.code, proc.live)
    modifies proc`comeFrom
    ensures proc.Shape()
    ensures ComeFromExact(proc.prog.ops, proc.prog.code, proc.live, proc.comeFrom)
    ensures CountedBy(proc.prog.ops, proc.prog.code, proc.live, proc.comeFrom, proc.live)
  {
    var ops, code, live := proc.prog.ops, proc.prog.code, proc.live;
    var bi := |live|;
    while bi > 0
      invariant 0 <= bi <= |live| && |proc.comeFrom| == |code|
      invariant forall b :: b in live[bi..] ==> b < |code| && proc.comeFrom[b] == []
    {
      bi := bi - 1;
      proc.comeFrom := proc.comeFrom[live[bi] := []];
      assert live[bi..] == [live[bi]] + live[bi + 1..];
    }
    assert live[0..] == live;
    bi := |live|;
    while bi > 0
      invariant 0 <= bi <= |live| && |proc.comeFrom| == |code|
      invariant FedBy(ops, code, live, proc.comeFrom, live[bi..])
      invariant CountedBy(ops, code, live, proc.comeFrom, live[bi..])
    {
      bi := bi - 1;
      var from := live[bi];
      assert from in live && LiveBlock(ops, code, from) && EndsOk(ops, code, from);
      ghost var before := proc.comeFrom;
      proc.comeFrom := FeedTargets(ops, code, proc.comeFrom, from);
      assert live[bi..] == [from] + live[bi + 1..];
      FedByStep(ops, code, live, before, proc.comeFrom, from, live[bi + 1..]);
      CountedByStep(ops, code, live, before, proc.comeFrom, from, live[bi + 1..]);
    }
    assert live[0..] == live;
  }

  method CleanAllAlts(ops: seq<Op>, live: seq<BlockId>, comeFrom: seq<seq<BlockId>>, alts0: seq<seq<PhiAlt>>)
    returns (alts: seq<seq<PhiAlt>>)
    requires NoDup(live) && |comeFrom| == |alts0|
    requires forall k :: 0 <= k < |live| ==> live[k] < |alts0|
    ensures |alts| == |alts0|
    ensures forall b :: 0 <= b < |alts| ==>
              alts[b] == if b in live then KeepAlts(ops, comeFrom[b], alts0[b]) else alts0[b]
  {
    alts := alts0;
    for i := 0 to |live|
      invariant |alts| == |alts0|
      invariant forall b :: 0 <= b < |alts| ==>
        alts[b] == if b in live[..i] then KeepAlts(ops, comeFrom[b], alts0[b]) else alts0[b]
    {
      var b := live[i];
      assert b !in live[..i];
      var kept := CleanAlts(ops, comeFrom[b], alts[b]);
      alts := alts[b := kept];
      assert live[..i + 1] == live[..i] + [b];
    }
    assert live[..|live|] == live;
  }

  /** rebuild_cfg */
  method RebuildCfg(proc: Proc)
    requires proc.Shape() && CfgOk(proc.prog.ops, proc.prog.code)
    requires forall b :: 0 <= b < |proc.liveFlag| && proc.liveFlag[b] ==> b in proc.live
    requires forall b :: b in proc.live ==> b < |proc.prog.code|
    modifies proc`live, proc`liveFlag, proc`comeFrom, proc`prog
    ensures proc.Shape()
    ensures proc.prog.ops == old(proc.prog.ops) && proc.prog.code == old(proc.prog.code)
    ensures CfgBuilt(proc.prog.ops, proc.prog.code, proc.live, proc.comeFrom)
    ensures CountedBy(proc.prog.ops, proc.prog.code, proc.live, proc.comeFrom, proc.live)
    ensures forall b :: 0 <= b < |proc.liveFlag| ==> (proc.liveFlag[b] <==> b in proc.live)
    ensures forall b :: 0 <= b < |proc.prog.code| ==>
              proc.prog.alts[b] == if b in proc.live
                                   then KeepAlts(proc.prog.ops, proc.comeFrom[b], old(proc.prog.alts[b]))
                                   else old(proc.prog.alts[b])
  {
    FindLive(proc);
    FillComeFrom(proc);
    var alts := CleanAllAlts(proc.prog.ops, proc.live, proc.comeFrom, proc.prog.alts);
    proc.prog := proc.prog.(alts := alts);
  }
}
