/** An input on which csePair (src/opt-cse.cpp) leaves a load behind the jump of its block: equal
    loads of the same memory version in both arms of a branch. */
module LoadDiamond {
  import opened Digraph
  import opened Words
  import opened Ir
  import opened Lists
  import opened Cfg
  import opened DomTheory
  import opened Ssa
  import opened MemTags
  import opened MemSound
  import opened RenameMap
  import opened CodeMotion
  import opened Cse
  import Dominators

  /** Block 0 allocates and branches, blocks 1 and 2 load from what was allocated and jump to
      block 3, which returns. */
  function Diamond(): Program {
    Program([
              Op(Effect(0, true), [], 0, NoVal, NoVal, 0, 0, 0),
              Op(Cond(0), [0], 0, 1, 2, 0, 1, 0),
              Op(Load(0), [0], 0, NoVal, NoVal, 1, 0, 0),
              Op(Jmp, [], 0, 3, NoVal, 1, 1, 0),
              Op(Load(0), [0], 0, NoVal, NoVal, 2, 0, 0),
              Op(Jmp, [], 0, 3, NoVal, 2, 1, 0),
              Op(Exit(0), [0], 0, NoVal, NoVal, 3, 0, 0)],
            [[0, 1], [2, 3], [4, 5], [6]], [[], [], [], []])
  }

  ghost function Blocks(): Graph<BlockId> { BlockGraph(Diamond().ops, Diamond().code) }

  lemma Successors(b: BlockId)
    ensures Succ(Diamond().ops, Diamond().code, b) == if b == 0 then [1, 2] else if b == 1 || b == 2 then [3] else []
  {
  }

  lemma AllLive(b: BlockId)
    ensures LiveBlock(Diamond().ops, Diamond().code, b) <==> b < 4
  {
    var g := Blocks();
    Successors(0);
    Successors(1);
    RootReachable(g, 0);
    ReachableStep(g, 0, 1);
    ReachableStep(g, 0, 2);
    ReachableStep(g, 1, 3);
    if LiveBlock(Diamond().ops, Diamond().code, b) {
      forall a, s | a in [0, 1, 2, 3] && s in Succ(Diamond().ops, Diamond().code, a) ensures s in [0, 1, 2, 3] {
        Successors(a);
      }
      ClosedHoldsLive(Diamond().ops, Diamond().code, [0, 1, 2, 3], b);
    }
  }

  /** The arms are entered from block 0 only. */
  lemma Arm(a: BlockId, d: BlockId)
    requires a == 1 || a == 2
    ensures Dominates(Blocks(), d, a) <==> d == 0 || d == a
  {
    Successors(0);
    assert (0, a) in Blocks().edges;
    assert RunTo(Blocks(), [0, a], a);
    Dominators.EntryDominates(Blocks(), a);
  }

  lemma DiamondPlaced()
    ensures Placed(Diamond())
  {
    forall b | LiveBlock(Diamond().ops, Diamond().code, b) ensures EndsOk(Diamond().ops, Diamond().code, b) {
      AllLive(b);
      Successors(b);
    }
    forall b: BlockId, j: nat | LiveBlock(Diamond().ops, Diamond().code, b) && b < 4 && j < |Diamond().code[b]|
      ensures PlacedAt(Diamond(), b, j)
    {
    }
  }

  /** What block 0 allocates is available everywhere else. */
  lemma AddressAvailable(b: BlockId, j: nat)
    requires b < 4 && j < |Diamond().code[b]| && (b == 0 ==> j == 1)
    ensures InputOk(Diamond(), Point(b, j + 1), 0)
  {
    AllLive(0);
    assert Defined(Diamond(), 0) && DefPoint(Diamond().ops, 0) == Point(0, 1);
    if b == 0 {
      SameBlockDominates(Diamond().ops, Diamond().code, 0, 1, 2);
    } else {
      Dominators.EntryDominates(Blocks(), b);
      BlockDominanceLifts(Diamond().ops, Diamond().code, 0, 1, b, j + 1);
    }
  }

  lemma DiamondStrict()
    ensures StrictSsa(Diamond())
  {
    var p := Diamond();
    DiamondPlaced();
    forall b: BlockId, j: nat | LiveBlock(p.ops, p.code, b) && b < |p.code| && j < |p.code[b]| ensures InputsOk(p, b, j) {
      DiamondInputs(b, j);
    }
    assert forall b, v :: !IsPhiOf(p, b, v) by { NoPhis(); }
  }

  lemma NoPhis()
    ensures forall b, v :: !IsPhiOf(Diamond(), b, v)
  {
  }

  lemma DiamondInputs(b: BlockId, j: nat)
    requires b < 4 && j < |Diamond().code[b]|
    ensures InputsOk(Diamond(), b, j)
  {
    if b != 0 || j == 1 {
      AddressAvailable(b, j);
    }
  }

  /** The loads see the same version of memory, whatever the analysis finds, as long as it has
      converged; so they are taken for equal. */
  lemma SameVersion(live: seq<BlockId>, comeFrom: seq<seq<BlockId>>, t: Tags, opTag: seq<OpId>)
    requires Analysed(Diamond(), false, live, comeFrom, t, opTag)
    ensures Cse.Same(Diamond(), t, opTag, false, 2, 4)
  {
    var p := Diamond();
    ArmTag(live, comeFrom, t, 1);
    ArmTag(live, comeFrom, t, 2);
    assert 1 in live && 2 in live;
    assert p.code[1][0] == 2 && p.code[2][0] == 4 && p.ops[2].HasMemTag() && p.ops[4].HasMemTag();
    assert opTag[2] == LocalTag(p.ops, p.code[1], false, 0) && opTag[4] == LocalTag(p.ops, p.code[2], false, 0);
  }

  lemma ArmTag(live: seq<BlockId>, comeFrom: seq<seq<BlockId>>, t: Tags, a: BlockId)
    requires CfgBuilt(Diamond().ops, Diamond().code, live, comeFrom) && Solved(Diamond(), false, live, comeFrom, t) && (a == 1 || a == 2)
    ensures a in live && a < |t.tag| && t.tag[a] == 0
  {
    var p := Diamond();
    AllLive(0);
    AllLive(a);
    assert 0 in live && a in live;
    Successors(0);
    assert OutTag(p, false, 0) == 0 by {
      assert LocalTag(p.ops, p.code[0], false, 2) == LocalTag(p.ops, p.code[0], false, 1);
    }
    assert t.out[0] == 0 && MergedAt(p, comeFrom, t, a);
    forall c | c in comeFrom[a] ensures c == 0 {
      Successors(c);
    }
    assert 0 in comeFrom[a];
    assert forall k :: 0 <= k < |comeFrom[a]| ==> comeFrom[a][k] in comeFrom[a];
  }

  lemma ListSizes(live: seq<BlockId>, dom: seq<seq<BlockId>>, idom: seq<BlockId>, pdom: seq<BlockId>, a: BlockId)
    requires Cse.Flow(Diamond(), live, dom, idom, pdom) && (a == 1 || a == 2)
    ensures a in live && 0 in live && |dom[a]| <= 2 && 1 <= |dom[0]|
  {
    AllLive(a);
    AllLive(0);
    assert a in live;
    forall d | d in dom[a] ensures d in [0, a] {
      Arm(a, d);
    }
    SubListSize(dom[a], [0, a]);
    Dominators.EntryDominates(Blocks(), 0);
    assert 0 in dom[0];
  }

  /** Neither arm dominates the other, both are reached from block 0 without a detour, and so
      whatever csePair is asked to do with the two loads, it moves the first one to the end of
      block 0, behind the jump. */
  lemma LoadEndsBehindJump(live: seq<BlockId>, dom: seq<seq<BlockId>>, idom: seq<BlockId>, pdom: seq<BlockId>,
                           stays: Opcode -> bool, ccd: BlockId, o: Outcome)
    requires Cse.Flow(Diamond(), live, dom, idom, pdom)
    requires NearestCommon(Diamond(), 1, 2, ccd) && PairDone(Diamond(), dom, pdom, stays, 2, 4, ccd, o)
    ensures StrictSsa(Diamond()) && Defined(Diamond(), 2) && Defined(Diamond(), 4) && Diamond().ops[2].ins == Diamond().ops[4].ins
    ensures ccd == 0 && NoDetour(dom, pdom, 1, 0) && NoDetour(dom, pdom, 2, 0) && o == Moves(Entry(4, 2), 0, |Diamond().code[0]|)
  {
    DiamondStrict();
    AllLive(1);
    AllLive(2);
    Arm(1, ccd);
    Arm(2, ccd);
    Arm(1, 2);
    Arm(2, 1);
    Within(live, dom, idom, pdom, 1);
    Within(live, dom, idom, pdom, 2);
  }

  lemma Within(live: seq<BlockId>, dom: seq<seq<BlockId>>, idom: seq<BlockId>, pdom: seq<BlockId>, a: BlockId)
    requires Cse.Flow(Diamond(), live, dom, idom, pdom) && (a == 1 || a == 2)
    ensures NoDetour(dom, pdom, a, 0)
  {
    ListSizes(live, dom, idom, pdom, a);
    forall i | 0 <= i < |dom[a]| ensures dom[a][i] < |pdom| {
      assert dom[a][i] in dom[a];
      AllLive(dom[a][i]);
    }
  }
}
