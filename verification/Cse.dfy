/** Elimination of a common subexpression by an equal op that dominates it: csePair in
    src/opt-cse.cpp and the rename map of src/bjit-impl.h. */
module Cse {
  import opened Digraph
  import opened Ir
  import opened Words
  import opened Cfg
  import opened Lists
  import opened DomTheory
  import opened Ssa
  import opened Renaming
  import opened MemTags
  import opened MemSound
  import opened RenameMap
  import opened CodeMotion
  import Dominators

  datatype Option<T> = None | Some(value: T)

  /** What the hash table compares: opcode, operands, immediate and, for a load, the memory
      version; side effects may only be merged by unsafe optimisation. */
  predicate Same(p: Program, t: Tags, opTag: seq<OpId>, unsafeOpt: bool, x: OpId, y: OpId)
    requires x < |p.ops| && y < |p.ops| && |opTag| == |p.ops|
  {
    var a, b := p.ops[x], p.ops[y];
    && a.opcode == b.opcode && a.ins == b.ins && a.imm == b.imm
    && a.CanCSE() && (unsafeOpt || !a.HasSideFX())
    && (a.HasMemTag() ==> Resolved(p, t, opTag, x) == Resolved(p, t, opTag, y))
  }

  /** A renaming step that CSE may record. */
  ghost predicate PairOk(p: Program, t: Tags, opTag: seq<OpId>, unsafeOpt: bool, e: Entry)
    requires |opTag| == |p.ops|
  {
    && Defined(p, e.src) && Defined(p, e.dst) && Same(p, t, opTag, unsafeOpt, e.src, e.dst)
    && Dominates(Points(p), DefPoint(p.ops, e.dst), DefPoint(p.ops, e.src))
    && DefPoint(p.ops, e.dst) != DefPoint(p.ops, e.src)
  }

  /** What becomes of a pair: nothing, a renaming, or a renaming after the op that stays has
      moved to an index of the nearest common dominator. */
  datatype Outcome = Refused | Renames(e: Entry) | Moves(e: Entry, to: BlockId, k: nat)

  /** What csePair knows about the flow of control. */
  ghost predicate Flow(p: Program, live: seq<BlockId>, dom: seq<seq<BlockId>>, idom: seq<BlockId>, pdom: seq<BlockId>) {
    && StrictSsa(p) && LiveExact(p.ops, p.code, live) && 0 in live && |pdom| == |p.code|
    && Dominators.DomBuilt(p.ops, p.code, live, dom, idom)
  }

  /** From the block below the child of c on the way to b down to b itself, every block
      post-dominates its immediate dominator. */
  ghost predicate AlwaysReached(dom: seq<seq<BlockId>>, pdom: seq<BlockId>, b: BlockId, c: BlockId)
    requires b < |dom| && c < |dom| && forall i :: 0 <= i < |dom[b]| ==> dom[b][i] < |pdom|
  {
    forall j :: |dom[c]| < j < |dom[b]| ==> pdom[dom[b][j - 1]] == dom[b][j]
  }

  /** In the ordered lists the immediate dominator is the last but one. */
  lemma IdomIsListed(p: Program, live: seq<BlockId>, dom: seq<seq<BlockId>>, idom: seq<BlockId>, pdom: seq<BlockId>, b: BlockId, j: nat)
    requires Flow(p, live, dom, idom, pdom) && b in live && 0 < j < |dom[b]|
    ensures dom[b][j] in live && dom[b][j] < |p.code| && dom[b][j] != 0 && idom[dom[b][j]] == dom[b][j - 1]
  {
    var g, i := BlockGraph(p.ops, p.code), dom[b][j];
    assert ChainAt(live, dom, b, j) && ChainAt(live, dom, b, j - 1);
    var e := dom[b][j - 1];
    assert dom[i] == dom[b][..j + 1] && dom[e] == dom[b][..j];
    assert e in dom[i] by { assert dom[i][j - 1] == e; }
    assert LiveBlock(p.ops, p.code, i) && LiveBlock(p.ops, p.code, e);
    forall a: nat | Reachable(g, a) ensures a in live {
      assert LiveBlock(p.ops, p.code, a);
    }
    OneLessIsImmediate(g, live, dom, e, i);
    if i == 0 {
      Dominators.EntryDominates(g, e);
      DomAntisymmetric(g, e, 0);
      assert false;
    }
    DomAntisymmetric(g, e, idom[i]);
  }

  /** d leads from the entry down to its last element, one immediate dominator at a time. */
  ghost predicate LeadsDown(d: seq<BlockId>, idom: seq<BlockId>) {
    && d != [] && d[0] == 0 && (forall l :: 0 <= l < |d| ==> d[l] < |idom|)
    && forall l :: 0 < l < |d| ==> d[l] != 0 && idom[d[l]] == d[l - 1]
  }

  /** The walk up from b until c is next. */
  method WalkUp(ghost d: seq<BlockId>, idom: seq<BlockId>, pdom: seq<BlockId>, b: BlockId, c: BlockId, ghost m: nat) returns (ok: bool)
    requires LeadsDown(d, idom) && |pdom| == |idom| && d[|d| - 1] == b && m + 1 < |d| && d[m] == c
    requires forall l :: 0 <= l < |d| && d[l] == c ==> l == m
    ensures ok <==> forall l :: m + 1 < l < |d| ==> pdom[d[l - 1]] == d[l]
  {
    var i := b;
    ghost var j := |d| - 1;
    while i != 0
      invariant m < j < |d| && i == d[j]
      invariant forall l :: j < l < |d| ==> pdom[d[l - 1]] == d[l]
      decreases j
    {
      assert idom[d[j]] == d[j - 1];
      if c == idom[i] { break; }
      if pdom[idom[i]] != i { return false; }
      i, j := idom[i], j - 1;
    }
    assert j == m + 1;
    return true;
  }

  method PostDomsUp(p: Program, live: seq<BlockId>, dom: seq<seq<BlockId>>, idom: seq<BlockId>, pdom: seq<BlockId>,
                    b: BlockId, c: BlockId) returns (ok: bool)
    requires Flow(p, live, dom, idom, pdom) && b in live && c in live && b != c
    requires Dominates(BlockGraph(p.ops, p.code), c, b)
    ensures forall i :: 0 <= i < |dom[b]| ==> dom[b][i] < |pdom|
    ensures ok <==> AlwaysReached(dom, pdom, b, c)
  {
    ListLeadsDown(p, live, dom, idom, pdom, b, c);
    ok := WalkUp(dom[b], idom, pdom, b, c, |dom[c]| - 1);
  }

  lemma ListLeadsDown(p: Program, live: seq<BlockId>, dom: seq<seq<BlockId>>, idom: seq<BlockId>, pdom: seq<BlockId>, b: BlockId, c: BlockId)
    requires Flow(p, live, dom, idom, pdom) && b in live && c in live && b != c
    requires Dominates(BlockGraph(p.ops, p.code), c, b)
    ensures b < |dom| && c < |dom| && LeadsDown(dom[b], idom) && dom[b][|dom[b]| - 1] == b
    ensures 0 < |dom[c]| < |dom[b]| && dom[b][|dom[c]| - 1] == c && NoDup(dom[b])
    ensures forall i :: 0 <= i < |dom[b]| ==> dom[b][i] < |pdom|
  {
    var g := BlockGraph(p.ops, p.code);
    Dominators.PrefixOf(g, live, dom, c, b);
    forall l | 0 <= l < |dom[b]| ensures dom[b][l] < |pdom| {
      assert ChainAt(live, dom, b, l);
    }
    forall l | 0 < l < |dom[b]| ensures dom[b][l] != 0 && idom[dom[b][l]] == dom[b][l - 1] {
      IdomIsListed(p, live, dom, idom, pdom, b, l);
    }
    Dominators.EntryDominates(g, b);
    var k :| 0 <= k < |dom[b]| && dom[b][k] == 0;
  }

  // ---- where the op goes ------------------------------------------------------------------

  /** v stops x on its way up: it must stay at the start of its block, x needs it, or x is a
      load and v has side effects. Jumps are passed, unless x is a load. */
  predicate Stops(p: Program, x: OpId, stays: Opcode -> bool, v: OpId)
    requires x < |p.ops|
  {
    v < |p.ops| &&
    ((!p.ops[v].IsJump() && stays(p.ops[v].opcode)) || v in p.ops[x].ins || (p.ops[x].HasMemTag() && p.ops[v].HasSideFX()))
  }

  /** Append x to the code of block c and let it move up. */
  method FindPlace(p: Program, x: OpId, c: BlockId, stays: Opcode -> bool) returns (code: seq<OpId>, k: nat)
    requires x < |p.ops| && c < |p.code| && forall j :: 0 <= j < |p.code[c]| ==> p.code[c][j] < |p.ops|
    ensures k <= |p.code[c]| && code == p.code[c][..k] + [x] + p.code[c][k..]
    ensures forall j :: k <= j < |p.code[c]| ==> !Stops(p, x, stays, p.code[c][j])
    ensures k > 0 ==> Stops(p, x, stays, p.code[c][k - 1])
  {
    k := |p.code[c]|;
    code := p.code[c] + [x];
    while k > 0
      invariant k <= |p.code[c]| && code == p.code[c][..k] + [x] + p.code[c][k..]
      invariant forall j :: k <= j < |p.code[c]| ==> !Stops(p, x, stays, p.code[c][j])
    {
      var v := code[k - 1];
      assert v == p.code[c][k - 1];
      if !p.ops[v].IsJump() && stays(p.ops[v].opcode) { break; }
      if v in p.ops[x].ins { break; }
      if p.ops[x].HasMemTag() && p.ops[v].HasSideFX() { break; }
      code := code[k - 1 := x][k := v];
      k := k - 1;
    }
  }

  /** A block that dominates another one ends in a jump. */
  lemma DominatorJumps(p: Program, c: BlockId, b: BlockId)
    requires Placed(p) && LiveBlock(p.ops, p.code, b) && c != b && Dominates(BlockGraph(p.ops, p.code), c, b)
    ensures LiveBlock(p.ops, p.code, c) && c < |p.code| && p.code[c] != []
    ensures var v := p.code[c][|p.code[c]| - 1]; v < |p.ops| && p.ops[v].IsJump()
  {
    var g := BlockGraph(p.ops, p.code);
    var r :| RunTo(g, r, b);
    var i := First(r, c);
    RunPrefix(g, r, i);
    assert LiveBlock(p.ops, p.code, c) && EndsOk(p.ops, p.code, c);
    assert (r[i], r[i + 1]) in g.edges;
  }

  /** An op without a memory version stops before the jump, where all its operands are
      available; a load does not get past the jump at all. */
  lemma PlaceFound(p: Program, x: OpId, y: OpId, c: BlockId, k: nat, stays: Opcode -> bool)
    requires StrictSsa(p) && |p.ops| < NoVal && Defined(p, x) && Defined(p, y) && p.ops[x].CanCSE() && !p.ops[y].opcode.Phi?
    requires p.ops[x].ins == p.ops[y].ins && NearestCommon(p, p.ops[x].block, p.ops[y].block, c) && c != p.ops[x].block
    requires c < |p.code| && k <= |p.code[c]| && forall j :: k <= j < |p.code[c]| ==> !Stops(p, x, stays, p.code[c][j])
    requires k > 0 ==> Stops(p, x, stays, p.code[c][k - 1])
    ensures !p.ops[x].HasMemTag() ==> CanMove(p, x, c, k)
    ensures p.ops[x].HasMemTag() ==> k == |p.code[c]|
  {
    if !p.ops[x].HasMemTag() {
      JumpPassed(p, x, c, k, stays);
      forall v | v in p.ops[x].ins ensures UseOk(p, Point(c, k), v) {
        OperandAtPlace(p, x, y, c, k, stays, v);
      }
    } else {
      DominatorJumps(p, c, p.ops[x].block);
      assert PlacedAt(p, c, |p.code[c]| - 1);
    }
  }

  lemma JumpPassed(p: Program, x: OpId, c: BlockId, k: nat, stays: Opcode -> bool)
    requires StrictSsa(p) && Defined(p, x) && p.ops[x].CanCSE() && !p.ops[x].HasMemTag() && c != p.ops[x].block
    requires Dominates(BlockGraph(p.ops, p.code), c, p.ops[x].block)
    requires c < |p.code| && k <= |p.code[c]| && (k > 0 ==> Stops(p, x, stays, p.code[c][k - 1]))
    ensures LiveBlock(p.ops, p.code, c) && k < |p.code[c]|
  {
    DominatorJumps(p, c, p.ops[x].block);
    assert PlacedAt(p, c, |p.code[c]| - 1);
    forall v | v in p.ops[x].ins ensures Defined(p, v) {
      OperandAbove(p, x, v);
    }
  }

  lemma OperandAtPlace(p: Program, x: OpId, y: OpId, c: BlockId, k: nat, stays: Opcode -> bool, v: OpId)
    requires StrictSsa(p) && Defined(p, x) && Defined(p, y) && p.ops[x].CanCSE() && !p.ops[y].opcode.Phi?
    requires p.ops[x].ins == p.ops[y].ins && v in p.ops[x].ins && NearestCommon(p, p.ops[x].block, p.ops[y].block, c)
    requires c < |p.code| && k < |p.code[c]| && forall j :: k <= j < |p.code[c]| ==> !Stops(p, x, stays, p.code[c][j])
    ensures UseOk(p, Point(c, k), v)
  {
    InputsAtNearestCommon(p, x, y, c, v);
    forall j | k <= j < |p.code[c]| ensures p.code[c][j] != v {
      assert PlacedAt(p, c, j);
    }
    InputsFurtherUp(p, c, k, v);
  }

  // ---- one pair -----------------------------------------------------------------------------

  /** x stands as high in c as it can. */
  ghost predicate Highest(p: Program, x: OpId, stays: Opcode -> bool, c: BlockId, k: nat)
    requires x < |p.ops|
  {
    && c < |p.code| && k <= |p.code[c]| && (forall j :: k <= j < |p.code[c]| ==> !Stops(p, x, stays, p.code[c][j]))
    && (k > 0 ==> Stops(p, x, stays, p.code[c][k - 1]))
  }

  /** What csePair does with two equal ops, given what it found out about their blocks. */
  ghost predicate PairDone(p: Program, dom: seq<seq<BlockId>>, pdom: seq<BlockId>, stays: Opcode -> bool,
                           x: OpId, y: OpId, ccd: BlockId, o: Outcome)
    requires x < |p.ops| && y < |p.ops|
  {
    var b0, b1, g := p.ops[x].block, p.ops[y].block, BlockGraph(p.ops, p.code);
    match o
    case Renames(e) =>
      && (e == Entry(x, y) || e == Entry(y, x)) && (Dominates(g, b0, b1) || Dominates(g, b1, b0))
      && Dominates(Points(p), DefPoint(p.ops, e.dst), DefPoint(p.ops, e.src)) && DefPoint(p.ops, e.dst) != DefPoint(p.ops, e.src)
    case Moves(e, c, k) =>
      && e == Entry(y, x) && c == ccd && !Dominates(g, b0, b1) && !Dominates(g, b1, b0)
      && NoDetour(dom, pdom, b0, ccd) && NoDetour(dom, pdom, b1, ccd) && Highest(p, x, stays, c, k)
      && (if p.ops[x].HasMemTag() then c < |p.code| && k == |p.code[c]| else CanMove(p, x, c, k))
    case Refused =>
      && !Dominates(g, b0, b1) && !Dominates(g, b1, b0)
      && !(NoDetour(dom, pdom, b0, ccd) && NoDetour(dom, pdom, b1, ccd))
  }

  ghost predicate NoDetour(dom: seq<seq<BlockId>>, pdom: seq<BlockId>, b: BlockId, c: BlockId) {
    b < |dom| && c < |dom| && (forall i :: 0 <= i < |dom[b]| ==> dom[b][i] < |pdom|) && AlwaysReached(dom, pdom, b, c)
  }

  /** One pair of equal ops: the first in a shared block stays, or the one whose block
      dominates the other's; otherwise, if each is reached from below the nearest common
      dominator, the first moves there. */
  method CsePair(p: Program, live: seq<BlockId>, dom: seq<seq<BlockId>>, idom: seq<BlockId>, pdom: seq<BlockId>,
                 x: OpId, y: OpId, stays: Opcode -> bool) returns (o: Outcome, ccd: BlockId)
    requires Flow(p, live, dom, idom, pdom) && |p.ops| < NoVal
    requires Defined(p, x) && Defined(p, y) && x != y && p.ops[x].CanCSE() && p.ops[y].CanCSE() && p.ops[x].ins == p.ops[y].ins
    ensures NearestCommon(p, p.ops[x].block, p.ops[y].block, ccd)
    ensures PairDone(p, dom, pdom, stays, x, y, ccd, o)
  {
    var b0, b1 := p.ops[x].block, p.ops[y].block;
    ghost var g := BlockGraph(p.ops, p.code);
    ccd := Dominators.ClosestCommonDominator(live, dom, b0, b1, g);
    DomReachable(g, ccd, b0);
    assert LiveBlock(p.ops, p.code, ccd) && NearestCommon(p, b0, b1, ccd);
    if b0 != ccd && b1 != ccd {
      NeitherDominates(p, b0, b1, ccd);
      var ok := PostDomsUp(p, live, dom, idom, pdom, b0, ccd);
      if !ok { return Refused, ccd; }
      ok := PostDomsUp(p, live, dom, idom, pdom, b1, ccd);
      if !ok { return Refused, ccd; }
      var k := PlaceAtCommon(p, x, y, ccd, stays);
      o := Moves(Entry(y, x), ccd, k);
    } else {
      o := Renames(InPlace(p, x, y, ccd));
    }
  }

  /** Where x ends up in the nearest common dominator. */
  method PlaceAtCommon(p: Program, x: OpId, y: OpId, c: BlockId, stays: Opcode -> bool) returns (k: nat)
    requires StrictSsa(p) && |p.ops| < NoVal && Defined(p, x) && Defined(p, y) && p.ops[x].CanCSE() && !p.ops[y].opcode.Phi?
    requires p.ops[x].ins == p.ops[y].ins && NearestCommon(p, p.ops[x].block, p.ops[y].block, c) && c != p.ops[x].block
    requires LiveBlock(p.ops, p.code, c)
    ensures Highest(p, x, stays, c, k) && if p.ops[x].HasMemTag() then k == |p.code[c]| else CanMove(p, x, c, k)
  {
    assert EndsOk(p.ops, p.code, c);
    forall j | 0 <= j < |p.code[c]| ensures p.code[c][j] < |p.ops| {
      assert PlacedAt(p, c, j);
    }
    var code;
    code, k := FindPlace(p, x, c, stays);
    PlaceFound(p, x, y, c, k, stays);
  }

  lemma NeitherDominates(p: Program, b0: BlockId, b1: BlockId, c: BlockId)
    requires NearestCommon(p, b0, b1, c) && c != b0 && c != b1
    requires LiveBlock(p.ops, p.code, b0) && LiveBlock(p.ops, p.code, b1)
    ensures !Dominates(BlockGraph(p.ops, p.code), b0, b1) && !Dominates(BlockGraph(p.ops, p.code), b1, b0)
  {
    var g := BlockGraph(p.ops, p.code);
    assert Dominates(g, b0, b0) && Dominates(g, b1, b1);
    if Dominates(g, b0, b1) {
      DomAntisymmetric(g, b0, c);
    }
    if Dominates(g, b1, b0) {
      DomAntisymmetric(g, b1, c);
    }
  }

  /** Which of two ops stays if the block of one is the common dominator. */
  function InPlace(p: Program, x: OpId, y: OpId, ccd: BlockId): (e: Entry)
    requires Placed(p) && Defined(p, x) && Defined(p, y) && x != y && !p.ops[x].opcode.Phi? && !p.ops[y].opcode.Phi?
    requires ccd == p.ops[x].block || ccd == p.ops[y].block
    requires Dominates(BlockGraph(p.ops, p.code), ccd, p.ops[x].block) && Dominates(BlockGraph(p.ops, p.code), ccd, p.ops[y].block)
    ensures e == Entry(x, y) || e == Entry(y, x)
    ensures Dominates(Points(p), DefPoint(p.ops, e.dst), DefPoint(p.ops, e.src)) && DefPoint(p.ops, e.dst) != DefPoint(p.ops, e.src)
  {
    var b0, b1 := p.ops[x].block, p.ops[y].block;
    if b0 == b1 then
      if p.ops[x].pos < p.ops[y].pos then
        SameBlockDominates(p.ops, p.code, b0, p.ops[x].pos + 1, p.ops[y].pos + 1);
        Entry(y, x)
      else
        SameBlockDominates(p.ops, p.code, b0, p.ops[y].pos + 1, p.ops[x].pos + 1);
        Entry(x, y)
    else if ccd == b1 then
      BlockDominanceLifts(p.ops, p.code, b1, p.ops[y].pos + 1, b0, p.ops[x].pos + 1);
      Entry(x, y)
    else
      BlockDominanceLifts(p.ops, p.code, b0, p.ops[x].pos + 1, b1, p.ops[y].pos + 1);
      Entry(y, x)
  }

  // ---- chains of renamings ------------------------------------------------------------

  lemma PairsCompose(p: Program, t: Tags, opTag: seq<OpId>, unsafeOpt: bool, x: OpId, y: OpId, z: OpId)
    requires |opTag| == |p.ops| && CfgOk(p.ops, p.code)
    requires PairOk(p, t, opTag, unsafeOpt, Entry(x, y)) && PairOk(p, t, opTag, unsafeOpt, Entry(y, z))
    requires Reachable(Points(p), DefPoint(p.ops, y))
    ensures PairOk(p, t, opTag, unsafeOpt, Entry(x, z))
  {
    var a, b, c := DefPoint(p.ops, x), DefPoint(p.ops, y), DefPoint(p.ops, z);
    DomTransitive(Points(p), c, b, a);
    if c == a {
      DomAntisymmetric(Points(p), b, c);
    }
  }

  /** Chasing any list of valid entries, in any order, ends at a valid replacement. */
  lemma {:induction false} ChaseOk(p: Program, t: Tags, opTag: seq<OpId>, unsafeOpt: bool, map_: seq<Entry>, x: OpId)
    requires |opTag| == |p.ops| && Placed(p)
    requires forall i :: 0 <= i < |map_| ==> PairOk(p, t, opTag, unsafeOpt, map_[i])
    ensures Chase(map_, x) != x ==> PairOk(p, t, opTag, unsafeOpt, Entry(x, Chase(map_, x)))
  {
    if map_ != [] {
      var e, y := map_[|map_| - 1], Chase(map_[..|map_| - 1], x);
      ChaseOk(p, t, opTag, unsafeOpt, map_[..|map_| - 1], x);
      if y == e.src {
        assert e == Entry(y, e.dst);
        if y != x {
          PointReachable(p, DefPoint(p.ops, y).b, DefPoint(p.ops, y).i);
          PairsCompose(p, t, opTag, unsafeOpt, x, y, e.dst);
        }
      }
    }
  }

  function ChaseAll(map_: seq<Entry>, n: nat): (r: Subst)
    ensures |r| == n && forall x :: 0 <= x < n ==> r[x] == Chase(map_, x)
  {
    seq(n, x requires 0 <= x => Chase(map_, x))
  }

  // ---- why it is sound ----------------------------------------------------------------

  ghost predicate Analysed(p: Program, unsafeOpt: bool, live: seq<BlockId>, comeFrom: seq<seq<BlockId>>,
                           t: Tags, opTag: seq<OpId>)
  {
    && StrictSsa(p) && CfgBuilt(p.ops, p.code, live, comeFrom) && EntryOk(p, unsafeOpt, comeFrom)
    && Solved(p, unsafeOpt, live, comeFrom, t) && LoadsTagged(p, unsafeOpt, live, opTag)
  }

  /** The eliminated op computes what its replacement already holds. */
  lemma PairEqual(p: Program, unsafeOpt: bool, live: seq<BlockId>, comeFrom: seq<seq<BlockId>>, t: Tags, opTag: seq<OpId>,
                  sem: Semantics, st: State, e: Entry, r: seq<Point>)
    requires Analysed(p, unsafeOpt, live, comeFrom, t, opTag) && |st.env| == |p.ops|
    requires PairOk(p, t, opTag, unsafeOpt, e) && RunTo(Points(p), r, DefPoint(p.ops, e.src))
    ensures Exec(p, sem, st, r).env[e.src] == Exec(p, sem, st, r).env[e.dst]
  {
    if p.ops[e.src].HasMemTag() {
      ResolvedIsCurrent(p, unsafeOpt, live, t, opTag, e.src);
      ResolvedIsCurrent(p, unsafeOpt, live, t, opTag, e.dst);
      FreshWhenLoaded(p, sem, st, r, e.src);
      LoadHolds(p, unsafeOpt, live, comeFrom, t, sem, st, r, e.dst);
    } else {
      EquationHolds(p, sem, st, r, e.src);
      EquationHolds(p, sem, st, r, e.dst);
    }
  }

  /** The main result: with memory versions that have converged, renaming by any list of
      pairs that csePair recorded leaves a strict SSA program that computes the same values
      and has the same effects on every run. Pairs of loads are covered. */
  lemma CsePreserves(p: Program, unsafeOpt: bool, live: seq<BlockId>, comeFrom: seq<seq<BlockId>>, t: Tags, opTag: seq<OpId>,
                     map_: seq<Entry>, sem: Semantics, st: State, r: seq<Point>)
    requires Analysed(p, unsafeOpt, live, comeFrom, t, opTag) && |st.env| == |p.ops|
    requires forall i :: 0 <= i < |map_| ==> PairOk(p, t, opTag, unsafeOpt, map_[i])
    requires IsRun(Points(p), r)
    ensures var q := Renamed(p, live, ChaseAll(map_, |p.ops|));
            && StrictSsa(q) && Points(q) == Points(p)
            && Exec(q, sem, st, r) == Exec(p, sem, st, r)
  {
    var sigma := ChaseAll(map_, |p.ops|);
    forall x | 0 <= x < |p.ops| && sigma[x] != x ensures PairOk(p, t, opTag, unsafeOpt, Entry(x, sigma[x])) {
      ChaseOk(p, t, opTag, unsafeOpt, map_, x);
    }
    assert forall x :: 0 <= x < |sigma| ==> sigma[x] < |p.ops|;
    assert Earlier(p, sigma);
    forall q | IsRun(Points(p), q) ensures AssignedEqual(p, sem, st, sigma, q) {
      forall x: OpId {:trigger Replaced(p, sigma, x)} | Replaced(p, sigma, x) && DefPoint(p.ops, x) == q[|q| - 1]
        ensures Exec(p, sem, st, q).env[x] == Exec(p, sem, st, q).env[sigma[x]]
      {
        PairEqual(p, unsafeOpt, live, comeFrom, t, opTag, sem, st, Entry(x, sigma[x]), q);
      }
    }
    RenamedStrict(p, live, sigma);
    RenamedSame(p, live, sem, st, sigma, r);
  }

  // ---- a pair that moves --------------------------------------------------------------------

  /** y renamed to x. */
  function OnlyTo(n: nat, x: OpId, y: OpId): (r: Subst)
    ensures |r| == n && forall v :: 0 <= v < n ==> r[v] == if v == y then x else v
  {
    seq(n, v requires 0 <= v => if v == y then x else v)
  }

  /** x is in the nearest common dominator now, so it dominates y. */
  lemma MovedIsEarlier(p: Program, x: OpId, y: OpId, c: BlockId, k: nat)
    requires CanMove(p, x, c, k) && Defined(p, y) && !p.ops[y].opcode.Phi? && p.ops[y].block != c && x != y
    requires Dominates(BlockGraph(p.ops, p.code), c, p.ops[y].block)
    ensures Earlier(MoveUp(p, x, c, k), OnlyTo(|p.ops| + 1, x, y))
    ensures var q := MoveUp(p, x, c, k);
            Defined(q, y) && q.ops[y] == p.ops[y] && Dominates(Points(q), DefPoint(q.ops, x), DefPoint(q.ops, y))
  {
    var q := MoveUp(p, x, c, k);
    MoveUpStrict(p, x, c, k);
    MoveUpOthers(p, x, c, k, y);
    BlockDominanceLifts(q.ops, q.code, c, k + 1, p.ops[y].block, p.ops[y].pos + 1);
  }

  /** Both compute the same, so on every run y may be replaced by x. */
  lemma MovedIsEqual(p: Program, x: OpId, y: OpId, c: BlockId, k: nat, sem: Semantics, st: State)
    requires CanMove(p, x, c, k) && Defined(p, y) && p.ops[y].block != c && x != y
    requires Dominates(BlockGraph(p.ops, p.code), c, p.ops[y].block)
    requires p.ops[x].opcode == p.ops[y].opcode && p.ops[x].ins == p.ops[y].ins && p.ops[x].imm == p.ops[y].imm
    requires |st.env| == |p.ops| + 1 && StrictSsa(MoveUp(p, x, c, k)) && Earlier(MoveUp(p, x, c, k), OnlyTo(|p.ops| + 1, x, y))
    ensures Justified(MoveUp(p, x, c, k), sem, st, OnlyTo(|p.ops| + 1, x, y))
  {
    var q, sigma := MoveUp(p, x, c, k), OnlyTo(|p.ops| + 1, x, y);
    MoveUpStrict(p, x, c, k);
    MovedIsEarlier(p, x, y, c, k);
    forall r | IsRun(Points(q), r) ensures AssignedEqual(q, sem, st, sigma, r) {
      forall v: OpId {:trigger Replaced(q, sigma, v)} | Replaced(q, sigma, v) && DefPoint(q.ops, v) == r[|r| - 1]
        ensures Exec(q, sem, st, r).env[v] == Exec(q, sem, st, r).env[sigma[v]]
      {
        assert v == y && q.ops[x].opcode == p.ops[x].opcode && q.ops[x].ins == p.ops[x].ins && q.ops[x].imm == p.ops[x].imm;
        EquationHolds(q, sem, st, r, x);
        EquationHolds(q, sem, st, r, y);
      }
    }
  }

  /** Moving one of two equal ops to the nearest common dominator and renaming the other to it
      leaves a strict SSA program which on every run has the same effects and the same values,
      that of the moved op included wherever it was available. */
  lemma MovedPairPreserves(p: Program, live: seq<BlockId>, x: OpId, y: OpId, c: BlockId, k: nat,
                           sem: Semantics, st: State, u: Word, r: seq<Point>)
    requires CanMove(p, x, c, k) && Defined(p, y) && p.ops[y].block != c && x != y && LiveExact(p.ops, p.code, live)
    requires Dominates(BlockGraph(p.ops, p.code), c, p.ops[y].block)
    requires p.ops[x].opcode == p.ops[y].opcode && p.ops[x].ins == p.ops[y].ins && p.ops[x].imm == p.ops[y].imm
    requires |st.env| == |p.ops| && IsRun(Points(MoveUp(p, x, c, k)), r)
    ensures var f, s := Renamed(MoveUp(p, x, c, k), live, OnlyTo(|p.ops| + 1, x, y)), Project(c, k, r);
            && StrictSsa(f) && Points(f) == Points(MoveUp(p, x, c, k)) && IsRun(Points(p), s)
            && SameAfterMove(p, x, Exec(p, sem, st, s), Exec(f, sem, Pad(st, u), r), s[|s| - 1])
  {
    var q, sigma := MoveUp(p, x, c, k), OnlyTo(|p.ops| + 1, x, y);
    MoveUpStrict(p, x, c, k);
    MoveUpSame(p, x, c, k, sem, st, u, r);
    MovedIsEarlier(p, x, y, c, k);
    MovedIsEqual(p, x, y, c, k, sem, Pad(st, u));
    assert LiveExact(q.ops, q.code, live);
    RenamedStrict(q, live, sigma);
    RenamedSame(q, live, sem, Pad(st, u), sigma, r);
  }
}
