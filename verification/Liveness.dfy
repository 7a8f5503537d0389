/** Proc::findUsesBlock and Proc::rebuild_livein (src/opt-dce.cpp). */
module Liveness {
  import opened Digraph
  import opened Lists
  import opened Ir
  import opened Cfg
  import opened Ssa

  // ---- what liveness means ------------------------------------------------------------

  ghost predicate DefinesAt(p: Program, z: Point, x: OpId) {
    z.b < |p.code| && 0 < z.i <= |p.code[z.b]| && p.code[z.b][z.i - 1] == x
    && x < |p.ops| && p.ops[x].HasOutput()
  }

  /** x is an operand of the op at z, or flows into a phi over an edge that leaves at z. */
  ghost predicate UsesAt(p: Program, z: Point, x: OpId) {
    z.b < |p.code| && 0 < z.i <= |p.code[z.b]| && p.code[z.b][z.i - 1] < |p.ops|
    && var v := p.code[z.b][z.i - 1];
       x != v && (x in p.ops[v].ins || (p.ops[v].IsJump() && EdgeUse(p, z.b, p.ops[v], x)))
  }

  ghost predicate AltUse(alts: seq<PhiAlt>, b: BlockId, x: OpId) {
    exists k :: 0 <= k < |alts| && alts[k].src == b && alts[k].val == x
  }

  ghost predicate EdgeUse(p: Program, b: BlockId, op: Op, x: OpId) {
    (op.label0 < |p.alts| && AltUse(p.alts[op.label0], b, x))
    || (op.opcode.Cond? && op.label1 < |p.alts| && AltUse(p.alts[op.label1], b, x))
  }

  /** A path from z that reaches a use of x and assigns x nowhere before. */
  ghost predicate LivePath(p: Program, z: Point, x: OpId, q: seq<Point>) {
    && IsPath(Points(p), q) && |q| > 1 && q[0] == z && UsesAt(p, q[|q| - 1], x)
    && forall k :: 0 < k < |q| - 1 ==> !DefinesAt(p, q[k], x)
  }

  /** x is live once z has been executed. */
  ghost predicate LiveAfter(p: Program, z: Point, x: OpId) {
    exists q :: LivePath(p, z, x, q)
  }

  // ---- what the scan computes ---------------------------------------------------------

  function Occ(s: seq<OpId>, x: OpId): nat {
    if s == [] then 0 else Occ(s[..|s| - 1], x) + if s[|s| - 1] == x then 1 else 0
  }

  function AltOcc(alts: seq<PhiAlt>, b: BlockId, x: OpId): nat {
    if alts == [] then 0
    else AltOcc(alts[..|alts| - 1], b, x) + if alts[|alts| - 1].src == b && alts[|alts| - 1].val == x then 1 else 0
  }

  /** What a jump from b to `to` uses: phi alternatives and everything live into `to`. */
  function TargetOcc(p: Program, livein: seq<seq<OpId>>, b: BlockId, to: BlockId, x: OpId): nat {
    if to < |p.alts| && to < |livein| then AltOcc(p.alts[to], b, x) + Occ(livein[to], x) else 0
  }

  function JumpOcc(p: Program, livein: seq<seq<OpId>>, b: BlockId, op: Op, x: OpId): nat {
    if op.opcode.Jmp? then TargetOcc(p, livein, b, op.label0, x)
    else if op.opcode.Cond? then TargetOcc(p, livein, b, op.label0, x) + TargetOcc(p, livein, b, op.label1, x)
    else 0
  }

  /** The use count of x after scanning a block backwards down to index i, starting from
      `start`; with inOnly, a definition forgets the uses after it. */
  function Tally(p: Program, livein: seq<seq<OpId>>, b: BlockId, i: nat, inOnly: bool, start: nat, x: OpId): nat
    requires b < |p.code| && i <= |p.code[b]|
    decreases |p.code[b]| - i
  {
    if i == |p.code[b]| || p.code[b][i] >= |p.ops| then start
    else
      var v := p.code[b][i];
      if inOnly && p.ops[v].HasOutput() && x == v then 0
      else Tally(p, livein, b, i + 1, inOnly, start, x) + JumpOcc(p, livein, b, p.ops[v], x) + Occ(p.ops[v].ins, x)
  }

  lemma {:induction false} OccPositive(s: seq<OpId>, x: OpId)
    ensures Occ(s, x) > 0 <==> x in s
  {
    if s != [] {
      OccPositive(s[..|s| - 1], x);
      assert x in s <==> x in s[..|s| - 1] || x == s[|s| - 1];
    }
  }

  lemma {:induction false} AltOccPositive(alts: seq<PhiAlt>, b: BlockId, x: OpId)
    ensures AltOcc(alts, b, x) > 0 <==> AltUse(alts, b, x)
  {
    if alts != [] {
      var n := |alts| - 1;
      AltOccPositive(alts[..n], b, x);
      if AltUse(alts[..n], b, x) {
        var k :| 0 <= k < n && alts[..n][k].src == b && alts[..n][k].val == x;
        assert alts[k].src == b && alts[k].val == x;
      }
      if AltUse(alts, b, x) {
        var k :| 0 <= k < |alts| && alts[k].src == b && alts[k].val == x;
        if k < n {
          assert alts[..n][k].src == b && alts[..n][k].val == x;
        }
      }
    }
  }

  // ---- the methods --------------------------------------------------------------------

  method AddAll(nUse0: seq<nat>, s: seq<OpId>) returns (nUse: seq<nat>)
    requires forall k :: 0 <= k < |s| ==> s[k] < |nUse0|
    ensures |nUse| == |nUse0| && forall x :: 0 <= x < |nUse| ==> nUse[x] == nUse0[x] + Occ(s, x)
  {
    nUse := nUse0;
    for k := 0 to |s|
      invariant |nUse| == |nUse0| && forall x :: 0 <= x < |nUse| ==> nUse[x] == nUse0[x] + Occ(s[..k], x)
    {
      assert s[..k + 1][..k] == s[..k] && s[..k + 1][k] == s[k];
      nUse := nUse[s[k] := nUse[s[k]] + 1];
    }
    assert s[..|s|] == s;
  }

  method AddAlts(nUse0: seq<nat>, alts: seq<PhiAlt>, b: BlockId) returns (nUse: seq<nat>)
    requires forall k :: 0 <= k < |alts| && alts[k].src == b ==> alts[k].val < |nUse0|
    ensures |nUse| == |nUse0| && forall x :: 0 <= x < |nUse| ==> nUse[x] == nUse0[x] + AltOcc(alts, b, x)
  {
    nUse := nUse0;
    for k := 0 to |alts|
      invariant |nUse| == |nUse0| && forall x :: 0 <= x < |nUse| ==> nUse[x] == nUse0[x] + AltOcc(alts[..k], b, x)
    {
      assert alts[..k + 1][..k] == alts[..k] && alts[..k + 1][k] == alts[k];
      if alts[k].src != b { continue; }
      nUse := nUse[alts[k].val := nUse[alts[k].val] + 1];
    }
    assert alts[..|alts|] == alts;
  }

  /** Every index that the scan of block b counts is an op. */
  ghost predicate ScanOk(p: Program, livein: seq<seq<OpId>>, b: BlockId) {
    && b < |p.code| && |livein| == |p.alts| == |p.code|
    && (forall j :: 0 <= j < |p.code[b]| ==> p.code[b][j] < |p.ops|)
    && (forall j, k :: 0 <= j < |p.code[b]| && p.code[b][j] < |p.ops| && 0 <= k < |p.ops[p.code[b][j]].ins| ==>
          p.ops[p.code[b][j]].ins[k] < |p.ops|)
    && (forall s, k :: 0 <= s < |p.alts| && 0 <= k < |p.alts[s]| && p.alts[s][k].src == b ==> p.alts[s][k].val < |p.ops|)
    && (forall s, k :: 0 <= s < |livein| && 0 <= k < |livein[s]| ==> livein[s][k] < |p.ops|)
  }

  method AddTarget(p: Program, livein: seq<seq<OpId>>, nUse0: seq<nat>, b: BlockId, to: BlockId) returns (nUse: seq<nat>)
    requires ScanOk(p, livein, b) && |nUse0| == |p.ops|
    ensures |nUse| == |nUse0| && forall x :: 0 <= x < |nUse| ==> nUse[x] == nUse0[x] + TargetOcc(p, livein, b, to, x)
  {
    nUse := nUse0;
    if to < |p.alts| {
      nUse := AddAlts(nUse, p.alts[to], b);
      nUse := AddAll(nUse, livein[to]);
    }
  }

  /** findUsesBlock, not local only */
  method FindUsesBlock(p: Program, livein: seq<seq<OpId>>, nUse0: seq<nat>, b: BlockId, inOnly: bool) returns (nUse: seq<nat>)
    requires ScanOk(p, livein, b) && |nUse0| == |p.ops|
    ensures |nUse| == |nUse0|
    ensures forall x :: 0 <= x < |nUse| ==> nUse[x] == Tally(p, livein, b, 0, inOnly, nUse0[x], x)
  {
    nUse := nUse0;
    var c := |p.code[b]|;
    while c > 0
      invariant 0 <= c <= |p.code[b]| && |nUse| == |nUse0|
      invariant forall x :: 0 <= x < |nUse| ==> nUse[x] == Tally(p, livein, b, c, inOnly, nUse0[x], x)
    {
      c := c - 1;
      var v := p.code[b][c];
      var op := p.ops[v];
      ghost var before := nUse;
      if op.IsJump() {
        nUse := AddTarget(p, livein, nUse, b, op.label0);
        if !op.opcode.Jmp? {
          nUse := AddTarget(p, livein, nUse, b, op.label1);
        }
      }
      nUse := AddAll(nUse, op.ins);
      assert forall x :: 0 <= x < |nUse| ==> nUse[x] == before[x] + JumpOcc(p, livein, b, op, x) + Occ(op.ins, x);
      if inOnly && op.HasOutput() { nUse := nUse[v := 0]; }
    }
  }

  ghost predicate Ascending(s: seq<OpId>) {
    forall i, j :: 0 <= i < j < |s| ==> s[i] < s[j]
  }

  /** List every output that is still counted and forget the counts. */
  method Collect(p: Program, nUse0: seq<nat>) returns (list: seq<OpId>, nUse: seq<nat>)
    requires |nUse0| == |p.ops|
    ensures |nUse| == |nUse0| && Ascending(list)
    ensures forall x: OpId :: x in list <==> x < |p.ops| && p.ops[x].HasOutput() && nUse0[x] != 0
    ensures forall x :: 0 <= x < |nUse| ==> nUse[x] == if p.ops[x].HasOutput() then 0 else nUse0[x]
  {
    list, nUse := [], nUse0;
    for i := 0 to |p.ops|
      invariant |nUse| == |nUse0| && Ascending(list)
      invariant forall x: OpId :: x in list <==> x < i && p.ops[x].HasOutput() && nUse0[x] != 0
      invariant forall x :: 0 <= x < |nUse| ==> nUse[x] == if p.ops[x].HasOutput() && x < i then 0 else nUse0[x]
    {
      if !p.ops[i].HasOutput() || nUse[i] == 0 { continue; }
      assert forall k :: 0 <= k < |list| ==> list[k] in list;
      list := list + [i];
      nUse := nUse[i := 0];
    }
  }

  // ---- the scan agrees with paths -----------------------------------------------------

  type LiveLists = seq<seq<OpId>>

  /** Operands and phi alternatives name ops with an output. */
  ghost predicate ValuesOk(p: Program, live: seq<BlockId>) {
    && (forall b, j, k :: b in live && b < |p.code| && 0 <= j < |p.code[b]| && p.code[b][j] < |p.ops|
          && 0 <= k < |p.ops[p.code[b][j]].ins|
          ==> IsValue(p, p.ops[p.code[b][j]].ins[k]))
    && (forall s, k :: 0 <= s < |p.alts| && 0 <= k < |p.alts[s]| ==> IsValue(p, p.alts[s][k].val))
  }

  predicate IsValue(p: Program, x: OpId) {
    x < |p.ops| && p.ops[x].HasOutput()
  }

  ghost predicate Needs(p: Program, livein: LiveLists, b: BlockId, i: nat, x: OpId) {
    b < |p.code| && i <= |p.code[b]| && Tally(p, livein, b, i, true, 0, x) > 0
  }

  lemma TargetMeaning(p: Program, livein: LiveLists, b: BlockId, to: BlockId, x: OpId)
    ensures TargetOcc(p, livein, b, to, x) > 0 <==>
              to < |p.alts| && to < |livein| && (AltUse(p.alts[to], b, x) || x in livein[to])
  {
    if to < |p.alts| && to < |livein| {
      AltOccPositive(p.alts[to], b, x);
      OccPositive(livein[to], x);
    }
  }

  /** Carried into a successor of b. */
  ghost predicate CarriedOut(p: Program, livein: LiveLists, b: BlockId, x: OpId) {
    exists s :: s in Succ(p.ops, p.code, b) && s < |livein| && x in livein[s]
  }

  lemma JumpMeaning(p: Program, livein: LiveLists, b: BlockId, x: OpId)
    requires EndsOk(p.ops, p.code, b) && |livein| == |p.alts| == |p.code|
    ensures var op := p.ops[p.code[b][|p.code[b]| - 1]];
            JumpOcc(p, livein, b, op, x) > 0 <==> (op.IsJump() && EdgeUse(p, b, op, x)) || CarriedOut(p, livein, b, x)
  {
    var op := p.ops[p.code[b][|p.code[b]| - 1]];
    TargetMeaning(p, livein, b, op.label0, x);
    TargetMeaning(p, livein, b, op.label1, x);
    if op.IsJump() && x in livein[op.label0] {
      assert op.label0 in Succ(p.ops, p.code, b);
    }
    if op.opcode.Cond? && op.label1 < |livein| && x in livein[op.label1] {
      assert op.label1 in Succ(p.ops, p.code, b);
    }
  }

  /** The scan, one op at a time. */
  lemma NeedsStep(p: Program, livein: LiveLists, b: BlockId, i: nat, x: OpId)
    requires Placed(p) && LiveBlock(p.ops, p.code, b) && |livein| == |p.code| && b < |p.code| && i < |p.code[b]|
    requires IsValue(p, x)
    ensures Needs(p, livein, b, i, x) <==>
              x != p.code[b][i]
              && (Needs(p, livein, b, i + 1, x) || UsesAt(p, Point(b, i + 1), x)
                  || (i == |p.code[b]| - 1 && CarriedOut(p, livein, b, x)))
  {
    assert PlacedAt(p, b, i) && EndsOk(p.ops, p.code, b);
    var v := p.code[b][i];
    OccPositive(p.ops[v].ins, x);
    if i == |p.code[b]| - 1 {
      JumpMeaning(p, livein, b, x);
    }
  }

  /** One step of a path: live after z means used or not assigned and live at the next point. */
  lemma LiveStep(p: Program, z: Point, y: Point, x: OpId)
    requires (z, y) in Points(p).edges
    requires UsesAt(p, y, x) || (!DefinesAt(p, y, x) && LiveAfter(p, y, x))
    ensures LiveAfter(p, z, x)
  {
    if UsesAt(p, y, x) {
      assert LivePath(p, z, x, [z, y]);
    } else {
      var q :| LivePath(p, y, x, q);
      var r := [z] + q;
      forall k | 0 <= k < |r| - 1 ensures (r[k], r[k + 1]) in Points(p).edges {
        if k > 0 {
          assert (q[k - 1], q[k - 1 + 1]) in Points(p).edges;
        }
      }
      assert LivePath(p, z, x, r);
    }
  }

  ghost predicate SoundLists(p: Program, live: seq<BlockId>, livein: LiveLists) {
    |livein| == |p.code| && forall b, x :: b in live && b < |livein| && x in livein[b] ==> LiveAfter(p, Point(b, 0), x)
  }

  /** Nothing is counted that no path needs. */
  lemma {:induction false} NeedsSound(p: Program, live: seq<BlockId>, livein: LiveLists, b: BlockId, i: nat, x: OpId)
    requires Placed(p) && LiveExact(p.ops, p.code, live) && b in live && SoundLists(p, live, livein)
    requires IsValue(p, x) && Needs(p, livein, b, i, x)
    ensures LiveAfter(p, Point(b, i), x)
    decreases if b < |p.code| then |p.code[b]| - i else 0
  {
    var n := |p.code[b]|;
    assert LiveBlock(p.ops, p.code, b) && EndsOk(p.ops, p.code, b);
    assert i < n;
    NeedsStep(p, livein, b, i, x);
    var z, y := Point(b, i), Point(b, i + 1);
    assert (z, y) in Points(p).edges;
    if !UsesAt(p, y, x) {
      assert !DefinesAt(p, y, x);
      if Needs(p, livein, b, i + 1, x) {
        NeedsSound(p, live, livein, b, i + 1, x);
      } else {
        var s :| s in Succ(p.ops, p.code, b) && s < |livein| && x in livein[s];
        assert (b, s) in BlockGraph(p.ops, p.code).edges;
        ReachableStep(BlockGraph(p.ops, p.code), b, s);
        assert LiveBlock(p.ops, p.code, s) && s in live;
        assert (y, Point(s, 0)) in Points(p).edges;
        LiveStep(p, y, Point(s, 0), x);
      }
    }
    LiveStep(p, z, y, x);
  }

  /** Nothing is missing: every value that recounting gives is listed. */
  ghost predicate FullAt(p: Program, livein: LiveLists, b: BlockId) {
    b < |livein| && forall x: OpId :: IsValue(p, x) && Needs(p, livein, b, 0, x) ==> x in livein[b]
  }

  /** What a path needs is counted. */
  lemma {:induction false} NeedsComplete(p: Program, live: seq<BlockId>, livein: LiveLists, z: Point, x: OpId, q: seq<Point>)
    requires Placed(p) && LiveExact(p.ops, p.code, live) && |livein| == |p.code|
    requires forall b :: b in live ==> FullAt(p, livein, b)
    requires IsValue(p, x) && LivePath(p, z, x, q) && z.b in live && z.b < |p.code| && z.i < |p.code[z.b]|
    ensures Needs(p, livein, z.b, z.i, x)
    decreases |q|, 1
  {
    assert LiveBlock(p.ops, p.code, z.b);
    assert (q[0], q[0 + 1]) in Points(p).edges;
    NeedsStep(p, livein, z.b, z.i, x);
    var y := q[1];
    assert y == Point(z.b, z.i + 1);
    if |q| > 2 {
      assert !DefinesAt(p, q[1], x);
      if y.i < |p.code[y.b]| {
        SuffixLive(p, z, x, q);
        NeedsComplete(p, live, livein, y, x, q[1..]);
      } else {
        CompleteOverEdge(p, live, livein, z, x, q);
      }
    }
  }

  lemma SuffixLive(p: Program, z: Point, x: OpId, q: seq<Point>)
    requires LivePath(p, z, x, q) && |q| > 2
    ensures LivePath(p, q[1], x, q[1..])
  {
    var r := q[1..];
    forall k | 0 <= k < |r| - 1 ensures (r[k], r[k + 1]) in Points(p).edges {
      assert (q[k + 1], q[k + 1 + 1]) in Points(p).edges;
    }
  }

  lemma {:induction false} CompleteOverEdge(p: Program, live: seq<BlockId>, livein: LiveLists, z: Point, x: OpId, q: seq<Point>)
    requires Placed(p) && LiveExact(p.ops, p.code, live) && |livein| == |p.code|
    requires forall b :: b in live ==> FullAt(p, livein, b)
    requires IsValue(p, x) && LivePath(p, z, x, q) && z.b in live && |q| > 2
    requires z.b < |p.code| && q[1] == Point(z.b, |p.code[z.b]|)
    ensures CarriedOut(p, livein, z.b, x)
    decreases |q|, 0
  {
    SuffixLive(p, z, x, q);
    assert (q[1], q[1 + 1]) in Points(p).edges;
    var s := q[2].b;
    assert s in Succ(p.ops, p.code, z.b) && q[2] == Point(s, 0);
    assert !UsesAt(p, q[2], x);
    assert LiveBlock(p.ops, p.code, z.b);
    assert (z.b, s) in BlockGraph(p.ops, p.code).edges;
    ReachableStep(BlockGraph(p.ops, p.code), z.b, s);
    assert LiveBlock(p.ops, p.code, s) && s in live && EndsOk(p.ops, p.code, s);
    SuffixLive(p, q[1], x, q[1..]);
    assert q[1..][1..] == q[2..];
    NeedsComplete(p, live, livein, Point(s, 0), x, q[2..]);
    assert FullAt(p, livein, s);
  }

  ghost predicate ListedExactly(p: Program, livein: LiveLists, b: BlockId)
    requires b < |livein|
  {
    forall x: OpId :: x in livein[b] <==> IsValue(p, x) && LiveAfter(p, Point(b, 0), x)
  }

  /** The lists are exactly the values live at block entry. */
  ghost predicate LiveInExact(p: Program, live: seq<BlockId>, livein: LiveLists) {
    |livein| == |p.code| && forall b :: b in live && b < |livein| ==> ListedExactly(p, livein, b)
  }

  /** Also the lists of dead blocks hold values only. */
  ghost predicate ListedValues(p: Program, livein: LiveLists) {
    forall s, x :: 0 <= s < |livein| && x in livein[s] ==> IsValue(p, x)
  }

  lemma FullIsExact(p: Program, live: seq<BlockId>, livein: LiveLists)
    requires Placed(p) && LiveExact(p.ops, p.code, live) && SoundLists(p, live, livein)
    requires forall b, x :: b in live && b < |livein| && x in livein[b] ==> IsValue(p, x)
    requires forall b :: b in live ==> FullAt(p, livein, b)
    ensures LiveInExact(p, live, livein)
  {
    forall b | b in live && b < |livein| ensures ListedExactly(p, livein, b) {
      forall x: OpId | IsValue(p, x) && LiveAfter(p, Point(b, 0), x) ensures x in livein[b] {
        var q :| LivePath(p, Point(b, 0), x, q);
        assert LiveBlock(p.ops, p.code, b) && EndsOk(p.ops, p.code, b);
        NeedsComplete(p, live, livein, Point(b, 0), x, q);
        assert FullAt(p, livein, b);
      }
    }
  }

  // ---- the fixpoint -------------------------------------------------------------------

  ghost predicate Grew(a: LiveLists, b: LiveLists) {
    |a| == |b| && forall s, x :: 0 <= s < |a| && x in a[s] ==> x in b[s]
  }

  /** Scanning with longer lists needs at least as much. */
  lemma {:induction false} NeedsMonotone(p: Program, a: LiveLists, c: LiveLists, b: BlockId, i: nat, x: OpId)
    requires Placed(p) && LiveBlock(p.ops, p.code, b) && Grew(a, c) && |a| == |p.code| && IsValue(p, x)
    requires Needs(p, a, b, i, x)
    ensures Needs(p, c, b, i, x)
    decreases if b < |p.code| then |p.code[b]| - i else 0
  {
    if i < |p.code[b]| {
      NeedsStep(p, a, b, i, x);
      NeedsStep(p, c, b, i, x);
      if Needs(p, a, b, i + 1, x) {
        NeedsMonotone(p, a, c, b, i + 1, x);
      }
    }
  }

  /** What the iteration keeps: only truly live values are listed, and recounting any block
      can only add to its list. */
  ghost predicate Below(p: Program, live: seq<BlockId>, livein: LiveLists) {
    && SoundLists(p, live, livein)
    && (forall b :: 0 <= b < |livein| ==> Ascending(livein[b]) && forall x :: x in livein[b] ==> IsValue(p, x))
    && (forall b, x :: b in live && b < |livein| && x in livein[b] ==> Needs(p, livein, b, 0, x))
  }

  ghost predicate IsCount(p: Program, livein: LiveLists, b: BlockId, list: seq<OpId>) {
    Ascending(list) && forall x: OpId :: x in list <==> IsValue(p, x) && Needs(p, livein, b, 0, x)
  }

  lemma AscendingNoDup(s: seq<OpId>)
    requires Ascending(s)
    ensures NoDup(s)
  {
  }

  lemma {:induction false} AscendingEqual(s: seq<OpId>, t: seq<OpId>)
    requires Ascending(s) && Ascending(t) && |s| == |t| && forall x :: x in s ==> x in t
    ensures s == t
  {
    if s != [] {
      var n := |s| - 1;
      AscendingNoDup(s);
      AscendingNoDup(t);
      SubListSize(s, t);
      assert t[n] in s && s[n] in t;
      assert s[n] == t[n];
      forall x | x in s[..n] ensures x in t[..n] {
        assert x in t && x < s[n];
        var k :| 0 <= k < |t| && t[k] == x;
        assert k != n;
        assert t[..n][k] == x;
      }
      AscendingEqual(s[..n], t[..n]);
      assert s == s[..n] + [s[n]] && t == t[..n] + [t[n]];
    }
  }

  lemma RecountGrows(p: Program, live: seq<BlockId>, livein: LiveLists, b: BlockId, list: seq<OpId>)
    requires Placed(p) && LiveExact(p.ops, p.code, live) && Below(p, live, livein) && b in live && b < |livein|
    requires IsCount(p, livein, b, list)
    ensures forall x :: x in livein[b] ==> x in list
    ensures |livein[b]| <= |list|
    ensures |livein[b]| == |list| ==> list == livein[b]
    ensures Below(p, live, livein[b := list])
  {
    var next := livein[b := list];
    assert forall x :: x in livein[b] ==> x in list;
    AscendingNoDup(livein[b]);
    AscendingNoDup(list);
    SubListSize(livein[b], list);
    if |livein[b]| == |list| {
      AscendingEqual(livein[b], list);
    }
    forall x | x in list ensures LiveAfter(p, Point(b, 0), x) {
      NeedsSound(p, live, livein, b, 0, x);
    }
    forall c, x | c in live && c < |next| && x in next[c] ensures Needs(p, next, c, 0, x) {
      assert LiveBlock(p.ops, p.code, c);
      NeedsMonotone(p, livein, next, c, 0, x);
    }
  }

  /** How much the lists can still grow. */
  ghost function Room(livein: LiveLists, n: nat): int {
    if livein == [] then 0 else n - |livein[0]| + Room(livein[1..], n)
  }

  lemma {:induction false} RoomUpdate(livein: LiveLists, n: nat, b: nat, list: seq<OpId>)
    requires b < |livein|
    ensures Room(livein[b := list], n) == Room(livein, n) + |livein[b]| - |list|
  {
    if b == 0 {
      assert livein[b := list][1..] == livein[1..];
    } else {
      RoomUpdate(livein[1..], n, b - 1, list);
      assert livein[b := list][1..] == livein[1..][b - 1 := list];
    }
  }

  lemma {:induction false} RoomLeft(p: Program, livein: LiveLists)
    requires forall b :: 0 <= b < |livein| ==> Ascending(livein[b]) && forall x :: x in livein[b] ==> IsValue(p, x)
    ensures Room(livein, |p.ops|) >= 0
  {
    if livein != [] {
      AscendingNoDup(livein[0]);
      BoundedSize(livein[0], |p.ops|);
      RoomLeft(p, livein[1..]);
    }
  }

  lemma CanScan(p: Program, live: seq<BlockId>, livein: LiveLists, b: BlockId)
    requires Placed(p) && LiveExact(p.ops, p.code, live) && ValuesOk(p, live) && b in live
    requires |livein| == |p.code| && ListedValues(p, livein)
    ensures ScanOk(p, livein, b)
  {
    assert LiveBlock(p.ops, p.code, b) && EndsOk(p.ops, p.code, b);
    forall j: nat | j < |p.code[b]| ensures p.code[b][j] < |p.ops| {
      assert PlacedAt(p, b, j);
    }
    forall j, k | 0 <= j < |p.code[b]| && p.code[b][j] < |p.ops| && 0 <= k < |p.ops[p.code[b][j]].ins|
      ensures p.ops[p.code[b][j]].ins[k] < |p.ops|
    {
      assert IsValue(p, p.ops[p.code[b][j]].ins[k]);
    }
    forall s, k | 0 <= s < |p.alts| && 0 <= k < |p.alts[s]| ensures p.alts[s][k].val < |p.ops| {
      assert IsValue(p, p.alts[s][k].val);
    }
    forall s, k | 0 <= s < |livein| && 0 <= k < |livein[s]| ensures livein[s][k] < |p.ops| {
      assert livein[s][k] in livein[s];
      assert IsValue(p, livein[s][k]);
    }
  }

  ghost predicate Zero(p: Program, nUse: seq<nat>) {
    |nUse| == |p.ops| && forall x :: 0 <= x < |nUse| && p.ops[x].HasOutput() ==> nUse[x] == 0
  }

  /** Recount one block. */
  method Recount(p: Program, live: seq<BlockId>, livein: LiveLists, nUse0: seq<nat>, b: BlockId)
    returns (list: seq<OpId>, nUse: seq<nat>)
    requires Placed(p) && LiveExact(p.ops, p.code, live) && ValuesOk(p, live) && b in live
    requires Below(p, live, livein) && Zero(p, nUse0)
    ensures Zero(p, nUse) && IsCount(p, livein, b, list)
  {
    CanScan(p, live, livein, b);
    nUse := FindUsesBlock(p, livein, nUse0, b, true);
    ghost var counted := nUse;
    list, nUse := Collect(p, nUse);
    assert forall x: OpId :: IsValue(p, x) ==> (counted[x] != 0 <==> Needs(p, livein, b, 0, x));
  }

  /** One round over the live blocks, in reverse discovery order. */
  method LiveSweep(p: Program, live: seq<BlockId>, livein0: LiveLists, nUse0: seq<nat>)
    returns (livein: LiveLists, nUse: seq<nat>, progress: bool)
    requires Placed(p) && LiveExact(p.ops, p.code, live) && ValuesOk(p, live)
    requires Below(p, live, livein0) && Zero(p, nUse0)
    requires forall k :: 0 <= k < |live| ==> live[k] < |p.code|
    ensures Below(p, live, livein) && Zero(p, nUse)
    ensures Room(livein, |p.ops|) <= Room(livein0, |p.ops|)
    ensures progress ==> Room(livein, |p.ops|) < Room(livein0, |p.ops|)
    ensures !progress ==> forall b :: b in live ==> FullAt(p, livein, b)
  {
    livein, nUse, progress := livein0, nUse0, false;
    var i := |live|;
    while i > 0
      invariant 0 <= i <= |live| && Below(p, live, livein) && Zero(p, nUse)
      invariant Room(livein, |p.ops|) <= Room(livein0, |p.ops|)
      invariant progress ==> Room(livein, |p.ops|) < Room(livein0, |p.ops|)
      invariant !progress ==> forall k :: i <= k < |live| ==> FullAt(p, livein, live[k])
    {
      i := i - 1;
      var b := live[i];
      assert b in live;
      var sz := |livein[b]|;
      var list: seq<OpId>;
      list, nUse := Recount(p, live, livein, nUse, b);
      RecountGrows(p, live, livein, b, list);
      RoomUpdate(livein, |p.ops|, b, list);
      assert |list| == sz ==> FullAt(p, livein, b) && livein[b := list] == livein;
      livein := livein[b := list];
      if |list| != sz { progress := true; }
    }
  }

  /** rebuild_livein, once control flow has been rebuilt: exact live-in lists for every live
      block. */
  method RebuildLivein(proc: Proc)
    requires proc.Shape() && Placed(proc.prog) && ValuesOk(proc.prog, proc.live)
    requires CfgBuilt(proc.prog.ops, proc.prog.code, proc.live, proc.comeFrom)
    modifies proc`livein, proc`nUse
    ensures proc.Shape() && Zero(proc.prog, proc.nUse)
    ensures LiveInExact(proc.prog, proc.live, proc.livein) && ListedValues(proc.prog, proc.livein)
    ensures forall b :: b in proc.live && b < |proc.livein| ==> Ascending(proc.livein[b])
  {
    var p, live := proc.prog, proc.live;
    var nUse := ResetUses(p, proc.nUse);
    // lists of dead blocks are never read; drop them with the others
    var livein: LiveLists := seq(|p.code|, _ => []);
    var progress := true;
    while progress
      invariant Below(p, live, livein) && Zero(p, nUse)
      invariant !progress ==> forall b :: b in live ==> FullAt(p, livein, b)
      decreases Room(livein, |p.ops|), progress
    {
      livein, nUse, progress := LiveSweep(p, live, livein, nUse);
      RoomLeft(p, livein);
    }
    FullIsExact(p, live, livein);
    proc.livein, proc.nUse := livein, nUse;
  }

  method ResetUses(p: Program, nUse0: seq<nat>) returns (nUse: seq<nat>)
    requires |nUse0| == |p.ops|
    ensures Zero(p, nUse)
  {
    nUse := nUse0;
    for i := 0 to |p.ops|
      invariant |nUse| == |p.ops| && forall x :: 0 <= x < i && p.ops[x].HasOutput() ==> nUse[x] == 0
    {
      if p.ops[i].HasOutput() { nUse := nUse[i := 0]; }
    }
  }

  // ---- the entry assertion ------------------------------------------------------------

  /** Phis come before everything else in a block. */
  ghost predicate PhisFirst(p: Program) {
    forall b, i, j :: 0 <= b < |p.code| && 0 <= i < j < |p.code[b]| && p.code[b][i] < |p.ops| && p.code[b][j] < |p.ops|
      && p.ops[p.code[b][j]].opcode.Phi?
      ==> p.ops[p.code[b][i]].opcode.Phi?
  }

  /** Every alternative listed for an edge carries a value defined at its source. */
  ghost predicate AltsStrict(p: Program) {
    forall a: BlockId, b: BlockId, k: nat ::
      LiveBlock(p.ops, p.code, a) && a < |p.code| && b in Succ(p.ops, p.code, a) && b < |p.alts|
      && k < |p.alts[b]| && p.alts[b][k].src == a
      ==> UseOk(p, Point(a, |p.code[a]|), p.alts[b][k].val)
  }

  lemma UseDominated(p: Program, r: seq<Point>, x: OpId)
    requires StrictSsa(p) && AltsStrict(p) && IsRun(Points(p), r) && UsesAt(p, r[|r| - 1], x)
    ensures Defined(p, x) && DefPoint(p.ops, x) in r && DefPoint(p.ops, x) != r[|r| - 1]
  {
    var z := r[|r| - 1];
    PointLive(p.ops, p.code, r);
    assert RunTo(Points(p), r, z);
    assert PlacedAt(p, z.b, z.i - 1) && InputsOk(p, z.b, z.i - 1);
    var v := p.code[z.b][z.i - 1];
    if x in p.ops[v].ins {
      assert InputOk(p, z, x);
    } else {
      var op := p.ops[v];
      var b, k := EdgeUseAlt(p, z.b, op, x);
      assert b in Succ(p.ops, p.code, z.b);
      assert UseOk(p, Point(z.b, |p.code[z.b]|), p.alts[b][k].val);
    }
  }

  lemma EdgeUseAlt(p: Program, a: BlockId, op: Op, x: OpId) returns (b: BlockId, k: nat)
    requires op.IsJump() && EdgeUse(p, a, op, x)
    ensures (b == op.label0 || (op.opcode.Cond? && b == op.label1)) && b < |p.alts|
    ensures k < |p.alts[b]| && p.alts[b][k].src == a && p.alts[b][k].val == x
  {
    if op.label0 < |p.alts| && AltUse(p.alts[op.label0], a, x) {
      b := op.label0;
    } else {
      b := op.label1;
    }
    k :| 0 <= k < |p.alts[b]| && p.alts[b][k].src == a && p.alts[b][k].val == x;
  }

  lemma PhiUsesNothing(p: Program, b: BlockId, j: nat, x: OpId)
    requires Placed(p) && PhisFirst(p) && Defined(p, x) && p.ops[x].opcode.Phi?
    requires b == p.ops[x].block && j < p.ops[x].pos
    ensures !UsesAt(p, Point(b, j + 1), x)
  {
    assert PlacedAt(p, b, p.ops[x].pos) && PlacedAt(p, b, j);
  }

  /** A phi is not live at or before its own place in its block. */
  lemma {:induction false} PhiCutsPath(p: Program, q: seq<Point>, i: nat, x: OpId)
    requires Placed(p) && PhisFirst(p) && Defined(p, x) && p.ops[x].opcode.Phi?
    requires IsPath(Points(p), q) && i < |q| && q[i].b == p.ops[x].block && q[i].i <= p.ops[x].pos
    requires UsesAt(p, q[|q| - 1], x)
    requires forall k :: i < k < |q| - 1 ==> !DefinesAt(p, q[k], x)
    ensures false
    decreases |q| - i
  {
    var b, z := p.ops[x].block, q[i];
    assert PlacedAt(p, b, p.ops[x].pos);
    if z.i > 0 { PhiUsesNothing(p, b, z.i - 1, x); }
    if i < |q| - 1 {
      assert (q[i], q[i + 1]) in Points(p).edges;
      if z.i < p.ops[x].pos {
        PhiCutsPath(p, q, i + 1, x);
      }
    }
  }

  /** A value that is live somewhere is defined on every run to that place. */
  lemma LiveIsDominated(p: Program, z: Point, x: OpId)
    requires StrictSsa(p) && AltsStrict(p) && PhisFirst(p)
    requires Reachable(Points(p), z) && LiveAfter(p, z, x)
    ensures UseOk(p, z, x)
  {
    var q :| LivePath(p, z, x, q);
    var r0 :| RunTo(Points(p), r0, z);
    Splice(Points(p), r0, q, 0);
    assert q == [z] + q[1..];
    UseDominated(p, r0 + q[1..], x);
    var d := DefPoint(p.ops, x);
    forall r | RunTo(Points(p), r, z) ensures d in r {
      Splice(Points(p), r, q, 0);
      UseDominated(p, r + q[1..], x);
      if d !in r {
        DefNotOnLivePath(p, z, x, q);
      }
    }
  }

  lemma DefNotOnLivePath(p: Program, z: Point, x: OpId, q: seq<Point>)
    requires Placed(p) && PhisFirst(p) && Defined(p, x) && LivePath(p, z, x, q)
    requires DefPoint(p.ops, x) != q[|q| - 1]
    ensures DefPoint(p.ops, x) !in q[1..]
  {
    var d := DefPoint(p.ops, x);
    if d in q[1..] {
      var k :| 1 <= k < |q| && q[k] == d;
      assert PlacedAt(p, p.ops[x].block, p.ops[x].pos);
      if p.ops[x].opcode.Phi? {
        PhiCutsPath(p, q, k, x);
      }
    }
  }

  lemma ListedIsLive(p: Program, live: seq<BlockId>, livein: LiveLists, b: BlockId, x: OpId)
    requires LiveInExact(p, live, livein) && b in live && b < |livein| && x in livein[b]
    ensures LiveAfter(p, Point(b, 0), x)
  {
    assert ListedExactly(p, livein, b);
  }

  /** In strict SSA form nothing is live into the entry block: the assertion that ends
      rebuild_livein cannot fire. */
  lemma EntryListEmpty(p: Program, live: seq<BlockId>, livein: LiveLists)
    requires StrictSsa(p) && AltsStrict(p) && PhisFirst(p) && LiveInExact(p, live, livein) && 0 in live
    ensures livein[0] == []
  {
    if livein[0] != [] {
      var x := livein[0][0];
      ListedIsLive(p, live, livein, 0, x);
      RootReachable(Points(p), Point(0, 0));
      LiveIsDominated(p, Point(0, 0), x);
      assert PlacedAt(p, p.ops[x].block, p.ops[x].pos);
      assert RunTo(Points(p), [Point(0, 0)], Point(0, 0));
      assert false;
    }
  }
}
