/** What findSCC (src/opt-ra.cpp) leaves behind: broken edges and renames change neither strict
    SSA nor any value or effect, on any run. */
module SccMeaning {
  import opened Digraph
  import opened Words
  import opened Ir
  import opened Lists
  import opened Cfg
  import opened Ssa
  import opened Liveness
  import opened SccEdges

  // ---- the result -------------------------------------------------------------------------

  function ProgramOf(f: Flow): Program { Program(f.ops, f.code, f.alts) }

  /** Alternative i of t belongs to the edge from b. */
  ghost predicate OnEdge(f: Flow, b: BlockId, t: BlockId, i: nat) {
    b in f.live && t in Targets(f, b) && t < |f.alts| && i < |f.alts[t]| && f.alts[t][i].src == b
  }

  /** On every edge each phi takes a value of its own class, or one added for the edge that
      copies what the phi took before. */
  ghost predicate EdgesInClass(f: Flow, w: Renames) {
    && |w.scc| == |w.ops| && InRange(f.alts, |w.scc|) && |w.alts| == |f.alts|
    && (forall t :: 0 <= t < |f.alts| ==> |w.alts[t]| == |f.alts[t]|)
    && forall b, t: BlockId, i: nat :: OnEdge(f, b, t, i) ==> AltOk(w, f.alts[t][i], w.alts[t][i], |f.ops|, 0)
  }

  function Unrenamed(f: Flow): Renames { Renames(f.ops, f.code, f.alts, []) }

  ghost predicate CopyUsed(w: Renames, v: OpId) {
    exists t: BlockId, i: nat :: UsedAt(w, t, i, v)
  }

  /** Every op added is the value of some alternative. */
  ghost predicate CopiesUsed(f: Flow, w: Renames) {
    forall v :: |f.ops| <= v < |w.ops| ==> CopyUsed(w, v)
  }

  /** w is f with renames in front of jumps. */
  ghost predicate Renamed(f: Flow, w: Renames) {
    && f.ops <= w.ops && |w.code| == |f.code| && EdgesInClass(f, w) && OnlyListed(Unrenamed(f), w, f.live)
    && NewAreCopies(w, |f.ops|) && CopiesUsed(f, w) && forall b :: b in f.live ==> JumpLast(Unrenamed(f), w, b)
  }

  /** f0 with critical edges broken is f; f with renames is w. */
  ghost predicate Passes(f0: Flow, f: Flow, w: Renames) {
    && FlowOk(f0) && FlowOk(f) && Grown(f0, f) && f0.live <= f.live && EdgesKept(f0, f)
    && Renamed(f, w)
  }

  /** What the pass is given: strict SSA, with all live blocks listed. */
  ghost predicate Given(f0: Flow) {
    && StrictSsa(ProgramOf(f0)) && AltsStrict(ProgramOf(f0)) && PhisFirst(ProgramOf(f0))
    && LiveExact(f0.ops, f0.code, f0.live) && InRange(f0.alts, |f0.ops|)
  }

  /** There were numbers for all blocks and ops. */
  predicate Numbers(w: Renames) { 0 < |w.code| < NoVal && |w.ops| <= NoVal }

  ghost predicate Done(f0: Flow, f: Flow, w: Renames) {
    Given(f0) && Passes(f0, f, w) && Numbers(w)
  }

  // ---- positions --------------------------------------------------------------------------

  function IndexOf(s: seq<OpId>, v: OpId): nat {
    if s == [] || s[0] == v then 0 else 1 + IndexOf(s[1..], v)
  }

  lemma {:induction false} IndexIs(s: seq<OpId>, v: OpId, j: nat)
    requires j < |s| && s[j] == v && forall i :: 0 <= i < j ==> s[i] != v
    ensures IndexOf(s, v) == j
    decreases j
  {
    if j > 0 {
      IndexIs(s[1..], v, j - 1);
    }
  }

  function PlaceOf(w: Renames, v: OpId): nat
    requires v < |w.ops|
  {
    if w.ops[v].block < |w.code| then IndexOf(w.code[w.ops[v].block], v) else w.ops[v].pos
  }

  function NumberedOps(w: Renames): (r: seq<Op>)
    ensures |r| == |w.ops| && forall v :: 0 <= v < |r| ==> r[v] == w.ops[v].(pos := PlaceOf(w, v))
  {
    seq(|w.ops|, v requires 0 <= v < |w.ops| => w.ops[v].(pos := PlaceOf(w, v)))
  }

  /** The program as the next DCE numbers it. */
  function Numbered(w: Renames): Program { Program(NumberedOps(w), w.code, w.alts) }

  // ---- blocks of the result -----------------------------------------------------------------

  lemma SuccSame(f: Flow, w: Renames, b: BlockId)
    requires EndsPlaced(f, b) && JumpLast(Unrenamed(f), w, b) && f.ops <= w.ops && |f.code| == |w.code|
    ensures Succ(Numbered(w).ops, w.code, b) == Targets(f, b) && EndsOk(Numbered(w).ops, w.code, b)
  {
    var c := f.code[b][|f.code[b]| - 1];
    assert w.code[b][|w.code[b]| - 1] == c && w.ops[c] == f.ops[c];
  }

  lemma SameSucc(f0: Flow, f: Flow, w: Renames, b: BlockId)
    requires Passes(f0, f, w) && b in f.live
    ensures Succ(Numbered(w).ops, w.code, b) == Targets(f, b) && EndsOk(Numbered(w).ops, w.code, b)
    ensures b < |f.code| && forall t :: t in Targets(f, b) ==> t in f.live
  {
    assert EndsPlaced(f, b) && JumpLast(Unrenamed(f), w, b);
    SuccSame(f, w, b);
  }

  lemma LiveListed(f0: Flow, f: Flow, w: Renames, b: BlockId)
    requires Done(f0, f, w) && LiveBlock(Numbered(w).ops, w.code, b)
    ensures b in f.live
  {
    RootReachable(BlockGraph(f0.ops, f0.code), 0);
    assert LiveBlock(f0.ops, f0.code, 0) && 0 in f0.live && 0 in f.live;
    forall a, s | a in f.live && s in Succ(Numbered(w).ops, w.code, a) ensures s in f.live {
      SameSucc(f0, f, w, a);
    }
    ClosedHoldsLive(Numbered(w).ops, w.code, f.live, b);
  }

  lemma ResultCfg(f0: Flow, f: Flow, w: Renames)
    requires Done(f0, f, w)
    ensures CfgOk(Numbered(w).ops, w.code)
  {
    forall b | LiveBlock(Numbered(w).ops, w.code, b) ensures EndsOk(Numbered(w).ops, w.code, b) {
      LiveListed(f0, f, w, b);
      SameSucc(f0, f, w, b);
    }
  }

  lemma StepLive(f0: Flow, f: Flow, w: Renames, a: BlockId, t: BlockId)
    requires Done(f0, f, w) && a in f.live && LiveBlock(Numbered(w).ops, w.code, a) && t in Targets(f, a)
    ensures LiveBlock(Numbered(w).ops, w.code, t)
  {
    SameSucc(f0, f, w, a);
    ReachableStep(BlockGraph(Numbered(w).ops, w.code), a, t);
  }

  /** One edge of the program, in the result. */
  lemma EdgeGoes(f0: Flow, f: Flow, w: Renames, a: BlockId, t: BlockId) returns (k: nat)
    requires Passes(f0, f, w) && a in f0.live && t in Targets(f0, a)
    ensures k < |Targets(f0, a)| && Targets(f0, a)[k] == t && a in f.live
    ensures if Breaks(f0, a, k) then EdgeBroken(f0, f, a, k) else EdgeSame(f0, f, a, k)
  {
    k :| 0 <= k < |Targets(f0, a)| && Targets(f0, a)[k] == t;
  }

  lemma OldStillLive(f0: Flow, f: Flow, w: Renames, b: BlockId)
    requires Done(f0, f, w) && LiveBlock(f0.ops, f0.code, b)
    ensures LiveBlock(Numbered(w).ops, w.code, b)
  {
    var r :| RunTo(BlockGraph(f0.ops, f0.code), r, b);
    RootReachable(BlockGraph(Numbered(w).ops, w.code), 0);
    RunStillLive(f0, f, w, r);
  }

  lemma {:induction false} RunStillLive(f0: Flow, f: Flow, w: Renames, r: seq<BlockId>)
    requires Done(f0, f, w) && IsRun(BlockGraph(f0.ops, f0.code), r) && LiveBlock(Numbered(w).ops, w.code, 0)
    ensures LiveBlock(Numbered(w).ops, w.code, r[|r| - 1])
    decreases |r|
  {
    var n, g := |r| - 1, BlockGraph(f0.ops, f0.code);
    if n > 0 {
      assert (r[n - 1], r[n - 1 + 1]) in g.edges && IsRun(g, r[..n]);
      RunStillLive(f0, f, w, r[..n]);
      RunListed(f0, f, w, r[..n]);
      EdgeStillLive(f0, f, w, r[n - 1], r[n]);
    }
  }

  lemma RunListed(f0: Flow, f: Flow, w: Renames, r: seq<BlockId>)
    requires Done(f0, f, w) && IsRun(BlockGraph(f0.ops, f0.code), r)
    ensures r[|r| - 1] in f0.live
  {
    assert RunTo(BlockGraph(f0.ops, f0.code), r, r[|r| - 1]);
    assert LiveBlock(f0.ops, f0.code, r[|r| - 1]);
  }

  lemma EdgeStillLive(f0: Flow, f: Flow, w: Renames, a: BlockId, t: BlockId)
    requires Done(f0, f, w) && a in f0.live && t in Targets(f0, a) && LiveBlock(Numbered(w).ops, w.code, a)
    ensures LiveBlock(Numbered(w).ops, w.code, t)
  {
    var k := EdgeGoes(f0, f, w, a, t);
    var u := Targets(f, a)[k];
    StepLive(f0, f, w, a, u);
    if Breaks(f0, a, k) {
      StepLive(f0, f, w, u, t);
    }
  }

  /** All blocks of the result that are listed are live. */
  lemma ListedLive(f0: Flow, f: Flow, w: Renames, b: BlockId)
    requires Done(f0, f, w) && b in f.live
    ensures LiveBlock(Numbered(w).ops, w.code, b)
  {
    if b < |f0.code| {
      OldStillLive(f0, f, w, b);
    } else {
      SameSucc(f0, f, w, b);
      assert Bridge(f0, f, b);
      var a := f.comeFrom[b][0];
      OldStillLive(f0, f, w, a);
      StepLive(f0, f, w, a, b);
    }
  }

  // ---- ops of the result --------------------------------------------------------------------

  /** Where the renames of b start. */
  function First(f: Flow, b: BlockId): nat {
    if b < |f.code| && f.code[b] != [] then |f.code[b]| - 1 else 0
  }

  /** The op at index j of b: an op of the program, a rename, or the jump. */
  lemma CodeIs(f0: Flow, f: Flow, w: Renames, b: BlockId, j: nat)
    requires Passes(f0, f, w) && b in f.live && b < |w.code| && j < |w.code[b]|
    ensures b < |f.code| && f.code[b] != [] && First(f, b) < |w.code[b]| && w.code[b][j] < |w.ops|
    ensures j < First(f, b) ==> w.code[b][j] == f.code[b][j] && w.code[b][j] < |f.ops|
    ensures First(f, b) <= j < |w.code[b]| - 1 ==> |f.ops| <= w.code[b][j] && w.ops[w.code[b][j]].block == b
    ensures j == |w.code[b]| - 1 ==> w.code[b][j] == f.code[b][First(f, b)] && w.code[b][j] < |f.ops|
  {
    assert JumpLast(Unrenamed(f), w, b) && EndsPlaced(f, b);
    var p := First(f, b);
    if j < p {
      assert w.code[b][j] == w.code[b][..p][j] && f.code[b][j] in f.code[b];
    } else if j < |w.code[b]| - 1 {
      assert Inserted(w, b, p)[j - p] == w.code[b][j];
      assert w.code[b][j] in Inserted(w, b, p);
    }
  }

  /** Every op stands at one place of its block. */
  lemma PlaceIs(f0: Flow, f: Flow, w: Renames, b: BlockId, j: nat)
    requires Done(f0, f, w) && b in f.live && b < |w.code| && j < |w.code[b]|
    ensures w.code[b][j] < |w.ops| && w.ops[w.code[b][j]].block == b && PlaceOf(w, w.code[b][j]) == j
  {
    CodeIs(f0, f, w, b, j);
    BlockIs(f0, f, w, b, j);
    forall i | 0 <= i < j ensures w.code[b][i] != w.code[b][j] {
      CodeIs(f0, f, w, b, i);
      OneBefore(f0, f, w, b, i, j);
    }
    IndexIs(w.code[b], w.code[b][j], j);
  }

  /** The program's own blocks. */
  lemma OldCode(f0: Flow, f: Flow, w: Renames, b: BlockId, j: nat)
    requires Done(f0, f, w) && b in f.live && b < |f0.code| && j < |f.code[b]|
    ensures b in f0.live && LiveBlock(f0.ops, f0.code, b) && f.code[b] == f0.code[b]
    ensures PlacedAt(ProgramOf(f0), b, j) && f.code[b][j] < |f0.ops| && SameButLabels(f0.ops[f.code[b][j]], f.ops[f.code[b][j]])
  {
    assert f.code[b] == f0.code[b];
    assert LiveBlock(f0.ops, f0.code, b);
    assert PlacedAt(ProgramOf(f0), b, j);
  }

  lemma NewCode(f0: Flow, f: Flow, w: Renames, b: BlockId)
    requires Passes(f0, f, w) && b in f.live && b >= |f0.code|
    ensures b < |f.code| && |f.code[b]| == 1 && |f0.ops| <= f.code[b][0] < |f.ops| && f.ops[f.code[b][0]].opcode == Jmp
    ensures f.ops[f.code[b][0]].ins == [] && f.ops[f.code[b][0]].block == b
  {
    assert EndsPlaced(f, b) && JumpPlaced(f, b);
    assert Bridge(f0, f, b);
  }

  lemma BlockIs(f0: Flow, f: Flow, w: Renames, b: BlockId, j: nat)
    requires Done(f0, f, w) && b in f.live && b < |w.code| && j < |w.code[b]|
    ensures w.code[b][j] < |w.ops| && w.ops[w.code[b][j]].block == b
  {
    CodeIs(f0, f, w, b, j);
    if j < First(f, b) || j == |w.code[b]| - 1 {
      if b < |f0.code| {
        OldCode(f0, f, w, b, if j < First(f, b) then j else First(f, b));
      } else {
        NewCode(f0, f, w, b);
      }
    }
  }

  lemma OneBefore(f0: Flow, f: Flow, w: Renames, b: BlockId, i: nat, j: nat)
    requires Done(f0, f, w) && b in f.live && b < |w.code| && i < j < |w.code[b]|
    ensures w.code[b][i] != w.code[b][j]
  {
    CodeIs(f0, f, w, b, i);
    CodeIs(f0, f, w, b, j);
    var p := First(f, b);
    if i < p && (j < p || j == |w.code[b]| - 1) {
      OldApart(f0, f, w, b, i, if j < p then j else p);
    } else if p <= i && j < |w.code[b]| - 1 {
      assert JumpLast(Unrenamed(f), w, b);
      CopiesApart(w, |f.ops|, b, p, i, j);
    }
  }

  lemma CopiesApart(w: Renames, n0: nat, b: BlockId, p: nat, i: nat, j: nat)
    requires CopiesStand(w, n0, b, p) && b < |w.code| && p <= i < j < |w.code[b]| - 1
    ensures w.code[b][i] != w.code[b][j]
  {
    assert Inserted(w, b, p)[i - p] == w.code[b][i] && Inserted(w, b, p)[j - p] == w.code[b][j];
  }

  lemma OldApart(f0: Flow, f: Flow, w: Renames, b: BlockId, i: nat, j: nat)
    requires Done(f0, f, w) && b in f.live && b < |f.code| && i < j < |f.code[b]|
    ensures f.code[b][i] != f.code[b][j]
  {
    if b < |f0.code| {
      OldCode(f0, f, w, b, i);
      OldCode(f0, f, w, b, j);
    } else {
      NewCode(f0, f, w, b);
    }
  }

  /** What the op at index j of b does: the program's op, a copy of a program's value, or the
      jump of a new block. */
  ghost predicate OpIs(f0: Flow, f: Flow, w: Renames, b: BlockId, j: nat)
    requires b < |w.code| && j < |w.code[b]|
  {
    var v := w.code[b][j];
    v < |w.ops| &&
    if First(f, b) <= j < |w.code[b]| - 1 then
      |f.ops| <= v && w.ops[v].opcode == Rename && |w.ops[v].ins| == 1 && w.ops[v].ins[0] < |f0.ops|
    else if b < |f0.code| then
      var j0 := if j < First(f, b) then j else First(f, b);
      && b in f0.live && j0 < |f0.code[b]| == First(f, b) + 1 && v == f0.code[b][j0] && v < |f0.ops| && SameButLabels(f0.ops[v], w.ops[v])
      && PlacedAt(ProgramOf(f0), b, j0)
    else w.ops[v].opcode == Jmp && w.ops[v].ins == [] && |f0.ops| <= v < |f.ops| && First(f, b) == 0
  }

  /** A copy reads an alternative of the program. */
  lemma CopyReads(f0: Flow, f: Flow, w: Renames, v: OpId) returns (t: BlockId, i: nat)
    requires Done(f0, f, w) && |f.ops| <= v < |w.ops|
    ensures OnEdge(f, w.ops[v].block, t, i) && t < |f0.alts| && i < |f0.alts[t]|
    ensures w.ops[v].ins == [f0.alts[t][i].val] && f0.alts[t][i].val == f.alts[t][i].val < |f0.ops|
  {
    assert CopyUsed(w, v);
    t, i :| UsedAt(w, t, i, v);
    assert i < |f.alts[t]| && w.alts[t][i] != f.alts[t][i] by {
      assert f.alts[t][i].val < |f.ops| by { ValuesIn(f0, f, t, i); }
    }
    ValuesIn(f0, f, t, i);
    assert OnEdge(f, f.alts[t][i].src, t, i);
  }

  lemma ValuesIn(f0: Flow, f: Flow, t: BlockId, i: nat)
    requires Grown(f0, f) && InRange(f0.alts, |f0.ops|) && t < |f.alts| && i < |f.alts[t]|
    ensures t < |f0.alts| && i < |f0.alts[t]| && f.alts[t][i].val == f0.alts[t][i].val < |f0.ops| && f.alts[t][i].phi == f0.alts[t][i].phi
  {
    if t < |f0.alts| {
      assert SameButSources(f0.alts[t], f.alts[t]);
    }
  }

  lemma OpAt(f0: Flow, f: Flow, w: Renames, b: BlockId, j: nat)
    requires Done(f0, f, w) && b in f.live && b < |w.code| && j < |w.code[b]|
    ensures OpIs(f0, f, w, b, j)
  {
    CodeIs(f0, f, w, b, j);
    if First(f, b) <= j < |w.code[b]| - 1 {
      var t, i := CopyReads(f0, f, w, w.code[b][j]);
    } else if b < |f0.code| {
      OldCode(f0, f, w, b, if j < First(f, b) then j else First(f, b));
    } else {
      NewCode(f0, f, w, b);
    }
  }

  lemma ResultPlacedAt(f0: Flow, f: Flow, w: Renames, b: BlockId, j: nat)
    requires Done(f0, f, w) && b in f.live && b < |w.code| && j < |w.code[b]|
    ensures PlacedAt(Numbered(w), b, j)
  {
    OpAt(f0, f, w, b, j);
    PlaceIs(f0, f, w, b, j);
  }

  lemma ResultPlaced(f0: Flow, f: Flow, w: Renames)
    requires Done(f0, f, w)
    ensures Placed(Numbered(w))
  {
    ResultCfg(f0, f, w);
    forall b: BlockId, j: nat | LiveBlock(Numbered(w).ops, w.code, b) && b < |w.code| && j < |w.code[b]|
      ensures PlacedAt(Numbered(w), b, j)
    {
      LiveListed(f0, f, w, b);
      ResultPlacedAt(f0, f, w, b, j);
    }
  }

  // ---- runs of the result, and of the program ---------------------------------------------------

  /** The point of the program where a point of the result has got to. */
  function Anchor(f0: Flow, f: Flow, w: Renames, z: Point): Point {
    if z.b < |f0.code| && z.b < |w.code| then
      if z.i < |f0.code[z.b]| then z
      else if z.i < |w.code[z.b]| then Point(z.b, First(f0, z.b))
      else Point(z.b, |f0.code[z.b]|)
    else if z.b < |f.comeFrom| && |f.comeFrom[z.b]| > 0 && f.comeFrom[z.b][0] < |f0.code| then
      Point(f.comeFrom[z.b][0], |f0.code[f.comeFrom[z.b][0]]|)
    else z
  }

  /** Not in a new block, and not among renames. */
  predicate Stays(f0: Flow, w: Renames, z: Point) {
    z.b < |f0.code| && z.b < |w.code| && (z.i < |f0.code[z.b]| || z.i >= |w.code[z.b]|)
  }

  function Project(f0: Flow, f: Flow, w: Renames, r: seq<Point>): seq<Point> {
    if r == [] then []
    else Project(f0, f, w, r[..|r| - 1]) + if Stays(f0, w, r[|r| - 1]) then [Anchor(f0, f, w, r[|r| - 1])] else []
  }

  ghost predicate Inside(f: Flow, w: Renames, z: Point) {
    z.b in f.live && z.b < |w.code| && z.i <= |w.code[z.b]|
  }

  /** Within a block. */
  lemma StepInside(f0: Flow, f: Flow, w: Renames, b: BlockId, i: nat)
    requires Done(f0, f, w) && b in f.live && b < |w.code| && i < |w.code[b]|
    ensures var x, z := Point(b, i), Point(b, i + 1);
            if Stays(f0, w, z) then (Anchor(f0, f, w, x), Anchor(f0, f, w, z)) in Points(ProgramOf(f0)).edges
            else Anchor(f0, f, w, x) == Anchor(f0, f, w, z)
  {
    assert JumpLast(Unrenamed(f), w, b);
    if b < |f0.code| {
      assert f0.code[b] == f.code[b];
    } else {
      assert Bridge(f0, f, b) && EndsPlaced(f0, f.comeFrom[b][0]);
    }
  }

  /** From a block of the program. */
  lemma LeaveOld(f0: Flow, f: Flow, w: Renames, a: BlockId, t: BlockId)
    requires Done(f0, f, w) && a in f.live && a < |f0.code| && t in Targets(f, a)
    ensures a in f0.live
    ensures if t < |f0.code| then t in Targets(f0, a) && SourceIs(f0, f, t, a, a)
            else Anchor(f0, f, w, Point(t, 0)) == Point(a, |f0.code[a]|)
  {
    assert a in f0.live && EndsPlaced(f0, a);
    var k :| 0 <= k < |Targets(f, a)| && Targets(f, a)[k] == t;
    assert SameCount(f0, f, a, 0) by {
      CountSame(f0, f, w, a);
    }
    assert if Breaks(f0, a, k) then EdgeBroken(f0, f, a, k) else EdgeSame(f0, f, a, k);
  }

  lemma CountSame(f0: Flow, f: Flow, w: Renames, a: BlockId)
    requires Done(f0, f, w) && a in f0.live && Targets(f, a) != []
    ensures SameCount(f0, f, a, 0)
  {
    assert EndsPlaced(f0, a) && f0.code[a] == f.code[a];
    var c := f0.code[a][|f0.code[a]| - 1];
    assert SameButLabels(f0.ops[c], f.ops[c]);
  }

  /** From a new block. */
  lemma LeaveNew(f0: Flow, f: Flow, w: Renames, n: BlockId, t: BlockId)
    requires Done(f0, f, w) && n in f.live && n >= |f0.code| && t in Targets(f, n)
    ensures n < |f.comeFrom| && |f.comeFrom[n]| == 1 && f.comeFrom[n][0] in f0.live && f.comeFrom[n][0] < |f0.code|
    ensures t < |f0.code| && t in Targets(f0, f.comeFrom[n][0]) && SourceIs(f0, f, t, f.comeFrom[n][0], n)
  {
    assert EndsPlaced(f, n) && Bridge(f0, f, n);
    var a := f.comeFrom[n][0];
    var k: nat :| EdgeBroken(f0, f, a, k) && Targets(f, a)[k] == n;
    assert EndsPlaced(f0, a);
  }

  lemma EdgeCases(q: Program, x: Point, z: Point)
    requires (x, z) in Points(q).edges
    ensures x.b < |q.code|
    ensures (z.b == x.b && z.i == x.i + 1 && z.i <= |q.code[x.b]|) || (x.i == |q.code[x.b]| && z.i == 0 && z.b in Succ(q.ops, q.code, x.b))
  {
  }

  lemma EdgeDown(f0: Flow, f: Flow, w: Renames, x: Point, z: Point)
    requires Done(f0, f, w) && Inside(f, w, x) && (x, z) in Points(Numbered(w)).edges
    ensures Inside(f, w, z)
    ensures if Stays(f0, w, z) then (Anchor(f0, f, w, x), Anchor(f0, f, w, z)) in Points(ProgramOf(f0)).edges
            else Anchor(f0, f, w, x) == Anchor(f0, f, w, z)
  {
    EdgeCases(Numbered(w), x, z);
    if z.b == x.b && z.i == x.i + 1 && z.i <= |w.code[x.b]| {
      StepInside(f0, f, w, x.b, x.i);
    } else {
      SameSucc(f0, f, w, x.b);
      SameSucc(f0, f, w, z.b);
      LeaveBlock(f0, f, w, x.b, z.b);
    }
  }

  lemma LeaveBlock(f0: Flow, f: Flow, w: Renames, b: BlockId, t: BlockId)
    requires Done(f0, f, w) && b in f.live && b < |w.code| && t in Targets(f, b) && t in f.live && t < |w.code|
    ensures var x, z := Point(b, |w.code[b]|), Point(t, 0);
            if Stays(f0, w, z) then (Anchor(f0, f, w, x), Anchor(f0, f, w, z)) in Points(ProgramOf(f0)).edges
            else Anchor(f0, f, w, x) == Anchor(f0, f, w, z)
  {
    assert JumpLast(Unrenamed(f), w, b) && JumpLast(Unrenamed(f), w, t);
    if b < |f0.code| {
      assert f0.code[b] == f.code[b];
      LeaveOld(f0, f, w, b, t);
    } else {
      LeaveNew(f0, f, w, b, t);
    }
    if t < |f0.code| {
      assert f0.code[t] == f.code[t];
    }
  }

  lemma {:induction false} ProjectRun(f0: Flow, f: Flow, w: Renames, r: seq<Point>)
    requires Done(f0, f, w) && IsRun(Points(Numbered(w)), r)
    ensures Inside(f, w, r[|r| - 1]) && RunTo(Points(ProgramOf(f0)), Project(f0, f, w, r), Anchor(f0, f, w, r[|r| - 1]))
    decreases |r|
  {
    if |r| == 1 {
      StartInside(f0, f, w);
      assert r[..0] == [];
    } else {
      RunInit(Numbered(w), r);
      ProjectRun(f0, f, w, r[..|r| - 1]);
      EdgeDown(f0, f, w, r[|r| - 2], r[|r| - 1]);
      ProjectOn(f0, f, w, r);
    }
  }

  lemma ProjectOn(f0: Flow, f: Flow, w: Renames, r: seq<Point>)
    requires |r| > 1
    requires RunTo(Points(ProgramOf(f0)), Project(f0, f, w, r[..|r| - 1]), Anchor(f0, f, w, r[|r| - 2]))
    requires var (x, z) := (r[|r| - 2], r[|r| - 1]);
             if Stays(f0, w, z) then (Anchor(f0, f, w, x), Anchor(f0, f, w, z)) in Points(ProgramOf(f0)).edges
             else Anchor(f0, f, w, x) == Anchor(f0, f, w, z)
    ensures RunTo(Points(ProgramOf(f0)), Project(f0, f, w, r), Anchor(f0, f, w, r[|r| - 1]))
  {
    var s, x, z := Project(f0, f, w, r[..|r| - 1]), r[|r| - 2], r[|r| - 1];
    if Stays(f0, w, z) {
      RunExtend(Points(ProgramOf(f0)), s, Anchor(f0, f, w, x), Anchor(f0, f, w, z));
    } else {
      assert s + [] == s;
    }
  }

  lemma StartInside(f0: Flow, f: Flow, w: Renames)
    requires Done(f0, f, w)
    ensures Inside(f, w, Point(0, 0)) && Stays(f0, w, Point(0, 0)) && Anchor(f0, f, w, Point(0, 0)) == Point(0, 0) && 0 in f0.live
  {
    RootReachable(BlockGraph(f0.ops, f0.code), 0);
    assert LiveBlock(f0.ops, f0.code, 0) && EndsPlaced(f0, 0);
  }

  lemma {:induction false} ProjectMember(f0: Flow, f: Flow, w: Renames, r: seq<Point>, d: Point)
    requires d in Project(f0, f, w, r) && d.b < |f0.code| && d.i < |f0.code[d.b]|
    requires |f0.code| <= |w.code| && forall z :: z in r && Stays(f0, w, z) ==> |f0.code[z.b]| <= |w.code[z.b]|
    ensures d in r
    decreases |r|
  {
    var n := |r| - 1;
    if d in Project(f0, f, w, r[..n]) {
      ProjectMember(f0, f, w, r[..n], d);
    } else {
      assert d == Anchor(f0, f, w, r[n]);
    }
  }

  // ---- definitions and uses ---------------------------------------------------------------------

  /** A value of the program stands in front of the renames of its block. */
  lemma OldPlace(f0: Flow, f: Flow, w: Renames, x: OpId)
    requires Done(f0, f, w) && Defined(ProgramOf(f0), x)
    ensures var (b, j) := (f0.ops[x].block, f0.ops[x].pos);
            && b in f0.live && b in f.live && j < |f0.code[b]| - 1 && f0.code[b][j] == x
            && x < |w.ops| && SameButLabels(f0.ops[x], w.ops[x])
  {
    GivenPlace(f0, x);
    KeptOp(f0, f, w, x);
  }

  lemma GivenPlace(f0: Flow, x: OpId)
    requires Given(f0) && Defined(ProgramOf(f0), x)
    ensures var (b, j) := (f0.ops[x].block, f0.ops[x].pos);
            b in f0.live && j < |f0.code[b]| - 1 && f0.code[b][j] == x
  {
    assert LiveBlock(f0.ops, f0.code, f0.ops[x].block) && PlacedAt(ProgramOf(f0), f0.ops[x].block, f0.ops[x].pos);
  }

  lemma KeptOp(f0: Flow, f: Flow, w: Renames, x: OpId)
    requires Grown(f0, f) && f.ops <= w.ops && x < |f0.ops|
    ensures x < |w.ops| && SameButLabels(f0.ops[x], w.ops[x])
  {
    assert SameButLabels(f0.ops[x], f.ops[x]) && f.ops[x] == w.ops[x];
  }

  /** Values of the program are defined where they were. */
  lemma DefinedStays(f0: Flow, f: Flow, w: Renames, x: OpId)
    requires Done(f0, f, w) && Defined(ProgramOf(f0), x)
    ensures x < |w.ops| && Defined(Numbered(w), x) && DefPoint(Numbered(w).ops, x) == DefPoint(f0.ops, x)
    ensures w.ops[x].block < |f0.code| && f0.ops[x].pos < |f0.code[w.ops[x].block]| - 1
    ensures w.ops[x].block < |w.code| && |f0.code[w.ops[x].block]| <= |w.code[w.ops[x].block]|
  {
    var b, j := f0.ops[x].block, f0.ops[x].pos;
    OldPlace(f0, f, w, x);
    ShapeIs(f0, f, w, b);
    CodeIs(f0, f, w, b, j);
    DefinedAt(f0, f, w, b, j);
  }

  lemma DefinedAt(f0: Flow, f: Flow, w: Renames, b: BlockId, j: nat)
    requires Done(f0, f, w) && b in f.live && b < |w.code| && j < |w.code[b]| && w.code[b][j] < |w.ops| && w.ops[w.code[b][j]].HasOutput()
    ensures w.ops[w.code[b][j]].block == b && Defined(Numbered(w), w.code[b][j]) && Numbered(w).ops[w.code[b][j]].pos == j
  {
    PlaceIs(f0, f, w, b, j);
    ListedLive(f0, f, w, b);
  }

  lemma ShapeIs(f0: Flow, f: Flow, w: Renames, b: BlockId)
    requires Passes(f0, f, w) && b in f.live
    ensures b < |f.code| && b < |w.code| && 0 < |f.code[b]| <= |w.code[b]| && (b < |f0.code| ==> f.code[b] == f0.code[b])
  {
    assert JumpLast(Unrenamed(f), w, b);
  }

  lemma RunShapes(f0: Flow, f: Flow, w: Renames, r: seq<Point>)
    requires Done(f0, f, w) && IsRun(Points(Numbered(w)), r)
    ensures |f0.code| <= |w.code| && forall z :: z in r && Stays(f0, w, z) ==> |f0.code[z.b]| <= |w.code[z.b]|
  {
    forall z | z in r && Stays(f0, w, z) ensures |f0.code[z.b]| <= |w.code[z.b]| {
      var k :| 0 <= k < |r| && r[k] == z;
      RunPrefix(Points(Numbered(w)), r, k);
      ProjectRun(f0, f, w, r[..k + 1]);
      ShapeIs(f0, f, w, z.b);
    }
  }

  /** What is available in the program is available in the result. */
  lemma UseStays(f0: Flow, f: Flow, w: Renames, z: Point, x: OpId)
    requires Done(f0, f, w) && UseOk(ProgramOf(f0), Anchor(f0, f, w, z), x)
    ensures UseOk(Numbered(w), z, x) && x < |w.ops|
  {
    DefinedStays(f0, f, w, x);
    var d := DefPoint(f0.ops, x);
    forall r | RunTo(Points(Numbered(w)), r, z) ensures d in r {
      ProjectRun(f0, f, w, r);
      assert d in Project(f0, f, w, r);
      RunShapes(f0, f, w, r);
      ProjectMember(f0, f, w, r, d);
    }
  }

  /** The alternatives of an edge of the result are those of an edge of the program. */
  lemma EdgeFrom(f0: Flow, f: Flow, w: Renames, b: BlockId, t: BlockId) returns (a: BlockId)
    requires Done(f0, f, w) && b in f.live && b < |w.code| && t in Targets(f, b) && t < |f0.code|
    ensures a in f0.live && a < |f0.code| && t in Targets(f0, a) && SourceIs(f0, f, t, a, b)
    ensures Anchor(f0, f, w, Point(b, |w.code[b]|)) == Point(a, |f0.code[a]|)
  {
    ShapeIs(f0, f, w, b);
    if b < |f0.code| {
      LeaveOld(f0, f, w, b, t);
      a := b;
    } else {
      LeaveNew(f0, f, w, b, t);
      a := f.comeFrom[b][0];
    }
  }

  lemma AltUse(f0: Flow, f: Flow, w: Renames, b: BlockId, t: BlockId, i: nat)
    requires Done(f0, f, w) && OnEdge(f, b, t, i) && b < |w.code|
    ensures t < |f0.alts| && i < |f0.alts[t]| && f.alts[t][i].val == f0.alts[t][i].val < |f0.ops|
    ensures UseOk(ProgramOf(f0), Anchor(f0, f, w, Point(b, |w.code[b]|)), f.alts[t][i].val)
  {
    ValuesIn(f0, f, t, i);
    var a := EdgeFrom(f0, f, w, b, t);
    assert LiveBlock(f0.ops, f0.code, a);
    assert ProgramOf(f0).alts[t][i].src == a;
  }

  lemma CopyValue(f0: Flow, f: Flow, w: Renames, v: OpId) returns (x: OpId)
    requires Done(f0, f, w) && |f.ops| <= v < |w.ops| && w.ops[v].block < |w.code|
    ensures w.ops[v].ins == [x] && x < |f0.ops| && w.ops[v].block in f.live
    ensures UseOk(ProgramOf(f0), Anchor(f0, f, w, Point(w.ops[v].block, |w.code[w.ops[v].block]|)), x)
  {
    var t, i := CopyReads(f0, f, w, v);
    AltUse(f0, f, w, w.ops[v].block, t, i);
    x := f.alts[t][i].val;
  }

  /** Among the renames of a block of the program, or anywhere in a new block. */
  lemma AnchorAtCopy(f0: Flow, f: Flow, w: Renames, b: BlockId, i: nat)
    requires Passes(f0, f, w) && b in f.live && b < |w.code| && First(f, b) < i < |w.code[b]|
    ensures b < |f0.code| ==> Anchor(f0, f, w, Point(b, i)) == Point(b, First(f0, b))
    ensures b < |f0.code| ==> Anchor(f0, f, w, Point(b, |w.code[b]|)) == Point(b, |f0.code[b]|)
    ensures b >= |f0.code| ==> Anchor(f0, f, w, Point(b, i)) == Anchor(f0, f, w, Point(b, |w.code[b]|))
  {
    ShapeIs(f0, f, w, b);
    if b >= |f0.code| {
      assert Bridge(f0, f, b) && EndsPlaced(f0, f.comeFrom[b][0]);
    }
  }

  /** What a copy reads is available where it stands. */
  lemma CopyUse(f0: Flow, f: Flow, w: Renames, b: BlockId, j: nat)
    requires Done(f0, f, w) && b in f.live && b < |w.code| && First(f, b) <= j < |w.code[b]| - 1
    ensures w.code[b][j] < |w.ops| && |w.ops[w.code[b][j]].ins| == 1
    ensures UseOk(Numbered(w), Point(b, j + 1), w.ops[w.code[b][j]].ins[0])
  {
    CodeIs(f0, f, w, b, j);
    var x := CopyValue(f0, f, w, w.code[b][j]);
    AnchorAtCopy(f0, f, w, b, j + 1);
    if b < |f0.code| {
      BeforeJump(f0, f, w, b, x);
    }
    UseStays(f0, f, w, Point(b, j + 1), x);
  }

  /** What is available after a jump is available before it. */
  lemma BeforeJump(f0: Flow, f: Flow, w: Renames, b: BlockId, x: OpId)
    requires Done(f0, f, w) && b in f.live && b < |f0.code| && UseOk(ProgramOf(f0), Point(b, |f0.code[b]|), x)
    ensures f0.code[b] != [] && UseOk(ProgramOf(f0), Point(b, First(f0, b)), x)
  {
    ShapeIs(f0, f, w, b);
    DefinedStays(f0, f, w, x);
    var n := First(f0, b);
    assert (Point(b, n), Point(b, n + 1)) in Points(ProgramOf(f0)).edges;
    DomThroughEdge(Points(ProgramOf(f0)), DefPoint(f0.ops, x), Point(b, n), Point(b, n + 1));
  }

  // ---- strict SSA ---------------------------------------------------------------------------------

  lemma DefElsewhere(f0: Flow, f: Flow, w: Renames, b: BlockId, i: nat, x: OpId)
    requires Done(f0, f, w) && Defined(ProgramOf(f0), x) && b in f.live && First(f, b) < i
    ensures DefPoint(f0.ops, x) != Point(b, i)
  {
    DefinedStays(f0, f, w, x);
    ShapeIs(f0, f, w, b);
  }

  lemma ResultInputs(f0: Flow, f: Flow, w: Renames, b: BlockId, j: nat)
    requires Done(f0, f, w) && b in f.live && b < |w.code| && j < |w.code[b]|
    ensures InputsOk(Numbered(w), b, j)
  {
    if First(f, b) <= j < |w.code[b]| - 1 {
      CopyUse(f0, f, w, b, j);
      CopyInput(f0, f, w, b, j);
    } else if b < |f0.code| {
      OldInputs(f0, f, w, b, j);
    } else {
      OpAt(f0, f, w, b, j);
    }
  }

  lemma CopyInput(f0: Flow, f: Flow, w: Renames, b: BlockId, j: nat)
    requires Done(f0, f, w) && b in f.live && b < |w.code| && First(f, b) <= j < |w.code[b]| - 1
    requires w.code[b][j] < |w.ops| && |w.ops[w.code[b][j]].ins| == 1
    requires UseOk(Numbered(w), Point(b, j + 1), w.ops[w.code[b][j]].ins[0])
    ensures InputsOk(Numbered(w), b, j)
  {
    CodeIs(f0, f, w, b, j);
    var x := CopyValue(f0, f, w, w.code[b][j]);
    DefElsewhere(f0, f, w, b, j + 1, x);
    DefinedStays(f0, f, w, x);
  }

  lemma OldInputs(f0: Flow, f: Flow, w: Renames, b: BlockId, j: nat)
    requires Done(f0, f, w) && b in f.live && b < |f0.code| && b < |w.code| && j < |w.code[b]|
    requires j < First(f, b) || j == |w.code[b]| - 1
    ensures InputsOk(Numbered(w), b, j)
  {
    var j0 := if j < First(f, b) then j else First(f, b);
    OldOp(f0, f, w, b, j, j0);
    forall x | x in w.ops[w.code[b][j]].ins ensures InputOk(Numbered(w), Point(b, j + 1), x) {
      OldInput(f0, f, w, b, j, j0, x);
    }
  }

  /** An op of the program with its operands. */
  lemma OldOp(f0: Flow, f: Flow, w: Renames, b: BlockId, j: nat, j0: nat)
    requires Done(f0, f, w) && b in f.live && b < |f0.code| && b < |w.code| && j < |w.code[b]|
    requires if j < First(f, b) then j0 == j else j == |w.code[b]| - 1 && j0 == First(f, b)
    ensures w.code[b][j] < |w.ops| && forall x :: x in w.ops[w.code[b][j]].ins ==> InputOk(ProgramOf(f0), Point(b, j0 + 1), x)
  {
    OpAt(f0, f, w, b, j);
    GivenInputs(f0, b, j0);
  }

  lemma GivenInputs(f0: Flow, b: BlockId, j: nat)
    requires Given(f0) && b in f0.live && b < |f0.code| && j < |f0.code[b]|
    ensures InputsOk(ProgramOf(f0), b, j)
  {
    assert LiveBlock(f0.ops, f0.code, b);
  }

  lemma OldInput(f0: Flow, f: Flow, w: Renames, b: BlockId, j: nat, j0: nat, x: OpId)
    requires Done(f0, f, w) && b in f.live && b < |f0.code| && b < |w.code| && j < |w.code[b]|
    requires if j < First(f, b) then j0 == j else j == |w.code[b]| - 1 && j0 == First(f, b)
    requires InputOk(ProgramOf(f0), Point(b, j0 + 1), x)
    ensures InputOk(Numbered(w), Point(b, j + 1), x)
  {
    ShapeIs(f0, f, w, b);
    assert Anchor(f0, f, w, Point(b, j + 1)) == Point(b, j0 + 1);
    UseStays(f0, f, w, Point(b, j + 1), x);
    DefinedStays(f0, f, w, x);
    if j >= First(f, b) {
      DefElsewhere(f0, f, w, b, j + 1, x);
    }
  }

  lemma CopyPlace(f: Flow, w: Renames, b: BlockId, v: OpId) returns (j: nat)
    requires JumpLast(Unrenamed(f), w, b) && |f.ops| <= v < |w.ops| && w.ops[v].block == b
    ensures First(f, b) <= j < |w.code[b]| - 1 && w.code[b][j] == v
  {
    var p := First(f, b);
    assert v in Inserted(w, b, p);
    var k :| 0 <= k < |Inserted(w, b, p)| && Inserted(w, b, p)[k] == v;
    j := p + k;
  }

  /** A copy is available at the end of its block. */
  lemma CopyAvailable(f0: Flow, f: Flow, w: Renames, v: OpId)
    requires Done(f0, f, w) && |f.ops| <= v < |w.ops| && w.ops[v].block < |w.code| && w.ops[v].block in f.live
    ensures UseOk(Numbered(w), Point(w.ops[v].block, |w.code[w.ops[v].block]|), v)
  {
    var b := w.ops[v].block;
    var j := CopyPlace(f, w, b, v);
    PlaceIs(f0, f, w, b, j);
    ListedLive(f0, f, w, b);
    SameBlockDominates(Numbered(w).ops, w.code, b, j + 1, |w.code[b]|);
  }

  /** Every alternative of an edge of the result carries what is available there. */
  lemma ResultAlt(f0: Flow, f: Flow, w: Renames, b: BlockId, t: BlockId, i: nat)
    requires Done(f0, f, w) && OnEdge(f, b, t, i) && b < |w.code|
    ensures t < |w.alts| && i < |w.alts[t]| && w.alts[t][i].src == b
    ensures UseOk(Numbered(w), Point(b, |w.code[b]|), w.alts[t][i].val)
  {
    assert AltOk(w, f.alts[t][i], w.alts[t][i], |f.ops|, 0);
    if w.alts[t][i].val == f.alts[t][i].val {
      AltUse(f0, f, w, b, t, i);
      UseStays(f0, f, w, Point(b, |w.code[b]|), f.alts[t][i].val);
    } else {
      CopyAvailable(f0, f, w, w.alts[t][i].val);
    }
  }

  /** Two lists with corresponding entries for two sources: their first entries correspond. */
  lemma {:induction false} SameSearch(s: seq<PhiAlt>, u: seq<PhiAlt>, phi: OpId, a: BlockId, b: BlockId) returns (i: nat)
    requires |s| == |u| && forall k :: 0 <= k < |s| ==> s[k].phi == u[k].phi && (s[k].src == a <==> u[k].src == b)
    requires exists k :: 0 <= k < |s| && s[k].phi == phi && s[k].src == a
    ensures i < |s| && s[i].phi == phi == u[i].phi && s[i].src == a && u[i].src == b
    ensures PhiSource(s, phi, a) == s[i].val && PhiSource(u, phi, b) == u[i].val
    decreases |s|
  {
    if s[0].phi == phi && s[0].src == a {
      i := 0;
    } else {
      var j := SameSearch(s[1..], u[1..], phi, a, b);
      i := j + 1;
    }
  }

  /** The alternative that a phi takes on an edge of the result. */
  lemma TakenAlt(f0: Flow, f: Flow, w: Renames, b: BlockId, t: BlockId, v: OpId) returns (a: BlockId, i: nat)
    requires Done(f0, f, w) && b in f.live && b < |w.code| && t in Targets(f, b) && t < |f0.code| && IsPhiOf(ProgramOf(f0), t, v)
    ensures a in f0.live && t in Targets(f0, a) && Anchor(f0, f, w, Point(b, |w.code[b]|)) == Point(a, |f0.code[a]|)
    ensures OnEdge(f, b, t, i) && t < |f0.alts| && i < |f0.alts[t]| && t < |w.alts| && i < |w.alts[t]|
    ensures f.alts[t][i].val == f0.alts[t][i].val == PhiSource(f0.alts[t], v, a) && w.alts[t][i].val == PhiSource(w.alts[t], v, b)
    ensures w.alts[t][i].phi == v
  {
    a := EdgeFrom(f0, f, w, b, t);
    assert LiveBlock(f0.ops, f0.code, a) && EdgeOk(ProgramOf(f0), a, t, v);
    SourcesMatch(f0, f, w, a, b, t);
    var x := PhiSource(f0.alts[t], v, a);
    var k :| 0 <= k < |f0.alts[t]| && f0.alts[t][k] == PhiAlt(v, a, x);
    i := SameSearch(f0.alts[t], w.alts[t], v, a, b);
    ValuesIn(f0, f, t, i);
    assert f.alts[t][i].src == b;
  }

  lemma SourcesMatch(f0: Flow, f: Flow, w: Renames, a: BlockId, b: BlockId, t: BlockId)
    requires Done(f0, f, w) && b in f.live && t in Targets(f, b) && SourceIs(f0, f, t, a, b)
    ensures t < |w.alts| && |f0.alts[t]| == |w.alts[t]|
    ensures forall k :: 0 <= k < |w.alts[t]| ==> f0.alts[t][k].phi == w.alts[t][k].phi && (f0.alts[t][k].src == a <==> w.alts[t][k].src == b)
  {
    forall k | 0 <= k < |w.alts[t]|
      ensures f0.alts[t][k].phi == w.alts[t][k].phi && (f0.alts[t][k].src == a <==> w.alts[t][k].src == b)
    {
      ValuesIn(f0, f, t, k);
      if w.alts[t][k] != f.alts[t][k] {
        assert OnEdge(f, f.alts[t][k].src, t, k);
        assert AltOk(w, f.alts[t][k], w.alts[t][k], |f.ops|, 0);
      }
    }
  }

  lemma ResultPhi(f0: Flow, f: Flow, w: Renames, t: BlockId, v: OpId)
    requires Done(f0, f, w) && t in f.live
    ensures IsPhiOf(Numbered(w), t, v) <==> t < |f0.code| && IsPhiOf(ProgramOf(f0), t, v)
  {
    ShapeIs(f0, f, w, t);
    if IsPhiOf(Numbered(w), t, v) {
      var j :| 0 <= j < |w.code[t]| && w.code[t][j] == v;
      OpAt(f0, f, w, t, j);
    }
    if t < |f0.code| && IsPhiOf(ProgramOf(f0), t, v) {
      var j :| 0 <= j < |f0.code[t]| && f0.code[t][j] == v;
      OldPhiStays(f0, f, w, t, j);
    }
  }

  lemma OldPhiStays(f0: Flow, f: Flow, w: Renames, t: BlockId, j: nat)
    requires Done(f0, f, w) && t in f.live && t < |f0.code| && j < |f0.code[t]|
    requires f0.code[t][j] < |f0.ops| && f0.ops[f0.code[t][j]].opcode.Phi?
    ensures IsPhiOf(Numbered(w), t, f0.code[t][j])
  {
    ShapeIs(f0, f, w, t);
    OldCode(f0, f, w, t, j);
    CodeIs(f0, f, w, t, j);
    OpAt(f0, f, w, t, j);
    assert j < First(f, t);
  }

  lemma ResultEdge(f0: Flow, f: Flow, w: Renames, b: BlockId, t: BlockId, v: OpId)
    requires Done(f0, f, w) && b in f.live && b < |w.code| && t in Targets(f, b) && t < |w.alts| && IsPhiOf(Numbered(w), t, v)
    ensures EdgeOk(Numbered(w), b, t, v)
  {
    SameSucc(f0, f, w, b);
    ResultPhi(f0, f, w, t, v);
    var a, i := TakenAlt(f0, f, w, b, t, v);
    ResultAlt(f0, f, w, b, t, i);
    assert w.alts[t][i] == PhiAlt(v, b, w.alts[t][i].val);
  }

  /** The result is strict SSA, like the program. */
  lemma ResultStrict(f0: Flow, f: Flow, w: Renames)
    requires Done(f0, f, w)
    ensures StrictSsa(Numbered(w)) && AltsStrict(Numbered(w)) && forall b :: b in f.live ==> PhisLead(Numbered(w), b)
  {
    var q := Numbered(w);
    ResultPlaced(f0, f, w);
    forall b: BlockId, j: nat | LiveBlock(q.ops, q.code, b) && b < |q.code| && j < |q.code[b]| ensures InputsOk(q, b, j) {
      LiveListed(f0, f, w, b);
      ResultInputs(f0, f, w, b, j);
    }
    forall a: BlockId, b: BlockId, v: OpId |
      LiveBlock(q.ops, q.code, a) && a < |q.code| && b in Succ(q.ops, q.code, a) && b < |q.alts| && IsPhiOf(q, b, v)
      ensures EdgeOk(q, a, b, v)
    {
      LiveListed(f0, f, w, a);
      SameSucc(f0, f, w, a);
      ResultEdge(f0, f, w, a, b, v);
    }
    ResultAlts(f0, f, w);
    forall b | b in f.live ensures PhisLead(q, b) {
      ResultPhisFirst(f0, f, w, b);
    }
  }

  lemma ResultAlts(f0: Flow, f: Flow, w: Renames)
    requires Done(f0, f, w)
    ensures AltsStrict(Numbered(w))
  {
    var q := Numbered(w);
    forall a: BlockId, b: BlockId, k: nat |
      LiveBlock(q.ops, q.code, a) && a < |q.code| && b in Succ(q.ops, q.code, a) && b < |q.alts|
      && k < |q.alts[b]| && q.alts[b][k].src == a
      ensures UseOk(q, Point(a, |q.code[a]|), q.alts[b][k].val)
    {
      LiveListed(f0, f, w, a);
      SameSucc(f0, f, w, a);
      AltIsOnEdge(f0, f, w, a, b, k);
      ResultAlt(f0, f, w, a, b, k);
    }
  }

  lemma AltIsOnEdge(f0: Flow, f: Flow, w: Renames, a: BlockId, b: BlockId, k: nat)
    requires Done(f0, f, w) && a in f.live && b in Targets(f, a) && b < |w.alts| && k < |w.alts[b]| && w.alts[b][k].src == a
    ensures OnEdge(f, a, b, k)
  {
    if w.alts[b][k] != f.alts[b][k] {
      assert OnEdge(f, f.alts[b][k].src, b, k);
      assert AltOk(w, f.alts[b][k], w.alts[b][k], |f.ops|, 0);
    }
  }

  /** Phis still come first in every listed block. */
  ghost predicate PhisLead(q: Program, b: BlockId) {
    b < |q.code| && forall i, j ::
      0 <= i < j < |q.code[b]| && q.code[b][j] < |q.ops| && q.ops[q.code[b][j]].opcode.Phi?
      ==> q.code[b][i] < |q.ops| && q.ops[q.code[b][i]].opcode.Phi?
  }

  lemma ResultPhisFirst(f0: Flow, f: Flow, w: Renames, b: BlockId)
    requires Done(f0, f, w) && b in f.live
    ensures PhisLead(Numbered(w), b)
  {
    ShapeIs(f0, f, w, b);
    forall i, j | 0 <= i < j < |w.code[b]| && w.code[b][j] < |w.ops| && w.ops[w.code[b][j]].opcode.Phi?
      ensures w.code[b][i] < |w.ops| && w.ops[w.code[b][i]].opcode.Phi?
    {
      LivePhisFirst(f0, f, w, b, i, j);
    }
  }

  lemma LivePhisFirst(f0: Flow, f: Flow, w: Renames, b: BlockId, i: nat, j: nat)
    requires Done(f0, f, w) && b in f.live && b < |w.code| && i < j < |w.code[b]|
    requires w.code[b][j] < |w.ops| && w.ops[w.code[b][j]].opcode.Phi?
    ensures w.code[b][i] < |w.ops| && w.ops[w.code[b][i]].opcode.Phi?
  {
    OpAt(f0, f, w, b, i);
    OpAt(f0, f, w, b, j);
    ShapeIs(f0, f, w, b);
    ResultPlacedAt(f0, f, w, b, j);
    assert f0.ops[f0.code[b][j]].opcode.Phi? && f0.code[b][i] < |f0.ops|;
  }

  // ---- values and effects -------------------------------------------------------------------------

  /** The same world and the same values of the program's ops. */
  ghost predicate Agree(s: State, s': State) {
    |s.env| <= |s'.env| && s'.world == s.world && s'.env[..|s.env|] == s.env
  }

  /** The copies of a block that have been made have the values that they copy. */
  ghost predicate CopiesRead(f: Flow, w: Renames, z: Point, env: seq<Word>) {
    forall j: nat :: First(f, z.b) <= j < z.i && z.b < |w.code| && j < |w.code[z.b]| - 1 ==> CopyRead(w, z.b, j, env)
  }

  ghost predicate CopyRead(w: Renames, b: BlockId, j: nat, env: seq<Word>)
    requires b < |w.code| && j < |w.code[b]|
  {
    var v := w.code[b][j];
    v < |w.ops| && |w.ops[v].ins| == 1 && v < |env| && w.ops[v].ins[0] < |env| && env[v] == env[w.ops[v].ins[0]]
  }

  /** Executing the op at index j of b. */
  ghost function Run1(q: Program, sem: Semantics, b: BlockId, j: nat, s: State): (r: State)
    requires b < |q.code| && j < |q.code[b]| && PlacedAt(q, b, j) && |s.env| == |q.ops|
    ensures |r.env| == |q.ops|
  {
    var v := q.code[b][j];
    Apply(sem, q.ops[v].opcode, q.ops[v].imm, Args(s.env, q.ops[v].ins), v, s)
  }

  lemma ApplySame(f0: Flow, w: Renames, sem: Semantics, v: OpId, s: State, s': State)
    requires v < |f0.ops| <= |w.ops| && SameButLabels(f0.ops[v], w.ops[v]) && Agree(s, s') && |s.env| == |f0.ops| && |s'.env| == |w.ops|
    requires forall k :: 0 <= k < |f0.ops[v].ins| ==> f0.ops[v].ins[k] < |f0.ops|
    ensures var op := f0.ops[v];
            Agree(Apply(sem, op.opcode, op.imm, Args(s.env, op.ins), v, s), Apply(sem, w.ops[v].opcode, w.ops[v].imm, Args(s'.env, w.ops[v].ins), v, s'))
  {
    assert Args(s.env, f0.ops[v].ins) == Args(s'.env, f0.ops[v].ins);
  }

  /** An op of the program, not its jump. */
  lemma OldOpSame(f0: Flow, f: Flow, w: Renames, sem: Semantics, b: BlockId, j: nat, s: State, s': State)
    requires Done(f0, f, w) && b in f.live && b < |f0.code| && b < |w.code| && j < |w.code[b]| && j < First(f, b)
    requires Agree(s, s') && |s.env| == |f0.ops| && |s'.env| == |w.ops|
    ensures j < |f0.code[b]| && PlacedAt(ProgramOf(f0), b, j) && PlacedAt(Numbered(w), b, j)
    ensures Agree(Run1(ProgramOf(f0), sem, b, j, s), Run1(Numbered(w), sem, b, j, s'))
  {
    OpAt(f0, f, w, b, j);
    ResultPlacedAt(f0, f, w, b, j);
    ApplySame(f0, w, sem, w.code[b][j], s, s');
  }

  /** A jump does nothing. */
  lemma JumpIdle(f0: Flow, f: Flow, w: Renames, sem: Semantics, b: BlockId, s: State)
    requires Done(f0, f, w) && b in f.live && |s.env| == |w.ops|
    ensures b < |w.code| && 0 < |w.code[b]| && PlacedAt(Numbered(w), b, |w.code[b]| - 1)
    ensures Run1(Numbered(w), sem, b, |w.code[b]| - 1, s) == s
  {
    ShapeIs(f0, f, w, b);
    ResultPlacedAt(f0, f, w, b, |w.code[b]| - 1);
  }

  lemma OldJumpIdle(f0: Flow, f: Flow, w: Renames, sem: Semantics, b: BlockId, s: State)
    requires Done(f0, f, w) && b in f.live && b < |f0.code| && |s.env| == |f0.ops|
    ensures 0 < |f0.code[b]| && PlacedAt(ProgramOf(f0), b, |f0.code[b]| - 1)
    ensures Run1(ProgramOf(f0), sem, b, |f0.code[b]| - 1, s) == s
  {
    ShapeIs(f0, f, w, b);
    OldCode(f0, f, w, b, |f.code[b]| - 1);
  }

  lemma CopyStep(f0: Flow, f: Flow, w: Renames, sem: Semantics, b: BlockId, j: nat, s: State)
    requires Done(f0, f, w) && b in f.live && b < |w.code| && First(f, b) <= j < |w.code[b]| - 1 && |s.env| == |w.ops|
    ensures PlacedAt(Numbered(w), b, j) && |f.ops| <= w.code[b][j] < |w.ops|
    ensures |w.ops[w.code[b][j]].ins| == 1 && w.ops[w.code[b][j]].ins[0] < |f0.ops| <= |f.ops|
    ensures Run1(Numbered(w), sem, b, j, s) == State(s.env[w.code[b][j] := s.env[w.ops[w.code[b][j]].ins[0]]], s.world)
  {
    OpAt(f0, f, w, b, j);
    ResultPlacedAt(f0, f, w, b, j);
  }

  lemma CopyStays(f0: Flow, f: Flow, w: Renames, b: BlockId, i: nat, j: nat, env: seq<Word>, v: OpId, u: Word)
    requires Done(f0, f, w) && b in f.live && b < |w.code| && First(f, b) <= i < j < |w.code[b]| - 1 && CopyRead(w, b, i, env)
    requires v == w.code[b][j] && |f.ops| <= v < |env|
    ensures CopyRead(w, b, i, env[v := u])
  {
    OpAt(f0, f, w, b, i);
    OneBefore(f0, f, w, b, i, j);
    assert |f0.ops| <= |f.ops|;
  }

  /** A rename copies. */
  lemma CopyRuns(f0: Flow, f: Flow, w: Renames, sem: Semantics, b: BlockId, j: nat, s: State, s': State)
    requires Done(f0, f, w) && b in f.live && b < |w.code| && First(f, b) <= j < |w.code[b]| - 1
    requires Agree(s, s') && |s.env| == |f0.ops| && |s'.env| == |w.ops| && CopiesRead(f, w, Point(b, j), s'.env)
    ensures PlacedAt(Numbered(w), b, j)
    ensures Agree(s, Run1(Numbered(w), sem, b, j, s')) && CopiesRead(f, w, Point(b, j + 1), Run1(Numbered(w), sem, b, j, s').env)
  {
    CopyStep(f0, f, w, sem, b, j, s');
    var v, r := w.code[b][j], Run1(Numbered(w), sem, b, j, s');
    var u := s'.env[w.ops[v].ins[0]];
    forall i: nat | First(f, b) <= i < j + 1 ensures CopyRead(w, b, i, r.env) {
      if i < j {
        assert CopyRead(w, b, i, s'.env);
        CopyStays(f0, f, w, b, i, j, s'.env, v, u);
      }
    }
  }

  /** Every phi takes the same value as in the program. */
  lemma PhiTakes(f0: Flow, f: Flow, w: Renames, b: BlockId, t: BlockId, v: OpId, s: State, s': State) returns (a: BlockId)
    requires Done(f0, f, w) && b in f.live && b < |w.code| && t in Targets(f, b) && t < |f0.code| && IsPhiOf(ProgramOf(f0), t, v)
    requires Agree(s, s') && |s.env| == |f0.ops| && |s'.env| == |w.ops| && CopiesRead(f, w, Point(b, |w.code[b]|), s'.env)
    ensures a in f0.live && Anchor(f0, f, w, Point(b, |w.code[b]|)) == Point(a, |f0.code[a]|) && t < |f0.alts| && t < |w.alts|
    ensures PhiSource(f0.alts[t], v, a) < |s.env| && PhiSource(w.alts[t], v, b) < |s'.env|
    ensures s'.env[PhiSource(w.alts[t], v, b)] == s.env[PhiSource(f0.alts[t], v, a)]
  {
    var i;
    a, i := TakenAlt(f0, f, w, b, t, v);
    ValuesIn(f0, f, t, i);
    AltReads(f, w, b, t, i, s'.env);
    assert s'.env[f0.alts[t][i].val] == s'.env[..|s.env|][f0.alts[t][i].val];
  }

  /** An alternative, copied or not, has the value that it had. */
  lemma AltReads(f: Flow, w: Renames, b: BlockId, t: BlockId, i: nat, env: seq<Word>)
    requires EdgesInClass(f, w) && OnEdge(f, b, t, i) && b < |w.code| && |env| == |w.ops| && |f.ops| <= |w.ops|
    requires JumpLast(Unrenamed(f), w, b) && CopiesRead(f, w, Point(b, |w.code[b]|), env) && f.alts[t][i].val < |f.ops|
    ensures i < |w.alts[t]| && w.alts[t][i].val < |env| && env[w.alts[t][i].val] == env[f.alts[t][i].val]
  {
    assert AltOk(w, f.alts[t][i], w.alts[t][i], |f.ops|, 0);
    var y := w.alts[t][i].val;
    if y != f.alts[t][i].val {
      var j := CopyPlace(f, w, b, y);
      assert CopyRead(w, b, j, env);
    }
  }

  lemma EntrySame(f0: Flow, f: Flow, w: Renames, b: BlockId, t: BlockId, a: BlockId, s: State, s': State)
    requires Done(f0, f, w) && b in f.live && b < |w.code| && t in Targets(f, b) && t < |f0.code| && t < |w.alts| && t < |f0.alts|
    requires Agree(s, s') && |s.env| == |f0.ops| && |s'.env| == |w.ops| && CopiesRead(f, w, Point(b, |w.code[b]|), s'.env)
    requires a < |f0.code| && Anchor(f0, f, w, Point(b, |w.code[b]|)) == Point(a, |f0.code[a]|)
    ensures Agree(s.(env := TakePhis(ProgramOf(f0), a, t, s.env)), s'.(env := TakePhis(Numbered(w), b, t, s'.env)))
  {
    SameSucc(f0, f, w, b);
    var e, e' := TakePhis(ProgramOf(f0), a, t, s.env), TakePhis(Numbered(w), b, t, s'.env);
    forall v | 0 <= v < |e| ensures e'[v] == e[v] {
      ResultPhi(f0, f, w, t, v);
      assert s'.env[v] == s'.env[..|s.env|][v];
      if IsPhiOf(ProgramOf(f0), t, v) {
        var a1 := PhiTakes(f0, f, w, b, t, v, s, s');
      }
    }
  }

  /** New blocks have no phis. */
  lemma EntryIdle(f0: Flow, f: Flow, w: Renames, b: BlockId, t: BlockId, s': State)
    requires Done(f0, f, w) && t in f.live && t >= |f0.code| && t < |w.alts| && |s'.env| == |w.ops|
    ensures s'.(env := TakePhis(Numbered(w), b, t, s'.env)) == s'
  {
    forall v | 0 <= v < |s'.env| ensures !IsPhiOf(Numbered(w), t, v) {
      ResultPhi(f0, f, w, t, v);
    }
    assert TakePhis(Numbered(w), b, t, s'.env) == s'.env;
  }

  /** The states of the program and of the result at corresponding points. */
  ghost predicate Same(f0: Flow, f: Flow, w: Renames, z: Point, s: State, s': State) {
    |s.env| == |f0.ops| && |s'.env| == |w.ops| && Agree(s, s') && CopiesRead(f, w, z, s'.env)
  }

  /** One op of the result: the same op in the program, or nothing. */
  ghost predicate OpSame(f0: Flow, f: Flow, w: Renames, sem: Semantics, b: BlockId, j: nat, s: State, s': State) {
    var z := Point(b, j + 1);
    && b < |w.code| && j < |w.code[b]| && |s'.env| == |w.ops| && PlacedAt(Numbered(w), b, j)
    && var r := Run1(Numbered(w), sem, b, j, s');
       if Stays(f0, w, z) then
         var y := Anchor(f0, f, w, z);
         && y.b == b && 0 < y.i <= |f0.code[b]| && PlacedAt(ProgramOf(f0), b, y.i - 1) && |s.env| == |f0.ops|
         && Same(f0, f, w, z, Run1(ProgramOf(f0), sem, b, y.i - 1, s), r)
       else Same(f0, f, w, z, s, r)
  }

  lemma OpStepSame(f0: Flow, f: Flow, w: Renames, sem: Semantics, b: BlockId, j: nat, s: State, s': State)
    requires Done(f0, f, w) && b in f.live && b < |w.code| && j < |w.code[b]| && Same(f0, f, w, Point(b, j), s, s')
    ensures OpSame(f0, f, w, sem, b, j, s, s')
  {
    ShapeIs(f0, f, w, b);
    if j == |w.code[b]| - 1 {
      JumpSame(f0, f, w, sem, b, s, s');
    } else if j < First(f, b) {
      OldSame(f0, f, w, sem, b, j, s, s');
    } else {
      CopySame(f0, f, w, sem, b, j, s, s');
    }
  }

  lemma OldSame(f0: Flow, f: Flow, w: Renames, sem: Semantics, b: BlockId, j: nat, s: State, s': State)
    requires Done(f0, f, w) && b in f.live && b < |w.code| && j < |w.code[b]| && j < First(f, b) && Same(f0, f, w, Point(b, j), s, s')
    ensures OpSame(f0, f, w, sem, b, j, s, s')
  {
    ShapeIs(f0, f, w, b);
    NoneAfter(f0, f, w, b, j);
    OldOpSame(f0, f, w, sem, b, j, s, s');
  }

  lemma CopySame(f0: Flow, f: Flow, w: Renames, sem: Semantics, b: BlockId, j: nat, s: State, s': State)
    requires Done(f0, f, w) && b in f.live && b < |w.code| && First(f, b) <= j < |w.code[b]| - 1 && Same(f0, f, w, Point(b, j), s, s')
    ensures OpSame(f0, f, w, sem, b, j, s, s')
  {
    ShapeIs(f0, f, w, b);
    CopyRuns(f0, f, w, sem, b, j, s, s');
  }

  lemma JumpSame(f0: Flow, f: Flow, w: Renames, sem: Semantics, b: BlockId, s: State, s': State)
    requires Done(f0, f, w) && b in f.live && b < |w.code| && 0 < |w.code[b]| && Same(f0, f, w, Point(b, |w.code[b]| - 1), s, s')
    ensures OpSame(f0, f, w, sem, b, |w.code[b]| - 1, s, s')
  {
    ShapeIs(f0, f, w, b);
    JumpIdle(f0, f, w, sem, b, s');
    JumpCopies(f, w, b, s'.env);
    if b < |f0.code| {
      OldJumpIdle(f0, f, w, sem, b, s);
    }
  }

  lemma JumpCopies(f: Flow, w: Renames, b: BlockId, env: seq<Word>)
    requires b < |w.code| && 0 < |w.code[b]| && CopiesRead(f, w, Point(b, |w.code[b]| - 1), env)
    ensures CopiesRead(f, w, Point(b, |w.code[b]|), env)
  {
    forall j: nat | First(f, b) <= j < |w.code[b]| - 1 ensures CopyRead(w, b, j, env) {
    }
  }

  /** Only blocks of the program have ops before their renames. */
  lemma NoneAfter(f0: Flow, f: Flow, w: Renames, b: BlockId, j: nat)
    requires Done(f0, f, w) && b in f.live && j < First(f, b)
    ensures b < |f0.code|
  {
    if b >= |f0.code| {
      NewCode(f0, f, w, b);
    }
  }

  /** The last point of a run. */
  lemma StepIs(q: Program, sem: Semantics, r: seq<Point>, s: State)
    requires Placed(q) && IsRun(Points(q), r) && |s.env| == |q.ops|
    ensures var z := r[|r| - 1];
            && z.b < |q.code| && z.i <= |q.code[z.b]| && |q.alts| == |q.code|
            && (z.i > 0 ==> PlacedAt(q, z.b, z.i - 1) && StepAt(q, sem, r, s) == Run1(q, sem, z.b, z.i - 1, s))
            && (z.i == 0 && |r| == 1 ==> StepAt(q, sem, r, s) == s)
            && (z.i == 0 && |r| > 1 ==> StepAt(q, sem, r, s) == s.(env := TakePhis(q, r[|r| - 2].b, z.b, s.env)))
  {
    PointLive(q.ops, q.code, r);
  }

  // ---- whole runs -----------------------------------------------------------------------------------

  lemma ProjectStep(f0: Flow, f: Flow, w: Renames, r: seq<Point>, z: Point)
    ensures Project(f0, f, w, r + [z]) == Project(f0, f, w, r) + if Stays(f0, w, z) then [Anchor(f0, f, w, z)] else []
  {
    assert (r + [z])[..|r|] == r;
  }

  /** The projection of a run that is one point longer. */
  lemma LastProjected(f0: Flow, f: Flow, w: Renames, r: seq<Point>)
    requires Done(f0, f, w) && IsRun(Points(Numbered(w)), r) && |r| > 1
    ensures var (x, z, q) := (r[|r| - 2], r[|r| - 1], Project(f0, f, w, r));
            && IsRun(Points(Numbered(w)), r[..|r| - 1]) && Inside(f, w, x) && Inside(f, w, z) && (x, z) in Points(Numbered(w)).edges
            && IsRun(Points(ProgramOf(f0)), q) && IsRun(Points(ProgramOf(f0)), Project(f0, f, w, r[..|r| - 1]))
            && (!Stays(f0, w, z) ==> q == Project(f0, f, w, r[..|r| - 1]))
            && (Stays(f0, w, z) ==> |q| > 1 && q[..|q| - 1] == Project(f0, f, w, r[..|r| - 1])
                                    && q[|q| - 1] == Anchor(f0, f, w, z) && q[|q| - 2] == Anchor(f0, f, w, x))
  {
    var n := |r| - 1;
    assert (r[n - 1], r[n - 1 + 1]) in Points(Numbered(w)).edges && IsRun(Points(Numbered(w)), r[..n]);
    ProjectRun(f0, f, w, r[..n]);
    ProjectRun(f0, f, w, r);
    LastOf(f0, f, w, r);
  }

  lemma LastOf(f0: Flow, f: Flow, w: Renames, r: seq<Point>)
    requires |r| > 1 && Project(f0, f, w, r[..|r| - 1]) != []
    ensures var (z, s, q) := (r[|r| - 1], Project(f0, f, w, r[..|r| - 1]), Project(f0, f, w, r));
            if Stays(f0, w, z) then |q| > 1 && q[..|q| - 1] == s && q[|q| - 1] == Anchor(f0, f, w, z) && q[|q| - 2] == s[|s| - 1]
            else q == s
  {
    AddLast(Project(f0, f, w, r[..|r| - 1]), Anchor(f0, f, w, r[|r| - 1]));
  }

  lemma AddLast(s: seq<Point>, z: Point)
    requires s != []
    ensures var q := s + [z]; q[..|q| - 1] == s && q[|q| - 1] == z && q[|q| - 2] == s[|s| - 1] && s + [] == s
  {
  }

  ghost predicate PointSame(f0: Flow, f: Flow, w: Renames, sem: Semantics, r: seq<Point>, s: State, s': State) {
    && Placed(Numbered(w)) && Placed(ProgramOf(f0)) && IsRun(Points(Numbered(w)), r) && |s'.env| == |w.ops| && |s.env| == |f0.ops|
    && IsRun(Points(ProgramOf(f0)), Project(f0, f, w, r))
    && var z := r[|r| - 1];
       Same(f0, f, w, z, if Stays(f0, w, z) then StepAt(ProgramOf(f0), sem, Project(f0, f, w, r), s) else s, StepAt(Numbered(w), sem, r, s'))
  }

  /** One more op of a run. */
  lemma OpPoint(f0: Flow, f: Flow, w: Renames, sem: Semantics, r: seq<Point>, s: State, s': State)
    requires Done(f0, f, w) && Placed(Numbered(w)) && Placed(ProgramOf(f0)) && IsRun(Points(Numbered(w)), r) && |r| > 1
    requires r[|r| - 1].i > 0 && Same(f0, f, w, r[|r| - 2], s, s')
    ensures PointSame(f0, f, w, sem, r, s, s')
  {
    var x, z := r[|r| - 2], r[|r| - 1];
    LastProjected(f0, f, w, r);
    EdgeCases(Numbered(w), x, z);
    OpStepSame(f0, f, w, sem, z.b, z.i - 1, s, s');
    OpFolds(f0, f, w, sem, r, s, s');
  }

  lemma OpFolds(f0: Flow, f: Flow, w: Renames, sem: Semantics, r: seq<Point>, s: State, s': State)
    requires Placed(Numbered(w)) && Placed(ProgramOf(f0)) && IsRun(Points(Numbered(w)), r) && r[|r| - 1].i > 0
    requires IsRun(Points(ProgramOf(f0)), Project(f0, f, w, r)) && |s.env| == |f0.ops|
    requires var (z, q) := (r[|r| - 1], Project(f0, f, w, r));
             OpSame(f0, f, w, sem, z.b, z.i - 1, s, s') && (Stays(f0, w, z) ==> q[|q| - 1] == Anchor(f0, f, w, z))
    ensures PointSame(f0, f, w, sem, r, s, s')
  {
    StepIs(Numbered(w), sem, r, s');
    StepIs(ProgramOf(f0), sem, Project(f0, f, w, r), s);
  }

  /** One more block. */
  lemma EntryPoint(f0: Flow, f: Flow, w: Renames, sem: Semantics, r: seq<Point>, s: State, s': State)
    requires Done(f0, f, w) && Placed(Numbered(w)) && Placed(ProgramOf(f0)) && IsRun(Points(Numbered(w)), r) && |r| > 1
    requires r[|r| - 1].i == 0 && Same(f0, f, w, r[|r| - 2], s, s')
    ensures PointSame(f0, f, w, sem, r, s, s')
  {
    var x, z := r[|r| - 2], r[|r| - 1];
    LastProjected(f0, f, w, r);
    EdgeCases(Numbered(w), x, z);
    StepIs(Numbered(w), sem, r, s');
    StepIs(ProgramOf(f0), sem, Project(f0, f, w, r), s);
    SameSucc(f0, f, w, x.b);
    EntryStep(f0, f, w, x.b, z.b, s, s');
    if z.b < |f0.code| {
      ShapeIs(f0, f, w, z.b);
    }
  }

  lemma EntryStep(f0: Flow, f: Flow, w: Renames, b: BlockId, t: BlockId, s: State, s': State)
    requires Done(f0, f, w) && b in f.live && b < |w.code| && t in Targets(f, b) && t < |w.alts|
    requires Same(f0, f, w, Point(b, |w.code[b]|), s, s')
    ensures t in f.live && (Stays(f0, w, Point(t, 0)) <==> t < |f0.code|)
    ensures if t < |f0.code| then
              t < |f0.alts|
              && Same(f0, f, w, Point(t, 0), s.(env := TakePhis(ProgramOf(f0), Anchor(f0, f, w, Point(b, |w.code[b]|)).b, t, s.env)),
                      s'.(env := TakePhis(Numbered(w), b, t, s'.env)))
            else Same(f0, f, w, Point(t, 0), s, s'.(env := TakePhis(Numbered(w), b, t, s'.env)))
  {
    SameSucc(f0, f, w, b);
    ShapeIs(f0, f, w, t);
    if t < |f0.code| {
      var a := EdgeFrom(f0, f, w, b, t);
      EntrySame(f0, f, w, b, t, a, s, s');
    } else {
      EntryIdle(f0, f, w, b, t, s');
    }
  }

  /** On every run of the result the program's ops have the values, and the world is, what they
      are on the program's own run. */
  lemma {:induction false} SameMeaning(f0: Flow, f: Flow, w: Renames, sem: Semantics, st: State, st': State, r: seq<Point>)
    requires Done(f0, f, w) && Placed(Numbered(w)) && Placed(ProgramOf(f0)) && IsRun(Points(Numbered(w)), r)
    requires |st.env| == |f0.ops| && |st'.env| == |w.ops| && Agree(st, st')
    ensures IsRun(Points(ProgramOf(f0)), Project(f0, f, w, r))
    ensures Same(f0, f, w, r[|r| - 1], Exec(ProgramOf(f0), sem, st, Project(f0, f, w, r)), Exec(Numbered(w), sem, st', r))
    decreases |r|
  {
    if |r| == 1 {
      OnlyStart(f0, f, w, sem, st, st', r);
    } else {
      LastProjected(f0, f, w, r);
      var r0 := r[..|r| - 1];
      SameMeaning(f0, f, w, sem, st, st', r0);
      var s, s' := Exec(ProgramOf(f0), sem, st, Project(f0, f, w, r0)), Exec(Numbered(w), sem, st', r0);
      NextPoint(f0, f, w, sem, r, s, s');
      ExecStep(ProgramOf(f0), sem, st, Project(f0, f, w, r));
      ExecStep(Numbered(w), sem, st', r);
    }
  }

  lemma ExecStep(q: Program, sem: Semantics, st: State, r: seq<Point>)
    requires Placed(q) && IsRun(Points(q), r) && |st.env| == |q.ops|
    ensures |r| > 1 ==> IsRun(Points(q), r[..|r| - 1]) && Exec(q, sem, st, r) == StepAt(q, sem, r, Exec(q, sem, st, r[..|r| - 1]))
  {
  }

  lemma NextPoint(f0: Flow, f: Flow, w: Renames, sem: Semantics, r: seq<Point>, s: State, s': State)
    requires Done(f0, f, w) && Placed(Numbered(w)) && Placed(ProgramOf(f0)) && IsRun(Points(Numbered(w)), r) && |r| > 1
    requires Same(f0, f, w, r[|r| - 2], s, s')
    ensures PointSame(f0, f, w, sem, r, s, s')
  {
    if r[|r| - 1].i > 0 {
      OpPoint(f0, f, w, sem, r, s, s');
    } else {
      EntryPoint(f0, f, w, sem, r, s, s');
    }
  }

  lemma OnlyStart(f0: Flow, f: Flow, w: Renames, sem: Semantics, st: State, st': State, r: seq<Point>)
    requires Done(f0, f, w) && IsRun(Points(Numbered(w)), r) && |r| == 1 && Placed(Numbered(w))
    requires |st.env| == |f0.ops| && |st'.env| == |w.ops| && Agree(st, st')
    ensures IsRun(Points(ProgramOf(f0)), Project(f0, f, w, r))
    ensures Same(f0, f, w, r[0], Exec(ProgramOf(f0), sem, st, Project(f0, f, w, r)), Exec(Numbered(w), sem, st', r))
  {
    StartInside(f0, f, w);
    assert r == [] + [Point(0, 0)];
    ProjectStep(f0, f, w, [], Point(0, 0));
    assert Project(f0, f, w, r) == [Point(0, 0)];
  }

  /** Breaking edges and adding renames keeps strict SSA; on every run of the result the world is
      what it is on the program's own run, and so are the values of all of the program's ops. */
  lemma SccPreserves(f0: Flow, f: Flow, w: Renames, sem: Semantics, st: State, st': State, r: seq<Point>)
    requires Done(f0, f, w) && IsRun(Points(Numbered(w)), r)
    requires |st.env| == |f0.ops| && |st'.env| == |w.ops| && Agree(st, st')
    ensures StrictSsa(ProgramOf(f0)) && StrictSsa(Numbered(w)) && IsRun(Points(ProgramOf(f0)), Project(f0, f, w, r))
    ensures var (s, s') := (Exec(ProgramOf(f0), sem, st, Project(f0, f, w, r)), Exec(Numbered(w), sem, st', r));
            s'.world == s.world && forall x :: 0 <= x < |f0.ops| ==> s'.env[x] == s.env[x]
  {
    ResultStrict(f0, f, w);
    SameMeaning(f0, f, w, sem, st, st', r);
    var s, s' := Exec(ProgramOf(f0), sem, st, Project(f0, f, w, r)), Exec(Numbered(w), sem, st', r);
    forall x | 0 <= x < |f0.ops| ensures s'.env[x] == s.env[x] {
      assert s'.env[x] == s'.env[..|s.env|][x];
    }
  }

  // ---- every run of the program -----------------------------------------------------------------------

  /** Where a point of the program is in the result. */
  function Lifted(f0: Flow, w: Renames, z: Point): Point {
    if z.b < |f0.code| && z.b < |w.code| && z.i >= |f0.code[z.b]| then Point(z.b, |w.code[z.b]|) else z
  }

  /** Through the points of a block that do not stay. */
  lemma {:induction false} Across(f0: Flow, f: Flow, w: Renames, r: seq<Point>, b: BlockId, i: nat, j: nat) returns (s: seq<Point>)
    requires RunTo(Points(Numbered(w)), r, Point(b, i)) && b < |w.code| && i <= j <= |w.code[b]|
    requires forall k: nat :: i < k <= j ==> !Stays(f0, w, Point(b, k))
    ensures RunTo(Points(Numbered(w)), s, Point(b, j)) && Project(f0, f, w, s) == Project(f0, f, w, r)
    decreases j
  {
    if i == j {
      s := r;
    } else {
      var t := Across(f0, f, w, r, b, i, j - 1);
      assert (Point(b, j - 1), Point(b, j)) in Points(Numbered(w)).edges;
      RunExtend(Points(Numbered(w)), t, Point(b, j - 1), Point(b, j));
      ProjectStep(f0, f, w, t, Point(b, j));
      s := t + [Point(b, j)];
    }
  }

  /** One more op of the program. */
  lemma LiftOp(f0: Flow, f: Flow, w: Renames, r: seq<Point>, b: BlockId, i: nat) returns (s: seq<Point>)
    requires b < |f0.code| && b < |w.code| && i < |f0.code[b]| <= |w.code[b]|
    requires RunTo(Points(Numbered(w)), r, Lifted(f0, w, Point(b, i)))
    ensures RunTo(Points(Numbered(w)), s, Lifted(f0, w, Point(b, i + 1)))
    ensures Project(f0, f, w, s) == Project(f0, f, w, r) + [Point(b, i + 1)]
  {
    var z := Lifted(f0, w, Point(b, i + 1));
    var t := Across(f0, f, w, r, b, i, z.i - 1);
    assert (Point(b, z.i - 1), z) in Points(Numbered(w)).edges;
    RunExtend(Points(Numbered(w)), t, Point(b, z.i - 1), z);
    ProjectStep(f0, f, w, t, z);
    s := t + [z];
  }

  ghost predicate Leaves(w: Renames, b: BlockId, t: BlockId) {
    b < |w.code| && t < |w.code| && t in Succ(Numbered(w).ops, w.code, b)
  }

  /** Into a block of the result. */
  lemma LiftJump(f0: Flow, f: Flow, w: Renames, r: seq<Point>, b: BlockId, t: BlockId)
    requires Leaves(w, b, t) && RunTo(Points(Numbered(w)), r, Point(b, |w.code[b]|)) && (t < |f0.code| ==> 0 < |f0.code[t]|)
    ensures RunTo(Points(Numbered(w)), r + [Point(t, 0)], Point(t, 0))
    ensures Project(f0, f, w, r + [Point(t, 0)]) == Project(f0, f, w, r) + if t < |f0.code| then [Point(t, 0)] else []
  {
    assert (Point(b, |w.code[b]|), Point(t, 0)) in Points(Numbered(w)).edges;
    RunExtend(Points(Numbered(w)), r, Point(b, |w.code[b]|), Point(t, 0));
    ProjectStep(f0, f, w, r, Point(t, 0));
  }

  /** The edge from a to t goes to u first; u is t, or a new block that jumps to t. */
  ghost predicate GoesBy(f0: Flow, w: Renames, a: BlockId, t: BlockId, u: BlockId) {
    && a < |f0.code| && t < |f0.code| && 0 < |f0.code[t]| && Leaves(w, a, u)
    && (u != t ==> u >= |f0.code| && Leaves(w, u, t))
  }

  /** One more edge of the program. */
  lemma LiftEdge(f0: Flow, f: Flow, w: Renames, r: seq<Point>, a: BlockId, t: BlockId, u: BlockId) returns (s: seq<Point>)
    requires GoesBy(f0, w, a, t, u) && RunTo(Points(Numbered(w)), r, Lifted(f0, w, Point(a, |f0.code[a]|)))
    ensures RunTo(Points(Numbered(w)), s, Lifted(f0, w, Point(t, 0)))
    ensures Project(f0, f, w, s) == Project(f0, f, w, r) + [Point(t, 0)]
  {
    LiftJump(f0, f, w, r, a, u);
    s := r + [Point(u, 0)];
    if u != t {
      s := Across(f0, f, w, s, u, 0, |w.code[u]|);
      LiftJump(f0, f, w, s, u, t);
      s := s + [Point(t, 0)];
    }
  }

  lemma EdgeTarget(f0: Flow, f: Flow, w: Renames, a: BlockId, t: BlockId) returns (u: BlockId)
    requires Done(f0, f, w) && a in f0.live && t in Targets(f0, a)
    ensures GoesBy(f0, w, a, t, u)
  {
    assert EndsPlaced(f0, a) && EndsPlaced(f0, t);
    var k := EdgeGoes(f0, f, w, a, t);
    u := Targets(f, a)[k];
    LeavesTo(f0, f, w, a, u);
    if Breaks(f0, a, k) {
      LeavesTo(f0, f, w, u, t);
    }
  }

  lemma LeavesTo(f0: Flow, f: Flow, w: Renames, b: BlockId, t: BlockId)
    requires Done(f0, f, w) && b in f.live && t in Targets(f, b)
    ensures Leaves(w, b, t)
  {
    SameSucc(f0, f, w, b);
    SameSucc(f0, f, w, t);
  }

  /** Every run of the program is the projection of a run of the result. */
  lemma {:induction false} LiftRun(f0: Flow, f: Flow, w: Renames, r: seq<Point>) returns (s: seq<Point>)
    requires Done(f0, f, w) && IsRun(Points(ProgramOf(f0)), r)
    ensures RunTo(Points(Numbered(w)), s, Lifted(f0, w, r[|r| - 1])) && Project(f0, f, w, s) == r
    decreases |r|
  {
    if |r| == 1 {
      s := LiftStart(f0, f, w);
    } else {
      RunInit(ProgramOf(f0), r);
      GivenLive(f0, r[..|r| - 1]);
      var t := LiftRun(f0, f, w, r[..|r| - 1]);
      var u := NextBlock(f0, f, w, r[|r| - 2], r[|r| - 1]);
      s := LiftStep(f0, f, w, t, r[|r| - 2], r[|r| - 1], u);
    }
  }

  lemma LiftStart(f0: Flow, f: Flow, w: Renames) returns (s: seq<Point>)
    requires Done(f0, f, w)
    ensures RunTo(Points(Numbered(w)), s, Lifted(f0, w, Point(0, 0))) && Project(f0, f, w, s) == [Point(0, 0)]
  {
    StartInside(f0, f, w);
    s := [Point(0, 0)];
    ProjectStep(f0, f, w, [], Point(0, 0));
    assert s == [] + [Point(0, 0)];
  }

  lemma GivenLive(f0: Flow, r: seq<Point>)
    requires Given(f0) && IsRun(Points(ProgramOf(f0)), r)
    ensures var z := r[|r| - 1]; z.b in f0.live && z.b < |f0.code| && z.i <= |f0.code[z.b]|
  {
    PointLive(f0.ops, f0.code, r);
  }

  /** Where the next point of the program is in the result. */
  ghost predicate Onto(f0: Flow, w: Renames, x: Point, z: Point, u: BlockId) {
    if z.i > 0 then z == Point(x.b, x.i + 1) && x.b < |f0.code| && x.b < |w.code| && x.i < |f0.code[x.b]| <= |w.code[x.b]|
    else x.b < |f0.code| && x.i == |f0.code[x.b]| && GoesBy(f0, w, x.b, z.b, u)
  }

  lemma NextBlock(f0: Flow, f: Flow, w: Renames, x: Point, z: Point) returns (u: BlockId)
    requires Done(f0, f, w) && x.b in f0.live && (x, z) in Points(ProgramOf(f0)).edges
    ensures Onto(f0, w, x, z, u)
  {
    EdgeCases(ProgramOf(f0), x, z);
    ShapeIs(f0, f, w, x.b);
    u := 0;
    if z.i == 0 {
      u := EdgeTarget(f0, f, w, x.b, z.b);
    }
  }

  lemma LiftStep(f0: Flow, f: Flow, w: Renames, t: seq<Point>, x: Point, z: Point, u: BlockId) returns (s: seq<Point>)
    requires Onto(f0, w, x, z, u) && RunTo(Points(Numbered(w)), t, Lifted(f0, w, x))
    ensures RunTo(Points(Numbered(w)), s, Lifted(f0, w, z)) && Project(f0, f, w, s) == Project(f0, f, w, t) + [z]
  {
    if z.i > 0 {
      s := LiftOp(f0, f, w, t, z.b, x.i);
    } else {
      s := LiftEdge(f0, f, w, t, x.b, z.b, u);
    }
  }
}
