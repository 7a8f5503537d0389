/** Program points, strict SSA form and the meaning of a program along a run: what the
    rewriting passes have to preserve. */
module Ssa {
  import opened Digraph
  import opened Ir
  import opened Words

  /** Point (b, 0) is the entry of block b, where all its phis are assigned at once;
      point (b, i + 1) is the op at index i of the block. */
  datatype Point = Point(b: BlockId, i: nat)

  ghost predicate PointEdge(ops: seq<Op>, code: seq<seq<OpId>>, x: Point, y: Point) {
    x.b < |code| &&
    ((y.b == x.b && y.i == x.i + 1 && y.i <= |code[x.b]|)
     || (x.i == |code[x.b]| && y.i == 0 && y.b in Succ(ops, code, x.b)))
  }

  ghost function PointGraph(ops: seq<Op>, code: seq<seq<OpId>>): Graph<Point> {
    Graph(iset{Point(0, 0)}, iset x: Point, y: Point | PointEdge(ops, code, x, y) :: (x, y))
  }

  ghost function Points(p: Program): Graph<Point> { PointGraph(p.ops, p.code) }

  /** Where an op assigns its output. */
  function DefPoint(ops: seq<Op>, v: OpId): Point
    requires v < |ops|
  {
    if ops[v].opcode.Phi? then Point(ops[v].block, 0) else Point(ops[v].block, ops[v].pos + 1)
  }

  /** The op at index j of block b knows where it is, and jumps or returns come last. */
  ghost predicate PlacedAt(p: Program, b: BlockId, j: nat)
    requires b < |p.code| && j < |p.code[b]|
  {
    var v := p.code[b][j];
    && v < |p.ops| && p.ops[v].block == b && p.ops[v].pos == j
    && (p.ops[v].IsTerminator() <==> j == |p.code[b]| - 1)
    && (forall k :: 0 <= k < |p.ops[v].ins| ==> p.ops[v].ins[k] < |p.ops|)
    && (p.ops[v].opcode.Phi? ==> p.ops[v].ins == [] && b != 0)
  }

  /** The shape that DCE leaves: `block` and `pos` are up to date in every live block. */
  ghost predicate Placed(p: Program) {
    && CfgOk(p.ops, p.code) && |p.alts| == |p.code| && |p.ops| <= NoVal
    && forall b: BlockId, j: nat :: LiveBlock(p.ops, p.code, b) && b < |p.code| && j < |p.code[b]| ==> PlacedAt(p, b, j)
  }

  /** v is an op with an output in a live block. */
  ghost predicate Defined(p: Program, v: OpId) {
    && v < |p.ops| && p.ops[v].HasOutput()
    && p.ops[v].block < |p.code| && LiveBlock(p.ops, p.code, p.ops[v].block)
    && p.ops[v].pos < |p.code[p.ops[v].block]| && p.code[p.ops[v].block][p.ops[v].pos] == v
  }

  /** The value a phi takes on the edge from a: its first alternative for that source. */
  function PhiSource(alts: seq<PhiAlt>, phi: OpId, a: BlockId): (r: OpId)
    ensures (exists k :: 0 <= k < |alts| && alts[k].phi == phi && alts[k].src == a) ==>
              PhiAlt(phi, a, r) in alts
  {
    if alts == [] then NoVal
    else if alts[0].phi == phi && alts[0].src == a then alts[0].val
    else PhiSource(alts[1..], phi, a)
  }

  ghost predicate IsPhiOf(p: Program, b: BlockId, v: OpId) {
    b < |p.code| && v < |p.ops| && p.ops[v].opcode.Phi? && p.ops[v].block == b && v in p.code[b]
  }

  /** Definitions dominate uses: ops use what is defined strictly before them, and an edge
      into a block carries what is defined at its source. */
  ghost predicate UseOk(p: Program, z: Point, x: OpId) {
    Defined(p, x) && Dominates(Points(p), DefPoint(p.ops, x), z)
  }

  ghost predicate InputOk(p: Program, z: Point, x: OpId) {
    UseOk(p, z, x) && DefPoint(p.ops, x) != z
  }

  ghost predicate InputsOk(p: Program, b: BlockId, j: nat)
    requires b < |p.code| && j < |p.code[b]|
  {
    var v := p.code[b][j];
    v < |p.ops| && forall x :: x in p.ops[v].ins ==> InputOk(p, Point(b, j + 1), x)
  }

  ghost predicate EdgeOk(p: Program, a: BlockId, b: BlockId, v: OpId)
    requires a < |p.code| && b < |p.alts|
  {
    var x := PhiSource(p.alts[b], v, a);
    PhiAlt(v, a, x) in p.alts[b] && UseOk(p, Point(a, |p.code[a]|), x)
  }

  ghost predicate StrictSsa(p: Program) {
    && Placed(p)
    && (forall b: BlockId, j: nat :: LiveBlock(p.ops, p.code, b) && b < |p.code| && j < |p.code[b]| ==> InputsOk(p, b, j))
    && (forall a: BlockId, b: BlockId, v: OpId ::
          LiveBlock(p.ops, p.code, a) && a < |p.code| && b in Succ(p.ops, p.code, a) && b < |p.alts| && IsPhiOf(p, b, v)
          ==> EdgeOk(p, a, b, v))
  }

  // ---- reachability of points ---------------------------------------------------------

  /** A run over points follows a run over blocks, and leaves a block only past its last op. */
  lemma {:induction false} BlockRun(ops: seq<Op>, code: seq<seq<OpId>>, r: seq<Point>) returns (q: seq<BlockId>)
    requires IsRun(PointGraph(ops, code), r)
    ensures RunTo(BlockGraph(ops, code), q, r[|r| - 1].b)
    ensures forall c :: c in q ==> c == r[|r| - 1].b || (c < |code| && Point(c, |code[c]|) in r)
    decreases |r|
  {
    var n := |r| - 1;
    if n == 0 {
      q := [0];
    } else {
      var x, z := r[n - 1], r[n];
      assert (r[n - 1], r[n - 1 + 1]) in PointGraph(ops, code).edges;
      q := BlockRun(ops, code, r[..n]);
      if z.i == 0 && x.i == |code[x.b]| && z.b in Succ(ops, code, x.b) {
        assert (x.b, z.b) in BlockGraph(ops, code).edges;
        RunExtend(BlockGraph(ops, code), q, x.b, z.b);
        q := q + [z.b];
      }
    }
  }

  lemma PointLive(ops: seq<Op>, code: seq<seq<OpId>>, r: seq<Point>)
    requires IsRun(PointGraph(ops, code), r) && CfgOk(ops, code)
    ensures var z := r[|r| - 1]; LiveBlock(ops, code, z.b) && z.b < |code| && z.i <= |code[z.b]|
  {
    var q := BlockRun(ops, code, r);
    var n := |r| - 1;
    assert LiveBlock(ops, code, r[n].b);
    assert EndsOk(ops, code, r[n].b);
    if n > 0 {
      assert (r[n - 1], r[n - 1 + 1]) in PointGraph(ops, code).edges;
    }
  }

  /** Earlier points of a block dominate later ones. */
  lemma {:induction false} SameBlockDominates(ops: seq<Op>, code: seq<seq<OpId>>, b: BlockId, i: nat, j: nat)
    requires i <= j
    ensures Dominates(PointGraph(ops, code), Point(b, i), Point(b, j))
    decreases j
  {
    var g := PointGraph(ops, code);
    if i < j {
      SameBlockDominates(ops, code, b, i, j - 1);
      forall a | (a, Point(b, j)) in g.edges ensures Dominates(g, Point(b, i), a) {
        assert a == Point(b, j - 1);
      }
      DomFromPreds(g, Point(b, i), Point(b, j));
    }
  }

  /** Every point of a block that strictly dominates another dominates all points of that
      other block: the block-level test `definition dominates use` lifted to points. */
  lemma BlockDominanceLifts(ops: seq<Op>, code: seq<seq<OpId>>, b: BlockId, i: nat, c: BlockId, j: nat)
    requires b != c && b < |code| && i <= |code[b]| && Dominates(BlockGraph(ops, code), b, c)
    ensures Dominates(PointGraph(ops, code), Point(b, i), Point(c, j))
  {
    var g := PointGraph(ops, code);
    forall r | RunTo(g, r, Point(c, j)) ensures Point(b, i) in r {
      var q := BlockRun(ops, code, r);
      assert b in q;
      var k := First(r, Point(b, |code[b]|));
      RunPrefix(g, r, k);
      SameBlockDominates(ops, code, b, i, |code[b]|);
      assert Point(b, i) in r[..k + 1];
    }
  }

  /** A block run lifted to points visits no other blocks. */
  lemma {:induction false} PointRun(p: Program, q: seq<BlockId>) returns (r: seq<Point>)
    requires CfgOk(p.ops, p.code) && IsRun(BlockGraph(p.ops, p.code), q)
    ensures RunTo(Points(p), r, Point(q[|q| - 1], 0)) && forall z :: z in r ==> z.b in q
    decreases |q|
  {
    var g, n := BlockGraph(p.ops, p.code), |q| - 1;
    if n == 0 {
      r := [Point(0, 0)];
    } else {
      assert (q[n - 1], q[n - 1 + 1]) in g.edges;
      assert RunTo(g, q[..n], q[n - 1]) && LiveBlock(p.ops, p.code, q[n - 1]) && EndsOk(p.ops, p.code, q[n - 1]);
      var s := PointRun(p, q[..n]);
      var t := Through(p, s, q[n - 1], |p.code[q[n - 1]]|);
      RunExtend(Points(p), t, Point(q[n - 1], |p.code[q[n - 1]]|), Point(q[n], 0));
      r := t + [Point(q[n], 0)];
    }
  }

  lemma {:induction false} Through(p: Program, s: seq<Point>, b: BlockId, i: nat) returns (r: seq<Point>)
    requires RunTo(Points(p), s, Point(b, 0)) && b < |p.code| && i <= |p.code[b]|
    ensures RunTo(Points(p), r, Point(b, i)) && forall z :: z in r ==> z in s || z.b == b
    decreases i
  {
    if i == 0 {
      r := s;
    } else {
      var t := Through(p, s, b, i - 1);
      assert (Point(b, i - 1), Point(b, i)) in Points(p).edges;
      RunExtend(Points(p), t, Point(b, i - 1), Point(b, i));
      r := t + [Point(b, i)];
    }
  }

  /** What dominates a point dominates its block. */
  lemma PointDominanceLowers(p: Program, d: Point, z: Point)
    requires CfgOk(p.ops, p.code) && Dominates(Points(p), d, z) && z.b < |p.code| && z.i <= |p.code[z.b]|
    ensures Dominates(BlockGraph(p.ops, p.code), d.b, z.b)
  {
    forall q | RunTo(BlockGraph(p.ops, p.code), q, z.b) ensures d.b in q {
      var s := PointRun(p, q);
      var r := Through(p, s, z.b, z.i);
      assert d in r;
    }
  }

  /** What dominates a point from another block dominates all earlier points of its block. */
  lemma {:induction false} FurtherUp(p: Program, d: Point, c: BlockId, k: nat, j: nat)
    requires d.b != c && k <= j && c < |p.code| && j <= |p.code[c]| && Dominates(Points(p), d, Point(c, j))
    ensures Dominates(Points(p), d, Point(c, k))
    decreases j
  {
    if k < j {
      assert (Point(c, j - 1), Point(c, j)) in Points(p).edges;
      DomThroughEdge(Points(p), d, Point(c, j - 1), Point(c, j));
      FurtherUp(p, d, c, k, j - 1);
    }
  }

  // ---- meaning ------------------------------------------------------------------------

  datatype World = World(mem: map<Word, Word>, calls: seq<Word>)

  /** The outside world decides what ops other than integer arithmetic do: a constant or
      conversion depends on its operands alone, a load also reads the world, and only
      effects change it. `branch` says which label a conditional jump takes. */
  datatype Semantics = Semantics(
    pure: (Opcode, Word, seq<Word>) -> Word,
    load: (Opcode, Word, seq<Word>, World) -> Word,
    effect: (Opcode, Word, seq<Word>, World) -> (Word, World),
    branch: (Opcode, Word, seq<Word>) -> bool)

  /** Ops whose output depends on their operands alone. */
  predicate Functional(c: Opcode) {
    c.HasOutput() && !c.Phi? && !c.Load? && !c.Effect?
  }

  function Eval(sem: Semantics, c: Opcode, imm: Word, args: seq<Word>): Word {
    match c
    case Bin(f) => if |args| == 2 then IntEval(f, args[0], args[1]) else 0
    case BinI(f) => if |args| == 1 then IntEval(f, args[0], imm) else 0
    case Rename => if |args| == 1 then args[0] else 0
    case _ => sem.pure(c, imm, args)
  }

  datatype State = State(env: seq<Word>, world: World)

  function Args(env: seq<Word>, ins: seq<OpId>): (r: seq<Word>)
    requires forall k :: 0 <= k < |ins| ==> ins[k] < |env|
    ensures |r| == |ins| && forall k :: 0 <= k < |ins| ==> r[k] == env[ins[k]]
  {
    seq(|ins|, k requires 0 <= k < |ins| => env[ins[k]])
  }

  /** All phis of b are assigned at once from the values at the end of block a. */
  ghost function TakePhis(p: Program, a: BlockId, b: BlockId, env: seq<Word>): (r: seq<Word>)
    requires b < |p.alts|
    ensures |r| == |env|
    ensures forall v :: 0 <= v < |env| ==>
      r[v] == if IsPhiOf(p, b, v) && PhiSource(p.alts[b], v, a) < |env| then env[PhiSource(p.alts[b], v, a)] else env[v]
  {
    seq(|env|, v requires 0 <= v < |env| =>
      if IsPhiOf(p, b, v) && PhiSource(p.alts[b], v, a) < |env| then env[PhiSource(p.alts[b], v, a)] else env[v])
  }

  /** Execute an op that assigns v, given its operand values. */
  function Apply(sem: Semantics, c: Opcode, imm: Word, args: seq<Word>, v: OpId, st: State): (r: State)
    requires v < |st.env|
    ensures |r.env| == |st.env|
    ensures forall x :: 0 <= x < |st.env| && (x != v || !c.HasOutput() || c.Phi?) ==> r.env[x] == st.env[x]
    ensures !c.Effect? ==> r.world == st.world
    ensures Functional(c) ==> r.env[v] == Eval(sem, c, imm, args)
    ensures c.Load? ==> r.env[v] == sem.load(c, imm, args, st.world)
  {
    if c.Effect? then
      var (w, world) := sem.effect(c, imm, args, st.world);
      State(if c.HasOutput() then st.env[v := w] else st.env, world)
    else if c.Load? then
      st.(env := st.env[v := sem.load(c, imm, args, st.world)])
    else if Functional(c) then
      st.(env := st.env[v := Eval(sem, c, imm, args)])
    else st
  }

  /** Execute the last point of a run from the state before it. */
  ghost function StepAt(p: Program, sem: Semantics, r: seq<Point>, st: State): (s: State)
    requires Placed(p) && IsRun(Points(p), r) && |st.env| == |p.ops|
    ensures |s.env| == |p.ops|
  {
    PointLive(p.ops, p.code, r);
    var z := r[|r| - 1];
    if z.i == 0 then
      if |r| == 1 then st else st.(env := TakePhis(p, r[|r| - 2].b, z.b, st.env))
    else
      assert PlacedAt(p, z.b, z.i - 1);
      var v := p.code[z.b][z.i - 1];
      var op := p.ops[v];
      Apply(sem, op.opcode, op.imm, Args(st.env, op.ins), v, st)
  }

  /** The state after a run, starting from st. */
  ghost function Exec(p: Program, sem: Semantics, st: State, r: seq<Point>): (s: State)
    requires Placed(p) && IsRun(Points(p), r) && |st.env| == |p.ops|
    ensures |s.env| == |p.ops|
  {
    StepAt(p, sem, r, if |r| == 1 then st else Exec(p, sem, st, r[..|r| - 1]))
  }

  /** The state in which the last point of a run is executed. */
  ghost function Before(p: Program, sem: Semantics, st: State, r: seq<Point>): (s: State)
    requires Placed(p) && IsRun(Points(p), r) && |st.env| == |p.ops|
    ensures |s.env| == |p.ops|
  {
    if |r| == 1 then st else Exec(p, sem, st, r[..|r| - 1])
  }

  /** Executing a point changes only what is defined there. */
  lemma OnlyDefsChange(p: Program, sem: Semantics, st: State, r: seq<Point>, x: OpId)
    requires Placed(p) && IsRun(Points(p), r) && |st.env| == |p.ops| && x < |p.ops|
    requires DefPoint(p.ops, x) != r[|r| - 1]
    ensures Exec(p, sem, st, r).env[x] == Before(p, sem, st, r).env[x]
  {
    PointLive(p.ops, p.code, r);
    var z := r[|r| - 1];
    if z.i > 0 {
      assert PlacedAt(p, z.b, z.i - 1);
    }
  }

  lemma ReachedUse(p: Program, r: seq<Point>)
    requires StrictSsa(p) && IsRun(Points(p), r) && r[|r| - 1].i > 0
    ensures var z := r[|r| - 1];
            z.b < |p.code| && z.i - 1 < |p.code[z.b]| && PlacedAt(p, z.b, z.i - 1) && InputsOk(p, z.b, z.i - 1)
  {
    PointLive(p.ops, p.code, r);
  }

  /** The previous point of a run: where strict dominators of the last point still dominate. */
  lemma StepBack(p: Program, r: seq<Point>, d: Point)
    requires IsRun(Points(p), r) && Dominates(Points(p), d, r[|r| - 1]) && d != r[|r| - 1]
    ensures |r| > 1 && IsRun(Points(p), r[..|r| - 1]) && Dominates(Points(p), d, r[|r| - 2])
  {
    var n := |r| - 1;
    assert d in r;
    if n == 0 {
      assert false;
    }
    assert (r[n - 1], r[n - 1 + 1]) in Points(p).edges;
    DomThroughEdge(Points(p), d, r[n - 1], r[n]);
  }

  /** Executing a point that an op dominates leaves that op's operands alone. */
  lemma InputsKept(p: Program, sem: Semantics, st: State, r: seq<Point>, y: OpId)
    requires StrictSsa(p) && IsRun(Points(p), r) && |st.env| == |p.ops|
    requires Defined(p, y) && !p.ops[y].opcode.Phi? && Dominates(Points(p), DefPoint(p.ops, y), r[|r| - 1])
    ensures forall k :: 0 <= k < |p.ops[y].ins| ==> p.ops[y].ins[k] < |p.ops|
    ensures Args(Exec(p, sem, st, r).env, p.ops[y].ins) == Args(Before(p, sem, st, r).env, p.ops[y].ins)
  {
    var z, d, op := r[|r| - 1], DefPoint(p.ops, y), p.ops[y];
    assert PlacedAt(p, op.block, op.pos) && InputsOk(p, op.block, op.pos);
    forall x | x in op.ins ensures x < |p.ops| && Exec(p, sem, st, r).env[x] == Before(p, sem, st, r).env[x] {
      assert InputOk(p, d, x);
      if DefPoint(p.ops, x) == z {
        RunReaches(p, r);
        DomReachable(Points(p), d, z);
        DomAntisymmetric(Points(p), d, z);
        assert false;
      }
      OnlyDefsChange(p, sem, st, r, x);
    }
  }

  /** Wherever a functional op is available, its operands still have the values it was
      computed from: on every run an SSA program satisfies its own equations. */
  lemma {:induction false} EquationHolds(p: Program, sem: Semantics, st: State, r: seq<Point>, y: OpId)
    requires StrictSsa(p) && IsRun(Points(p), r) && |st.env| == |p.ops|
    requires Defined(p, y) && Functional(p.ops[y].opcode) && Dominates(Points(p), DefPoint(p.ops, y), r[|r| - 1])
    ensures forall k :: 0 <= k < |p.ops[y].ins| ==> p.ops[y].ins[k] < |p.ops|
    ensures var s := Exec(p, sem, st, r); s.env[y] == Eval(sem, p.ops[y].opcode, p.ops[y].imm, Args(s.env, p.ops[y].ins))
    decreases |r|
  {
    var z, d, op := r[|r| - 1], DefPoint(p.ops, y), p.ops[y];
    assert PlacedAt(p, op.block, op.pos) && InputsOk(p, op.block, op.pos);
    InputsKept(p, sem, st, r, y);
    if z != d {
      StepBack(p, r, d);
      EquationHolds(p, sem, st, r[..|r| - 1], y);
      OnlyDefsChange(p, sem, st, r, y);
    }
  }

  /** A run without its last point. */
  lemma RunInit(p: Program, r: seq<Point>)
    requires IsRun(Points(p), r) && |r| > 1
    ensures var (n, r0) := (|r| - 1, r[..|r| - 1]);
            IsRun(Points(p), r0) && r0[|r0| - 1] == r[n - 1] && (r[n - 1], r[n]) in Points(p).edges && r == r0 + [r[n]]
  {
    var n := |r| - 1;
    assert (r[n - 1], r[n - 1 + 1]) in Points(p).edges;
  }

  lemma RunReaches(p: Program, r: seq<Point>)
    requires IsRun(Points(p), r)
    ensures Reachable(Points(p), r[|r| - 1])
  {
    assert RunTo(Points(p), r, r[|r| - 1]);
  }
}
