/** Moving an op to another place, as csePair does for two equal ops of which neither
    dominates the other (src/opt-cse.cpp): first room is made, then the op moves there. */
module CodeMotion {
  import opened Digraph
  import opened Ir
  import opened Words
  import opened Cfg
  import opened Ssa
  import opened Renaming

  // ---- making room --------------------------------------------------------------------

  /** p with a nop at index k of block c; what comes after it moves up. */
  function Widen(p: Program, c: BlockId, k: nat): (q: Program)
    requires c < |p.code| && k <= |p.code[c]|
    ensures |q.ops| == |p.ops| + 1 && |q.code| == |p.code| && q.alts == p.alts
  {
    Program(seq(|p.ops|, v requires 0 <= v < |p.ops| => if Follows(p, c, k, v) then p.ops[v].(pos := p.ops[v].pos + 1) else p.ops[v])
            + [Op(Nop, [], 0, NoVal, NoVal, c, k, 0)],
            p.code[c := p.code[c][..k] + [|p.ops|] + p.code[c][k..]],
            p.alts)
  }

  /** v is at index k or later of block c. */
  predicate Follows(p: Program, c: BlockId, k: nat, v: OpId)
    requires c < |p.code| && v < |p.ops|
  {
    var op := p.ops[v];
    op.block == c && k <= op.pos < |p.code[c]| && p.code[c][op.pos] == v
  }

  /** Where a point of p is in the widened program. */
  function Lift(c: BlockId, k: nat, z: Point): Point {
    if z.b == c && z.i > k then Point(c, z.i + 1) else z
  }

  function Lower(c: BlockId, k: nat, z: Point): Point {
    if z.b == c && z.i > k then Point(c, z.i - 1) else z
  }

  /** A run of the widened program without the visits to the new nop. */
  function Project(c: BlockId, k: nat, r: seq<Point>): seq<Point> {
    if r == [] then []
    else if r[|r| - 1] == Point(c, k + 1) then Project(c, k, r[..|r| - 1])
    else Project(c, k, r[..|r| - 1]) + [Lower(c, k, r[|r| - 1])]
  }

  ghost predicate Widens(p: Program, c: BlockId, k: nat) {
    StrictSsa(p) && |p.ops| < NoVal && LiveBlock(p.ops, p.code, c) && c < |p.code| && k < |p.code[c]|
  }

  lemma WidenSucc(p: Program, c: BlockId, k: nat)
    requires c < |p.code| && k < |p.code[c]| && p.code[c][|p.code[c]| - 1] < |p.ops|
    ensures forall b :: Succ(Widen(p, c, k).ops, Widen(p, c, k).code, b) == Succ(p.ops, p.code, b)
    ensures BlockGraph(Widen(p, c, k).ops, Widen(p, c, k).code) == BlockGraph(p.ops, p.code)
  {
    var q := Widen(p, c, k);
    assert forall b :: Succ(q.ops, q.code, b) == Succ(p.ops, p.code, b);
    assert BlockGraph(q.ops, q.code).edges == BlockGraph(p.ops, p.code).edges;
  }

  lemma WidenPlaced(p: Program, c: BlockId, k: nat)
    requires Widens(p, c, k)
    ensures Placed(Widen(p, c, k))
    ensures forall b: BlockId :: LiveBlock(Widen(p, c, k).ops, Widen(p, c, k).code, b) <==> LiveBlock(p.ops, p.code, b)
  {
    var q := Widen(p, c, k);
    assert EndsOk(p.ops, p.code, c);
    WidenSucc(p, c, k);
    forall b: BlockId | LiveBlock(q.ops, q.code, b) ensures EndsOk(q.ops, q.code, b) {
      assert LiveBlock(p.ops, p.code, b) && EndsOk(p.ops, p.code, b);
    }
    forall b: BlockId, j: nat | LiveBlock(q.ops, q.code, b) && b < |q.code| && j < |q.code[b]| ensures PlacedAt(q, b, j) {
      assert LiveBlock(p.ops, p.code, b);
      WidenPlacedAt(p, c, k, b, j);
    }
  }

  lemma WidenPlacedAt(p: Program, c: BlockId, k: nat, b: BlockId, j: nat)
    requires Widens(p, c, k) && LiveBlock(p.ops, p.code, b) && b < |p.code| && j < |Widen(p, c, k).code[b]|
    ensures PlacedAt(Widen(p, c, k), b, j)
    ensures b != c || j != k ==> Widen(p, c, k).code[b][j] == p.code[b][if b == c && j > k then j - 1 else j]
  {
    if b == c && j > k {
      assert PlacedAt(p, b, j - 1);
    } else if b != c || j < k {
      assert PlacedAt(p, b, j);
    }
  }

  // ---- runs of the widened program ------------------------------------------------------

  lemma WidenEdge(p: Program, c: BlockId, k: nat, x: Point, y: Point)
    requires Widens(p, c, k) && (x, y) in Points(Widen(p, c, k)).edges && y != Point(c, k + 1)
    ensures (Lower(c, k, x), Lower(c, k, y)) in Points(p).edges
  {
    assert EndsOk(p.ops, p.code, c);
    WidenSucc(p, c, k);
  }

  /** It is a run of the original program, to the corresponding point. */
  lemma {:induction false} ProjectRun(p: Program, c: BlockId, k: nat, r: seq<Point>)
    requires Widens(p, c, k) && IsRun(Points(Widen(p, c, k)), r)
    ensures RunTo(Points(p), Project(c, k, r), if r[|r| - 1] == Point(c, k + 1) then Point(c, k) else Lower(c, k, r[|r| - 1]))
    decreases |r|
  {
    var n := |r| - 1;
    if n == 0 {
      assert Project(c, k, r[..0]) == [];
      assert Project(c, k, r) == [Point(0, 0)];
    } else {
      var g, s := Points(Widen(p, c, k)), Project(c, k, r[..n]);
      assert (r[n - 1], r[n - 1 + 1]) in g.edges && IsRun(g, r[..n]);
      ProjectRun(p, c, k, r[..n]);
      if r[n] == Point(c, k + 1) {
        assert r[n - 1] == Point(c, k);
      } else {
        WidenEdge(p, c, k, r[n - 1], r[n]);
        assert s[|s| - 1] == Lower(c, k, r[n - 1]);
        RunExtend(Points(p), s, Lower(c, k, r[n - 1]), Lower(c, k, r[n]));
      }
    }
  }

  lemma {:induction false} ProjectMember(c: BlockId, k: nat, r: seq<Point>, d: Point)
    requires d in Project(c, k, r)
    ensures Lift(c, k, d) in r
    decreases |r|
  {
    var n := |r| - 1;
    if r[n] == Point(c, k + 1) || d in Project(c, k, r[..n]) {
      ProjectMember(c, k, r[..n], d);
    }
  }

  /** Dominance carries over. */
  lemma WidenDominates(p: Program, c: BlockId, k: nat, d: Point, z: Point)
    requires Widens(p, c, k) && Dominates(Points(p), d, z)
    ensures Dominates(Points(Widen(p, c, k)), Lift(c, k, d), Lift(c, k, z))
  {
    forall r | RunTo(Points(Widen(p, c, k)), r, Lift(c, k, z)) ensures Lift(c, k, d) in r {
      ProjectRun(p, c, k, r);
      ProjectMember(c, k, r, d);
    }
  }

  lemma WidenUse(p: Program, c: BlockId, k: nat, z: Point, x: OpId)
    requires Widens(p, c, k) && UseOk(p, z, x)
    ensures UseOk(Widen(p, c, k), Lift(c, k, z), x)
    ensures DefPoint(p.ops, x) != z ==> DefPoint(Widen(p, c, k).ops, x) != Lift(c, k, z)
    ensures DefPoint(Widen(p, c, k).ops, x) == Lift(c, k, DefPoint(p.ops, x))
  {
    WidenPlaced(p, c, k);
    WidenDominates(p, c, k, DefPoint(p.ops, x), z);
  }

  lemma WidenStrict(p: Program, c: BlockId, k: nat)
    requires Widens(p, c, k)
    ensures StrictSsa(Widen(p, c, k))
  {
    var q := Widen(p, c, k);
    assert EndsOk(p.ops, p.code, c);
    WidenPlaced(p, c, k);
    WidenSucc(p, c, k);
    forall b: BlockId, j: nat | LiveBlock(q.ops, q.code, b) && b < |q.code| && j < |q.code[b]| ensures InputsOk(q, b, j) {
      assert LiveBlock(p.ops, p.code, b);
      WidenInputs(p, c, k, b, j);
    }
    forall a: BlockId, b: BlockId, v: OpId |
      LiveBlock(q.ops, q.code, a) && a < |q.code| && b in Succ(q.ops, q.code, a) && b < |q.alts| && IsPhiOf(q, b, v)
      ensures EdgeOk(q, a, b, v)
    {
      assert LiveBlock(p.ops, p.code, a) && b in Succ(p.ops, p.code, a);
      WidenEdgeOk(p, c, k, a, b, v);
    }
  }

  lemma WidenInputs(p: Program, c: BlockId, k: nat, b: BlockId, j: nat)
    requires Widens(p, c, k) && LiveBlock(p.ops, p.code, b) && b < |p.code| && j < |Widen(p, c, k).code[b]|
    ensures InputsOk(Widen(p, c, k), b, j)
  {
    var q := Widen(p, c, k);
    WidenPlacedAt(p, c, k, b, j);
    if b != c || j != k {
      var i := if b == c && j > k then j - 1 else j;
      assert PlacedAt(p, b, i) && InputsOk(p, b, i);
      forall x | x in q.ops[q.code[b][j]].ins ensures InputOk(q, Point(b, j + 1), x) {
        assert InputOk(p, Point(b, i + 1), x);
        WidenUse(p, c, k, Point(b, i + 1), x);
      }
    }
  }

  lemma WidenEdgeOk(p: Program, c: BlockId, k: nat, a: BlockId, b: BlockId, v: OpId)
    requires Widens(p, c, k) && LiveBlock(p.ops, p.code, a) && a < |p.code| && b in Succ(p.ops, p.code, a) && b < |p.alts|
    requires IsPhiOf(Widen(p, c, k), b, v)
    ensures EdgeOk(Widen(p, c, k), a, b, v)
  {
    WidenPhi(p, c, k, b, v);
    assert EdgeOk(p, a, b, v);
    WidenUse(p, c, k, Point(a, |p.code[a]|), PhiSource(p.alts[b], v, a));
  }

  lemma WidenPhi(p: Program, c: BlockId, k: nat, b: BlockId, v: OpId)
    requires c < |p.code| && k <= |p.code[c]|
    ensures v < |p.ops| ==> (IsPhiOf(Widen(p, c, k), b, v) <==> IsPhiOf(p, b, v))
    ensures v >= |p.ops| ==> !IsPhiOf(Widen(p, c, k), b, v)
  {
    var q := Widen(p, c, k);
    if v < |p.ops| && b == c {
      assert p.code[c] == p.code[c][..k] + p.code[c][k..];
      assert v in q.code[c] <==> v in p.code[c][..k] || v in p.code[c][k..];
    }
  }

  // ---- the nop does nothing ---------------------------------------------------------------

  function Pad(st: State, u: Word): State {
    State(st.env + [u], st.world)
  }

  /** On every run the widened program does what the original does on the projected run. */
  lemma {:induction false} WidenSame(p: Program, c: BlockId, k: nat, sem: Semantics, st: State, u: Word, r: seq<Point>)
    requires Widens(p, c, k) && |st.env| == |p.ops| && Placed(Widen(p, c, k)) && IsRun(Points(Widen(p, c, k)), r)
    ensures IsRun(Points(p), Project(c, k, r))
    ensures Exec(Widen(p, c, k), sem, Pad(st, u), r) == Pad(Exec(p, sem, st, Project(c, k, r)), u)
    decreases |r|
  {
    var q, n := Widen(p, c, k), |r| - 1;
    ProjectRun(p, c, k, r);
    if n == 0 {
      assert Project(c, k, r[..0]) == [];
      assert r[0] == Point(0, 0) && Project(c, k, r) == [Point(0, 0)];
    } else {
      assert (r[n - 1], r[n - 1 + 1]) in Points(q).edges && IsRun(Points(q), r[..n]);
      WidenSame(p, c, k, sem, st, u, r[..n]);
      if r[n] == Point(c, k + 1) {
        WidenNop(p, c, k, sem, Pad(st, u), r);
      } else {
        ProjectRun(p, c, k, r[..n]);
        var s := Project(c, k, r);
        assert s[..|s| - 1] == Project(c, k, r[..n]);
        WidenStep(p, c, k, sem, r, s, Exec(p, sem, st, s[..|s| - 1]), u);
      }
    }
  }

  lemma WidenNop(p: Program, c: BlockId, k: nat, sem: Semantics, st: State, r: seq<Point>)
    requires Widens(p, c, k) && Placed(Widen(p, c, k)) && |st.env| == |p.ops| + 1 && IsRun(Points(Widen(p, c, k)), r)
    requires |r| > 1 && r[|r| - 1] == Point(c, k + 1)
    ensures IsRun(Points(Widen(p, c, k)), r[..|r| - 1])
    ensures Exec(Widen(p, c, k), sem, st, r) == Exec(Widen(p, c, k), sem, st, r[..|r| - 1])
  {
    var q := Widen(p, c, k);
    assert q.code[c][k] == |p.ops| && q.ops[|p.ops|].opcode == Nop;
    assert IsRun(Points(q), r[..|r| - 1]);
  }

  /** One point other than the nop. */
  lemma WidenStep(p: Program, c: BlockId, k: nat, sem: Semantics, r: seq<Point>, s: seq<Point>, st: State, u: Word)
    requires Widens(p, c, k) && Placed(Widen(p, c, k)) && |st.env| == |p.ops|
    requires IsRun(Points(Widen(p, c, k)), r) && |r| > 1 && r[|r| - 1] != Point(c, k + 1)
    requires IsRun(Points(p), s) && |s| > 1 && s[|s| - 1] == Lower(c, k, r[|r| - 1])
    requires s[|s| - 2].b == r[|r| - 2].b
    ensures StepAt(Widen(p, c, k), sem, r, Pad(st, u)) == Pad(StepAt(p, sem, s, st), u)
  {
    if r[|r| - 1].i == 0 {
      WidenPhis(p, c, k, s, st.env, u);
      PointLive(Widen(p, c, k).ops, Widen(p, c, k).code, r);
      PointLive(p.ops, p.code, s);
    } else {
      WidenOpStep(p, c, k, sem, r, s, st, u);
    }
  }

  lemma WidenOpStep(p: Program, c: BlockId, k: nat, sem: Semantics, r: seq<Point>, s: seq<Point>, st: State, u: Word)
    requires Widens(p, c, k) && Placed(Widen(p, c, k)) && |st.env| == |p.ops|
    requires IsRun(Points(Widen(p, c, k)), r) && r[|r| - 1] != Point(c, k + 1) && r[|r| - 1].i > 0
    requires IsRun(Points(p), s) && s[|s| - 1] == Lower(c, k, r[|r| - 1])
    ensures StepAt(Widen(p, c, k), sem, r, Pad(st, u)) == Pad(StepAt(p, sem, s, st), u)
  {
    var q, z, y := Widen(p, c, k), r[|r| - 1], s[|s| - 1];
    PointLive(q.ops, q.code, r);
    PointLive(p.ops, p.code, s);
    assert PlacedAt(p, y.b, y.i - 1) && PlacedAt(q, z.b, z.i - 1);
    var v := p.code[y.b][y.i - 1];
    assert q.code[z.b][z.i - 1] == v;
    assert Args(st.env + [u], p.ops[v].ins) == Args(st.env, p.ops[v].ins);
    PadApply(sem, p.ops[v].opcode, p.ops[v].imm, Args(st.env, p.ops[v].ins), v, st, u);
  }

  lemma PadApply(sem: Semantics, c: Opcode, imm: Word, args: seq<Word>, v: OpId, st: State, u: Word)
    requires v < |st.env|
    ensures Apply(sem, c, imm, args, v, Pad(st, u)) == Pad(Apply(sem, c, imm, args, v, st), u)
  {
    var a, b := Apply(sem, c, imm, args, v, Pad(st, u)), Apply(sem, c, imm, args, v, st);
    assert a.env == b.env + [u];
  }

  lemma WidenPhis(p: Program, c: BlockId, k: nat, s: seq<Point>, env: seq<Word>, u: Word)
    requires Widens(p, c, k) && IsRun(Points(p), s) && |s| > 1 && s[|s| - 1].i == 0 && |env| == |p.ops|
    ensures s[|s| - 1].b < |p.alts|
    ensures TakePhis(Widen(p, c, k), s[|s| - 2].b, s[|s| - 1].b, env + [u]) == TakePhis(p, s[|s| - 2].b, s[|s| - 1].b, env) + [u]
  {
    var n := |s| - 1;
    var a, b := s[n - 1].b, s[n].b;
    PointLive(p.ops, p.code, s);
    assert (s[n - 1], s[n - 1 + 1]) in Points(p).edges && IsRun(Points(p), s[..n]);
    PointLive(p.ops, p.code, s[..n]);
    forall v: nat | v <= |p.ops| ensures IsPhiOf(Widen(p, c, k), b, v) <==> v < |p.ops| && IsPhiOf(p, b, v) {
      WidenPhi(p, c, k, b, v);
    }
    forall v | 0 <= v < |env| && IsPhiOf(p, b, v) ensures PhiSource(p.alts[b], v, a) < |env| {
      assert EdgeOk(p, a, b, v);
    }
  }

  lemma LiftEdge(p: Program, c: BlockId, k: nat, x: Point, y: Point)
    requires Widens(p, c, k) && (x, y) in Points(p).edges
    ensures var g := Points(Widen(p, c, k));
            if y == Point(c, k + 1) then (Lift(c, k, x), y) in g.edges && (y, Lift(c, k, y)) in g.edges
            else (Lift(c, k, x), Lift(c, k, y)) in g.edges
  {
    assert EndsOk(p.ops, p.code, c);
    WidenSucc(p, c, k);
  }

  lemma ProjectAppend(c: BlockId, k: nat, s: seq<Point>, z: Point)
    ensures Project(c, k, s + [z]) == if z == Point(c, k + 1) then Project(c, k, s) else Project(c, k, s) + [Lower(c, k, z)]
  {
    assert (s + [z])[..|s|] == s;
  }

  lemma LiftStep(p: Program, c: BlockId, k: nat, t: seq<Point>, x: Point, y: Point) returns (s: seq<Point>)
    requires Widens(p, c, k) && (x, y) in Points(p).edges && RunTo(Points(Widen(p, c, k)), t, Lift(c, k, x))
    ensures RunTo(Points(Widen(p, c, k)), s, Lift(c, k, y)) && Project(c, k, s) == Project(c, k, t) + [y]
  {
    var g := Points(Widen(p, c, k));
    LiftEdge(p, c, k, x, y);
    s := t;
    if y == Point(c, k + 1) {
      RunExtend(g, t, Lift(c, k, x), y);
      ProjectAppend(c, k, t, y);
      s := t + [y];
    }
    RunExtend(g, s, if y == Point(c, k + 1) then y else Lift(c, k, x), Lift(c, k, y));
    ProjectAppend(c, k, s, Lift(c, k, y));
    s := s + [Lift(c, k, y)];
  }

  /** And every run of the original is the projection of one. */
  lemma {:induction false} LiftRun(p: Program, c: BlockId, k: nat, r: seq<Point>) returns (s: seq<Point>)
    requires Widens(p, c, k) && IsRun(Points(p), r)
    ensures RunTo(Points(Widen(p, c, k)), s, Lift(c, k, r[|r| - 1])) && Project(c, k, s) == r
    decreases |r|
  {
    if |r| == 1 {
      s := r;
      ProjectAppend(c, k, [], Point(0, 0));
      assert [] + [Point(0, 0)] == s;
    } else {
      RunInit(p, r);
      var t := LiftRun(p, c, k, r[..|r| - 1]);
      s := LiftStep(p, c, k, t, r[|r| - 2], r[|r| - 1]);
    }
  }

  // ---- moving an op into a nop ------------------------------------------------------------

  /** The op x and the nop n change places. */
  function Swap(p: Program, x: OpId, n: OpId): (q: Program)
    requires x < |p.ops| && n < |p.ops|
    requires p.ops[x].block < |p.code| && p.ops[x].pos < |p.code[p.ops[x].block]|
    requires p.ops[n].block < |p.code| && p.ops[n].pos < |p.code[p.ops[n].block]|
    requires p.ops[x].block != p.ops[n].block
    ensures |q.ops| == |p.ops| && |q.code| == |p.code| && q.alts == p.alts
    ensures forall b :: 0 <= b < |p.code| ==> |q.code[b]| == |p.code[b]|
  {
    var a, e := p.ops[x], p.ops[n];
    var old_: seq<OpId> := p.code[a.block][a.pos := n];
    var new_: seq<OpId> := p.code[e.block][e.pos := x];
    Program(p.ops[x := a.(block := e.block, pos := e.pos)][n := e.(block := a.block, pos := a.pos)],
            p.code[a.block := old_][e.block := new_],
            p.alts)
  }

  /** x depends on its operands alone, and they are available where the nop is, which dominates
      the block of x. */
  ghost predicate CanSwap(p: Program, x: OpId, n: OpId) {
    && StrictSsa(p) && Defined(p, x) && Functional(p.ops[x].opcode)
    && n < |p.ops| && p.ops[n].opcode == Nop && p.ops[n].ins == [] && p.ops[n].block != p.ops[x].block
    && p.ops[n].block < |p.code| && LiveBlock(p.ops, p.code, p.ops[n].block)
    && p.ops[n].pos < |p.code[p.ops[n].block]| && p.code[p.ops[n].block][p.ops[n].pos] == n
    && Dominates(BlockGraph(p.ops, p.code), p.ops[n].block, p.ops[x].block)
    && forall v :: v in p.ops[x].ins ==> InputOk(p, Point(p.ops[n].block, p.ops[n].pos + 1), v)
  }

  function NewPlace(p: Program, n: OpId): Point
    requires n < |p.ops|
  {
    Point(p.ops[n].block, p.ops[n].pos + 1)
  }

  /** The new place strictly dominates the old one, and x is none of its own operands. */
  lemma NewPlaceFirst(p: Program, x: OpId, n: OpId)
    requires CanSwap(p, x, n)
    ensures Dominates(Points(p), NewPlace(p, n), DefPoint(p.ops, x)) && NewPlace(p, n) != DefPoint(p.ops, x)
    ensures x !in p.ops[x].ins && n !in p.ops[x].ins
    ensures PlacedAt(p, p.ops[x].block, p.ops[x].pos) && PlacedAt(p, p.ops[n].block, p.ops[n].pos)
  {
    var d, e := NewPlace(p, n), DefPoint(p.ops, x);
    BlockDominanceLifts(p.ops, p.code, d.b, d.i, e.b, e.i);
    if x in p.ops[x].ins {
      assert InputOk(p, d, x);
      PointReachable(p, d.b, d.i);
      DomAntisymmetric(Points(p), d, e);
      assert false;
    }
  }

  lemma SwapSucc(p: Program, x: OpId, n: OpId)
    requires CanSwap(p, x, n)
    ensures forall b :: Succ(Swap(p, x, n).ops, Swap(p, x, n).code, b) == Succ(p.ops, p.code, b)
    ensures BlockGraph(Swap(p, x, n).ops, Swap(p, x, n).code) == BlockGraph(p.ops, p.code)
    ensures Points(Swap(p, x, n)) == Points(p)
  {
    var q := Swap(p, x, n);
    NewPlaceFirst(p, x, n);
    forall b: BlockId ensures Succ(q.ops, q.code, b) == Succ(p.ops, p.code, b) {
      if b < |p.code| && p.code[b] != [] {
        assert q.code[b][|q.code[b]| - 1] == p.code[b][|p.code[b]| - 1];
      }
    }
    assert BlockGraph(q.ops, q.code).edges == BlockGraph(p.ops, p.code).edges;
    assert Points(q).edges == Points(p).edges;
  }

  lemma SwapPlacedAt(p: Program, x: OpId, n: OpId, b: BlockId, j: nat)
    requires CanSwap(p, x, n) && LiveBlock(p.ops, p.code, b) && b < |p.code| && j < |p.code[b]|
    ensures PlacedAt(Swap(p, x, n), b, j)
    ensures var v := p.code[b][j]; v == x || v == n || Swap(p, x, n).code[b][j] == v
    ensures p.code[b][j] == x <==> Point(b, j + 1) == DefPoint(p.ops, x)
    ensures p.code[b][j] == n <==> Point(b, j + 1) == NewPlace(p, n)
  {
    NewPlaceFirst(p, x, n);
    assert PlacedAt(p, b, j);
  }

  lemma SwapPlaced(p: Program, x: OpId, n: OpId)
    requires CanSwap(p, x, n)
    ensures Placed(Swap(p, x, n))
    ensures forall b: BlockId :: LiveBlock(Swap(p, x, n).ops, Swap(p, x, n).code, b) <==> LiveBlock(p.ops, p.code, b)
  {
    var q := Swap(p, x, n);
    SwapSucc(p, x, n);
    NewPlaceFirst(p, x, n);
    forall b: BlockId | LiveBlock(q.ops, q.code, b) ensures EndsOk(q.ops, q.code, b) {
      assert LiveBlock(p.ops, p.code, b) && EndsOk(p.ops, p.code, b);
      SwapPlacedAt(p, x, n, b, |p.code[b]| - 1);
    }
    forall b: BlockId, j: nat | LiveBlock(q.ops, q.code, b) && b < |q.code| && j < |q.code[b]| ensures PlacedAt(q, b, j) {
      assert LiveBlock(p.ops, p.code, b);
      SwapPlacedAt(p, x, n, b, j);
    }
  }

  /** What was available stays available. */
  lemma SwapUse(p: Program, x: OpId, n: OpId, z: Point, v: OpId)
    requires CanSwap(p, x, n) && UseOk(p, z, v) && Reachable(Points(p), z)
    ensures UseOk(Swap(p, x, n), z, v)
    ensures DefPoint(p.ops, v) != z ==> DefPoint(Swap(p, x, n).ops, v) != z
  {
    var q := Swap(p, x, n);
    NewPlaceFirst(p, x, n);
    SwapSucc(p, x, n);
    SwapPlaced(p, x, n);
    if v == x {
      DomTransitive(Points(p), NewPlace(p, n), DefPoint(p.ops, x), z);
      if NewPlace(p, n) == z {
        DomAntisymmetric(Points(p), z, DefPoint(p.ops, x));
      }
    }
  }

  lemma SwapStrict(p: Program, x: OpId, n: OpId)
    requires CanSwap(p, x, n)
    ensures StrictSsa(Swap(p, x, n))
  {
    var q := Swap(p, x, n);
    SwapSucc(p, x, n);
    SwapPlaced(p, x, n);
    forall b: BlockId, j: nat | LiveBlock(q.ops, q.code, b) && b < |q.code| && j < |q.code[b]| ensures InputsOk(q, b, j) {
      assert LiveBlock(p.ops, p.code, b);
      SwapInputs(p, x, n, b, j);
    }
    forall a: BlockId, b: BlockId, v: OpId |
      LiveBlock(q.ops, q.code, a) && a < |q.code| && b in Succ(q.ops, q.code, a) && b < |q.alts| && IsPhiOf(q, b, v)
      ensures EdgeOk(q, a, b, v)
    {
      assert LiveBlock(p.ops, p.code, a) && b in Succ(p.ops, p.code, a);
      SwapPhi(p, x, n, b, v);
      assert EdgeOk(p, a, b, v);
      PointReachable(p, a, |p.code[a]|);
      SwapUse(p, x, n, Point(a, |p.code[a]|), PhiSource(p.alts[b], v, a));
    }
  }

  lemma SwapPhi(p: Program, x: OpId, n: OpId, b: BlockId, v: OpId)
    requires CanSwap(p, x, n)
    ensures IsPhiOf(Swap(p, x, n), b, v) <==> IsPhiOf(p, b, v)
  {
    var q := Swap(p, x, n);
    NewPlaceFirst(p, x, n);
    if v != x && v != n && b < |p.code| {
      if v in p.code[b] {
        var j :| 0 <= j < |p.code[b]| && p.code[b][j] == v;
        assert q.code[b][j] == v;
      }
    }
  }

  lemma SwapInputs(p: Program, x: OpId, n: OpId, b: BlockId, j: nat)
    requires CanSwap(p, x, n) && LiveBlock(p.ops, p.code, b) && b < |p.code| && j < |p.code[b]|
    ensures InputsOk(Swap(p, x, n), b, j)
  {
    var q, z, v := Swap(p, x, n), Point(b, j + 1), p.code[b][j];
    SwapPlacedAt(p, x, n, b, j);
    PointReachable(p, b, j + 1);
    assert InputsOk(p, b, j) && PlacedAt(p, p.ops[n].block, p.ops[n].pos);
    forall u | u in q.ops[q.code[b][j]].ins ensures InputOk(q, z, u) {
      assert InputOk(p, z, u);
      SwapUse(p, x, n, z, u);
    }
  }

  // ---- the op computes the same there -----------------------------------------------------

  ghost predicate SameBut(s: State, t: State, x: OpId) {
    |s.env| == |t.env| && s.world == t.world && forall v :: 0 <= v < |s.env| && v != x ==> t.env[v] == s.env[v]
  }

  /** Where x is available in the original, it has the same value in both. */
  ghost predicate SameWhere(p: Program, s: State, t: State, x: OpId, z: Point)
    requires x < |p.ops|
  {
    |s.env| == |t.env| == |p.ops| && (Dominates(Points(p), DefPoint(p.ops, x), z) ==> t.env[x] == s.env[x])
  }

  /** On every run all other values and all effects are the same, and so is x wherever it is
      available. */
  lemma {:induction false} SwapSame(p: Program, x: OpId, n: OpId, sem: Semantics, st: State, r: seq<Point>)
    requires CanSwap(p, x, n) && StrictSsa(Swap(p, x, n)) && Points(Swap(p, x, n)) == Points(p)
    requires |st.env| == |p.ops| && IsRun(Points(p), r)
    ensures SameBut(Exec(p, sem, st, r), Exec(Swap(p, x, n), sem, st, r), x)
    ensures SameWhere(p, Exec(p, sem, st, r), Exec(Swap(p, x, n), sem, st, r), x, r[|r| - 1])
    decreases |r|
  {
    var q, m := Swap(p, x, n), |r| - 1;
    var s, t := Before(p, sem, st, r), Before(q, sem, st, r);
    if m > 0 {
      assert IsRun(Points(p), r[..m]);
      SwapSame(p, x, n, sem, st, r[..m]);
      if r[m].i == 0 {
        SwapPhis(p, x, n, r, s, t);
      } else {
        SwapStep(p, x, n, sem, r, s, t);
      }
    }
    SwapValue(p, x, n, sem, st, r);
  }

  /** Both programs satisfy their own equations. */
  lemma SwapValue(p: Program, x: OpId, n: OpId, sem: Semantics, st: State, r: seq<Point>)
    requires CanSwap(p, x, n) && StrictSsa(Swap(p, x, n)) && Points(Swap(p, x, n)) == Points(p)
    requires |st.env| == |p.ops| && IsRun(Points(p), r)
    requires SameBut(Exec(p, sem, st, r), Exec(Swap(p, x, n), sem, st, r), x)
    ensures SameWhere(p, Exec(p, sem, st, r), Exec(Swap(p, x, n), sem, st, r), x, r[|r| - 1])
  {
    var q := Swap(p, x, n);
    if Dominates(Points(p), DefPoint(p.ops, x), r[|r| - 1]) {
      NewPlaceFirst(p, x, n);
      SwapPlaced(p, x, n);
      DomTransitive(Points(p), NewPlace(p, n), DefPoint(p.ops, x), r[|r| - 1]);
      EquationHolds(p, sem, st, r, x);
      EquationHolds(q, sem, st, r, x);
      var ins := p.ops[x].ins;
      forall k | 0 <= k < |ins| ensures Exec(q, sem, st, r).env[ins[k]] == Exec(p, sem, st, r).env[ins[k]] {
        assert ins[k] in ins;
      }
      assert Args(Exec(q, sem, st, r).env, ins) == Args(Exec(p, sem, st, r).env, ins);
    }
  }

  lemma SwapStep(p: Program, x: OpId, n: OpId, sem: Semantics, r: seq<Point>, s: State, t: State)
    requires CanSwap(p, x, n) && Placed(Swap(p, x, n)) && Points(Swap(p, x, n)) == Points(p)
    requires IsRun(Points(p), r) && |r| > 1 && r[|r| - 1].i > 0 && |s.env| == |p.ops|
    requires SameBut(s, t, x) && SameWhere(p, s, t, x, r[|r| - 2])
    ensures SameBut(StepAt(p, sem, r, s), StepAt(Swap(p, x, n), sem, r, t), x)
  {
    var z := r[|r| - 1];
    ReachedUse(p, r);
    PointLive(p.ops, p.code, r);
    SwapPlacedAt(p, x, n, z.b, z.i - 1);
    var v := p.code[z.b][z.i - 1];
    if v != x && v != n {
      SwapArgs(p, x, r, s, t, v);
    }
  }

  /** Operands are available, so they have the same values. */
  lemma SwapArgs(p: Program, x: OpId, r: seq<Point>, s: State, t: State, v: OpId)
    requires IsRun(Points(p), r) && |r| > 1 && x < |p.ops| && v < |p.ops| && |s.env| == |p.ops|
    requires forall u :: u in p.ops[v].ins ==> InputOk(p, r[|r| - 1], u)
    requires SameBut(s, t, x) && SameWhere(p, s, t, x, r[|r| - 2])
    ensures forall k :: 0 <= k < |p.ops[v].ins| ==> p.ops[v].ins[k] < |p.ops|
    ensures Args(t.env, p.ops[v].ins) == Args(s.env, p.ops[v].ins)
  {
    var ins := p.ops[v].ins;
    forall k | 0 <= k < |ins| ensures ins[k] < |p.ops| && t.env[ins[k]] == s.env[ins[k]] {
      assert ins[k] in ins && InputOk(p, r[|r| - 1], ins[k]);
      if ins[k] == x {
        StepBack(p, r, DefPoint(p.ops, x));
      }
    }
  }

  lemma SwapPhis(p: Program, x: OpId, n: OpId, r: seq<Point>, s: State, t: State)
    requires CanSwap(p, x, n) && Placed(Swap(p, x, n)) && Points(Swap(p, x, n)) == Points(p)
    requires IsRun(Points(p), r) && |r| > 1 && r[|r| - 1].i == 0 && |s.env| == |p.ops|
    requires SameBut(s, t, x) && SameWhere(p, s, t, x, r[|r| - 2])
    ensures r[|r| - 1].b < |p.alts|
    ensures SameBut(s.(env := TakePhis(p, r[|r| - 2].b, r[|r| - 1].b, s.env)),
                    t.(env := TakePhis(Swap(p, x, n), r[|r| - 2].b, r[|r| - 1].b, t.env)), x)
  {
    var q, m := Swap(p, x, n), |r| - 1;
    var a, b := r[m - 1].b, r[m].b;
    PointLive(p.ops, p.code, r);
    assert (r[m - 1], r[m - 1 + 1]) in Points(p).edges && IsRun(Points(p), r[..m]);
    PointLive(p.ops, p.code, r[..m]);
    forall v | 0 <= v < |s.env| && v != x ensures TakePhis(q, a, b, t.env)[v] == TakePhis(p, a, b, s.env)[v] {
      PhiTaken(p, x, n, s, t, a, b, v);
    }
  }

  lemma PhiTaken(p: Program, x: OpId, n: OpId, s: State, t: State, a: BlockId, b: BlockId, v: OpId)
    requires CanSwap(p, x, n) && v < |p.ops| == |s.env| && v != x && a < |p.code| && b < |p.alts|
    requires LiveBlock(p.ops, p.code, a) && b in Succ(p.ops, p.code, a)
    requires SameBut(s, t, x) && SameWhere(p, s, t, x, Point(a, |p.code[a]|))
    ensures TakePhis(Swap(p, x, n), a, b, t.env)[v] == TakePhis(p, a, b, s.env)[v]
  {
    SwapPhi(p, x, n, b, v);
    if IsPhiOf(p, b, v) {
      assert EdgeOk(p, a, b, v);
      SourceSame(p, x, s, t, a, b, v);
    }
  }

  lemma SourceSame(p: Program, x: OpId, s: State, t: State, a: BlockId, b: BlockId, v: OpId)
    requires x < |p.ops| && |s.env| == |p.ops| && a < |p.code| && b < |p.alts| && EdgeOk(p, a, b, v)
    requires SameBut(s, t, x) && SameWhere(p, s, t, x, Point(a, |p.code[a]|))
    ensures var u := PhiSource(p.alts[b], v, a); u < |p.ops| && t.env[u] == s.env[u]
  {
  }

  // ---- moving an op up --------------------------------------------------------------------

  /** All operands of x are available before index k of block c, which dominates x. */
  ghost predicate CanMove(p: Program, x: OpId, c: BlockId, k: nat) {
    && Widens(p, c, k) && Defined(p, x) && Functional(p.ops[x].opcode) && p.ops[x].block != c
    && Dominates(BlockGraph(p.ops, p.code), c, p.ops[x].block)
    && forall v :: v in p.ops[x].ins ==> UseOk(p, Point(c, k), v)
  }

  /** p with x moved to index k of block c; a nop stays behind. */
  function MoveUp(p: Program, x: OpId, c: BlockId, k: nat): (q: Program)
    requires c < |p.code| && k <= |p.code[c]| && x < |p.ops| && p.ops[x].block != c
    requires p.ops[x].block < |p.code| && p.ops[x].pos < |p.code[p.ops[x].block]|
    ensures |q.ops| == |p.ops| + 1
  {
    Swap(Widen(p, c, k), x, |p.ops|)
  }

  lemma RoomMade(p: Program, x: OpId, c: BlockId, k: nat)
    requires CanMove(p, x, c, k)
    ensures CanSwap(Widen(p, c, k), x, |p.ops|)
  {
    var q := Widen(p, c, k);
    assert EndsOk(p.ops, p.code, c);
    WidenStrict(p, c, k);
    WidenPlaced(p, c, k);
    WidenSucc(p, c, k);
    forall v | v in q.ops[x].ins ensures InputOk(q, Point(c, k + 1), v) {
      WidenUse(p, c, k, Point(c, k), v);
      SameBlockDominates(q.ops, q.code, c, k, k + 1);
      DomTransitive(Points(q), DefPoint(q.ops, v), Point(c, k), Point(c, k + 1));
    }
  }

  /** Availability in the original is availability in the widened program. */
  lemma StillAvailable(p: Program, c: BlockId, k: nat, d: Point, r: seq<Point>)
    requires Widens(p, c, k) && IsRun(Points(Widen(p, c, k)), r)
    ensures IsRun(Points(p), Project(c, k, r))
    ensures Dominates(Points(p), d, Project(c, k, r)[|Project(c, k, r)| - 1]) ==> Dominates(Points(Widen(p, c, k)), Lift(c, k, d), r[|r| - 1])
  {
    ProjectRun(p, c, k, r);
    var z := Project(c, k, r)[|Project(c, k, r)| - 1];
    if Dominates(Points(p), d, z) {
      forall s | RunTo(Points(Widen(p, c, k)), s, r[|r| - 1]) ensures Lift(c, k, d) in s {
        ProjectRun(p, c, k, s);
        ProjectMember(c, k, s, d);
      }
    }
  }

  ghost predicate SameAfterMove(p: Program, x: OpId, s: State, t: State, z: Point)
    requires x < |p.ops|
  {
    && |s.env| == |p.ops| && |t.env| == |p.ops| + 1 && s.world == t.world
    && (forall v :: 0 <= v < |p.ops| && v != x ==> t.env[v] == s.env[v])
    && (Dominates(Points(p), DefPoint(p.ops, x), z) ==> t.env[x] == s.env[x])
  }

  lemma MoveUpStrict(p: Program, x: OpId, c: BlockId, k: nat)
    requires CanMove(p, x, c, k)
    ensures StrictSsa(MoveUp(p, x, c, k)) && Points(MoveUp(p, x, c, k)) == Points(Widen(p, c, k))
    ensures forall b: BlockId :: LiveBlock(MoveUp(p, x, c, k).ops, MoveUp(p, x, c, k).code, b) <==> LiveBlock(p.ops, p.code, b)
    ensures DefPoint(MoveUp(p, x, c, k).ops, x) == Point(c, k + 1) && Defined(MoveUp(p, x, c, k), x)
    ensures DefPoint(Widen(p, c, k).ops, x) == DefPoint(p.ops, x) == Lift(c, k, DefPoint(p.ops, x))
    ensures BlockGraph(MoveUp(p, x, c, k).ops, MoveUp(p, x, c, k).code) == BlockGraph(p.ops, p.code)
  {
    var q := Widen(p, c, k);
    RoomMade(p, x, c, k);
    WidenPlaced(p, c, k);
    assert EndsOk(p.ops, p.code, c);
    WidenSucc(p, c, k);
    SwapPlaced(q, x, |p.ops|);
    SwapStrict(q, x, |p.ops|);
    SwapSucc(q, x, |p.ops|);
  }

  lemma MoveUpOthers(p: Program, x: OpId, c: BlockId, k: nat, y: OpId)
    requires CanMove(p, x, c, k) && Defined(p, y) && p.ops[y].block != c && x != y
    ensures MoveUp(p, x, c, k).ops[y] == p.ops[y] && Defined(MoveUp(p, x, c, k), y)
    ensures k + 1 < |MoveUp(p, x, c, k).code[c]|
  {
    MoveUpStrict(p, x, c, k);
    assert PlacedAt(p, p.ops[x].block, p.ops[x].pos) && PlacedAt(p, p.ops[y].block, p.ops[y].pos);
  }

  /** Moving an op up to where its operands are available gives strict SSA again. On every run
      the effects and all other values are those of the original on the same run without the
      new place, and x has its value wherever it was available. LiftRun says that no run of
      the original is lost. */
  lemma MoveUpSame(p: Program, x: OpId, c: BlockId, k: nat, sem: Semantics, st: State, u: Word, r: seq<Point>)
    requires CanMove(p, x, c, k) && |st.env| == |p.ops|
    requires IsRun(Points(MoveUp(p, x, c, k)), r)
    ensures StrictSsa(MoveUp(p, x, c, k)) && Points(MoveUp(p, x, c, k)) == Points(Widen(p, c, k))
    ensures var s := Project(c, k, r);
            && IsRun(Points(p), s)
            && SameAfterMove(p, x, Exec(p, sem, st, s), Exec(MoveUp(p, x, c, k), sem, Pad(st, u), r), s[|s| - 1])
  {
    var q := Widen(p, c, k);
    MoveUpStrict(p, x, c, k);
    RoomMade(p, x, c, k);
    WidenSame(p, c, k, sem, st, u, r);
    SwapSame(q, x, |p.ops|, sem, Pad(st, u), r);
    StillAvailable(p, c, k, DefPoint(p.ops, x), r);
  }

  // ---- the nearest common dominator -------------------------------------------------------

  /** c is a live block that everything dominates that dominates both blocks. */
  ghost predicate NearestCommon(p: Program, b0: BlockId, b1: BlockId, c: BlockId) {
    var g := BlockGraph(p.ops, p.code);
    && LiveBlock(p.ops, p.code, c) && Dominates(g, c, b0) && Dominates(g, c, b1)
    && forall d: nat :: LiveBlock(p.ops, p.code, d) && Dominates(g, d, b0) && Dominates(g, d, b1) ==> Dominates(g, d, c)
  }

  /** The block that defines an operand dominates the block of the op. */
  lemma OperandAbove(p: Program, x: OpId, v: OpId)
    requires StrictSsa(p) && Defined(p, x) && !p.ops[x].opcode.Phi? && v in p.ops[x].ins
    ensures Defined(p, v) && Dominates(BlockGraph(p.ops, p.code), p.ops[v].block, p.ops[x].block)
  {
    assert InputsOk(p, p.ops[x].block, p.ops[x].pos);
    assert InputOk(p, DefPoint(p.ops, x), v);
    PointDominanceLowers(p, DefPoint(p.ops, v), DefPoint(p.ops, x));
  }

  /** All operands that two ops share are available at the end of the nearest common dominator
      of their blocks, before its last op. */
  lemma InputsAtNearestCommon(p: Program, x: OpId, y: OpId, c: BlockId, v: OpId)
    requires StrictSsa(p) && Defined(p, x) && Defined(p, y) && !p.ops[x].opcode.Phi? && !p.ops[y].opcode.Phi?
    requires v in p.ops[x].ins && v in p.ops[y].ins
    requires NearestCommon(p, p.ops[x].block, p.ops[y].block, c)
    ensures c < |p.code| && p.code[c] != [] && UseOk(p, Point(c, |p.code[c]| - 1), v)
  {
    OperandAbove(p, x, v);
    OperandAbove(p, y, v);
    AvailableBelow(p, v, c);
  }

  lemma AvailableBelow(p: Program, v: OpId, c: BlockId)
    requires Placed(p) && Defined(p, v) && LiveBlock(p.ops, p.code, c)
    requires Dominates(BlockGraph(p.ops, p.code), p.ops[v].block, c)
    ensures c < |p.code| && p.code[c] != [] && UseOk(p, Point(c, |p.code[c]| - 1), v)
  {
    var d := DefPoint(p.ops, v);
    assert EndsOk(p.ops, p.code, c) && PlacedAt(p, d.b, p.ops[v].pos);
    if d.b == c {
      SameBlockDominates(p.ops, p.code, c, d.i, |p.code[c]| - 1);
    } else {
      BlockDominanceLifts(p.ops, p.code, d.b, d.i, c, |p.code[c]| - 1);
    }
  }

  /** And they stay available as far up as nothing in between defines one of them. */
  lemma InputsFurtherUp(p: Program, c: BlockId, k: nat, v: OpId)
    requires Placed(p) && LiveBlock(p.ops, p.code, c) && c < |p.code| && k < |p.code[c]|
    requires UseOk(p, Point(c, |p.code[c]| - 1), v)
    requires forall j :: k <= j < |p.code[c]| ==> p.code[c][j] != v
    ensures UseOk(p, Point(c, k), v)
  {
    var d := DefPoint(p.ops, v);
    if d.b == c {
      SameBlockDominates(p.ops, p.code, c, d.i, k);
    } else {
      FurtherUp(p, d, c, k, |p.code[c]| - 1);
    }
  }
}
