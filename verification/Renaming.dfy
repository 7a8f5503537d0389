/** Replacing some SSA values by others: the shared core of phi elimination and CSE.

    A renaming is sound when each replacement is defined strictly earlier on every run and
    agrees with the replaced value at the moment that value is assigned. */
module Renaming {
  import opened Digraph
  import opened Ir
  import opened Words
  import opened Cfg
  import opened Ssa

  /** sigma[x] is what x is renamed to; most values are renamed to themselves. */
  type Subst = seq<OpId>

  function RenameIns(sigma: Subst, ins: seq<OpId>): (r: seq<OpId>)
    ensures |r| == |ins|
    ensures forall k :: 0 <= k < |ins| ==> r[k] == if ins[k] < |sigma| then sigma[ins[k]] else ins[k]
  {
    seq(|ins|, k requires 0 <= k < |ins| => if ins[k] < |sigma| then sigma[ins[k]] else ins[k])
  }

  function RenameAlts(sigma: Subst, alts: seq<PhiAlt>): (r: seq<PhiAlt>)
    ensures |r| == |alts|
    ensures forall k :: 0 <= k < |alts| ==>
      r[k] == alts[k].(val := if alts[k].val < |sigma| then sigma[alts[k].val] else alts[k].val)
  {
    seq(|alts|, k requires 0 <= k < |alts| =>
      alts[k].(val := if alts[k].val < |sigma| then sigma[alts[k].val] else alts[k].val))
  }

  /** v is in the code of a listed block. */
  predicate OpLive(p: Program, live: seq<BlockId>, v: OpId) {
    v < |p.ops|
    && var b := p.ops[v].block; b in live && b < |p.code| && p.ops[v].pos < |p.code[b]| && p.code[b][p.ops[v].pos] == v
  }

  /** Operands and phi alternatives of all live blocks renamed. */
  function Renamed(p: Program, live: seq<BlockId>, sigma: Subst): (q: Program)
    ensures |q.ops| == |p.ops| && q.code == p.code && |q.alts| == |p.alts|
    ensures forall v :: 0 <= v < |p.ops| ==>
      q.ops[v] == if OpLive(p, live, v) then p.ops[v].(ins := RenameIns(sigma, p.ops[v].ins)) else p.ops[v]
    ensures forall b :: 0 <= b < |p.alts| ==> q.alts[b] == if b in live then RenameAlts(sigma, p.alts[b]) else p.alts[b]
  {
    Program(seq(|p.ops|, v requires 0 <= v < |p.ops| =>
              if OpLive(p, live, v) then p.ops[v].(ins := RenameIns(sigma, p.ops[v].ins)) else p.ops[v]),
            p.code,
            seq(|p.alts|, b requires 0 <= b < |p.alts| => if b in live then RenameAlts(sigma, p.alts[b]) else p.alts[b]))
  }

  ghost predicate Replaced(p: Program, sigma: Subst, x: OpId) {
    Defined(p, x) && x < |sigma| && sigma[x] != x
  }

  /** Each replacement is itself defined, strictly before what it replaces. */
  ghost predicate Earlier(p: Program, sigma: Subst) {
    && |sigma| == |p.ops|
    && forall x: OpId {:trigger Replaced(p, sigma, x)} :: Replaced(p, sigma, x) ==>
         && UseOk(p, DefPoint(p.ops, x), sigma[x])
         && DefPoint(p.ops, sigma[x]) != DefPoint(p.ops, x)
  }

  /** Where z has been executed, every replaced value that is available equals its
      replacement. */
  ghost predicate Agree(p: Program, sigma: Subst, z: Point, env: seq<Word>)
    requires Earlier(p, sigma) && |env| == |p.ops|
  {
    forall x: OpId {:trigger Replaced(p, sigma, x)} :: Replaced(p, sigma, x) && Dominates(Points(p), DefPoint(p.ops, x), z) ==>
      env[x] == env[sigma[x]]
  }

  /** Each replaced value equals its replacement as soon as it has been assigned. */
  ghost predicate AssignedEqual(p: Program, sem: Semantics, st: State, sigma: Subst, r: seq<Point>)
    requires Placed(p) && Earlier(p, sigma) && IsRun(Points(p), r) && |st.env| == |p.ops|
  {
    (|r| > 1 ==> Agree(p, sigma, r[|r| - 2], Before(p, sem, st, r).env)) ==>
      forall x: OpId {:trigger Replaced(p, sigma, x)} :: Replaced(p, sigma, x) && DefPoint(p.ops, x) == r[|r| - 1] ==>
        Exec(p, sem, st, r).env[x] == Exec(p, sem, st, r).env[sigma[x]]
  }

  ghost predicate Justified(p: Program, sem: Semantics, st: State, sigma: Subst)
    requires Placed(p) && Earlier(p, sigma) && |st.env| == |p.ops|
  {
    forall r :: IsRun(Points(p), r) ==> AssignedEqual(p, sem, st, sigma, r)
  }

  /** Replaced values keep agreeing with their replacements for as long as they are
      available: nothing they dominate can assign the replacement again. */
  lemma {:induction false} AgreeAlongRun(p: Program, sem: Semantics, st: State, sigma: Subst, r: seq<Point>)
    requires StrictSsa(p) && Earlier(p, sigma) && |st.env| == |p.ops| && Justified(p, sem, st, sigma)
    requires IsRun(Points(p), r)
    ensures Agree(p, sigma, r[|r| - 1], Exec(p, sem, st, r).env)
    decreases |r|
  {
    var z, s := r[|r| - 1], Exec(p, sem, st, r);
    if |r| > 1 {
      assert IsRun(Points(p), r[..|r| - 1]);
      AgreeAlongRun(p, sem, st, sigma, r[..|r| - 1]);
    }
    assert AssignedEqual(p, sem, st, sigma, r);
    forall x: OpId {:trigger Replaced(p, sigma, x)} | Replaced(p, sigma, x) && Dominates(Points(p), DefPoint(p.ops, x), z)
      ensures s.env[x] == s.env[sigma[x]]
    {
      if DefPoint(p.ops, x) != z {
        StepBack(p, r, DefPoint(p.ops, x));
        ReplacementNotAssigned(p, sigma, r, x);
        OnlyDefsChange(p, sem, st, r, x);
        OnlyDefsChange(p, sem, st, r, sigma[x]);
      }
    }
  }

  lemma ReplacementNotAssigned(p: Program, sigma: Subst, r: seq<Point>, x: OpId)
    requires Earlier(p, sigma) && IsRun(Points(p), r) && Replaced(p, sigma, x)
    requires Dominates(Points(p), DefPoint(p.ops, x), r[|r| - 1])
    ensures DefPoint(p.ops, sigma[x]) != r[|r| - 1]
  {
    var d, e, z := DefPoint(p.ops, x), DefPoint(p.ops, sigma[x]), r[|r| - 1];
    if e == z {
      RunReaches(p, r);
      DomAntisymmetric(Points(p), e, d);
      assert false;
    }
  }

  // ---- the renamed program ------------------------------------------------------------

  lemma SameGraphs(ops: seq<Op>, ops': seq<Op>, code: seq<seq<OpId>>)
    requires |ops| == |ops'|
    requires forall v :: 0 <= v < |ops| ==>
      ops'[v].label0 == ops[v].label0 && ops'[v].label1 == ops[v].label1
      && (ops'[v].opcode.Jmp? <==> ops[v].opcode.Jmp?) && (ops'[v].opcode.Cond? <==> ops[v].opcode.Cond?)
    ensures forall b :: Succ(ops', code, b) == Succ(ops, code, b)
    ensures BlockGraph(ops', code) == BlockGraph(ops, code)
    ensures PointGraph(ops', code) == PointGraph(ops, code)
  {
    assert forall b :: Succ(ops', code, b) == Succ(ops, code, b);
    assert BlockGraph(ops', code).edges == BlockGraph(ops, code).edges;
    assert PointGraph(ops', code).edges == PointGraph(ops, code).edges;
  }

  lemma RenamedPlaced(p: Program, live: seq<BlockId>, sigma: Subst)
    requires LiveExact(p.ops, p.code, live)
    requires Placed(p) && |sigma| == |p.ops|
    requires forall x :: 0 <= x < |sigma| ==> sigma[x] < |p.ops|
    ensures Placed(Renamed(p, live, sigma))
    ensures Points(Renamed(p, live, sigma)) == Points(p)
    ensures forall b :: LiveBlock(Renamed(p, live, sigma).ops, p.code, b) <==> LiveBlock(p.ops, p.code, b)
  {
    var q := Renamed(p, live, sigma);
    SameGraphs(p.ops, q.ops, p.code);
    forall b: BlockId | LiveBlock(q.ops, q.code, b) ensures EndsOk(q.ops, q.code, b) {
      assert LiveBlock(p.ops, p.code, b) && EndsOk(p.ops, p.code, b);
    }
    forall b: BlockId, j: nat | LiveBlock(q.ops, q.code, b) && b < |q.code| && j < |q.code[b]| ensures PlacedAt(q, b, j) {
      assert LiveBlock(p.ops, p.code, b);
      assert PlacedAt(p, b, j);
    }
  }

  lemma {:induction false} RenamedSource(sigma: Subst, alts: seq<PhiAlt>, v: OpId, a: BlockId)
    requires PhiAlt(v, a, PhiSource(alts, v, a)) in alts && PhiSource(alts, v, a) < |sigma|
    ensures PhiSource(RenameAlts(sigma, alts), v, a) == sigma[PhiSource(alts, v, a)]
    ensures PhiAlt(v, a, sigma[PhiSource(alts, v, a)]) in RenameAlts(sigma, alts)
  {
    var r := RenameAlts(sigma, alts);
    if !(alts[0].phi == v && alts[0].src == a) {
      assert RenameAlts(sigma, alts[1..]) == r[1..];
      assert PhiAlt(v, a, PhiSource(alts, v, a)) in alts[1..];
      RenamedSource(sigma, alts[1..], v, a);
    } else {
      assert r[0] == PhiAlt(v, a, sigma[alts[0].val]);
    }
  }

  /** A use stays dominated by its renamed definition. */
  lemma RenamedUse(p: Program, sigma: Subst, z: Point, x: OpId)
    requires Earlier(p, sigma) && UseOk(p, z, x) && Reachable(Points(p), z)
    ensures x < |sigma| && UseOk(p, z, sigma[x])
    ensures DefPoint(p.ops, x) != z ==> DefPoint(p.ops, sigma[x]) != z
  {
    if sigma[x] != x {
      assert Replaced(p, sigma, x);
      DomTransitive(Points(p), DefPoint(p.ops, sigma[x]), DefPoint(p.ops, x), z);
      if DefPoint(p.ops, sigma[x]) == z {
        DomAntisymmetric(Points(p), z, DefPoint(p.ops, x));
      }
    }
  }

  lemma RenamedStrict(p: Program, live: seq<BlockId>, sigma: Subst)
    requires LiveExact(p.ops, p.code, live)
    requires StrictSsa(p) && Earlier(p, sigma)
    requires forall x :: 0 <= x < |sigma| ==> sigma[x] < |p.ops|
    ensures StrictSsa(Renamed(p, live, sigma))
    ensures Points(Renamed(p, live, sigma)) == Points(p)
  {
    var q := Renamed(p, live, sigma);
    RenamedPlaced(p, live, sigma);
    forall b: BlockId, j: nat | LiveBlock(q.ops, q.code, b) && b < |q.code| && j < |q.code[b]| ensures InputsOk(q, b, j) {
      assert LiveBlock(p.ops, p.code, b);
      RenamedInputs(p, live, sigma, b, j);
    }
    forall a: BlockId, b: BlockId, v: OpId |
      LiveBlock(q.ops, q.code, a) && a < |q.code| && b in Succ(q.ops, q.code, a) && b < |q.alts| && IsPhiOf(q, b, v)
      ensures EdgeOk(q, a, b, v)
    {
      assert LiveBlock(p.ops, p.code, a) && IsPhiOf(p, b, v) && b in Succ(p.ops, p.code, a);
      RenamedEdge(p, live, sigma, a, b, v);
    }
  }

  lemma PointReachable(p: Program, b: BlockId, i: nat)
    requires CfgOk(p.ops, p.code) && LiveBlock(p.ops, p.code, b) && b < |p.code| && i <= |p.code[b]|
    ensures Reachable(Points(p), Point(b, i))
  {
    var q :| RunTo(BlockGraph(p.ops, p.code), q, b);
    EntryReachable(p, q);
    WithinBlock(p, b, i);
  }

  lemma {:induction false} EntryReachable(p: Program, q: seq<BlockId>)
    requires CfgOk(p.ops, p.code) && IsRun(BlockGraph(p.ops, p.code), q)
    ensures Reachable(Points(p), Point(q[|q| - 1], 0))
    decreases |q|
  {
    var g, n := BlockGraph(p.ops, p.code), |q| - 1;
    if n == 0 {
      RootReachable(Points(p), Point(0, 0));
    } else {
      var a, b := q[n - 1], q[n];
      assert (q[n - 1], q[n - 1 + 1]) in g.edges;
      EntryReachable(p, q[..n]);
      assert RunTo(g, q[..n], a) && LiveBlock(p.ops, p.code, a) && EndsOk(p.ops, p.code, a);
      WithinBlock(p, a, |p.code[a]|);
      assert (Point(a, |p.code[a]|), Point(b, 0)) in Points(p).edges;
      ReachableStep(Points(p), Point(a, |p.code[a]|), Point(b, 0));
    }
  }

  lemma {:induction false} WithinBlock(p: Program, b: BlockId, i: nat)
    requires Reachable(Points(p), Point(b, 0)) && b < |p.code| && i <= |p.code[b]|
    ensures Reachable(Points(p), Point(b, i))
    decreases i
  {
    if i > 0 {
      WithinBlock(p, b, i - 1);
      assert (Point(b, i - 1), Point(b, i)) in Points(p).edges;
      ReachableStep(Points(p), Point(b, i - 1), Point(b, i));
    }
  }

  lemma SameDefs(p: Program, live: seq<BlockId>, sigma: Subst, x: OpId)
    requires LiveExact(p.ops, p.code, live)
    requires Placed(p) && |sigma| == |p.ops| && x < |p.ops|
    requires forall x :: 0 <= x < |sigma| ==> sigma[x] < |p.ops|
    ensures DefPoint(Renamed(p, live, sigma).ops, x) == DefPoint(p.ops, x)
    ensures Defined(Renamed(p, live, sigma), x) <==> Defined(p, x)
  {
    RenamedPlaced(p, live, sigma);
  }

  lemma UseCarries(p: Program, live: seq<BlockId>, sigma: Subst, z: Point, y: OpId)
    requires LiveExact(p.ops, p.code, live)
    requires Placed(p) && |sigma| == |p.ops| && UseOk(p, z, y)
    requires forall x :: 0 <= x < |sigma| ==> sigma[x] < |p.ops|
    ensures UseOk(Renamed(p, live, sigma), z, y)
    ensures DefPoint(Renamed(p, live, sigma).ops, y) == DefPoint(p.ops, y)
  {
    RenamedPlaced(p, live, sigma);
    SameDefs(p, live, sigma, y);
  }

  lemma PlacedIsLive(p: Program, live: seq<BlockId>, b: BlockId, j: nat)
    requires LiveExact(p.ops, p.code, live) && Placed(p)
    requires LiveBlock(p.ops, p.code, b) && b < |p.code| && j < |p.code[b]|
    ensures b in live && OpLive(p, live, p.code[b][j])
  {
    assert PlacedAt(p, b, j);
  }

  lemma RenamedInputs(p: Program, live: seq<BlockId>, sigma: Subst, b: BlockId, j: nat)
    requires LiveExact(p.ops, p.code, live)
    requires StrictSsa(p) && Earlier(p, sigma) && LiveBlock(p.ops, p.code, b) && b < |p.code| && j < |p.code[b]|
    requires forall x :: 0 <= x < |sigma| ==> sigma[x] < |p.ops|
    ensures InputsOk(Renamed(p, live, sigma), b, j)
  {
    var z, v := Point(b, j + 1), p.code[b][j];
    PlacedIsLive(p, live, b, j);
    var ins, q := p.ops[v].ins, Renamed(p, live, sigma);
    assert InputsOk(p, b, j);
    forall k | 0 <= k < |ins| ensures InputOk(q, z, RenameIns(sigma, ins)[k]) {
      assert ins[k] in ins;
      assert InputOk(p, z, ins[k]);
      RenamedInput(p, live, sigma, b, j, ins[k]);
    }
    assert q.ops[v].ins == RenameIns(sigma, ins);
  }

  lemma RenamedInput(p: Program, live: seq<BlockId>, sigma: Subst, b: BlockId, j: nat, x: OpId)
    requires LiveExact(p.ops, p.code, live)
    requires StrictSsa(p) && Earlier(p, sigma) && LiveBlock(p.ops, p.code, b) && b < |p.code| && j < |p.code[b]|
    requires forall x :: 0 <= x < |sigma| ==> sigma[x] < |p.ops|
    requires InputOk(p, Point(b, j + 1), x)
    ensures x < |sigma| && InputOk(Renamed(p, live, sigma), Point(b, j + 1), sigma[x])
  {
    PointReachable(p, b, j + 1);
    RenamedUse(p, sigma, Point(b, j + 1), x);
    UseCarries(p, live, sigma, Point(b, j + 1), sigma[x]);
  }

  lemma RenamedEdge(p: Program, live: seq<BlockId>, sigma: Subst, a: BlockId, b: BlockId, v: OpId)
    requires LiveExact(p.ops, p.code, live)
    requires StrictSsa(p) && Earlier(p, sigma) && LiveBlock(p.ops, p.code, a) && a < |p.code|
    requires b in Succ(p.ops, p.code, a) && b < |p.alts| && IsPhiOf(p, b, v)
    requires forall x :: 0 <= x < |sigma| ==> sigma[x] < |p.ops|
    ensures var x := PhiSource(p.alts[b], v, a);
            x < |sigma| && PhiSource(Renamed(p, live, sigma).alts[b], v, a) == sigma[x]
    ensures EdgeOk(Renamed(p, live, sigma), a, b, v)
  {
    assert EdgeOk(p, a, b, v);
    EdgeTargetLive(p, live, a, b);
    RenamedSource(sigma, p.alts[b], v, a);
    PointReachable(p, a, |p.code[a]|);
    var x := PhiSource(p.alts[b], v, a);
    RenamedUse(p, sigma, Point(a, |p.code[a]|), x);
    UseCarries(p, live, sigma, Point(a, |p.code[a]|), sigma[x]);
  }

  lemma EdgeTargetLive(p: Program, live: seq<BlockId>, a: BlockId, b: BlockId)
    requires LiveExact(p.ops, p.code, live)
    requires LiveBlock(p.ops, p.code, a) && b in Succ(p.ops, p.code, a)
    ensures b in live && LiveBlock(p.ops, p.code, b)
  {
    assert (a, b) in BlockGraph(p.ops, p.code).edges;
    ReachableStep(BlockGraph(p.ops, p.code), a, b);
    assert LiveBlock(p.ops, p.code, b);
  }

  /** The renamed program computes the same values and has the same effects on every run. */
  lemma {:induction false} RenamedSame(p: Program, live: seq<BlockId>, sem: Semantics, st: State, sigma: Subst, r: seq<Point>)
    requires LiveExact(p.ops, p.code, live)
    requires StrictSsa(p) && Earlier(p, sigma) && |st.env| == |p.ops| && Justified(p, sem, st, sigma)
    requires forall x :: 0 <= x < |sigma| ==> sigma[x] < |p.ops|
    requires IsRun(Points(p), r)
    ensures Placed(Renamed(p, live, sigma)) && IsRun(Points(Renamed(p, live, sigma)), r)
    ensures Exec(Renamed(p, live, sigma), sem, st, r) == Exec(p, sem, st, r)
    decreases |r|
  {
    var q := Renamed(p, live, sigma);
    RenamedPlaced(p, live, sigma);
    if |r| > 1 {
      assert IsRun(Points(p), r[..|r| - 1]);
      RenamedSame(p, live, sem, st, sigma, r[..|r| - 1]);
    }
    RenamedStep(p, live, sem, st, sigma, r, Before(p, sem, st, r));
  }

  lemma RenamedStep(p: Program, live: seq<BlockId>, sem: Semantics, st: State, sigma: Subst, r: seq<Point>, s: State)
    requires LiveExact(p.ops, p.code, live)
    requires StrictSsa(p) && Earlier(p, sigma) && |st.env| == |p.ops| && Justified(p, sem, st, sigma)
    requires forall x :: 0 <= x < |sigma| ==> sigma[x] < |p.ops|
    requires IsRun(Points(p), r) && s == Before(p, sem, st, r)
    requires Placed(Renamed(p, live, sigma)) && IsRun(Points(Renamed(p, live, sigma)), r)
    ensures StepAt(Renamed(p, live, sigma), sem, r, s) == StepAt(p, sem, r, s)
  {
    var q, z := Renamed(p, live, sigma), r[|r| - 1];
    PointLive(p.ops, p.code, r);
    if z.i > 0 {
      assert PlacedAt(p, z.b, z.i - 1);
      RenamedArgs(p, sem, st, sigma, r);
    } else if |r| > 1 {
      RenamedPhis(p, live, sem, st, sigma, r);
    }
  }

  /** Every op reads the same operand values in both programs. */
  lemma RenamedArgs(p: Program, sem: Semantics, st: State, sigma: Subst, r: seq<Point>)
    requires StrictSsa(p) && Earlier(p, sigma) && |st.env| == |p.ops| && Justified(p, sem, st, sigma)
    requires IsRun(Points(p), r) && r[|r| - 1].i > 0
    ensures var z := r[|r| - 1];
            && z.b < |p.code| && z.i - 1 < |p.code[z.b]| && p.code[z.b][z.i - 1] < |p.ops|
            && var op := p.ops[p.code[z.b][z.i - 1]];
               (forall k :: 0 <= k < |op.ins| ==> op.ins[k] < |p.ops| && RenameIns(sigma, op.ins)[k] < |p.ops|)
               && Args(Before(p, sem, st, r).env, RenameIns(sigma, op.ins)) == Args(Before(p, sem, st, r).env, op.ins)
  {
    var z := r[|r| - 1];
    ReachedUse(p, r);
    RunReaches(p, r);
    var op := p.ops[p.code[z.b][z.i - 1]];
    var env := Before(p, sem, st, r).env;
    forall k | 0 <= k < |op.ins|
      ensures op.ins[k] < |p.ops| && sigma[op.ins[k]] < |p.ops| && env[sigma[op.ins[k]]] == env[op.ins[k]]
    {
      var x := op.ins[k];
      assert x in op.ins && InputOk(p, z, x);
      RenamedUse(p, sigma, z, x);
      if sigma[x] != x {
        assert Replaced(p, sigma, x);
        StepBack(p, r, DefPoint(p.ops, x));
        AgreeAlongRun(p, sem, st, sigma, r[..|r| - 1]);
      }
    }
  }

  /** Every phi takes the same value in both programs. */
  lemma RenamedPhis(p: Program, live: seq<BlockId>, sem: Semantics, st: State, sigma: Subst, r: seq<Point>)
    requires LiveExact(p.ops, p.code, live)
    requires StrictSsa(p) && Earlier(p, sigma) && |st.env| == |p.ops| && Justified(p, sem, st, sigma)
    requires forall x :: 0 <= x < |sigma| ==> sigma[x] < |p.ops|
    requires IsRun(Points(p), r) && r[|r| - 1].i == 0 && |r| > 1
    ensures r[|r| - 1].b < |p.alts|
    ensures var env := Before(p, sem, st, r).env;
            TakePhis(Renamed(p, live, sigma), r[|r| - 2].b, r[|r| - 1].b, env) == TakePhis(p, r[|r| - 2].b, r[|r| - 1].b, env)
  {
    var q, n := Renamed(p, live, sigma), |r| - 1;
    var z, e := r[n], r[n - 1];
    PointLive(p.ops, p.code, r);
    assert (r[n - 1], r[n - 1 + 1]) in Points(p).edges;
    assert IsRun(Points(p), r[..n]);
    PointLive(p.ops, p.code, r[..n]);
    AgreeAlongRun(p, sem, st, sigma, r[..n]);
    var env := Before(p, sem, st, r).env;
    forall v | 0 <= v < |env| && IsPhiOf(p, z.b, v)
      ensures PhiSource(p.alts[z.b], v, e.b) < |env|
      ensures PhiSource(q.alts[z.b], v, e.b) < |env|
      ensures env[PhiSource(q.alts[z.b], v, e.b)] == env[PhiSource(p.alts[z.b], v, e.b)]
    {
      assert EdgeOk(p, e.b, z.b, v);
      RenamedEdge(p, live, sigma, e.b, z.b, v);
      var x := PhiSource(p.alts[z.b], v, e.b);
      if sigma[x] != x {
        assert Replaced(p, sigma, x);
      }
    }
    assert forall v :: IsPhiOf(q, z.b, v) <==> IsPhiOf(p, z.b, v);
  }
}
