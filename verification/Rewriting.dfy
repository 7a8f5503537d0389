/** Editing integer ops in place: when changing an op and operands that only it can see leaves
    everything else alone. */
module Rewriting {
  import opened Digraph
  import opened Ir
  import opened Words
  import opened Cfg
  import opened Ssa
  import opened Renaming
  import Liveness

  /** An integer op, with or without an immediate. */
  predicate IsInt(op: Op) {
    (op.opcode.Bin? && |op.ins| == 2) || (op.opcode.BinI? && |op.ins| == 1)
  }

  function At(env: seq<Word>, v: OpId): Word {
    if v < |env| then env[v] else 0
  }

  /** The value of an integer op under some arithmetic. */
  function IntValue(ev: Arith, op: Op, env: seq<Word>): Word {
    match op.opcode
    case Bin(f) => if |op.ins| == 2 then ev(f, At(env, op.ins[0]), At(env, op.ins[1])) else 0
    case BinI(f) => if |op.ins| == 1 then ev(f, At(env, op.ins[0]), op.imm) else 0
    case _ => 0
  }

  /** The op is at its place in a live block. */
  ghost predicate InCode(p: Program, v: OpId) {
    && v < |p.ops| && p.ops[v].block < |p.code| && LiveBlock(p.ops, p.code, p.ops[v].block)
    && p.ops[v].pos < |p.code[p.ops[v].block]| && p.code[p.ops[v].block][p.ops[v].pos] == v
  }

  /** q is p with integer ops x and hidden edited in place. */
  ghost predicate Edited(p: Program, q: Program, x: OpId, hidden: set<OpId>) {
    && q.code == p.code && q.alts == p.alts && |q.ops| == |p.ops| && x !in hidden
    && (x < |p.ops| && InCode(p, x) && forall c :: c in hidden ==> c < |p.ops| && InCode(p, c))
    && forall v :: 0 <= v < |p.ops| ==>
         if v == x || v in hidden
         then IsInt(p.ops[v]) && IsInt(q.ops[v]) && q.ops[v] == p.ops[v].(opcode := q.ops[v].opcode, ins := q.ops[v].ins, imm := q.ops[v].imm)
         else q.ops[v] == p.ops[v]
  }

  /** Hidden ops are operands of each other and of x only. */
  ghost predicate Private(p: Program, x: OpId, hidden: set<OpId>) {
    && (forall y: OpId, c: OpId :: InCode(p, y) && c in hidden && c in p.ops[y].ins ==> y == x || y in hidden)
    && (forall b: BlockId, a: PhiAlt :: LiveBlock(p.ops, p.code, b) && b < |p.alts| && a in p.alts[b] ==> a.val !in hidden)
  }

  ghost predicate Satisfies(ev: Arith, p: Program, known: set<OpId>, env: seq<Word>) {
    forall s :: s in known && s < |p.ops| ==> At(env, s) == IntValue(ev, p.ops[s], env)
  }

  /** Whatever values the other ops have, x keeps its own, given that the known ops hold what
      they compute in either program. */
  ghost predicate ValueKept(ev: Arith, p: Program, q: Program, x: OpId, hidden: set<OpId>, known: set<OpId>)
    requires x < |p.ops| && x < |q.ops|
  {
    forall e: seq<Word>, f: seq<Word> ::
      |e| == |f| == |p.ops| && (forall v :: 0 <= v < |e| && v !in hidden ==> e[v] == f[v])
      && Satisfies(ev, p, known, e) && Satisfies(ev, q, known, f)
      ==> IntValue(ev, q.ops[x], f) == IntValue(ev, p.ops[x], e)
  }

  /** Integer ops that are defined strictly before x. */
  ghost predicate Known(p: Program, x: OpId, known: set<OpId>)
    requires x < |p.ops|
  {
    forall s :: s in known ==>
      s < |p.ops| && IsInt(p.ops[s]) && InputOk(p, DefPoint(p.ops, x), s)
  }

  // ---- the shape of the edited program --------------------------------------------------

  lemma EditedGraphs(p: Program, q: Program, x: OpId, hidden: set<OpId>)
    requires Edited(p, q, x, hidden)
    ensures BlockGraph(q.ops, q.code) == BlockGraph(p.ops, p.code) && Points(q) == Points(p)
    ensures forall b :: Succ(q.ops, q.code, b) == Succ(p.ops, p.code, b)
    ensures forall b :: LiveBlock(q.ops, q.code, b) <==> LiveBlock(p.ops, p.code, b)
    ensures forall v :: 0 <= v < |p.ops| ==> DefPoint(q.ops, v) == DefPoint(p.ops, v)
    ensures forall v :: Defined(q, v) <==> Defined(p, v)
    ensures forall v :: InCode(q, v) <==> InCode(p, v)
  {
    SameGraphs(p.ops, q.ops, p.code);
  }

  lemma InputCarries(p: Program, q: Program, x: OpId, hidden: set<OpId>)
    requires Edited(p, q, x, hidden)
    ensures forall z, u :: UseOk(q, z, u) <==> UseOk(p, z, u)
    ensures forall z, u :: InputOk(q, z, u) <==> InputOk(p, z, u)
  {
    EditedGraphs(p, q, x, hidden);
    forall z, u ensures UseOk(q, z, u) <==> UseOk(p, z, u) {
      assert Defined(q, u) <==> Defined(p, u);
    }
    forall z, u ensures InputOk(q, z, u) <==> InputOk(p, z, u) {
      assert UseOk(q, z, u) <==> UseOk(p, z, u);
    }
  }

  /** New operands are defined strictly before the op that uses them. */
  ghost predicate NewInputsOk(p: Program, q: Program, x: OpId, hidden: set<OpId>) {
    forall v: OpId, u: OpId :: v < |p.ops| && v < |q.ops| && (v == x || v in hidden) && u in q.ops[v].ins ==>
      InputOk(p, DefPoint(p.ops, v), u)
  }

  lemma EditedPlaced(p: Program, q: Program, x: OpId, hidden: set<OpId>)
    requires Placed(p) && Edited(p, q, x, hidden) && NewInputsOk(p, q, x, hidden)
    ensures Placed(q)
  {
    EditedGraphs(p, q, x, hidden);
    forall b: BlockId | LiveBlock(q.ops, q.code, b) ensures EndsOk(q.ops, q.code, b) {
      assert LiveBlock(p.ops, p.code, b) && EndsOk(p.ops, p.code, b);
    }
    forall b: BlockId, j: nat | LiveBlock(q.ops, q.code, b) && b < |q.code| && j < |q.code[b]| ensures PlacedAt(q, b, j) {
      assert PlacedAt(p, b, j);
      var v := p.code[b][j];
      if v == x || v in hidden {
        forall k | 0 <= k < |q.ops[v].ins| ensures q.ops[v].ins[k] < |q.ops| {
          assert InputOk(p, DefPoint(p.ops, v), q.ops[v].ins[k]);
        }
      }
    }
  }

  lemma EditedStrict(p: Program, q: Program, x: OpId, hidden: set<OpId>)
    requires StrictSsa(p) && Edited(p, q, x, hidden) && NewInputsOk(p, q, x, hidden)
    ensures StrictSsa(q)
  {
    EditedPlaced(p, q, x, hidden);
    EditedGraphs(p, q, x, hidden);
    InputCarries(p, q, x, hidden);
    forall b: BlockId, j: nat | LiveBlock(q.ops, q.code, b) && b < |q.code| && j < |q.code[b]| ensures InputsOk(q, b, j) {
      assert PlacedAt(p, b, j) && InputsOk(p, b, j);
      var v := p.code[b][j];
      forall u | u in q.ops[v].ins ensures InputOk(q, Point(b, j + 1), u) {
        if v == x || v in hidden {
          assert InputOk(p, DefPoint(p.ops, v), u);
        }
      }
    }
    forall a: BlockId, b: BlockId, v: OpId |
      LiveBlock(q.ops, q.code, a) && a < |q.code| && b in Succ(q.ops, q.code, a) && b < |q.alts| && IsPhiOf(q, b, v)
      ensures EdgeOk(q, a, b, v)
    {
      assert LiveBlock(p.ops, p.code, a) && IsPhiOf(p, b, v) && b in Succ(p.ops, p.code, a);
      assert EdgeOk(p, a, b, v);
    }
  }

  // ---- what a run sees --------------------------------------------------------------------

  ghost predicate SameButHidden(s: State, s': State, hidden: set<OpId>) {
    && s'.world == s.world && |s'.env| == |s.env|
    && forall v :: 0 <= v < |s.env| && v !in hidden ==> s'.env[v] == s.env[v]
  }

  /** On every run the edited program has the same effects and gives every op that is not
      hidden the same value. */
  lemma {:induction false} EditedSame(p: Program, q: Program, x: OpId, hidden: set<OpId>, known: set<OpId>,
                                      sem: Semantics, st: State, r: seq<Point>)
    requires StrictSsa(p) && StrictSsa(q) && Edited(p, q, x, hidden) && Private(p, x, hidden)
    requires Known(p, x, known) && ValueKept(IntEval, p, q, x, hidden, known) && Known(q, x, known)
    requires Points(q) == Points(p) && IsRun(Points(p), r) && |st.env| == |p.ops|
    ensures SameButHidden(Exec(p, sem, st, r), Exec(q, sem, st, r), hidden)
    decreases |r|
  {
    if |r| > 1 {
      assert IsRun(Points(p), r[..|r| - 1]);
      EditedSame(p, q, x, hidden, known, sem, st, r[..|r| - 1]);
    }
    PointLive(p.ops, p.code, r);
    var z := r[|r| - 1];
    if z.i == 0 {
      if |r| > 1 {
        SamePhis(p, q, x, hidden, sem, st, r);
      }
    } else {
      assert PlacedAt(p, z.b, z.i - 1);
      var v := p.code[z.b][z.i - 1];
      if v == x {
        SameValue(p, q, x, hidden, known, sem, st, r);
      } else if v !in hidden {
        SameArgs(p, x, hidden, r, Before(p, sem, st, r), Before(q, sem, st, r));
      }
    }
  }

  lemma SameArgs(p: Program, x: OpId, hidden: set<OpId>, r: seq<Point>, s: State, s': State)
    requires StrictSsa(p) && Private(p, x, hidden) && IsRun(Points(p), r) && r[|r| - 1].i > 0
    requires SameButHidden(s, s', hidden) && |s.env| == |p.ops|
    ensures var z := r[|r| - 1];
            && z.b < |p.code| && z.i - 1 < |p.code[z.b]| && PlacedAt(p, z.b, z.i - 1)
            && var v := p.code[z.b][z.i - 1];
               v != x && v !in hidden ==> Args(s'.env, p.ops[v].ins) == Args(s.env, p.ops[v].ins)
  {
    var z := r[|r| - 1];
    PointLive(p.ops, p.code, r);
    assert PlacedAt(p, z.b, z.i - 1);
    var v := p.code[z.b][z.i - 1];
    if v != x && v !in hidden {
      assert InCode(p, v);
      forall k | 0 <= k < |p.ops[v].ins| ensures s'.env[p.ops[v].ins[k]] == s.env[p.ops[v].ins[k]] {
        assert p.ops[v].ins[k] in p.ops[v].ins;
      }
    }
  }

  lemma SamePhis(p: Program, q: Program, x: OpId, hidden: set<OpId>, sem: Semantics, st: State, r: seq<Point>)
    requires StrictSsa(p) && StrictSsa(q) && Edited(p, q, x, hidden) && Private(p, x, hidden)
    requires Points(q) == Points(p) && IsRun(Points(p), r) && |st.env| == |p.ops| && |r| > 1 && r[|r| - 1].i == 0
    requires SameButHidden(Before(p, sem, st, r), Before(q, sem, st, r), hidden)
    ensures SameButHidden(Exec(p, sem, st, r), Exec(q, sem, st, r), hidden)
  {
    var n := |r| - 1;
    var e, z := r[n - 1], r[n];
    PointLive(p.ops, p.code, r);
    assert (r[n - 1], r[n - 1 + 1]) in Points(p).edges;
    assert IsRun(Points(p), r[..n]);
    PointLive(p.ops, p.code, r[..n]);
    forall v | 0 <= v < |p.ops| && IsPhiOf(p, z.b, v) ensures PhiSource(p.alts[z.b], v, e.b) !in hidden {
      assert EdgeOk(p, e.b, z.b, v);
    }
    PhisAgree(p, q, x, hidden, e.b, z.b, Before(p, sem, st, r).env, Before(q, sem, st, r).env);
  }

  lemma PhisAgree(p: Program, q: Program, x: OpId, hidden: set<OpId>, a: BlockId, b: BlockId, e: seq<Word>, f: seq<Word>)
    requires Edited(p, q, x, hidden) && b < |p.alts| && |e| == |f| == |p.ops|
    requires forall v :: 0 <= v < |e| && v !in hidden ==> f[v] == e[v]
    requires forall v :: 0 <= v < |p.ops| && IsPhiOf(p, b, v) ==> PhiSource(p.alts[b], v, a) !in hidden
    ensures forall v :: 0 <= v < |e| && v !in hidden ==> TakePhis(q, a, b, f)[v] == TakePhis(p, a, b, e)[v]
  {
    assert forall v :: 0 <= v < |p.ops| ==> (IsPhiOf(q, b, v) <==> IsPhiOf(p, b, v));
  }

  /** The known equations hold right before x is executed. */
  lemma KnownHold(p: Program, x: OpId, known: set<OpId>, sem: Semantics, st: State, r: seq<Point>)
    requires StrictSsa(p) && IsRun(Points(p), r) && |st.env| == |p.ops|
    requires x < |p.ops| && Known(p, x, known) && DefPoint(p.ops, x) == r[|r| - 1]
    ensures Satisfies(IntEval, p, known, Before(p, sem, st, r).env)
  {
    forall s | s in known && s < |p.ops|
      ensures At(Before(p, sem, st, r).env, s) == IntValue(IntEval, p.ops[s], Before(p, sem, st, r).env)
    {
      OneHolds(p, x, s, sem, st, r);
    }
  }

  lemma OneHolds(p: Program, x: OpId, s: OpId, sem: Semantics, st: State, r: seq<Point>)
    requires StrictSsa(p) && IsRun(Points(p), r) && |st.env| == |p.ops| && x < |p.ops| && s < |p.ops|
    requires IsInt(p.ops[s]) && InputOk(p, DefPoint(p.ops, x), s) && DefPoint(p.ops, x) == r[|r| - 1]
    ensures At(Before(p, sem, st, r).env, s) == IntValue(IntEval, p.ops[s], Before(p, sem, st, r).env)
  {
    StepBack(p, r, DefPoint(p.ops, s));
    EquationHolds(p, sem, st, r[..|r| - 1], s);
    EvalIsValue(sem, p.ops[s], Before(p, sem, st, r).env);
  }

  lemma EvalIsValue(sem: Semantics, op: Op, env: seq<Word>)
    requires IsInt(op) && forall k :: 0 <= k < |op.ins| ==> op.ins[k] < |env|
    ensures Functional(op.opcode) && Eval(sem, op.opcode, op.imm, Args(env, op.ins)) == IntValue(IntEval, op, env)
  {
  }

  lemma ApplyInt(sem: Semantics, op: Op, v: OpId, s: State)
    requires IsInt(op) && v < |s.env| && forall k :: 0 <= k < |op.ins| ==> op.ins[k] < |s.env|
    ensures Apply(sem, op.opcode, op.imm, Args(s.env, op.ins), v, s) == s.(env := s.env[v := IntValue(IntEval, op, s.env)])
  {
    EvalIsValue(sem, op, s.env);
  }

  lemma StepIsApply(p: Program, sem: Semantics, st: State, r: seq<Point>)
    requires StrictSsa(p) && IsRun(Points(p), r) && |st.env| == |p.ops| && r[|r| - 1].i > 0
    ensures var z := r[|r| - 1];
            && z.b < |p.code| && z.i - 1 < |p.code[z.b]| && PlacedAt(p, z.b, z.i - 1)
            && var v := p.code[z.b][z.i - 1];
               Exec(p, sem, st, r) ==
                 Apply(sem, p.ops[v].opcode, p.ops[v].imm, Args(Before(p, sem, st, r).env, p.ops[v].ins), v, Before(p, sem, st, r))
  {
    PointLive(p.ops, p.code, r);
  }

  /** Executing an integer op assigns its value and does nothing else. */
  lemma IntStep(p: Program, x: OpId, sem: Semantics, st: State, r: seq<Point>)
    requires StrictSsa(p) && IsRun(Points(p), r) && |st.env| == |p.ops|
    requires x < |p.ops| && IsInt(p.ops[x]) && InCode(p, x) && DefPoint(p.ops, x) == r[|r| - 1]
    ensures Exec(p, sem, st, r) ==
              Before(p, sem, st, r).(env := Before(p, sem, st, r).env[x := IntValue(IntEval, p.ops[x], Before(p, sem, st, r).env)])
  {
    StepIsApply(p, sem, st, r);
    ApplyInt(sem, p.ops[x], x, Before(p, sem, st, r));
  }

  lemma SameValue(p: Program, q: Program, x: OpId, hidden: set<OpId>, known: set<OpId>,
                  sem: Semantics, st: State, r: seq<Point>)
    requires StrictSsa(p) && StrictSsa(q) && Edited(p, q, x, hidden)
    requires Known(p, x, known) && ValueKept(IntEval, p, q, x, hidden, known) && Known(q, x, known)
    requires Points(q) == Points(p) && IsRun(Points(p), r) && |st.env| == |p.ops|
    requires DefPoint(p.ops, x) == r[|r| - 1]
    requires SameButHidden(Before(p, sem, st, r), Before(q, sem, st, r), hidden)
    ensures SameButHidden(Exec(p, sem, st, r), Exec(q, sem, st, r), hidden)
  {
    EditedGraphs(p, q, x, hidden);
    KnownHold(p, x, known, sem, st, r);
    KnownHold(q, x, known, sem, st, r);
    IntStep(p, x, sem, st, r);
    IntStep(q, x, sem, st, r);
    var e, f := Before(p, sem, st, r).env, Before(q, sem, st, r).env;
    assert IntValue(IntEval, q.ops[x], f) == IntValue(IntEval, p.ops[x], e);
  }
}
