/** Code generation for structured statements (front/front-ast.h) through the builder. */
module CodeGen {
  import opened Digraph
  import opened Words
  import opened Ir
  import opened Ssa
  import opened Builder
  import opened Structured

  /** Failed: a jump found more variables than its label has phis, or no loop to leave.
      NoRoom: there are no numbers left for ops or blocks. */
  datatype Result = Done | NoRoom | Failed

  // ---- what is kept -------------------------------------------------------------------------

  /** All blocks have been ended but the current one and those that still wait in O. */
  ghost predicate OpenOk(pl: Plan, current: BlockId, O: set<BlockId>) {
    current !in O && forall b :: 0 <= b < |pl.body| ==> b == current || b in O || Ended(pl, b)
  }

  ghost predicate State(b: Builder, O: set<BlockId>)
    reads b
  {
    && b.Valid() && !Ended(b.plan, b.current) && OpenOk(b.plan, b.current, O)
    && (forall l :: l in O ==> l < |b.emitted| && !b.emitted[l]) && |b.prog.code| < NoVal
  }

  /** There is no number for a block or for n phis, or not for one more op. */
  ghost predicate Full(b: Builder, n: nat)
    reads b
  {
    |b.prog.ops| + n > NoVal || |b.prog.ops| >= NoVal || |b.prog.code| + 1 >= NoVal
  }

  /** Only block b has got longer, and new blocks may have been added. */
  ghost predicate Kept(pl: Plan, b: BlockId, ql: Plan) {
    && |pl.body| <= |ql.body| && b < |pl.body| && pl.body[b] <= ql.body[b] && pl.args <= ql.args
    && forall c :: 0 <= c < |pl.body| && c != b ==> ql.body[c] == pl.body[c]
  }

  lemma KeptGrows(pl: Plan, b: BlockId, ql: Plan)
    requires Kept(pl, b, ql)
    ensures Grows(pl, ql)
  {
  }

  lemma KeptOn(pl: Plan, c: BlockId, ql: Plan, d: BlockId, rl: Plan)
    requires Kept(pl, c, ql) && Kept(ql, d, rl) && (d == c || d >= |pl.body|)
    ensures Kept(pl, c, rl)
  {
  }

  lemma JumpKept(pl0: Plan, c0: BlockId, pl1: Plan, c1: BlockId, pl2: Plan, i: Instr)
    requires Kept(pl0, c0, pl1) && (c1 == c0 || c1 >= |pl0.body|) && c1 < |pl1.body|
    requires pl2.args == pl1.args && pl2.body == pl1.body[c1 := pl1.body[c1] + [i]]
    ensures Kept(pl0, c0, pl2) && Grows(pl1, pl2) && CallIs(pl2, c1, |pl1.body[c1]|, i)
  {
  }

  // ---- expressions --------------------------------------------------------------------------

  lemma AfterMore(pend: seq<nat>, c: nat, d: nat)
    ensures After(After(pend, c), d) == After(pend, c + d)
  {
  }

  /** One call has been made in block c, and nothing else has changed. */
  ghost predicate Wrote(pl: Plan, c: BlockId, i: Instr, ql: Plan) {
    c < |pl.body| && ql.args == pl.args && ql.body == pl.body[c := pl.body[c] + [i]]
  }

  lemma WroteCall(pl: Plan, c: BlockId, i: Instr, ql: Plan)
    requires Wrote(pl, c, i, ql)
    ensures CallIs(ql, c, |pl.body[c]|, i) && Grows(pl, ql) && Kept(pl, c, ql)
    ensures |ql.body[c]| == |pl.body[c]| + 1 && (i.Ends() ==> Ended(ql, c))
  {
  }

  /** The calls for ops have been made. */
  ghost predicate WroteOps(pl: Plan, c: BlockId, pend: seq<nat>, ops: seq<Calc>, ql: Plan) {
    && Kept(pl, c, ql) && |ql.body| == |pl.body| && ql.args == pl.args && |ql.body[c]| == |pl.body[c]| + |ops|
    && CallsAre(ql, Loc(c, |pl.body[c]|, pend), ops)
  }

  lemma WroteOne(pl: Plan, c: BlockId, pend: seq<nat>, op: Calc, ql: Plan)
    requires Wrote(pl, c, Emits(pend, op), ql)
    ensures WroteOps(pl, c, pend, [op], ql)
  {
  }

  lemma WroteBoth(pl: Plan, c: BlockId, pend: seq<nat>, a: seq<Calc>, ql: Plan, b: seq<Calc>, rl: Plan)
    requires WroteOps(pl, c, pend, a, ql) && WroteOps(ql, c, After(pend, |a|), b, rl)
    ensures WroteOps(pl, c, pend, a + b, rl)
  {
    var k := |pl.body[c]|;
    forall i: nat | i < |a + b| ensures CallIs(rl, c, k + i, Emits(After(pend, i), (a + b)[i])) {
      if i < |a| {
        assert CallIs(ql, c, k + i, Emits(After(pend, i), a[i]));
      } else {
        AfterMore(pend, |a|, i - |a|);
        assert CallIs(rl, c, k + |a| + (i - |a|), Emits(After(After(pend, |a|), i - |a|), b[i - |a|]));
      }
    }
  }

  method GenCalc(b: Builder, pend: seq<nat>, c: Calc, ghost O: set<BlockId>) returns (ok: bool)
    requires State(b, O) && Within(pend, |b.env|) && CalcOk(c, |pend|)
    modifies b
    ensures ok ==> State(b, O) && b.current == old(b.current) && b.args == old(b.args)
    ensures ok ==> Wrote(old(b.plan), b.current, Emits(pend, c), b.plan)
    ensures ok ==> |b.env| == |pend| + if c.opcode.HasOutput() then 1 else 0
    ensures !ok ==> Full(b, 0)
  {
    if |b.prog.ops| >= NoVal { return false; }
    b.EmitOp(pend, c.opcode, c.imm, c.slots);
    return true;
  }

  ghost predicate WroteExpr(pl: Plan, b: BlockId, pend: seq<nat>, e: Expr, c: nat, slot: nat, ql: Plan) {
    var (ops, k) := Flat(e, |pend|);
    |ops| == c && k == slot && WroteOps(pl, b, pend, ops, ql)
  }

  ghost predicate WroteArgs(pl: Plan, b: BlockId, pend: seq<nat>, es: Exprs, c: nat, slots: seq<nat>, ql: Plan) {
    var (ops, ks) := FlatArgs(es, |pend|);
    |ops| == c && ks == slots && WroteOps(pl, b, pend, ops, ql)
  }

  lemma WroteThen(pl: Plan, b: BlockId, pend: seq<nat>, e: Expr, rest: Exprs, c: nat, slot: nat, ql: Plan, more: nat, slots: seq<nat>, rl: Plan)
    requires WroteExpr(pl, b, pend, e, c, slot, ql) && WroteArgs(ql, b, After(pend, c), rest, more, slots, rl)
    ensures WroteArgs(pl, b, pend, Then(e, rest), c + more, [slot] + slots, rl)
  {
    WroteBoth(pl, b, pend, Flat(e, |pend|).0, ql, FlatArgs(rest, |pend| + c).0, rl);
  }

  lemma WroteApp(pl: Plan, b: BlockId, pend: seq<nat>, e: Expr, c: nat, slots: seq<nat>, ql: Plan, rl: Plan)
    requires e.App? && WroteArgs(pl, b, pend, e.args, c, slots, ql)
    requires Wrote(ql, b, Emits(After(pend, c), Calc(e.opcode, e.imm, slots)), rl)
    ensures WroteExpr(pl, b, pend, e, c + 1, |pend| + c, rl)
  {
    var op := Calc(e.opcode, e.imm, slots);
    WroteOne(ql, b, After(pend, c), op, rl);
    WroteBoth(pl, b, pend, FlatArgs(e.args, |pend|).0, ql, [op], rl);
  }

  lemma WroteNothing(pl: Plan, b: BlockId, pend: seq<nat>)
    requires b < |pl.body|
    ensures WroteArgs(pl, b, pend, Nil, 0, [], pl) && forall k :: WroteExpr(pl, b, pend, Var(k), 0, k, pl)
  {
    assert WroteOps(pl, b, pend, [], pl);
  }

  lemma SlotsFit(pl: Plan, b: BlockId, pend: seq<nat>, es: Exprs, k: nat, c: nat, slots: seq<nat>, ql: Plan)
    requires WroteArgs(pl, b, pend, es, c, slots, ql) && ArgsOk(es, k) && k <= |pend|
    ensures Within(slots, |After(pend, c)|)
  {
    FlatArgsOk(es, k, |pend|);
  }

  /** env after c ops that have values. */
  ghost predicate Room(pend: seq<nat>, c: nat, n: nat) {
    if c == 0 then Within(pend, n) else |pend| + c <= n
  }

  lemma RoomFits(pend: seq<nat>, c: nat, n: nat)
    requires Room(pend, c, n)
    ensures Within(After(pend, c), n)
  {
  }

  lemma RoomMore(pend: seq<nat>, c: nat, d: nat, n: nat)
    requires Room(After(pend, c), d, n)
    ensures Room(pend, c + d, n)
  {
    if c > 0 && d == 0 {
      assert After(pend, c)[|pend| + c - 1] == |pend| + c - 1;
    }
  }

  /** The ops of an expression, operands first: how many, and the entry that is its value. */
  method GenExpr(b: Builder, e: Expr, k: nat, pend: seq<nat>, ghost O: set<BlockId>) returns (ok: bool, c: nat, slot: nat)
    requires State(b, O) && Within(pend, |b.env|) && ExprOk(e, k) && k <= |pend|
    modifies b
    ensures ok ==> State(b, O) && b.current == old(b.current) && b.args == old(b.args)
    ensures ok ==> WroteExpr(old(b.plan), b.current, pend, e, c, slot, b.plan)
    ensures ok ==> Within(Base(pend, c), |b.env|) && (HasValue(e) ==> slot < |pend| + c && Room(pend, c, |b.env|))
    ensures !ok ==> Full(b, 0)
    decreases e
  {
    match e
    case Var(i) =>
      WroteNothing(b.plan, b.current, pend);
      return true, 0, i;
    case App(opcode, imm, args) =>
      var slots;
      ghost var pl0 := b.plan;
      ok, c, slots := GenArgs(b, args, k, pend, O);
      if !ok { return false, 0, 0; }
      ghost var pl1 := b.plan;
      SlotsFit(pl0, b.current, pend, args, k, c, slots, pl1);
      RoomFits(pend, c, |b.env|);
      ok := GenCalc(b, After(pend, c), Calc(opcode, imm, slots), O);
      if !ok { return false, 0, 0; }
      WroteApp(pl0, b.current, pend, e, c, slots, pl1, b.plan);
      return true, c + 1, |pend| + c;
  }

  method GenArgs(b: Builder, es: Exprs, k: nat, pend: seq<nat>, ghost O: set<BlockId>) returns (ok: bool, c: nat, slots: seq<nat>)
    requires State(b, O) && Within(pend, |b.env|) && ArgsOk(es, k) && k <= |pend|
    modifies b
    ensures ok ==> State(b, O) && b.current == old(b.current) && b.args == old(b.args)
    ensures ok ==> WroteArgs(old(b.plan), b.current, pend, es, c, slots, b.plan) && Room(pend, c, |b.env|)
    ensures !ok ==> Full(b, 0)
    decreases es
  {
    match es
    case Nil =>
      WroteNothing(b.plan, b.current, pend);
      return true, 0, [];
    case Then(e, rest) =>
      ghost var pl0 := b.plan;
      var slot, more;
      ok, c, slot := GenExpr(b, e, k, pend, O);
      if !ok { return false, 0, []; }
      ghost var pl1 := b.plan;
      RoomFits(pend, c, |b.env|);
      ok, more, slots := GenArgs(b, rest, k, After(pend, c), O);
      if !ok { return false, 0, []; }
      WroteThen(pl0, b.current, pend, e, rest, c, slot, pl1, more, slots, b.plan);
      RoomMore(pend, c, more, |b.env|);
      return true, c + more, [slot] + slots;
  }

  lemma ExprDone(pl: Plan, b: BlockId, pend: seq<nat>, e: Expr, c: nat, slot: nat, ql: Plan)
    requires WroteExpr(pl, b, pend, e, c, slot, ql) && ExprOk(e, |pend|)
    ensures var x := Loc(b, |pl.body[b]|, pend); Computes(ql, x, e) && Beyond(x, e) == Loc(b, |ql.body[b]|, Base(pend, c))
    ensures HasValue(e) ==> slot < |After(pend, c)| && After(pend, c)[slot] == ValueSlot(e, pend)
    ensures Kept(pl, b, ql)
  {
    FlatOk(e, |pend|, |pend|);
  }

  // ---- labels and jumps -----------------------------------------------------------------------

  method GenLabel(b: Builder, pre: seq<nat>, ghost O: set<BlockId>) returns (ok: bool, l: BlockId)
    requires State(b, O) && Within(pre, |b.env|)
    modifies b
    ensures ok ==> State(b, O + {l}) && b.current == old(b.current) && l == |old(b.args)| && l !in O
    ensures ok ==> b.args == old(b.args) + [b.args[l]] && |b.args[l]| == |pre| && b.env == old(b.env)
    ensures ok ==> b.plan.body == old(b.plan.body) + [[]]
    ensures !ok ==> Full(b, |pre|)
  {
    l := 0;
    if |b.prog.ops| + |pre| > NoVal || |b.prog.code| + 1 >= NoVal { return false, 0; }
    l := b.NewLabel(pre);
    return true, l;
  }

  /** End the current block with a branch and go on at one of the labels. */
  method GenBranch(b: Builder, pre: seq<nat>, slot: nat, l0: BlockId, l1: BlockId, next: BlockId, ghost O: set<BlockId>) returns (ok: bool)
    requires State(b, O) && Within(pre, |b.env|) && slot < |b.env| && next in O && l0 < |b.args| && l1 < |b.args|
    requires |b.args[l0]| == |b.args[l1]| == |pre|
    modifies b
    ensures ok ==> State(b, O - {next}) && b.current == next && b.args == old(b.args) && |b.env| == |b.args[next]|
    ensures ok ==> Wrote(old(b.plan), old(b.current), Branch(pre, slot, l0, l1), b.plan)
    ensures ok ==> next < |b.plan.body| && b.plan.body[next] == []
    ensures !ok ==> Full(b, 0)
  {
    if |b.prog.ops| >= NoVal { return false; }
    b.BranchZero(pre, slot, l0, l1);
    b.EmitLabel(next);
    return true;
  }

  /** End the current block with a jump and go on at some label. */
  method GenJump(b: Builder, pre: seq<nat>, l: BlockId, next: BlockId, ghost O: set<BlockId>) returns (ok: bool)
    requires State(b, O) && Within(pre, |b.env|) && next in O && l < |b.args| && |b.args[l]| == |pre|
    modifies b
    ensures ok ==> State(b, O - {next}) && b.current == next && b.args == old(b.args) && |b.env| == |b.args[next]|
    ensures ok ==> Wrote(old(b.plan), old(b.current), Goto(pre, l), b.plan)
    ensures ok ==> next < |b.plan.body| && b.plan.body[next] == []
    ensures !ok ==> Full(b, 0)
  {
    if |b.prog.ops| >= NoVal { return false; }
    b.Jmp(pre, l);
    b.EmitLabel(next);
    return true;
  }

  // ---- statements -------------------------------------------------------------------------------

  /** The labels of the loop around take n variables or fewer. */
  ghost predicate LoopOk(args: seq<seq<OpId>>, lp: Loop, n: nat) {
    lp.InLoop? ==> lp.onBreak < |args| && lp.onContinue < |args| && |args[lp.onBreak]| == |args[lp.onContinue]| == lp.n <= n
  }

  /** The code of s has been appended to block c, and it goes on in block d, the same or a new
      one; q says where the variables are. */
  ghost predicate HasCode(pl: Plan, c: BlockId, ql: Plan, d: BlockId, lp: Loop, s: Stmt, pend: seq<nat>, q: seq<nat>, tr: Trace) {
    && Kept(pl, c, ql) && (d == c || |pl.body| <= d) && d < |ql.body| && |q| == |pend| + Defines(s)
    && Compiled(ql, lp, s, tr, Loc(c, |pl.body[c]|, pend), Loc(d, |ql.body[d]|, q))
  }

  ghost predicate Generated(pl: Plan, c: BlockId, b: Builder, lp: Loop, s: Stmt, pend: seq<nat>, q: seq<nat>, tr: Trace, O: set<BlockId>)
    reads b
  {
    State(b, O) && Within(q, |b.env|) && HasCode(pl, c, b.plan, b.current, lp, s, pend, q, tr)
  }

  /** Code generation fails just if a jump does not fit its label; else the code of the
      statement has been appended, and q says where the variables are. */
  method Gen(b: Builder, lp: Loop, s: Stmt, pend: seq<nat>, ghost O: set<BlockId>) returns (r: Result, q: seq<nat>, ghost tr: Trace)
    requires State(b, O) && Within(pend, |b.env|) && Typed(s, |pend|) && LoopOk(b.args, lp, |pend|)
    modifies b
    ensures r == Done ==> Jumpable(s, lp.InLoop?) && Generated(old(b.plan), old(b.current), b, lp, s, pend, q, tr, O)
    ensures r == Failed ==> !Jumpable(s, lp.InLoop?)
    ensures r == NoRoom ==> Full(b, |pend| + Definitions(s))
    decreases s, 2
  {
    q, tr := pend, Plain;
    ghost var pl, c := b.plan, b.current;
    match s
    case Skip => r := Done;
    case Seq(_, _) => r, q, tr := GenSeq(b, lp, s, pend, O);
    case Scope(t) =>
      ghost var inner;
      r, q, inner := Gen(b, lp, t, pend, O);
      if r == Done {
        tr := Inner(inner, Loc(b.current, |b.plan.body[b.current]|, q));
        q := q[..|pend|];
        ScopeDone(pl, c, b.plan, b.current, lp, s, pend, tr);
      }
    case Define(_) => r, q := GenSimple(b, lp, s, pend, O);
    case Assign(_, _) => r, q := GenSimple(b, lp, s, pend, O);
    case Do(_) => r, q := GenSimple(b, lp, s, pend, O);
    case If(_, _, _) => r, q, tr := GenIf(b, lp, s, pend, O);
    case While(_, _) => r, q, tr := GenWhile(b, lp, s, pend, O);
    case Break => r, q, tr := GenExit(b, lp, s, pend, O);
    case Continue => r, q, tr := GenExit(b, lp, s, pend, O);
  }

  lemma ScopeDone(pl: Plan, c: BlockId, ql: Plan, d: BlockId, lp: Loop, s: Stmt, pend: seq<nat>, tr: Trace)
    requires s.Scope? && tr.Inner? && HasCode(pl, c, ql, d, lp, s.s, pend, tr.z.pend, tr.a)
    requires d < |ql.body| && tr.z.b == d && tr.z.k == |ql.body[d]|
    ensures HasCode(pl, c, ql, d, lp, s, pend, tr.z.pend[..|pend|], tr)
  {
  }

  /** Where the variables are after a statement that is an expression and no more. */
  function PendAfter(s: Stmt, pend: seq<nat>, c: nat, slot: nat): (q: seq<nat>)
    requires Typed(s, |pend|) && (s.Define? || s.Assign? ==> slot < |pend| + c)
  {
    var q := Base(pend, c);
    if s.Define? then q + [After(pend, c)[slot]]
    else if s.Assign? then q[s.k := After(pend, c)[slot]]
    else q
  }

  lemma SimpleDone(pl: Plan, b: BlockId, ql: Plan, lp: Loop, s: Stmt, pend: seq<nat>, c: nat, slot: nat)
    requires (s.Define? || s.Assign? || s.Do?) && Typed(s, |pend|) && WroteExpr(pl, b, pend, s.e, c, slot, ql)
    ensures s.Define? || s.Assign? ==> slot < |pend| + c
    ensures HasCode(pl, b, ql, b, lp, s, pend, PendAfter(s, pend, c, slot), Plain)
  {
    ExprDone(pl, b, pend, s.e, c, slot, ql);
  }

  lemma PendFits(s: Stmt, pend: seq<nat>, c: nat, slot: nat, n: nat)
    requires s.Define? || s.Assign? || s.Do?
    requires Typed(s, |pend|) && (s.Define? || s.Assign? ==> slot < |pend| + c && Room(pend, c, n)) && Within(Base(pend, c), n)
    ensures Within(PendAfter(s, pend, c, slot), n)
  {
  }

  method GenSimple(b: Builder, lp: Loop, s: Stmt, pend: seq<nat>, ghost O: set<BlockId>) returns (r: Result, q: seq<nat>)
    requires s.Define? || s.Assign? || s.Do?
    requires State(b, O) && Within(pend, |b.env|) && Typed(s, |pend|)
    modifies b
    ensures r != Failed
    ensures r == Done ==> Generated(old(b.plan), old(b.current), b, lp, s, pend, q, Plain, O)
    ensures r == NoRoom ==> Full(b, |pend| + Definitions(s))
  {
    ghost var pl0, c0 := b.plan, b.current;
    var ok, c, slot := GenExpr(b, s.e, |pend|, pend, O);
    if !ok { return NoRoom, pend; }
    SimpleDone(pl0, c0, b.plan, lp, s, pend, c, slot);
    PendFits(s, pend, c, slot, |b.env|);
    return Done, PendAfter(s, pend, c, slot);
  }

  method GenSeq(b: Builder, lp: Loop, s: Stmt, pend: seq<nat>, ghost O: set<BlockId>) returns (r: Result, q: seq<nat>, ghost tr: Trace)
    requires s.Seq? && State(b, O) && Within(pend, |b.env|) && Typed(s, |pend|) && LoopOk(b.args, lp, |pend|)
    modifies b
    ensures r == Done ==> Jumpable(s, lp.InLoop?) && Generated(old(b.plan), old(b.current), b, lp, s, pend, q, tr, O)
    ensures r == Failed ==> !Jumpable(s, lp.InLoop?)
    ensures r == NoRoom ==> Full(b, |pend| + Definitions(s))
    decreases s, 0
  {
    tr := Plain;
    ghost var pl0, c0 := b.plan, b.current;
    var mid;
    ghost var first, second;
    r, mid, first := Gen(b, lp, s.a, pend, O);
    q := mid;
    if r != Done { return; }
    ghost var pl1, c1, z := b.plan, b.current, Loc(b.current, |b.plan.body[b.current]|, mid);
    SecondFits(pl0, c0, pl1, c1, lp, s, pend, mid, first);
    r, q, second := Gen(b, lp, s.b, mid, O);
    if r != Done { return; }
    tr := Steps(first, z, second);
    SeqDone(pl0, c0, pl1, c1, b.plan, b.current, lp, s, pend, q, tr);
  }

  lemma SecondFits(pl: Plan, c: BlockId, ql: Plan, d: BlockId, lp: Loop, s: Stmt, pend: seq<nat>, mid: seq<nat>, tr: Trace)
    requires s.Seq? && HasCode(pl, c, ql, d, lp, s.a, pend, mid, tr) && Typed(s, |pend|) && LoopOk(pl.args, lp, |pend|)
    ensures Typed(s.b, |mid|) && LoopOk(ql.args, lp, |mid|)
  {
  }

  lemma SeqDone(pl: Plan, c: BlockId, ql: Plan, d: BlockId, rl: Plan, e: BlockId, lp: Loop, s: Stmt, pend: seq<nat>, q: seq<nat>, tr: Trace)
    requires s.Seq? && tr.Steps? && HasCode(pl, c, ql, d, lp, s.a, pend, tr.z.pend, tr.a) && HasCode(ql, d, rl, e, lp, s.b, tr.z.pend, q, tr.b)
    requires d < |ql.body| && tr.z.b == d && tr.z.k == |ql.body[d]|
    ensures HasCode(pl, c, rl, e, lp, s, pend, q, tr)
  {
    KeptOn(pl, c, ql, d, rl);
    KeptGrows(ql, d, rl);
    CompiledStays(ql, rl, lp, s.a, tr.a, Loc(c, |pl.body[c]|, pend), tr.z);
  }

  /** A jump out of the loop or to its test; what follows it gets a block of its own. */
  method GenExit(b: Builder, lp: Loop, s: Stmt, pend: seq<nat>, ghost O: set<BlockId>) returns (r: Result, q: seq<nat>, ghost tr: Trace)
    requires (s.Break? || s.Continue?) && State(b, O) && Within(pend, |b.env|) && LoopOk(b.args, lp, |pend|)
    modifies b
    ensures r == Done ==> lp.InLoop? && Generated(old(b.plan), old(b.current), b, lp, s, pend, q, tr, O)
    ensures r == Failed ==> lp.NoLoop?
    ensures r == NoRoom ==> Full(b, |pend| + Definitions(s))
  {
    ghost var pl0, c0 := b.plan, b.current;
    q, tr := Same(|pend|), Plain;
    var ok, l := GenLabel(b, pend, O);
    if !ok { return NoRoom, q, tr; }
    if lp.NoLoop? { return Failed, q, tr; }
    ghost var pl1 := b.plan;
    ok := GenJump(b, pend[..lp.n], if s.Break? then lp.onBreak else lp.onContinue, l, O + {l});
    if !ok { return NoRoom, q, tr; }
    assert O + {l} - {l} == O;
    tr := Onto(l);
    ExitDone(pl0, c0, pl1, b.plan, lp, s, pend, tr);
    return Done, q, tr;
  }

  lemma ExitDone(pl: Plan, c: BlockId, ql: Plan, rl: Plan, lp: Loop, s: Stmt, pend: seq<nat>, tr: Trace)
    requires (s.Break? || s.Continue?) && lp.InLoop? && tr.Onto? && lp.n <= |pend| && c < |pl.body|
    requires ql.body == pl.body + [[]] && pl.args <= ql.args && tr.l == |pl.body|
    requires Wrote(ql, c, Goto(pend[..lp.n], if s.Break? then lp.onBreak else lp.onContinue), rl)
    ensures HasCode(pl, c, rl, tr.l, lp, s, pend, Same(|pend|), tr)
  {
    assert Kept(pl, c, ql);
    WroteCall(ql, c, Goto(pend[..lp.n], if s.Break? then lp.onBreak else lp.onContinue), rl);
    KeptOn(pl, c, ql, c, rl);
  }

  /** The code of a part that has got the block l, and the jump out of it. */
  ghost predicate PartCode(pl: Plan, ql: Plan, lp: Loop, s: Stmt, tr: Trace, l: BlockId, n: nat, z: Loc, to: BlockId) {
    Kept(pl, l, ql) && Compiled(ql, lp, s, tr, Start(l, n), z) && Jumps(ql, z, n, to)
  }

  ghost predicate Resumed(b: Builder, next: BlockId, n: nat, O: set<BlockId>)
    reads b
  {
    State(b, O) && b.current == next && next < |b.plan.body| && b.plan.body[next] == [] && |b.env| == n
  }

  /** A part of a statement in a block of its own, and the jump out of it. Unless the newest
      variables are cut off, there must be none left. */
  method GenPart(b: Builder, lp: Loop, s: Stmt, n: nat, cut: bool, to: BlockId, next: BlockId, ghost O: set<BlockId>)
    returns (r: Result, ghost tr: Trace, ghost z: Loc)
    requires Resumed(b, b.current, n, O) && Typed(s, n) && LoopOk(b.args, lp, n)
    requires next in O && next < |b.args| && |b.args[next]| == n && to < |b.args| && |b.args[to]| == n
    modifies b
    ensures r == Done ==> Jumpable(s, lp.InLoop?) && (cut || Defines(s) == 0) && Resumed(b, next, n, O - {next})
    ensures r == Done ==> PartCode(old(b.plan), b.plan, lp, s, tr, old(b.current), n, z, to)
    ensures r == Failed ==> !Jumpable(s, lp.InLoop?) || (!cut && Defines(s) != 0)
    ensures r == NoRoom ==> Full(b, n + Definitions(s))
    decreases s, 4
  {
    ghost var pl0, c0 := b.plan, b.current;
    var q;
    r, q, tr, z := GenBody(b, lp, s, n, cut, O);
    if r != Done { return; }
    ghost var pl1 := b.plan;
    var ok := GenJump(b, q, to, next, O);
    if !ok { return NoRoom, tr, z; }
    PartDone(pl0, c0, pl1, b.plan, lp, s, tr, n, z, q, to);
  }

  method GenBody(b: Builder, lp: Loop, s: Stmt, n: nat, cut: bool, ghost O: set<BlockId>)
    returns (r: Result, q: seq<nat>, ghost tr: Trace, ghost z: Loc)
    requires Resumed(b, b.current, n, O) && Typed(s, n) && LoopOk(b.args, lp, n)
    modifies b
    ensures r == Done ==> Jumpable(s, lp.InLoop?) && (cut || Defines(s) == 0) && State(b, O) && Within(q, |b.env|) && |q| == n
    ensures r == Done ==> Unfinished(old(b.plan), old(b.current), b.plan, b.current, lp, s, tr, n, z, q)
    ensures r == Failed ==> !Jumpable(s, lp.InLoop?) || (!cut && Defines(s) != 0)
    ensures r == NoRoom ==> Full(b, n + Definitions(s))
    decreases s, 3
  {
    ghost var pl, c := b.plan, b.current;
    r, q, tr := Gen(b, lp, s, Same(n), O);
    z := Loc(0, 0, []);
    if r != Done { return; }
    z := Loc(b.current, |b.plan.body[b.current]|, q);
    BodyDone(pl, c, b.plan, b.current, lp, s, n, tr, z);
    if cut { q := q[..n]; }
    if |q| != n { r := Failed; }
  }

  lemma BodyDone(pl: Plan, c: BlockId, ql: Plan, d: BlockId, lp: Loop, s: Stmt, n: nat, tr: Trace, z: Loc)
    requires HasCode(pl, c, ql, d, lp, s, Same(n), z.pend, tr) && pl.body[c] == [] && d < |ql.body| && z.b == d && z.k == |ql.body[d]|
    ensures Unfinished(pl, c, ql, d, lp, s, tr, n, z, z.pend[..n])
  {
  }

  ghost predicate Unfinished(pl: Plan, c: BlockId, ql: Plan, d: BlockId, lp: Loop, s: Stmt, tr: Trace, n: nat, z: Loc, q: seq<nat>) {
    && Kept(pl, c, ql) && Compiled(ql, lp, s, tr, Start(c, n), z) && q == Cut(z.pend, n)
    && z.b == d && (d == c || |pl.body| <= d) && d < |ql.body| && z.k == |ql.body[d]|
  }

  lemma PartDone(pl: Plan, c: BlockId, ql: Plan, rl: Plan, lp: Loop, s: Stmt, tr: Trace, n: nat, z: Loc, q: seq<nat>, to: BlockId)
    requires Unfinished(pl, c, ql, z.b, lp, s, tr, n, z, q)
    requires Wrote(ql, z.b, Goto(q, to), rl)
    ensures PartCode(pl, rl, lp, s, tr, c, n, z, to)
  {
    JumpKept(pl, c, ql, z.b, rl, Goto(q, to));
    CompiledStays(ql, rl, lp, s, tr, Start(c, n), z);
  }

  /** A condition, new labels and the branch. */
  ghost predicate Tested(pl: Plan, c: BlockId, ql: Plan, pend: seq<nat>, e: Expr, l0: BlockId, l1: BlockId) {
    c < |pl.body| && Kept(pl, c, ql) && Tests(ql, Loc(c, |pl.body[c]|, pend), e, l0, l1)
  }

  lemma TestDone(pl: Plan, c: BlockId, ql: Plan, rl: Plan, pend: seq<nat>, e: Expr, count: nat, slot: nat, l0: BlockId, l1: BlockId)
    requires WroteExpr(pl, c, pend, e, count, slot, ql) && ValueOk(e, |pend|) && slot < |After(pend, count)|
    requires Kept(ql, c, rl) && rl.body[c] == ql.body[c] + [Branch(Base(pend, count), After(pend, count)[slot], l0, l1)]
    ensures Tested(pl, c, rl, pend, e, l0, l1)
  {
    ExprDone(pl, c, pend, e, count, slot, ql);
    KeptOn(pl, c, ql, c, rl);
    KeptGrows(ql, c, rl);
    ComputesStays(ql, rl, Loc(c, |pl.body[c]|, pend), e);
  }

  lemma TestsStay(pl: Plan, ql: Plan, x: Loc, e: Expr, l0: BlockId, l1: BlockId)
    requires Tests(pl, x, e, l0, l1) && Grows(pl, ql)
    ensures Tests(ql, x, e, l0, l1)
  {
    ComputesStays(pl, ql, x, e);
  }

  lemma PartStays(pl: Plan, ql: Plan, rl: Plan, lp: Loop, s: Stmt, tr: Trace, l: BlockId, n: nat, z: Loc, to: BlockId)
    requires PartCode(pl, ql, lp, s, tr, l, n, z, to) && Grows(ql, rl)
    ensures Compiled(rl, lp, s, tr, Start(l, n), z) && Jumps(rl, z, n, to)
  {
    CompiledStays(ql, rl, lp, s, tr, Start(l, n), z);
  }

  lemma IfDone(lp: Loop, s: Stmt, pl0: Plan, c0: BlockId, pend: seq<nat>, pl1: Plan, pl2: Plan, pl3: Plan, tr: Trace)
    requires s.If? && tr.Fork? && Tested(pl0, c0, pl1, pend, s.c, tr.le, tr.lt) && |pl0.body| <= tr.le && |pl0.body| <= tr.lt
    requires PartCode(pl1, pl2, lp, s.t, tr.t, tr.lt, |pend|, tr.zt, tr.ld) && PartCode(pl2, pl3, lp, s.f, tr.e, tr.le, |pend|, tr.ze, tr.ld)
    requires |pl0.body| <= tr.ld < |pl3.body| && pl3.body[tr.ld] == []
    ensures HasCode(pl0, c0, pl3, tr.ld, lp, s, pend, Same(|pend|), tr)
  {
    KeptOn(pl0, c0, pl1, tr.lt, pl2);
    KeptOn(pl0, c0, pl2, tr.le, pl3);
    KeptGrows(pl1, tr.lt, pl2);
    KeptGrows(pl2, tr.le, pl3);
    TestsStay(pl1, pl2, Loc(c0, |pl0.body[c0]|, pend), s.c, tr.le, tr.lt);
    TestsStay(pl2, pl3, Loc(c0, |pl0.body[c0]|, pend), s.c, tr.le, tr.lt);
    PartStays(pl1, pl2, pl3, lp, s.t, tr.t, tr.lt, |pend|, tr.zt, tr.ld);
  }

  method GenIf(b: Builder, lp: Loop, s: Stmt, pend: seq<nat>, ghost O: set<BlockId>) returns (r: Result, q: seq<nat>, ghost tr: Trace)
    requires s.If? && State(b, O) && Within(pend, |b.env|) && Typed(s, |pend|) && LoopOk(b.args, lp, |pend|)
    modifies b
    ensures r == Done ==> Jumpable(s, lp.InLoop?) && Generated(old(b.plan), old(b.current), b, lp, s, pend, q, tr, O)
    ensures r == Failed ==> !Jumpable(s, lp.InLoop?)
    ensures r == NoRoom ==> Full(b, |pend| + Definitions(s))
    decreases s, 1
  {
    var n := |pend|;
    q, tr := Same(n), Plain;
    ghost var pl0, c0 := b.plan, b.current;
    var ok, lt, le, ld := GenTest(b, s.c, pend, O);
    if !ok { return NoRoom, q, tr; }
    ghost var pl1 := b.plan;
    ghost var pl2, t, zt, e, ze;
    r, pl2, t, zt, e, ze := GenArms(b, lp, s, n, le, ld, O);
    if r != Done { return; }
    tr := Fork(lt, le, ld, t, zt, e, ze);
    IfDone(lp, s, pl0, c0, pend, pl1, pl2, b.plan, tr);
  }

  method GenTwoLabels(b: Builder, pre: seq<nat>, ghost O: set<BlockId>) returns (ok: bool, body: BlockId, ld: BlockId)
    requires State(b, O) && Within(pre, |b.env|)
    modifies b
    ensures ok ==> State(b, O + {body, ld}) && b.current == old(b.current) && O !! {body, ld} && b.env == old(b.env)
    ensures ok ==> body == |old(b.args)| && ld == body + 1 && |b.args| == ld + 1
    ensures ok ==> |b.args[body]| == |b.args[ld]| == |pre| && old(b.args) <= b.args
    ensures ok ==> b.plan.body == old(b.plan.body) + [[], []]
    ensures !ok ==> Full(b, |pre|)
  {
    body, ld := 0, 0;
    ok, body := GenLabel(b, pre, O);
    if !ok { return; }
    ok, ld := GenLabel(b, pre, O + {body});
    if !ok { return; }
    assert O + {body} + {ld} == O + {body, ld};
  }

  method GenLabels(b: Builder, pre: seq<nat>, ghost O: set<BlockId>) returns (ok: bool, lt: BlockId, le: BlockId, ld: BlockId)
    requires State(b, O) && Within(pre, |b.env|)
    modifies b
    ensures ok ==> State(b, O + {lt, le, ld}) && b.current == old(b.current) && O !! {lt, le, ld} && b.env == old(b.env)
    ensures ok ==> lt == |old(b.args)| && le == lt + 1 && ld == le + 1 && |b.args| == ld + 1
    ensures ok ==> |b.args[lt]| == |b.args[le]| == |b.args[ld]| == |pre| && old(b.args) <= b.args
    ensures ok ==> b.plan.body == old(b.plan.body) + [[], [], []]
    ensures !ok ==> Full(b, |pre|)
  {
    lt, le, ld := 0, 0, 0;
    ok, lt, le := GenTwoLabels(b, pre, O);
    if !ok { return; }
    ok, ld := GenLabel(b, pre, O + {lt, le});
    if !ok { return; }
    assert O + {lt, le} + {ld} == O + {lt, le, ld};
  }

  /** Both arms of an if, each in its block. */
  method GenArms(b: Builder, lp: Loop, s: Stmt, n: nat, le: BlockId, ld: BlockId, ghost O: set<BlockId>)
    returns (r: Result, ghost mid: Plan, ghost t: Trace, ghost zt: Loc, ghost e: Trace, ghost ze: Loc)
    requires s.If? && Resumed(b, b.current, n, O + {le, ld}) && Typed(s, n) && LoopOk(b.args, lp, n)
    requires le != ld && le < |b.args| && |b.args[le]| == n && ld < |b.args| && |b.args[ld]| == n && O !! {le, ld}
    modifies b
    ensures r == Done ==> Jumpable(s, lp.InLoop?) && Resumed(b, ld, n, O)
    ensures r == Done ==> PartCode(old(b.plan), mid, lp, s.t, t, old(b.current), n, zt, ld) && PartCode(mid, b.plan, lp, s.f, e, le, n, ze, ld)
    ensures r == Failed ==> !Jumpable(s, lp.InLoop?)
    ensures r == NoRoom ==> Full(b, n + Definitions(s))
    decreases s, 0
  {
    mid, e, ze := b.plan, Plain, Loc(0, 0, []);
    r, t, zt := GenPart(b, lp, s.t, n, true, ld, le, O + {le, ld});
    if r != Done { return; }
    mid := b.plan;
    assert O + {le, ld} - {le} == O + {ld};
    r, e, ze := GenPart(b, lp, s.f, n, false, ld, ld, O + {ld});
    if r != Done { return; }
    assert O + {ld} - {ld} == O;
  }

  method GenTest(b: Builder, e: Expr, pend: seq<nat>, ghost O: set<BlockId>)
    returns (ok: bool, lt: BlockId, le: BlockId, ld: BlockId)
    requires State(b, O) && Within(pend, |b.env|) && ValueOk(e, |pend|)
    modifies b
    ensures ok ==> Tested(old(b.plan), old(b.current), b.plan, pend, e, le, lt) && Resumed(b, lt, |pend|, O + {le, ld})
    ensures ok ==> lt == |old(b.args)| && le == lt + 1 && ld == le + 1 && |b.args| == ld + 1
    ensures ok ==> |b.args[lt]| == |b.args[le]| == |b.args[ld]| == |pend| && old(b.args) <= b.args && O !! {lt, le, ld}
    ensures !ok ==> Full(b, |pend|)
  {
    lt, le, ld := 0, 0, 0;
    ghost var pl0, c0 := b.plan, b.current;
    var c, slot;
    ok, c, slot := GenExpr(b, e, |pend|, pend, O);
    if !ok { return; }
    ghost var pl1 := b.plan;
    ok, lt, le, ld := GenLabels(b, Base(pend, c), O);
    if !ok { return; }
    ok := GenBranch(b, Base(pend, c), After(pend, c)[slot], le, lt, lt, O + {lt, le, ld});
    if !ok { return; }
    TestDone(pl0, c0, pl1, b.plan, pend, e, c, slot, le, lt);
    assert O + {lt, le, ld} - {lt} == O + {le, ld};
  }

  /** The jump to the test of a loop, and the test. */
  ghost predicate LoopStarted(pl: Plan, c: BlockId, ql: Plan, pend: seq<nat>, e: Expr, test: BlockId, body: BlockId, ld: BlockId) {
    && c < |pl.body| && Kept(pl, c, ql) && CallIs(ql, c, |pl.body[c]|, Goto(pend, test))
    && Tests(ql, Start(test, |pend|), e, ld, body) && |pl.body| <= body && |pl.body| <= ld
  }

  lemma StartDone(pl: Plan, c: BlockId, ql: Plan, rl: Plan, pend: seq<nat>, e: Expr, test: BlockId, body: BlockId, ld: BlockId)
    requires HasHead(pl, c, ql, pend, test) && Tested(ql, test, rl, Same(|pend|), e, ld, body) && |pl.body| <= body && |pl.body| <= ld
    ensures LoopStarted(pl, c, rl, pend, e, test, body, ld)
  {
    KeptOn(pl, c, ql, test, rl);
    KeptGrows(ql, test, rl);
    CallStays(ql, rl, c, |pl.body[c]|, Goto(pend, test));
  }

  lemma WhileDone(lp: Loop, s: Stmt, pl: Plan, c: BlockId, pend: seq<nat>, ql: Plan, rl: Plan, tr: Trace)
    requires s.While? && tr.Around? && LoopStarted(pl, c, ql, pend, s.c, tr.test, tr.body, tr.ld)
    requires PartCode(ql, rl, InLoop(tr.ld, tr.test, |pend|), s.s, tr.t, tr.body, |pend|, tr.z, tr.test)
    requires tr.ld < |rl.body| && rl.body[tr.ld] == []
    ensures HasCode(pl, c, rl, tr.ld, lp, s, pend, Same(|pend|), tr)
  {
    KeptOn(pl, c, ql, tr.body, rl);
    KeptGrows(ql, tr.body, rl);
    TestsStay(ql, rl, Start(tr.test, |pend|), s.c, tr.ld, tr.body);
    CallStays(ql, rl, c, |pl.body[c]|, Goto(pend, tr.test));
  }

  method GenWhile(b: Builder, lp: Loop, s: Stmt, pend: seq<nat>, ghost O: set<BlockId>) returns (r: Result, q: seq<nat>, ghost tr: Trace)
    requires s.While? && State(b, O) && Within(pend, |b.env|) && Typed(s, |pend|)
    modifies b
    ensures r == Done ==> Jumpable(s, lp.InLoop?) && Generated(old(b.plan), old(b.current), b, lp, s, pend, q, tr, O)
    ensures r == Failed ==> !Jumpable(s, lp.InLoop?)
    ensures r == NoRoom ==> Full(b, |pend| + Definitions(s))
    decreases s, 0
  {
    var n := |pend|;
    q, tr := Same(n), Plain;
    ghost var pl, c0 := b.plan, b.current;
    var ok, test, body, ld := GenLoopStart(b, s.c, pend, O);
    if !ok { return NoRoom, q, tr; }
    ghost var pl1 := b.plan;
    ghost var t, z;
    r, t, z := GenPart(b, InLoop(ld, test, n), s.s, n, true, test, ld, O + {ld});
    if r != Done { return; }
    assert O + {ld} - {ld} == O;
    tr := Around(test, body, ld, t, z);
    WhileDone(lp, s, pl, c0, pend, pl1, b.plan, tr);
  }

  method GenLoopStart(b: Builder, e: Expr, pend: seq<nat>, ghost O: set<BlockId>)
    returns (ok: bool, test: BlockId, body: BlockId, ld: BlockId)
    requires State(b, O) && Within(pend, |b.env|) && ValueOk(e, |pend|)
    modifies b
    ensures ok ==> LoopStarted(old(b.plan), old(b.current), b.plan, pend, e, test, body, ld)
    ensures ok ==> Resumed(b, body, |pend|, O + {ld}) && O !! {ld}
    ensures ok ==> test < |b.args| && ld < |b.args| && |b.args[test]| == |b.args[ld]| == |pend|
    ensures !ok ==> Full(b, |pend|)
  {
    body, ld := 0, 0;
    ghost var pl0, c0 := b.plan, b.current;
    ok, test := GenHead(b, pend, O);
    if !ok { return; }
    ghost var pl1 := b.plan;
    ok, body, ld := GenLoopTest(b, e, |pend|, O);
    if !ok { return; }
    StartDone(pl0, c0, pl1, b.plan, pend, e, test, body, ld);
  }

  /** A jump to a new block. */
  method GenHead(b: Builder, pend: seq<nat>, ghost O: set<BlockId>) returns (ok: bool, test: BlockId)
    requires State(b, O) && Within(pend, |b.env|)
    modifies b
    ensures ok ==> HasHead(old(b.plan), old(b.current), b.plan, pend, test) && Resumed(b, test, |pend|, O)
    ensures ok ==> old(b.args) <= b.args && test < |b.args| && |b.args[test]| == |pend|
    ensures !ok ==> Full(b, |pend|)
  {
    ok, test := GenLabel(b, pend, O);
    if !ok { return; }
    ok := GenJump(b, pend, test, test, O + {test});
    if !ok { return; }
    assert O + {test} - {test} == O;
  }

  ghost predicate HasHead(pl: Plan, c: BlockId, ql: Plan, pend: seq<nat>, test: BlockId) {
    && c < |pl.body| && Kept(pl, c, ql) && CallIs(ql, c, |pl.body[c]|, Goto(pend, test))
    && |pl.body| <= test && test < |ql.body| && ql.body[test] == []
  }

  method GenLoopTest(b: Builder, e: Expr, n: nat, ghost O: set<BlockId>) returns (ok: bool, body: BlockId, ld: BlockId)
    requires Resumed(b, b.current, n, O) && ValueOk(e, n)
    modifies b
    ensures ok ==> Tested(old(b.plan), old(b.current), b.plan, Same(n), e, ld, body) && Resumed(b, body, n, O + {ld})
    ensures ok ==> body == |old(b.args)| && ld == body + 1 && |b.args| == ld + 1
    ensures ok ==> |b.args[body]| == |b.args[ld]| == n && old(b.args) <= b.args && O !! {body, ld}
    ensures !ok ==> Full(b, n)
  {
    body, ld := 0, 0;
    ghost var pl0, c0 := b.plan, b.current;
    var c, slot;
    ok, c, slot := GenExpr(b, e, n, Same(n), O);
    if !ok { return; }
    ghost var pl1 := b.plan;
    ok, body, ld := GenTwoLabels(b, Base(Same(n), c), O);
    if !ok { return; }
    ok := GenBranch(b, Base(Same(n), c), After(Same(n), c)[slot], ld, body, body, O + {body, ld});
    if !ok { return; }
    TestDone(pl0, c0, pl1, b.plan, Same(n), e, c, slot, ld, body);
    assert O + {body, ld} - {body} == O + {ld};
  }

  // ---- whole programs ---------------------------------------------------------------------------

  const Lci: Opcode := Pure(0)

  ghost predicate ReturnsZero(pl: Plan, y: Loc) {
    CallIs(pl, y.b, y.k, Emits(y.pend, Calc(Lci, 0, []))) && CallIs(pl, y.b, y.k + 1, Instr.Return(Same(|y.pend| + 1), |y.pend|))
  }

  /** The code of s from the entry on, and a return of 0. */
  ghost predicate Finished(pl: Plan, s: Stmt, tr: Trace, y: Loc) {
    Compiled(pl, NoLoop, s, tr, Loc(0, 0, []), y) && ReturnsZero(pl, y)
  }

  /** Code generation for a whole program: it fails just if a jump does not fit its label. */
  method Generate(s: Stmt) returns (r: Result, b: Builder, ghost tr: Trace, ghost y: Loc)
    requires Typed(s, 0)
    ensures r == Done ==> Jumpable(s, false) && Complete(b.prog, b.plan) && Finished(b.plan, s, tr, y)
    ensures r == Failed ==> !Jumpable(s, false)
    ensures r == NoRoom ==> Full(b, Definitions(s))
  {
    b := new Builder();
    y := Loc(0, 0, []);
    var q;
    r, q, tr := Gen(b, NoLoop, s, [], {});
    if r != Done { return; }
    y := Loc(b.current, |b.plan.body[b.current]|, q);
    ghost var pl0 := b.plan;
    var ok := GenReturn(b, q);
    if !ok { r := NoRoom; return; }
    CompiledStays(pl0, b.plan, NoLoop, s, tr, Loc(0, 0, []), y);
  }

  /** The last block returns 0. */
  method GenReturn(b: Builder, q: seq<nat>) returns (ok: bool)
    requires State(b, {}) && Within(q, |b.env|)
    modifies b
    ensures ok ==> Complete(b.prog, b.plan) && Grows(old(b.plan), b.plan)
    ensures ok ==> ReturnsZero(b.plan, Loc(old(b.current), |old(b.plan.body[b.current])|, q))
    ensures !ok ==> Full(b, 0)
  {
    ghost var pl := b.plan;
    ok := GenCalc(b, q, Calc(Lci, 0, []), {});
    if !ok || |b.prog.ops| >= NoVal { return false; }
    ghost var ql := b.plan;
    b.Return(Same(|q| + 1), |q|);
    ReturnEnds(pl, ql, b.plan, b.current, q);
    AllEnded(b.prog, b.plan);
  }

  lemma AllButOne(ql: Plan, rl: Plan, c: BlockId, i: Instr)
    requires Wrote(ql, c, i, rl) && i.Ends() && OpenOk(ql, c, {})
    ensures forall b: BlockId :: b < |rl.body| ==> Ended(rl, b)
  {
    WroteCall(ql, c, i, rl);
    forall b: BlockId | b < |rl.body| ensures Ended(rl, b) {
      assert b == c || Ended(ql, b);
    }
  }

  lemma ReturnEnds(pl: Plan, ql: Plan, rl: Plan, c: BlockId, q: seq<nat>)
    requires Wrote(pl, c, Emits(q, Calc(Lci, 0, [])), ql) && Wrote(ql, c, Instr.Return(Same(|q| + 1), |q|), rl) && OpenOk(ql, c, {})
    ensures ReturnsZero(rl, Loc(c, |pl.body[c]|, q)) && Grows(pl, rl) && forall b: BlockId :: b < |rl.body| ==> Ended(rl, b)
  {
    WroteCall(pl, c, Emits(q, Calc(Lci, 0, [])), ql);
    WroteCall(ql, c, Instr.Return(Same(|q| + 1), |q|), rl);
    CallStays(ql, rl, c, |pl.body[c]|, Emits(q, Calc(Lci, 0, [])));
    AllButOne(ql, rl, c, Instr.Return(Same(|q| + 1), |q|));
  }

  /** A program whose blocks have all been ended is complete. */
  lemma AllEnded(p: Program, pl: Plan)
    requires Built(p, pl) && |p.code| < NoVal && forall b: BlockId :: b < |p.code| ==> Ended(pl, b)
    ensures Complete(p, pl)
  {
    forall b: BlockId | LiveBlock(p.ops, p.code, b) ensures b < |p.code| {
      var r :| RunTo(BlockGraph(p.ops, p.code), r, b);
      BlocksExist(p, pl, r, |r| - 1);
    }
  }

  lemma {:induction false} BlocksExist(p: Program, pl: Plan, r: seq<BlockId>, i: nat)
    requires Built(p, pl) && (forall b: BlockId :: b < |p.code| ==> Ended(pl, b))
    requires IsRun(BlockGraph(p.ops, p.code), r) && i < |r|
    ensures r[i] < |p.code|
    decreases i
  {
    if i > 0 {
      BlocksExist(p, pl, r, i - 1);
      LastInstr(p, pl, r[i - 1]);
      assert (r[i - 1], r[i - 1 + 1]) in BlockGraph(p.ops, p.code).edges;
    }
  }
}
