/** Structured statements over variables (front/front-ast.h): what they mean, which calls of
    the builder are their code, and the proof that the code does what they mean. */
module Structured {
  import opened Words
  import opened Ir
  import opened Ssa
  import opened Builder

  // ---- expressions and statements -------------------------------------------------------------

  /** Variables are numbered from the outermost scope on. */
  datatype Expr = Var(k: nat) | App(opcode: Opcode, imm: Word, args: Exprs)
  datatype Exprs = Nil | Then(head: Expr, tail: Exprs)

  datatype Stmt =
    | Skip
    | Seq(a: Stmt, b: Stmt)
    | Scope(s: Stmt)                       // variables defined in s end with it
    | Define(e: Expr)                      // a new variable
    | Assign(k: nat, e: Expr)
    | Do(e: Expr)                          // for its effect
    | If(c: Expr, t: Stmt, f: Stmt)        // f is Skip if there is no else
    | While(c: Expr, s: Stmt)
    | Break
    | Continue

  predicate HasValue(e: Expr) { e.App? ==> e.opcode.HasOutput() }

  predicate ExprOk(e: Expr, n: nat) {
    match e
    case Var(k) => k < n
    case App(c, _, args) => Emittable(c) && ArgsOk(args, n)
  }

  predicate ArgsOk(es: Exprs, n: nat) {
    es.Then? ==> ExprOk(es.head, n) && HasValue(es.head) && ArgsOk(es.tail, n)
  }

  predicate ValueOk(e: Expr, n: nat) { ExprOk(e, n) && HasValue(e) }

  /** How many variables a statement leaves behind. */
  function Defines(s: Stmt): nat {
    match s
    case Seq(a, b) => Defines(a) + Defines(b)
    case Define(_) => 1
    case _ => 0
  }

  /** How many variables it defines at all. */
  function Definitions(s: Stmt): (n: nat)
    ensures Defines(s) <= n
  {
    match s
    case Seq(a, b) => Definitions(a) + Definitions(b)
    case Scope(t) => Definitions(t)
    case Define(_) => 1
    case If(_, t, e) => Definitions(t) + Definitions(e)
    case While(_, t) => Definitions(t)
    case _ => 0
  }

  /** Variables are there when they are used, and have values. */
  predicate Typed(s: Stmt, n: nat) {
    match s
    case Skip => true
    case Seq(a, b) => Typed(a, n) && Typed(b, n + Defines(a))
    case Scope(t) => Typed(t, n)
    case Define(e) => ValueOk(e, n)
    case Assign(k, e) => k < n && ValueOk(e, n)
    case Do(e) => ExprOk(e, n)
    case If(c, t, e) => ValueOk(c, n) && Typed(t, n) && Typed(e, n)
    case While(c, t) => ValueOk(c, n) && Typed(t, n)
    case Break => true
    case Continue => true
  }

  /** No else part leaves a variable behind, and loops are left from within. */
  predicate Jumpable(s: Stmt, loop: bool) {
    match s
    case Seq(a, b) => Jumpable(a, loop) && Jumpable(b, loop)
    case Scope(t) => Jumpable(t, loop)
    case If(_, t, e) => Jumpable(t, loop) && Jumpable(e, loop) && Defines(e) == 0
    case While(_, t) => Jumpable(t, true)
    case Break => loop
    case Continue => loop
    case _ => true
  }

  /** An else part may not be a definition, though it has a scope of its own; in braces it may. */
  lemma ElseMayNotDefine(c: Expr, t: Stmt, e: Expr, n: nat, loop: bool)
    requires ValueOk(c, n) && Typed(t, n) && ValueOk(e, n) && Jumpable(t, loop)
    ensures Typed(If(c, t, Define(e)), n) && !Jumpable(If(c, t, Define(e)), loop)
    ensures Typed(If(c, t, Scope(Define(e))), n) && Jumpable(If(c, t, Scope(Define(e))), loop)
  {
  }

  // ---- what they mean ---------------------------------------------------------------------------

  datatype Option<T> = None | Some(value: T)

  /** What ops do: opcode, immediate, operands and the world give a result and a world. */
  type Meaning = (Opcode, Word, seq<Word>, World) -> (Word, World)

  function MeaningOf(sem: Semantics): Meaning {
    (c: Opcode, imm: Word, args: seq<Word>, world: World) => OpResult(sem, c, imm, args, world)
  }

  /** Operands are evaluated from left to right. */
  function ExprValue(f: Meaning, e: Expr, slots: seq<Word>, world: World): (Word, World)
    requires ExprOk(e, |slots|)
    decreases e
  {
    match e
    case Var(k) => (slots[k], world)
    case App(c, imm, args) => var (ws, world') := ArgValues(f, args, slots, world); f(c, imm, ws, world')
  }

  function ArgValues(f: Meaning, es: Exprs, slots: seq<Word>, world: World): (seq<Word>, World)
    requires ArgsOk(es, |slots|)
    decreases es
  {
    match es
    case Nil => ([], world)
    case Then(e, rest) =>
      var (w, world1) := ExprValue(f, e, slots, world);
      var (ws, world2) := ArgValues(f, rest, slots, world1);
      ([w] + ws, world2)
  }

  datatype Stop = Fall | Broken | Continued
  datatype Outcome = Outcome(m: Machine, stop: Stop)

  function CutTo(m: Machine, n: nat): Machine
    requires n <= |m.slots|
  {
    Machine(m.slots[..n], m.world)
  }

  function CutOutcome(o: Outcome, n: nat): Outcome
    requires n <= |o.m.slots|
  {
    Outcome(CutTo(o.m, n), o.stop)
  }

  /** The variables and the world after a statement and how it ends, unless fuel runs out in
      a loop. */
  function Perform(f: Meaning, s: Stmt, m: Machine, fuel: nat): (r: Option<Outcome>)
    requires Typed(s, |m.slots|)
    ensures r.Some? ==> |m.slots| <= |r.value.m.slots|
    ensures r.Some? && r.value.stop.Fall? ==> |r.value.m.slots| == |m.slots| + Defines(s)
    decreases fuel, s
  {
    var n := |m.slots|;
    match s
    case Skip => Some(Outcome(m, Fall))
    case Seq(a, b) =>
      (match Perform(f, a, m, fuel)
       case Some(o) => if o.stop.Fall? then Perform(f, b, o.m, fuel) else Some(o)
       case None => None)
    case Scope(t) =>
      (match Perform(f, t, m, fuel)
       case Some(o) => Some(CutOutcome(o, n))
       case None => None)
    case Define(e) =>
      var (w, world) := ExprValue(f, e, m.slots, m.world);
      Some(Outcome(Machine(m.slots + [w], world), Fall))
    case Assign(k, e) =>
      var (w, world) := ExprValue(f, e, m.slots, m.world);
      Some(Outcome(Machine(m.slots[k := w], world), Fall))
    case Do(e) => Some(Outcome(Machine(m.slots, ExprValue(f, e, m.slots, m.world).1), Fall))
    case If(c, t, e) =>
      var (w, world) := ExprValue(f, c, m.slots, m.world);
      (match Perform(f, if w != 0 then t else e, Machine(m.slots, world), fuel)
       case Some(o) => Some(CutOutcome(o, n))
       case None => None)
    case While(c, t) =>
      var (w, world) := ExprValue(f, c, m.slots, m.world);
      if w == 0 then Some(Outcome(Machine(m.slots, world), Fall))
      else if fuel == 0 then None
      else
        (match Perform(f, t, Machine(m.slots, world), fuel)
         case Some(o) => if o.stop.Broken? then Some(Outcome(CutTo(o.m, n), Fall)) else Perform(f, s, CutTo(o.m, n), fuel - 1)
         case None => None)
    case Break => Some(Outcome(m, Broken))
    case Continue => Some(Outcome(m, Continued))
  }

  /** Fuel only bounds the rounds: once a statement ends, more fuel changes nothing. */
  lemma {:induction false} MoreFuel(f: Meaning, s: Stmt, m: Machine, fuel: nat, more: nat)
    requires Typed(s, |m.slots|) && Perform(f, s, m, fuel).Some? && fuel <= more
    ensures Perform(f, s, m, more) == Perform(f, s, m, fuel)
    decreases fuel, s
  {
    match s
    case Seq(a, b) =>
      MoreFuel(f, a, m, fuel, more);
      var o := Perform(f, a, m, fuel).value;
      if o.stop.Fall? {
        MoreFuel(f, b, o.m, fuel, more);
      }
    case Scope(t) => MoreFuel(f, t, m, fuel, more);
    case If(c, t, e) =>
      var (w, world) := ExprValue(f, c, m.slots, m.world);
      MoreFuel(f, if w != 0 then t else e, Machine(m.slots, world), fuel, more);
    case While(c, t) =>
      var (w, world) := ExprValue(f, c, m.slots, m.world);
      if w != 0 {
        MoreFuel(f, t, Machine(m.slots, world), fuel, more);
        var o := Perform(f, t, Machine(m.slots, world), fuel).value;
        if !o.stop.Broken? {
          MoreFuel(f, s, CutTo(o.m, |m.slots|), fuel - 1, more - 1);
        }
      }
    case _ =>
  }

  // ---- ops in a row -------------------------------------------------------------------------------

  /** An op on entries of env. */
  datatype Calc = Calc(opcode: Opcode, imm: Word, slots: seq<nat>)

  predicate CalcOk(c: Calc, n: nat) {
    Within(c.slots, n) && Emittable(c.opcode)
  }

  /** The ops of an expression with n entries in env, and the entry that is its value. */
  function Flat(e: Expr, n: nat): (seq<Calc>, nat)
    decreases e
  {
    match e
    case Var(k) => ([], k)
    case App(c, imm, args) => var (ops, slots) := FlatArgs(args, n); (ops + [Calc(c, imm, slots)], n + |ops|)
  }

  function FlatArgs(es: Exprs, n: nat): (seq<Calc>, seq<nat>)
    decreases es
  {
    match es
    case Nil => ([], [])
    case Then(e, rest) =>
      var (ops, slot) := Flat(e, n);
      var (more, slots) := FlatArgs(rest, n + |ops|);
      (ops + more, [slot] + slots)
  }

  predicate OpsOk(ops: seq<Calc>, n: nat) {
    forall i :: 0 <= i < |ops| ==> CalcOk(ops[i], n + i)
  }

  predicate AllHaveOutput(ops: seq<Calc>) {
    forall i :: 0 <= i < |ops| ==> ops[i].opcode.HasOutput()
  }

  lemma {:induction false} FlatOk(e: Expr, k: nat, n: nat)
    requires ExprOk(e, k) && k <= n
    ensures var (ops, slot) := Flat(e, n);
            && OpsOk(ops, n) && (HasValue(e) ==> AllHaveOutput(ops) && slot < n + |ops|)
            && (ops != [] ==> AllHaveOutput(ops[..|ops| - 1]))
    decreases e
  {
    if e.App? {
      FlatArgsOk(e.args, k, n);
    }
  }

  lemma {:induction false} FlatArgsOk(es: Exprs, k: nat, n: nat)
    requires ArgsOk(es, k) && k <= n
    ensures var (ops, slots) := FlatArgs(es, n); OpsOk(ops, n) && AllHaveOutput(ops) && Within(slots, n + |ops|)
    decreases es
  {
    if es.Then? {
      FlatOk(es.head, k, n);
      FlatArgsOk(es.tail, k, n + |Flat(es.head, n).0|);
    }
  }

  function RunCalc(f: Meaning, c: Calc, m: Machine): Machine {
    if CalcOk(c, |m.slots|) then
      var (w, world) := f(c.opcode, c.imm, Pick(m.slots, c.slots), m.world);
      Machine(if c.opcode.HasOutput() then m.slots + [w] else m.slots, world)
    else m
  }

  function RunCalcs(f: Meaning, ops: seq<Calc>, m: Machine): Machine {
    if ops == [] then m else RunCalc(f, ops[|ops| - 1], RunCalcs(f, ops[..|ops| - 1], m))
  }

  lemma {:induction false} RunBoth(f: Meaning, a: seq<Calc>, b: seq<Calc>, m: Machine)
    ensures RunCalcs(f, a + b, m) == RunCalcs(f, b, RunCalcs(f, a, m))
    decreases |b|
  {
    if b == [] {
      assert a + b == a;
    } else {
      assert (a + b)[..|a + b| - 1] == a + b[..|b| - 1];
      RunBoth(f, a, b[..|b| - 1], m);
    }
  }

  lemma {:induction false} RunGrows(f: Meaning, ops: seq<Calc>, m: Machine)
    requires OpsOk(ops, |m.slots|) && AllHaveOutput(ops)
    ensures m.slots <= RunCalcs(f, ops, m).slots && |RunCalcs(f, ops, m).slots| == |m.slots| + |ops|
    decreases |ops|
  {
    if ops != [] {
      RunGrows(f, ops[..|ops| - 1], m);
    }
  }

  /** The ops of an expression find its value; temporaries come after the variables. */
  lemma {:induction false} FlatRuns(f: Meaning, e: Expr, slots: seq<Word>, m: Machine)
    requires ExprOk(e, |slots|) && slots <= m.slots
    ensures var ((ops, slot), r, (w, world)) := (Flat(e, |m.slots|), RunCalcs(f, Flat(e, |m.slots|).0, m), ExprValue(f, e, slots, m.world));
            && m.slots <= r.slots && r.world == world
            && (HasValue(e) ==> |r.slots| == |m.slots| + |ops| && slot < |r.slots| && r.slots[slot] == w)
    decreases e
  {
    FlatOk(e, |slots|, |m.slots|);
    if e.App? {
      var (ops, ss) := FlatArgs(e.args, |m.slots|);
      FlatArgsRun(f, e.args, slots, m);
      var c := Calc(e.opcode, e.imm, ss);
      assert (ops + [c])[..|ops|] == ops;
      assert RunCalcs(f, ops + [c], m) == RunCalc(f, c, RunCalcs(f, ops, m));
    }
  }

  lemma PickOne(slots: seq<Word>, k: nat, ss: seq<nat>)
    requires k < |slots| && Within(ss, |slots|)
    ensures Within([k] + ss, |slots|) && Pick(slots, [k] + ss) == [slots[k]] + Pick(slots, ss)
  {
  }

  lemma {:induction false} FlatArgsRun(f: Meaning, es: Exprs, slots: seq<Word>, m: Machine)
    requires ArgsOk(es, |slots|) && slots <= m.slots
    ensures var ((ops, ss), r, (ws, world)) := (FlatArgs(es, |m.slots|), RunCalcs(f, FlatArgs(es, |m.slots|).0, m), ArgValues(f, es, slots, m.world));
            && m.slots <= r.slots && |r.slots| == |m.slots| + |ops| && r.world == world
            && Within(ss, |r.slots|) && Pick(r.slots, ss) == ws
    decreases es
  {
    if es.Then? {
      var (ops, slot) := Flat(es.head, |m.slots|);
      var r := RunCalcs(f, ops, m);
      FlatRuns(f, es.head, slots, m);
      FlatArgsRun(f, es.tail, slots, r);
      var (more, ss) := FlatArgs(es.tail, |r.slots|);
      RunBoth(f, ops, more, m);
      PickOne(RunCalcs(f, more, r).slots, slot, ss);
    }
  }

  // ---- what code has been generated -----------------------------------------------------------

  /** A place between two calls of a block; pend says which entries of env the variables are. */
  datatype Loc = Loc(b: BlockId, k: nat, pend: seq<nat>)

  /** The loop that code is in: its labels, and how many variables they have. */
  datatype Loop = NoLoop | InLoop(onBreak: BlockId, onContinue: BlockId, n: nat)

  /** The places within a statement. */
  datatype Trace =
    | Plain
    | Steps(a: Trace, z: Loc, b: Trace)
    | Inner(a: Trace, z: Loc)
    | Fork(lt: BlockId, le: BlockId, ld: BlockId, t: Trace, zt: Loc, e: Trace, ze: Loc)
    | Around(test: BlockId, body: BlockId, ld: BlockId, t: Trace, z: Loc)
    | Onto(l: BlockId)

  function Same(n: nat): (r: seq<nat>)
    ensures |r| == n && forall i :: 0 <= i < n ==> r[i] == i
  {
    if n == 0 then [] else Same(n - 1) + [n - 1]
  }

  /** The entries of env after the first op: those in use and its temporaries. */
  function After(pend: seq<nat>, c: nat): (r: seq<nat>)
    ensures |r| == |pend| + c
  {
    if c == 0 then pend else Same(|pend| + c)
  }

  /** The variables after c ops. */
  function Base(pend: seq<nat>, c: nat): (r: seq<nat>)
    ensures |r| == |pend|
  {
    if c == 0 then pend else Same(|pend|)
  }

  function Emits(pend: seq<nat>, c: Calc): Instr { Instr.Emit(pend, c.opcode, c.imm, c.slots) }

  ghost predicate CallIs(pl: Plan, b: BlockId, k: nat, i: Instr) {
    b < |pl.body| && k < |pl.body[b]| && pl.body[b][k] == i
  }

  ghost predicate CallsAre(pl: Plan, x: Loc, ops: seq<Calc>) {
    x.b < |pl.body| && forall i: nat :: i < |ops| ==> CallIs(pl, x.b, x.k + i, Emits(After(x.pend, i), ops[i]))
  }

  function Cut(pend: seq<nat>, n: nat): seq<nat> { if n <= |pend| then pend[..n] else pend }

  /** The code of an expression starts at x. */
  ghost predicate Computes(pl: Plan, x: Loc, e: Expr) {
    CallsAre(pl, x, Flat(e, |x.pend|).0)
  }

  function OpCount(e: Expr, n: nat): nat { |Flat(e, n).0| }

  /** Where its value is afterwards. */
  function ValueSlot(e: Expr, pend: seq<nat>): nat
    requires ValueOk(e, |pend|)
  {
    FlatOk(e, |pend|, |pend|);
    After(pend, OpCount(e, |pend|))[Flat(e, |pend|).1]
  }

  function Beyond(x: Loc, e: Expr): Loc { Loc(x.b, x.k + OpCount(e, |x.pend|), Base(x.pend, OpCount(e, |x.pend|))) }

  /** An expression and a branch on it: the second label if it is not 0. */
  ghost predicate Tests(pl: Plan, x: Loc, e: Expr, l0: BlockId, l1: BlockId) {
    && ValueOk(e, |x.pend|) && Computes(pl, x, e)
    && CallIs(pl, x.b, Beyond(x, e).k, Branch(Beyond(x, e).pend, ValueSlot(e, x.pend), l0, l1))
  }

  ghost predicate Jumps(pl: Plan, z: Loc, n: nat, l: BlockId) {
    CallIs(pl, z.b, z.k, Goto(Cut(z.pend, n), l))
  }

  function Start(l: BlockId, n: nat): Loc { Loc(l, 0, Same(n)) }

  /** The calls from x to y are the code of s. */
  ghost predicate Compiled(pl: Plan, lp: Loop, s: Stmt, tr: Trace, x: Loc, y: Loc)
    decreases s
  {
    var n := |x.pend|;
    match s
    case Skip => y == x
    case Seq(a, b) => tr.Steps? && Compiled(pl, lp, a, tr.a, x, tr.z) && Compiled(pl, lp, b, tr.b, tr.z, y)
    case Scope(t) => tr.Inner? && Compiled(pl, lp, t, tr.a, x, tr.z) && y == Loc(tr.z.b, tr.z.k, Cut(tr.z.pend, n))
    case Define(e) =>
      ValueOk(e, n) && Computes(pl, x, e) && y == Beyond(x, e).(pend := Beyond(x, e).pend + [ValueSlot(e, x.pend)])
    case Assign(k, e) =>
      k < n && ValueOk(e, n) && Computes(pl, x, e) && y == Beyond(x, e).(pend := Beyond(x, e).pend[k := ValueSlot(e, x.pend)])
    case Do(e) => Computes(pl, x, e) && y == Beyond(x, e)
    case If(c, t, e) =>
      && tr.Fork? && Tests(pl, x, c, tr.le, tr.lt)
      && Compiled(pl, lp, t, tr.t, Start(tr.lt, n), tr.zt) && Jumps(pl, tr.zt, n, tr.ld)
      && Compiled(pl, lp, e, tr.e, Start(tr.le, n), tr.ze) && Jumps(pl, tr.ze, n, tr.ld)
      && y == Start(tr.ld, n)
    case While(c, t) =>
      && tr.Around? && CallIs(pl, x.b, x.k, Goto(x.pend, tr.test)) && Tests(pl, Start(tr.test, n), c, tr.ld, tr.body)
      && Compiled(pl, InLoop(tr.ld, tr.test, n), t, tr.t, Start(tr.body, n), tr.z) && Jumps(pl, tr.z, n, tr.test)
      && y == Start(tr.ld, n)
    case Break => tr.Onto? && lp.InLoop? && Jumps(pl, x, lp.n, lp.onBreak) && y == Start(tr.l, n)
    case Continue => tr.Onto? && lp.InLoop? && Jumps(pl, x, lp.n, lp.onContinue) && y == Start(tr.l, n)
  }

  /** Blocks only get longer, and there are more of them. */
  ghost predicate Grows(pl: Plan, ql: Plan) {
    |pl.body| <= |ql.body| && forall b :: 0 <= b < |pl.body| ==> pl.body[b] <= ql.body[b]
  }

  lemma CallStays(pl: Plan, ql: Plan, b: BlockId, k: nat, i: Instr)
    requires CallIs(pl, b, k, i) && Grows(pl, ql)
    ensures CallIs(ql, b, k, i)
  {
  }

  lemma ComputesStays(pl: Plan, ql: Plan, x: Loc, e: Expr)
    requires Computes(pl, x, e) && Grows(pl, ql)
    ensures Computes(ql, x, e)
  {
    var ops := Flat(e, |x.pend|).0;
    forall i: nat | i < |ops| ensures CallIs(ql, x.b, x.k + i, Emits(After(x.pend, i), ops[i])) {
      assert CallIs(pl, x.b, x.k + i, Emits(After(x.pend, i), ops[i]));
    }
  }

  lemma {:induction false} CompiledStays(pl: Plan, ql: Plan, lp: Loop, s: Stmt, tr: Trace, x: Loc, y: Loc)
    requires Compiled(pl, lp, s, tr, x, y) && Grows(pl, ql)
    ensures Compiled(ql, lp, s, tr, x, y)
    decreases s, 1
  {
    match s
    case Skip =>
    case Seq(a, b) =>
      CompiledStays(pl, ql, lp, a, tr.a, x, tr.z);
      CompiledStays(pl, ql, lp, b, tr.b, tr.z, y);
    case Scope(t) => CompiledStays(pl, ql, lp, t, tr.a, x, tr.z);
    case Define(e) => ComputesStays(pl, ql, x, e);
    case Assign(_, e) => ComputesStays(pl, ql, x, e);
    case Do(e) => ComputesStays(pl, ql, x, e);
    case If(_, _, _) => IfStays(pl, ql, lp, s, tr, x, y);
    case While(_, _) => WhileStays(pl, ql, lp, s, tr, x, y);
    case Break =>
    case Continue =>
  }

  lemma {:induction false} IfStays(pl: Plan, ql: Plan, lp: Loop, s: Stmt, tr: Trace, x: Loc, y: Loc)
    requires s.If? && Compiled(pl, lp, s, tr, x, y) && Grows(pl, ql)
    ensures Compiled(ql, lp, s, tr, x, y)
    decreases s, 0
  {
    ComputesStays(pl, ql, x, s.c);
    CompiledStays(pl, ql, lp, s.t, tr.t, Start(tr.lt, |x.pend|), tr.zt);
    CompiledStays(pl, ql, lp, s.f, tr.e, Start(tr.le, |x.pend|), tr.ze);
  }

  lemma {:induction false} WhileStays(pl: Plan, ql: Plan, lp: Loop, s: Stmt, tr: Trace, x: Loc, y: Loc)
    requires s.While? && Compiled(pl, lp, s, tr, x, y) && Grows(pl, ql)
    ensures Compiled(ql, lp, s, tr, x, y)
    decreases s, 0
  {
    ComputesStays(pl, ql, Start(tr.test, |x.pend|), s.c);
    CompiledStays(pl, ql, InLoop(tr.ld, tr.test, |x.pend|), s.s, tr.t, Start(tr.body, |x.pend|), tr.z);
  }

  lemma {:induction false} CompiledPend(pl: Plan, lp: Loop, s: Stmt, tr: Trace, x: Loc, y: Loc)
    requires Compiled(pl, lp, s, tr, x, y)
    ensures |y.pend| == |x.pend| + Defines(s)
    decreases s
  {
    match s
    case Seq(a, b) =>
      CompiledPend(pl, lp, a, tr.a, x, tr.z);
      CompiledPend(pl, lp, b, tr.b, tr.z, y);
    case Scope(t) => CompiledPend(pl, lp, t, tr.a, x, tr.z);
    case _ =>
  }

  // ---- the code as a machine --------------------------------------------------------------------

  datatype Config = Config(b: BlockId, k: nat, m: Machine)

  /** One call: a conditional jump takes its first label just if the value it looks at is 0. */
  function Next(pl: Plan, f: Meaning, c: Config): Option<Config> {
    if c.b < |pl.body| && c.k < |pl.body[c.b]| && CanStep(pl.body[c.b][c.k], |c.m.slots|) then
      var i := pl.body[c.b][c.k];
      var e := Pick(c.m.slots, i.pre);
      match i
      case Emit(_, op, imm, slots) =>
        var (w, world) := f(op, imm, Pick(e, slots), c.m.world);
        Some(Config(c.b, c.k + 1, Machine(if op.HasOutput() then e + [w] else e, world)))
      case Goto(_, l) => Some(Config(l, 0, Machine(e, c.m.world)))
      case Branch(_, s, l0, l1) => Some(Config(if c.m.slots[s] == 0 then l0 else l1, 0, Machine(e, c.m.world)))
      case Return(_, _) => None
    else None
  }

  function Iterate<T>(step: T -> Option<T>, c: T, n: nat): Option<T>
    decreases n
  {
    if n == 0 then Some(c)
    else
      match step(c)
      case Some(d) => Iterate(step, d, n - 1)
      case None => None
  }

  lemma {:induction false} IterateMore<T>(step: T -> Option<T>, c: T, n: nat, m: nat)
    requires Iterate(step, c, n).Some?
    ensures Iterate(step, c, n + m) == Iterate(step, Iterate(step, c, n).value, m)
    decreases n
  {
    if n > 0 {
      IterateMore(step, step(c).value, n - 1, m);
    }
  }

  function Stepper(pl: Plan, f: Meaning): Config -> Option<Config> {
    (c: Config) => Next(pl, f, c)
  }

  /** c leads to d. */
  ghost predicate Leads(pl: Plan, f: Meaning, c: Config, d: Config) {
    exists n: nat :: Iterate(Stepper(pl, f), c, n) == Some(d)
  }

  lemma LeadsSelf(pl: Plan, f: Meaning, c: Config)
    ensures Leads(pl, f, c, c)
  {
    assert Iterate(Stepper(pl, f), c, 0) == Some(c);
  }

  lemma LeadsOne(pl: Plan, f: Meaning, c: Config, d: Config)
    requires Next(pl, f, c) == Some(d)
    ensures Leads(pl, f, c, d)
  {
    assert Iterate(Stepper(pl, f), d, 0) == Some(d);
    assert Iterate(Stepper(pl, f), c, 1) == Some(d);
  }

  lemma LeadsOn(pl: Plan, f: Meaning, c: Config, d: Config, e: Config)
    requires Leads(pl, f, c, d) && Leads(pl, f, d, e)
    ensures Leads(pl, f, c, e)
  {
    var n: nat :| Iterate(Stepper(pl, f), c, n) == Some(d);
    var m: nat :| Iterate(Stepper(pl, f), d, m) == Some(e);
    IterateMore(Stepper(pl, f), c, n, m);
  }

  /** The code at x is reached with the variables of v. */
  ghost predicate At(x: Loc, c: Config, v: Machine) {
    && c.b == x.b && c.k == x.k && Within(x.pend, |c.m.slots|)
    && v == Machine(Pick(c.m.slots, x.pend), c.m.world)
  }

  lemma CalcStep(pl: Plan, f: Meaning, x: Loc, c: Config, v: Machine, op: Calc) returns (d: Config)
    requires At(x, c, v) && CalcOk(op, |v.slots|) && CallIs(pl, x.b, x.k, Emits(x.pend, op))
    ensures Leads(pl, f, c, d) && d == Config(x.b, x.k + 1, RunCalc(f, op, v))
  {
    d := Next(pl, f, c).value;
    LeadsOne(pl, f, c, d);
  }

  /** Ops in a row run as they are. */
  lemma {:induction false} CalcsRun(pl: Plan, f: Meaning, x: Loc, c: Config, v: Machine, ops: seq<Calc>) returns (d: Config)
    requires At(x, c, v) && OpsOk(ops, |v.slots|) && (ops != [] ==> AllHaveOutput(ops[..|ops| - 1])) && CallsAre(pl, x, ops)
    ensures Leads(pl, f, c, d) && d.b == x.b && d.k == x.k + |ops|
    ensures if ops == [] then d == c else d.m == RunCalcs(f, ops, v)
    decreases |ops|
  {
    if ops == [] {
      LeadsSelf(pl, f, c);
      d := c;
    } else {
      var k := |ops| - 1;
      var c1 := CalcsRun(pl, f, x, c, v, ops[..k]);
      RunGrows(f, ops[..k], v);
      var v1 := RunCalcs(f, ops[..k], v);
      assert k > 0 ==> Pick(c1.m.slots, Same(|v.slots| + k)) == c1.m.slots;
      assert CallIs(pl, x.b, x.k + k, Emits(After(x.pend, k), ops[k]));
      assert At(Loc(x.b, x.k + k, After(x.pend, k)), c1, v1);
      d := CalcStep(pl, f, Loc(x.b, x.k + k, After(x.pend, k)), c1, v1, ops[k]);
      LeadsOn(pl, f, c, c1, d);
    }
  }

  /** The code of an expression keeps the variables and leaves the value behind. */
  lemma ExprRuns(pl: Plan, f: Meaning, x: Loc, c: Config, v: Machine, e: Expr) returns (d: Config)
    requires At(x, c, v) && ExprOk(e, |v.slots|) && Computes(pl, x, e)
    ensures var (w, world) := ExprValue(f, e, v.slots, v.world);
            && Leads(pl, f, c, d) && At(Beyond(x, e), d, Machine(v.slots, world))
            && (HasValue(e) ==> ValueSlot(e, x.pend) < |d.m.slots| && d.m.slots[ValueSlot(e, x.pend)] == w)
  {
    var (ops, slot) := Flat(e, |v.slots|);
    FlatOk(e, |v.slots|, |v.slots|);
    FlatRuns(f, e, v.slots, v);
    d := CalcsRun(pl, f, x, c, v, ops);
    if ops != [] {
      assert Pick(d.m.slots, Same(|v.slots|)) == v.slots;
    }
  }

  /** A jump with the variables pend arrives with just those. */
  lemma JumpRuns(pl: Plan, f: Meaning, z: Loc, d: Config, v: Machine, l: BlockId) returns (e: Config)
    requires At(z, d, v) && CallIs(pl, z.b, z.k, Goto(z.pend, l))
    ensures Leads(pl, f, d, e) && At(Start(l, |z.pend|), e, v)
  {
    e := Next(pl, f, d).value;
    LeadsOne(pl, f, d, e);
    assert Pick(e.m.slots, Same(|z.pend|)) == e.m.slots;
  }

  lemma BranchRuns(pl: Plan, f: Meaning, x: Loc, c: Config, v: Machine, slot: nat, l0: BlockId, l1: BlockId) returns (d: Config)
    requires At(x, c, v) && slot < |c.m.slots| && CallIs(pl, x.b, x.k, Branch(x.pend, slot, l0, l1))
    ensures Leads(pl, f, c, d) && At(Start(if c.m.slots[slot] == 0 then l0 else l1, |v.slots|), d, v)
  {
    d := Next(pl, f, c).value;
    LeadsOne(pl, f, c, d);
    assert Pick(d.m.slots, Same(|v.slots|)) == d.m.slots;
  }

  lemma TestRuns(pl: Plan, f: Meaning, x: Loc, c: Config, v: Machine, e: Expr, l0: BlockId, l1: BlockId) returns (d: Config)
    requires At(x, c, v) && Tests(pl, x, e, l0, l1)
    ensures var (w, world) := ExprValue(f, e, v.slots, v.world);
            Leads(pl, f, c, d) && At(Start(if w == 0 then l0 else l1, |v.slots|), d, Machine(v.slots, world))
  {
    var c1 := ExprRuns(pl, f, x, c, v, e);
    d := BranchRuns(pl, f, Beyond(x, e), c1, Machine(v.slots, ExprValue(f, e, v.slots, v.world).1), ValueSlot(e, x.pend), l0, l1);
    LeadsOn(pl, f, c, c1, d);
  }

  // ---- generated code does what the statement means -----------------------------------------------

  ghost predicate LoopFits(lp: Loop, n: nat) { lp.InLoop? ==> lp.n <= n }

  /** Where a statement that ends at y goes on, and with what. */
  ghost predicate Arrives(lp: Loop, o: Outcome, y: Loc, d: Config) {
    if o.stop.Fall? then At(y, d, o.m)
    else
      && lp.InLoop? && lp.n <= |o.m.slots|
      && At(Start(if o.stop.Broken? then lp.onBreak else lp.onContinue, lp.n), d, CutTo(o.m, lp.n))
  }

  /** From c with the variables of v the code leads to where s ends. */
  ghost predicate Does(pl: Plan, f: Meaning, lp: Loop, s: Stmt, c: Config, v: Machine, fuel: nat, y: Loc, d: Config)
    requires Typed(s, |v.slots|) && Perform(f, s, v, fuel).Some?
  {
    Leads(pl, f, c, d) && Arrives(lp, Perform(f, s, v, fuel).value, y, d)
  }

  /** The code of a statement does what the statement means. */
  lemma {:induction false} CodeRuns(pl: Plan, f: Meaning, lp: Loop, s: Stmt, tr: Trace, x: Loc, y: Loc, c: Config, v: Machine, fuel: nat)
    returns (d: Config)
    requires Compiled(pl, lp, s, tr, x, y) && At(x, c, v) && LoopFits(lp, |v.slots|)
    requires Typed(s, |v.slots|) && Perform(f, s, v, fuel).Some?
    ensures Does(pl, f, lp, s, c, v, fuel, y, d)
    decreases fuel, s, 1
  {
    match s
    case Skip => LeadsSelf(pl, f, c); d := c;
    case Seq(a, b) => d := SeqRuns(pl, f, lp, s, tr, x, y, c, v, fuel);
    case Scope(t) =>
      d := CodeRuns(pl, f, lp, t, tr.a, x, tr.z, c, v, fuel);
      CompiledPend(pl, lp, t, tr.a, x, tr.z);
      CutArrives(lp, Perform(f, t, v, fuel).value, tr.z, d, |v.slots|);
    case Define(_) => d := SimpleRuns(pl, f, lp, s, tr, x, y, c, v, fuel);
    case Assign(_, _) => d := SimpleRuns(pl, f, lp, s, tr, x, y, c, v, fuel);
    case Do(_) => d := SimpleRuns(pl, f, lp, s, tr, x, y, c, v, fuel);
    case If(_, _, _) => d := IfRuns(pl, f, lp, s, tr, x, y, c, v, fuel);
    case While(_, _) =>
      var c1 := JumpRuns(pl, f, x, c, v, tr.test);
      d := LoopRuns(pl, f, lp, s, tr, x, y, c1, v, fuel);
      LeadsOn(pl, f, c, c1, d);
    case Break => d := ExitRuns(pl, f, x, c, v, lp.n, lp.onBreak);
    case Continue => d := ExitRuns(pl, f, x, c, v, lp.n, lp.onContinue);
  }

  lemma {:induction false} SeqRuns(pl: Plan, f: Meaning, lp: Loop, s: Stmt, tr: Trace, x: Loc, y: Loc, c: Config, v: Machine, fuel: nat)
    returns (d: Config)
    requires s.Seq? && Compiled(pl, lp, s, tr, x, y) && At(x, c, v) && LoopFits(lp, |v.slots|)
    requires Typed(s, |v.slots|) && Perform(f, s, v, fuel).Some?
    ensures Does(pl, f, lp, s, c, v, fuel, y, d)
    decreases fuel, s, 0
  {
    var d1 := CodeRuns(pl, f, lp, s.a, tr.a, x, tr.z, c, v, fuel);
    var o := Perform(f, s.a, v, fuel).value;
    if o.stop.Fall? {
      d := CodeRuns(pl, f, lp, s.b, tr.b, tr.z, y, d1, o.m, fuel);
      LeadsOn(pl, f, c, d1, d);
    } else {
      d := d1;
    }
  }

  lemma SimpleRuns(pl: Plan, f: Meaning, lp: Loop, s: Stmt, tr: Trace, x: Loc, y: Loc, c: Config, v: Machine, fuel: nat)
    returns (d: Config)
    requires (s.Define? || s.Assign? || s.Do?) && Compiled(pl, lp, s, tr, x, y) && At(x, c, v)
    requires Typed(s, |v.slots|) && Perform(f, s, v, fuel).Some?
    ensures Does(pl, f, lp, s, c, v, fuel, y, d)
  {
    d := ExprRuns(pl, f, x, c, v, s.e);
    assert Pick(d.m.slots, y.pend) == Perform(f, s, v, fuel).value.m.slots;
  }

  lemma ExitRuns(pl: Plan, f: Meaning, x: Loc, c: Config, v: Machine, n: nat, l: BlockId) returns (d: Config)
    requires At(x, c, v) && n <= |v.slots| && Jumps(pl, x, n, l)
    ensures Leads(pl, f, c, d) && At(Start(l, n), d, CutTo(v, n))
  {
    CutAt(x, c, v, n);
    d := JumpRuns(pl, f, Loc(x.b, x.k, Cut(x.pend, n)), c, CutTo(v, n), l);
  }

  /** Dropping the newest variables. */
  lemma CutAt(z: Loc, d: Config, v: Machine, n: nat)
    requires At(z, d, v) && n <= |z.pend|
    ensures At(Loc(z.b, z.k, Cut(z.pend, n)), d, CutTo(v, n))
  {
    assert Pick(d.m.slots, z.pend[..n]) == Pick(d.m.slots, z.pend)[..n];
  }

  lemma CutArrives(lp: Loop, o: Outcome, z: Loc, d: Config, n: nat)
    requires Arrives(lp, o, z, d) && LoopFits(lp, n) && n <= |o.m.slots| && (o.stop.Fall? ==> n <= |z.pend|)
    ensures Arrives(lp, CutOutcome(o, n), Loc(z.b, z.k, Cut(z.pend, n)), d)
  {
    if o.stop.Fall? {
      CutAt(z, d, o.m, n);
    } else {
      assert o.m.slots[..n][..lp.n] == o.m.slots[..lp.n];
    }
  }

  /** A part of a statement, and the jump out of it. */
  lemma {:induction false} PartRuns(pl: Plan, f: Meaning, lp: Loop, s: Stmt, tr: Trace, l: BlockId, z: Loc, to: BlockId, c: Config, v: Machine, fuel: nat)
    returns (d: Config)
    requires Compiled(pl, lp, s, tr, Start(l, |v.slots|), z) && Jumps(pl, z, |v.slots|, to) && LoopFits(lp, |v.slots|)
    requires At(Start(l, |v.slots|), c, v) && Typed(s, |v.slots|) && Perform(f, s, v, fuel).Some?
    ensures Leads(pl, f, c, d) && Arrives(lp, CutOutcome(Perform(f, s, v, fuel).value, |v.slots|), Start(to, |v.slots|), d)
    decreases fuel, s, 2
  {
    var n := |v.slots|;
    var d1 := CodeRuns(pl, f, lp, s, tr, Start(l, n), z, c, v, fuel);
    var o := Perform(f, s, v, fuel).value;
    CompiledPend(pl, lp, s, tr, Start(l, n), z);
    CutArrives(lp, o, z, d1, n);
    if o.stop.Fall? {
      d := JumpRuns(pl, f, Loc(z.b, z.k, Cut(z.pend, n)), d1, CutTo(o.m, n), to);
      LeadsOn(pl, f, c, d1, d);
    } else {
      d := d1;
    }
  }

  lemma {:induction false} IfRuns(pl: Plan, f: Meaning, lp: Loop, s: Stmt, tr: Trace, x: Loc, y: Loc, c: Config, v: Machine, fuel: nat)
    returns (d: Config)
    requires s.If? && Compiled(pl, lp, s, tr, x, y) && At(x, c, v) && LoopFits(lp, |v.slots|)
    requires Typed(s, |v.slots|) && Perform(f, s, v, fuel).Some?
    ensures Does(pl, f, lp, s, c, v, fuel, y, d)
    decreases fuel, s, 0
  {
    var (w, world) := ExprValue(f, s.c, v.slots, v.world);
    var c2 := TestRuns(pl, f, x, c, v, s.c, tr.le, tr.lt);
    if w != 0 {
      d := PartRuns(pl, f, lp, s.t, tr.t, tr.lt, tr.zt, tr.ld, c2, Machine(v.slots, world), fuel);
    } else {
      d := PartRuns(pl, f, lp, s.f, tr.e, tr.le, tr.ze, tr.ld, c2, Machine(v.slots, world), fuel);
    }
    LeadsOn(pl, f, c, c2, d);
  }

  /** From the test of a loop to its end. */
  lemma {:induction false} LoopRuns(pl: Plan, f: Meaning, lp: Loop, s: Stmt, tr: Trace, x: Loc, y: Loc, c: Config, v: Machine, fuel: nat)
    returns (d: Config)
    requires s.While? && Compiled(pl, lp, s, tr, x, y) && |x.pend| == |v.slots| && At(Start(tr.test, |v.slots|), c, v)
    requires Typed(s, |v.slots|) && Perform(f, s, v, fuel).Some?
    ensures Does(pl, f, lp, s, c, v, fuel, y, d)
    decreases fuel, s, 0
  {
    var n := |v.slots|;
    var (w, world) := ExprValue(f, s.c, v.slots, v.world);
    var c2 := TestRuns(pl, f, Start(tr.test, n), c, v, s.c, tr.ld, tr.body);
    if w == 0 {
      d := c2;
    } else {
      var inner := InLoop(tr.ld, tr.test, n);
      var d2 := PartRuns(pl, f, inner, s.s, tr.t, tr.body, tr.z, tr.test, c2, Machine(v.slots, world), fuel);
      var o := Perform(f, s.s, Machine(v.slots, world), fuel).value;
      assert CutTo(o.m, n).slots[..n] == CutTo(o.m, n).slots;
      if o.stop.Broken? {
        d := d2;
      } else {
        d := LoopRuns(pl, f, lp, s, tr, x, y, d2, CutTo(o.m, n), fuel - 1);
        LeadsOn(pl, f, c2, d2, d);
      }
      LeadsOn(pl, f, c, c2, d);
    }
  }
}
