/** The finished program does what the statement means: the run that its own jumps take has
    the statement's effects and ends with its variables. */
module CodeMeaning {
  import opened Digraph
  import opened Words
  import opened Ir
  import opened Ssa
  import opened Builder
  import opened Structured
  import opened CodeGen

  // ---- the run that the jumps take --------------------------------------------------------------

  /** A conditional jump goes to its first label just if its operand is 0. */
  ghost predicate Chooses(p: Program, a: BlockId, env: seq<Word>, l: BlockId) {
    && a < |p.code| && p.code[a] != [] && p.code[a][|p.code[a]| - 1] < |p.ops|
    && var op := p.ops[p.code[a][|p.code[a]| - 1]];
       op.opcode == Jz ==> |op.ins| == 1 && op.ins[0] < |env| && l == if env[op.ins[0]] == 0 then op.label0 else op.label1
  }

  /** Every edge of the run is the one that the values on the run choose. */
  ghost predicate Obeys(p: Program, sem: Semantics, st: State, r: seq<Point>)
    requires Placed(p) && IsRun(Points(p), r) && |st.env| == |p.ops|
    decreases |r|
  {
    |r| > 1 ==>
      && IsRun(Points(p), r[..|r| - 1]) && Obeys(p, sem, st, r[..|r| - 1])
      && (r[|r| - 1].i == 0 ==> Chooses(p, r[|r| - 2].b, Exec(p, sem, st, r[..|r| - 1]).env, r[|r| - 1].b))
  }

  ghost predicate Setting(p: Program, pl: Plan, st: State, m0: Machine) {
    Complete(p, pl) && Placed(p) && |st.env| == |p.ops| && m0.slots == [] && m0.world == st.world
  }

  /** The run r of the program is where the calls have got to. */
  ghost predicate Tracks(p: Program, pl: Plan, sem: Semantics, st: State, m0: Machine, r: seq<Point>, c: Config)
    requires Setting(p, pl, st, m0)
  {
    && c.b < |pl.args| && RunTo(Points(p), r, Point(c.b, |pl.args[c.b]| + c.k)) && Obeys(p, sem, st, r)
    && RunMachine(p, pl, sem, m0, r) == c.m
  }

  // ---- one point more ---------------------------------------------------------------------------

  lemma Longer(p: Program, pl: Plan, sem: Semantics, st: State, m0: Machine, r: seq<Point>, x: Point, z: Point)
    requires Setting(p, pl, st, m0) && RunTo(Points(p), r, x) && Obeys(p, sem, st, r) && (x, z) in Points(p).edges
    requires z.i == 0 ==> Chooses(p, x.b, Exec(p, sem, st, r).env, z.b)
    ensures RunTo(Points(p), r + [z], z) && Obeys(p, sem, st, r + [z])
    ensures z.b < |pl.args| && z.b < |pl.body| && z.i <= |pl.args[z.b]| + |pl.body[z.b]|
    ensures RunMachine(p, pl, sem, m0, r + [z]) == MachineAt(pl, sem, z, RunMachine(p, pl, sem, m0, r))
  {
    RunExtend(Points(p), r, x, z);
    assert (r + [z])[..|r + [z]| - 1] == r;
    PointSized(p, pl, r + [z]);
  }

  /** A point inside of a block is followed by the next one. */
  lemma NextPoint(p: Program, b: BlockId, i: nat)
    requires b < |p.code| && i < |p.code[b]|
    ensures (Point(b, i), Point(b, i + 1)) in Points(p).edges
  {
  }

  /** Past the phis of a block. */
  lemma {:induction false} PastPhis(p: Program, pl: Plan, sem: Semantics, st: State, m0: Machine, r: seq<Point>, b: BlockId, i: nat)
    returns (r': seq<Point>)
    requires Setting(p, pl, st, m0) && RunTo(Points(p), r, Point(b, 0)) && Obeys(p, sem, st, r)
    requires Sized(p, pl, b) && i <= |pl.args[b]|
    ensures RunTo(Points(p), r', Point(b, i)) && Obeys(p, sem, st, r')
    ensures RunMachine(p, pl, sem, m0, r') == RunMachine(p, pl, sem, m0, r)
    decreases i
  {
    r' := r;
    if i > 0 {
      r' := PastPhis(p, pl, sem, st, m0, r, b, i - 1);
      NextPoint(p, b, i - 1);
      Longer(p, pl, sem, st, m0, r', Point(b, i - 1), Point(b, i));
      r' := r' + [Point(b, i)];
    }
  }

  // ---- one call more ----------------------------------------------------------------------------

  lemma CallPoint(p: Program, pl: Plan, sem: Semantics, st: State, m0: Machine, r: seq<Point>, c: Config)
    requires Setting(p, pl, st, m0) && Tracks(p, pl, sem, st, m0, r, c)
    requires c.b < |pl.body| && c.k < |pl.body[c.b]|
    ensures Sized(p, pl, c.b) && BlockBuilt(p, pl, c.b) && InstrAt(p, pl, c.b, c.k)
    ensures CanStep(pl.body[c.b][c.k], |c.m.slots|)
  {
    PointSized(p, pl, r);
    CallAt(p, pl, c.b, c.k);
    EnvBefore(p, pl, r[|r| - 1], c.k);
  }

  /** The op of the call is executed. */
  lemma OverCall(p: Program, pl: Plan, sem: Semantics, st: State, m0: Machine, r: seq<Point>, c: Config) returns (r': seq<Point>)
    requires Setting(p, pl, st, m0) && Tracks(p, pl, sem, st, m0, r, c)
    requires c.b < |pl.body| && c.k < |pl.body[c.b]|
    ensures CanStep(pl.body[c.b][c.k], |c.m.slots|)
    ensures r' == r + [Point(c.b, |pl.args[c.b]| + c.k + 1)]
    ensures Tracks(p, pl, sem, st, m0, r', Config(c.b, c.k + 1, StepMachine(sem, pl.body[c.b][c.k], c.m)))
  {
    CallPoint(p, pl, sem, st, m0, r, c);
    var i := |pl.args[c.b]| + c.k;
    var z := Point(c.b, |pl.args[c.b]| + c.k + 1);
    r' := r + [z];
    NextPoint(p, c.b, i);
    Longer(p, pl, sem, st, m0, r, Point(c.b, i), z);
    MachineSteps(pl, sem, c);
    NowTracks(p, pl, sem, st, m0, r', z, Config(c.b, c.k + 1, StepMachine(sem, pl.body[c.b][c.k], c.m)));
  }

  lemma NowTracks(p: Program, pl: Plan, sem: Semantics, st: State, m0: Machine, r: seq<Point>, z: Point, c: Config)
    requires Setting(p, pl, st, m0) && RunTo(Points(p), r, z) && Obeys(p, sem, st, r)
    requires c.b < |pl.args| && z == Point(c.b, |pl.args[c.b]| + c.k) && RunMachine(p, pl, sem, m0, r) == c.m
    ensures Tracks(p, pl, sem, st, m0, r, c)
  {
  }

  lemma MachineSteps(pl: Plan, sem: Semantics, c: Config)
    requires c.b < |pl.args| && c.b < |pl.body| && c.k < |pl.body[c.b]| && CanStep(pl.body[c.b][c.k], |c.m.slots|)
    ensures MachineAt(pl, sem, Point(c.b, |pl.args[c.b]| + c.k + 1), c.m) == StepMachine(sem, pl.body[c.b][c.k], c.m)
  {
  }

  /** Executing the jump at the end of a block leaves the values alone. */
  lemma JumpKeepsEnv(p: Program, pl: Plan, sem: Semantics, st: State, m0: Machine, r: seq<Point>, c: Config)
    requires Setting(p, pl, st, m0) && Tracks(p, pl, sem, st, m0, r, c)
    requires c.b < |pl.body| && c.k < |pl.body[c.b]| && pl.body[c.b][c.k].Ends()
    requires IsRun(Points(p), r + [Point(c.b, |pl.args[c.b]| + c.k + 1)])
    ensures Exec(p, sem, st, r + [Point(c.b, |pl.args[c.b]| + c.k + 1)]).env == Exec(p, sem, st, r).env
  {
    CallPoint(p, pl, sem, st, m0, r, c);
    var r' := r + [Point(c.b, |pl.args[c.b]| + c.k + 1)];
    assert r'[..|r'| - 1] == r;
    OpStep(p, sem, r', Exec(p, sem, st, r));
  }

  /** The label that a jump goes to is the one that the value of its operand chooses. */
  lemma RightLabel(p: Program, pl: Plan, sem: Semantics, st: State, m0: Machine, r: seq<Point>, c: Config, l: BlockId)
    requires Setting(p, pl, st, m0) && Tracks(p, pl, sem, st, m0, r, c)
    requires c.b < |pl.body| && c.k < |pl.body[c.b]|
    requires Next(pl, MeaningOf(sem), c).Some? && pl.body[c.b][c.k].Ends() && l == Next(pl, MeaningOf(sem), c).value.b
    ensures Chooses(p, c.b, Exec(p, sem, st, r).env, l) && c.b < |p.code| && l in Succ(p.ops, p.code, c.b)
    ensures |p.code[c.b]| == |pl.args[c.b]| + c.k + 1
  {
    CallPoint(p, pl, sem, st, m0, r, c);
    LastCall(p, pl, c.b, c.k);
    var i := pl.body[c.b][c.k];
    if i.Branch? {
      JumpSeesSlot(p, pl, sem, st, m0, r, c.k);
    }
    LabelChosen(p, c.b, Exec(p, sem, st, r).env, i, l, c.m.slots);
  }

  lemma LabelChosen(p: Program, b: BlockId, env: seq<Word>, i: Instr, l: BlockId, slots: seq<Word>)
    requires b < |p.code| && p.code[b] != [] && p.code[b][|p.code[b]| - 1] < |p.ops|
    requires var op := p.ops[p.code[b][|p.code[b]| - 1]];
             || (i.Goto? && op.opcode == Jmp && l == i.l)
             || (i.Branch? && op.opcode == Jz && op.label0 == i.l0 && op.label1 == i.l1 && SeesSlot(op, i, env, slots)
                 && l == if slots[i.slot] == 0 then i.l0 else i.l1)
    ensures Chooses(p, b, env, l)
  {
  }

  lemma LastCall(p: Program, pl: Plan, b: BlockId, k: nat)
    requires Built(p, pl) && Sized(p, pl, b) && k < |pl.body[b]| && InstrAt(p, pl, b, k) && pl.body[b][k].Ends()
    ensures |p.code[b]| == |pl.args[b]| + k + 1 && p.code[b][|pl.args[b]| + k] < |p.ops|
    ensures var (i, op) := (pl.body[b][k], p.ops[p.code[b][|pl.args[b]| + k]]);
            && (i.Goto? ==> op.opcode == Jmp && Succ(p.ops, p.code, b) == [i.l])
            && (i.Branch? ==> op.opcode == Jz && op.label0 == i.l0 && op.label1 == i.l1 && Succ(p.ops, p.code, b) == [i.l0, i.l1])
  {
  }

  /** From the end of a block into the next one. */
  lemma OverEdge(p: Program, pl: Plan, sem: Semantics, st: State, m0: Machine, r: seq<Point>, b: BlockId, l: BlockId)
    returns (r': seq<Point>)
    requires Setting(p, pl, st, m0) && b < |p.code| && RunTo(Points(p), r, Point(b, |p.code[b]|)) && Obeys(p, sem, st, r)
    requires l in Succ(p.ops, p.code, b) && Chooses(p, b, Exec(p, sem, st, r).env, l)
    ensures Tracks(p, pl, sem, st, m0, r', Config(l, 0, RunMachine(p, pl, sem, m0, r)))
  {
    var z := Point(l, 0);
    assert (Point(b, |p.code[b]|), z) in Points(p).edges;
    Longer(p, pl, sem, st, m0, r, Point(b, |p.code[b]|), z);
    PointSized(p, pl, r + [z]);
    r' := PastPhis(p, pl, sem, st, m0, r + [z], l, |pl.args[l]|);
  }

  /** One step of the calls is followed by the run. */
  lemma StepTracked(p: Program, pl: Plan, sem: Semantics, st: State, m0: Machine, r: seq<Point>, c: Config, d: Config)
    returns (r': seq<Point>)
    requires Setting(p, pl, st, m0) && Tracks(p, pl, sem, st, m0, r, c) && Next(pl, MeaningOf(sem), c) == Some(d)
    ensures Tracks(p, pl, sem, st, m0, r', d)
  {
    r' := OverCall(p, pl, sem, st, m0, r, c);
    if pl.body[c.b][c.k].Ends() {
      RightLabel(p, pl, sem, st, m0, r, c, d.b);
      JumpKeepsEnv(p, pl, sem, st, m0, r, c);
      r' := OverEdge(p, pl, sem, st, m0, r', c.b, d.b);
    }
  }

  lemma FirstStep(pl: Plan, f: Meaning, c: Config, n: nat) returns (d: Config)
    requires n > 0 && Iterate(Stepper(pl, f), c, n).Some?
    ensures Next(pl, f, c) == Some(d) && Iterate(Stepper(pl, f), c, n) == Iterate(Stepper(pl, f), d, n - 1)
  {
    d := Next(pl, f, c).value;
  }

  /** The run r is where a number of calls, all of which were possible, have got to. */
  ghost predicate Reaches(p: Program, pl: Plan, sem: Semantics, st: State, m0: Machine, r: seq<Point>, o: Option<Config>)
    requires Setting(p, pl, st, m0)
  {
    o.Some? && Tracks(p, pl, sem, st, m0, r, o.value)
  }

  lemma {:induction false} StepsTracked(p: Program, pl: Plan, sem: Semantics, st: State, m0: Machine, r: seq<Point>, c: Config, n: nat)
    returns (r': seq<Point>)
    requires Setting(p, pl, st, m0) && Tracks(p, pl, sem, st, m0, r, c) && Iterate(Stepper(pl, MeaningOf(sem)), c, n).Some?
    ensures Reaches(p, pl, sem, st, m0, r', Iterate(Stepper(pl, MeaningOf(sem)), c, n))
    decreases n
  {
    r' := r;
    if n > 0 {
      var d := FirstStep(pl, MeaningOf(sem), c, n);
      var r1 := StepTracked(p, pl, sem, st, m0, r, c, d);
      r' := StepsTracked(p, pl, sem, st, m0, r1, d, n - 1);
    }
  }

  // ---- the whole program --------------------------------------------------------------------------

  lemma StartTracked(p: Program, pl: Plan, sem: Semantics, st: State, m0: Machine)
    requires Setting(p, pl, st, m0)
    ensures Tracks(p, pl, sem, st, m0, [Point(0, 0)], Config(0, 0, m0))
  {
  }

  /** The variables at y are where env says, with the values that the statement leaves. */
  ghost predicate Holds(p: Program, pl: Plan, y: Loc, s: State, m: Machine) {
    && y.b < |pl.envs| && y.k < |pl.envs[y.b]| && Within(y.pend, |pl.envs[y.b][y.k]|) && |y.pend| == |m.slots|
    && s.world == m.world
    && forall i :: 0 <= i < |y.pend| ==>
         pl.envs[y.b][y.k][y.pend[i]] < |s.env| && s.env[pl.envs[y.b][y.k][y.pend[i]]] == m.slots[i]
  }

  /** A program that has been generated does what the statement means: if the statement ends,
      the run that the jumps take comes to the end of its code, with the statement's effects
      on the world and the statement's values in the ops that env names. */
  lemma ProgramMeans(p: Program, pl: Plan, sem: Semantics, st: State, s: Stmt, tr: Trace, y: Loc, fuel: nat) returns (r: seq<Point>)
    requires Complete(p, pl) && Finished(pl, s, tr, y) && Typed(s, 0) && |st.env| == |p.ops|
    requires Perform(MeaningOf(sem), s, Machine([], st.world), fuel).Some?
    ensures StrictSsa(p) && y.b < |pl.args| && RunTo(Points(p), r, Point(y.b, |pl.args[y.b]| + y.k)) && Obeys(p, sem, st, r)
    ensures var o := Perform(MeaningOf(sem), s, Machine([], st.world), fuel).value;
            o.stop.Fall? && Holds(p, pl, y, Exec(p, sem, st, r), o.m)
  {
    BuiltStrict(p, pl);
    var f, m0 := MeaningOf(sem), Machine([], st.world);
    var d := CodeRuns(pl, f, NoLoop, s, tr, Loc(0, 0, []), y, Config(0, 0, m0), m0, fuel);
    r := LeadsTracked(p, pl, sem, st, m0, d);
    Simulates(p, pl, sem, st, m0, r);
    EnvHolds(p, pl, y, d, Exec(p, sem, st, r), Perform(f, s, m0, fuel).value.m, r[|r| - 1]);
  }

  lemma LeadsTracked(p: Program, pl: Plan, sem: Semantics, st: State, m0: Machine, d: Config) returns (r: seq<Point>)
    requires Setting(p, pl, st, m0) && Leads(pl, MeaningOf(sem), Config(0, 0, m0), d)
    ensures Tracks(p, pl, sem, st, m0, r, d)
  {
    var n: nat :| Iterate(Stepper(pl, MeaningOf(sem)), Config(0, 0, m0), n) == Some(d);
    StartTracked(p, pl, sem, st, m0);
    r := StepsTracked(p, pl, sem, st, m0, [Point(0, 0)], Config(0, 0, m0), n);
  }

  lemma EnvHolds(p: Program, pl: Plan, y: Loc, d: Config, s: State, m: Machine, z: Point)
    requires Built(p, pl) && Sized(p, pl, y.b) && y.k < |pl.body[y.b]| && z == Point(y.b, |pl.args[y.b]| + y.k)
    requires At(y, d, m) && Alike(p, EnvAt(p, pl, z), s, d.m)
    ensures Holds(p, pl, y, s, m)
  {
    EnvBefore(p, pl, z, y.k);
  }

  // ---- there is one such run ----------------------------------------------------------------------

  /** The jumps leave no choice: two runs of the same length that obey them are the same. */
  lemma {:induction false} OneRun(p: Program, pl: Plan, sem: Semantics, st: State, q: seq<Point>, r: seq<Point>)
    requires Complete(p, pl) && Placed(p) && |st.env| == |p.ops|
    requires IsRun(Points(p), q) && IsRun(Points(p), r) && |q| == |r| && Obeys(p, sem, st, q) && Obeys(p, sem, st, r)
    ensures q == r
    decreases |r|
  {
    var n := |r| - 1;
    if n > 0 {
      OneRun(p, pl, sem, st, q[..n], r[..n]);
      assert q[..n] == r[..n] && q[n - 1] == q[..n][n - 1] && r[n - 1] == r[..n][n - 1];
      assert (q[n - 1], q[n - 1 + 1]) in Points(p).edges && (r[n - 1], r[n - 1 + 1]) in Points(p).edges;
      OneNext(p, pl, r[..n], Exec(p, sem, st, r[..n]).env, q[n], r[n]);
    }
    SameLast(q, r);
  }

  lemma SameLast<T>(q: seq<T>, r: seq<T>)
    requires q != [] && |q| == |r| && q[..|q| - 1] == r[..|r| - 1] && q[|q| - 1] == r[|r| - 1]
    ensures q == r
  {
    assert q == q[..|q| - 1] + [q[|q| - 1]] && r == r[..|r| - 1] + [r[|r| - 1]];
  }

  lemma OneNext(p: Program, pl: Plan, r: seq<Point>, env: seq<Word>, x: Point, y: Point)
    requires Complete(p, pl) && IsRun(Points(p), r)
    requires (r[|r| - 1], x) in Points(p).edges && (r[|r| - 1], y) in Points(p).edges
    requires x.i == 0 ==> Chooses(p, r[|r| - 1].b, env, x.b)
    requires y.i == 0 ==> Chooses(p, r[|r| - 1].b, env, y.b)
    ensures x == y
  {
    var z := r[|r| - 1];
    PointSized(p, pl, r);
    assert Ended(pl, z.b);
    LastInstr(p, pl, z.b);
  }
}
