/** The state of the jumpShuffle lambda in Proc::allocRegs (src/opt-ra.cpp), the machine code
    it stands for, and what every step keeps. */
module ShuffleState {
  import opened RenameMap
  import opened Words

  type OpId = nat
  const NoVal: nat := 0xffff

  /** How a value came about: before the shuffle, or by an op that the shuffle emits. */
  datatype Origin =
    | Given
    | Move(src: OpId)                      // rename
    | Load(src: OpId)                      // reload from the stack slot of src
    | Remat(src: OpId, of_: OpId)          // recompute of_, which src is known to equal

  datatype RaOp = RaOp(
    origin: Origin,
    reg: nat,             // output register, nregs if it has none
    mask: set<nat>,       // registers that can hold its type
    outMask: set<nat>,    // registers the op itself can write
    canRemat: bool,       // can be recomputed here as far as flags and memory version go
    ins: seq<OpId>,
    isPhi: bool)

  /** The facts about values that the shuffle takes for granted: what each original value is,
      that every slot holds its value, and how recomputation works. */
  datatype Oracle = Oracle(
    val: seq<Word>,                        // per original op
    slot: seq<Word>,                       // per original op, its stack slot
    compute: (OpId, seq<Word>) -> Word)

  ghost predicate OracleOk(o: Oracle, ops: seq<RaOp>) {
    && |o.val| <= |ops| && o.slot == o.val
    && forall v :: 0 <= v < |o.val| ==>
         && ops[v].origin == Given
         && (forall k :: 0 <= k < |ops[v].ins| ==> ops[v].ins[k] < |o.val|)
         && (ops[v].canRemat ==> o.val[v] == o.compute(v, Values(o, ops[v].ins)))
  }

  ghost function Values(o: Oracle, ins: seq<OpId>): seq<Word>
  {
    seq(|ins|, k requires 0 <= k < |ins| => if ins[k] < |o.val| then o.val[ins[k]] else 0)
  }

  /** Emitted ops refer to older ones. */
  ghost predicate Emitted(o: Oracle, ops: seq<RaOp>, v: OpId)
    requires v < |ops|
  {
    match ops[v].origin
    case Given => v < |o.val|
    case Move(s) => s < v
    case Load(s) => s < |o.val| && s < v
    case Remat(s, x) => s < |o.val| && x < |o.val| && x < |ops| && s < v && o.val[x] == o.val[s] && ops[x].canRemat
  }

  ghost predicate OpsOk(o: Oracle, ops: seq<RaOp>) {
    OracleOk(o, ops) && forall v :: 0 <= v < |ops| ==> Emitted(o, ops, v)
  }

  /** The value that an op stands for. */
  ghost function ValueOf(o: Oracle, ops: seq<RaOp>, v: OpId): Word
    requires OpsOk(o, ops) && v < |ops|
    decreases v
  {
    assert Emitted(o, ops, v);
    match ops[v].origin
    case Given => o.val[v]
    case Move(s) => ValueOf(o, ops, s)
    case Load(s) => o.val[s]
    case Remat(s, x) => o.val[s]
  }

  lemma {:induction false} ValueStable(o: Oracle, ops: seq<RaOp>, ops': seq<RaOp>, v: OpId)
    requires OpsOk(o, ops) && OpsOk(o, ops') && ops <= ops' && v < |ops|
    ensures ValueOf(o, ops', v) == ValueOf(o, ops, v)
    decreases v
  {
    assert Emitted(o, ops, v);
    if ops[v].origin.Move? {
      ValueStable(o, ops, ops', ops[v].origin.src);
    }
  }

  // ---- the machine code ---------------------------------------------------------------

  type RegFile = seq<Word>

  function Read(r: RegFile, i: nat): Word {
    if i < |r| then r[i] else 0
  }

  function Write(r: RegFile, i: nat, w: Word): RegFile {
    if i < |r| then r[i := w] else r
  }

  /** What the emitter produces for one op: a register copy, a load from the slot, or the op
      recomputed from the registers its operands were given. */
  ghost function RunOp(o: Oracle, ops: seq<RaOp>, v: OpId, r: RegFile): (r': RegFile)
    requires OpsOk(o, ops) && v < |ops|
    ensures |r'| == |r|
  {
    assert Emitted(o, ops, v);
    match ops[v].origin
    case Given => r
    case Move(s) => Write(r, ops[v].reg, Read(r, ops[s].reg))
    case Load(s) => Write(r, ops[v].reg, o.slot[s])
    case Remat(_, x) => Write(r, ops[v].reg, o.compute(x, ReadAll(o, ops, ops[x].ins, r)))
  }

  ghost function ReadAll(o: Oracle, ops: seq<RaOp>, ins: seq<OpId>, r: RegFile): seq<Word> {
    seq(|ins|, k requires 0 <= k < |ins| => if ins[k] < |ops| then Read(r, ops[ins[k]].reg) else 0)
  }

  ghost function RunCode(o: Oracle, ops: seq<RaOp>, code: seq<OpId>, r: RegFile): (r': RegFile)
    requires OpsOk(o, ops) && forall k :: 0 <= k < |code| ==> code[k] < |ops|
    ensures |r'| == |r|
  {
    if code == [] then r
    else RunOp(o, ops, code[|code| - 1], RunCode(o, ops, code[..|code| - 1], r))
  }

  /** Ops added later do not change what earlier code does. */
  lemma {:induction false} RunStable(o: Oracle, ops: seq<RaOp>, ops': seq<RaOp>, code: seq<OpId>, r: RegFile)
    requires OpsOk(o, ops) && OpsOk(o, ops') && ops <= ops' && forall k :: 0 <= k < |code| ==> code[k] < |ops|
    ensures RunCode(o, ops', code, r) == RunCode(o, ops, code, r)
  {
    if code != [] {
      var n := |code| - 1;
      RunStable(o, ops, ops', code[..n], r);
      var v, rr := code[n], RunCode(o, ops, code[..n], r);
      assert Emitted(o, ops, v);
      if ops[v].origin.Remat? {
        var x := ops[v].origin.of_;
        assert ops'[x] == ops[x];
        assert ReadAll(o, ops', ops[x].ins, rr) == ReadAll(o, ops, ops[x].ins, rr);
      }
    }
  }

  // ---- what every step keeps ----------------------------------------------------------

  datatype Regs = Regs(
    ops: seq<RaOp>,
    s: seq<OpId>,          // sregs: the value in each register now
    t: seq<OpId>,          // tregs: the value each register must end up with
    code: seq<OpId>,       // ops emitted so far
    ren: seq<Entry>)       // the rename map

  /** What the shuffle has to reach: registers at the start, values wanted at the end. */
  datatype Goal = Goal(
    o: Oracle,
    want: seq<OpId>,       // targets, all original values
    r0: RegFile,
    s0: seq<OpId>,         // sregs at the start
    ops0: seq<RaOp>)       // ops at the start

  ghost predicate Base(k: Goal, st: Regs) {
    && OpsOk(k.o, st.ops) && |st.s| == |st.t| == |k.want| == |k.r0|
    && (forall i :: 0 <= i < |st.code| ==> st.code[i] < |st.ops|)
    && |st.ops| <= NoVal
  }

  ghost function Now(k: Goal, st: Regs): (r: RegFile)
    requires Base(k, st)
    ensures |r| == |k.r0|
  {
    RunCode(k.o, st.ops, st.code, k.r0)
  }

  /** Each register that is not free holds the value it is said to hold. */
  ghost predicate Holds(k: Goal, st: Regs)
    requires Base(k, st)
  {
    forall r :: 0 <= r < |st.s| && st.s[r] != NoVal ==>
      st.s[r] < |st.ops| && Now(k, st)[r] == ValueOf(k.o, st.ops, st.s[r])
  }

  /** Each target still stands for the value wanted there. */
  ghost predicate Wants(k: Goal, st: Regs)
    requires Base(k, st)
  {
    forall r :: 0 <= r < |st.t| ==>
      && (st.t[r] == NoVal <==> k.want[r] == NoVal)
      && (st.t[r] != NoVal ==> StandsFor(k, st, st.t[r], k.want[r]))
  }

  ghost predicate StandsFor(k: Goal, st: Regs, v: OpId, w: OpId)
    requires Base(k, st)
  {
    && v < |st.ops| && w < |k.o.val|
    && ValueOf(k.o, st.ops, v) == k.o.val[w]
    && (v < |k.o.val| ==> v == w)
  }

  predicate InPlace(st: Regs, r: nat)
    requires r < |st.s| && |st.s| == |st.t|
  {
    st.t[r] == NoVal || st.s[r] == st.t[r]
  }

  ghost predicate OnlyTarget(t: seq<OpId>, r: nat)
    requires r < |t|
  {
    forall q :: 0 <= q < |t| && t[q] == t[r] ==> q == r
  }

  /** v sits in a register where nothing is wanted. */
  ghost predicate Parked(s: seq<OpId>, t: seq<OpId>, v: OpId)
    requires |s| == |t|
  {
    exists q :: 0 <= q < |s| && s[q] == v && t[q] == NoVal
  }

  /** A renamed target is wanted by one register only, and is either in that register or
      parked where nothing is wanted. */
  ghost predicate FreshTargets(k: Goal, st: Regs)
    requires |st.s| == |st.t|
  {
    forall r :: 0 <= r < |st.t| && st.t[r] != NoVal && st.t[r] >= |k.o.val| ==>
      OnlyTarget(st.t, r) && (st.s[r] == st.t[r] || Parked(st.s, st.t, st.t[r]))
  }

  /** While values are being moved, an op is in the register it was given, so no value is in
      two registers, and every value held is still wanted. */
  ghost predicate Moving(st: Regs)
    requires |st.s| == |st.t|
  {
    forall r :: 0 <= r < |st.s| && st.s[r] != NoVal ==>
      && st.s[r] < |st.ops| && st.ops[st.s[r]].reg == r
      && exists q :: 0 <= q < |st.t| && st.t[q] == st.s[r]
  }

  /** Renaming never changes a value. */
  ghost predicate RenamesOk(k: Goal, st: Regs)
    requires Base(k, st)
  {
    forall i :: 0 <= i < |st.ren| ==>
      && st.ren[i].src < |st.ops| && |k.o.val| <= st.ren[i].dst < |st.ops|
      && ValueOf(k.o, st.ops, st.ren[i].src) == ValueOf(k.o, st.ops, st.ren[i].dst)
  }

  ghost predicate Kept(k: Goal, st: Regs) {
    Base(k, st) && Holds(k, st) && Wants(k, st) && FreshTargets(k, st) && RenamesOk(k, st)
  }

  // ---- termination --------------------------------------------------------------------

  /** An original target goes to a renamed one that is parked, then to one in place; it never
      goes back. */
  function Weight(n0: nat, s: OpId, t: OpId): nat {
    if t == NoVal then 0 else if t < n0 then 2 else if s == t then 0 else 1
  }

  function Work(n0: nat, s: seq<OpId>, t: seq<OpId>): nat
    requires |s| == |t|
  {
    if s == [] then 0 else Work(n0, s[..|s| - 1], t[..|t| - 1]) + Weight(n0, s[|s| - 1], t[|t| - 1])
  }

  /** If no register gets heavier and one gets lighter, there is less work left. */
  lemma {:induction false} LessWork(n0: nat, s: seq<OpId>, t: seq<OpId>, s': seq<OpId>, t': seq<OpId>, at: nat)
    requires |s| == |t| == |s'| == |t'|
    requires forall r :: 0 <= r < |s| ==> Weight(n0, s'[r], t'[r]) <= Weight(n0, s[r], t[r])
    ensures Work(n0, s', t') <= Work(n0, s, t)
    ensures at < |s| && Weight(n0, s'[at], t'[at]) < Weight(n0, s[at], t[at]) ==> Work(n0, s', t') < Work(n0, s, t)
  {
    if s != [] {
      var n := |s| - 1;
      forall r | 0 <= r < n
        ensures Weight(n0, s'[..n][r], t'[..n][r]) <= Weight(n0, s[..n][r], t[..n][r])
      {
        assert Weight(n0, s'[r], t'[r]) <= Weight(n0, s[r], t[r]);
      }
      LessWork(n0, s[..n], t[..n], s'[..n], t'[..n], at);
    }
  }

  lemma {:induction false} WorkBound(n0: nat, s: seq<OpId>, t: seq<OpId>)
    requires |s| == |t|
    ensures Work(n0, s, t) <= 2 * |s|
  {
    if s != [] {
      WorkBound(n0, s[..|s| - 1], t[..|t| - 1]);
    }
  }

  // ---- the two kinds of move ----------------------------------------------------------

  /** Emit a rename of the value in register `from` into register `to`, for target `at`. */
  function MoveTo(st: Regs, at: nat, from: nat, to: nat): Regs
    requires at < |st.t| && from < |st.s| && to < |st.s| && st.s[from] < |st.ops|
  {
    var v, rr := st.s[from], |st.ops|;
    var op := st.ops[v].(origin := Move(v), reg := to, ins := [v], canRemat := false, isPhi := false);
    Regs(st.ops + [op], st.s[to := rr][from := NoVal], st.t[at := rr], st.code + [rr], st.ren + [Entry(v, rr)])
  }

  lemma AppendOp(k: Goal, st: Regs, op: RaOp)
    requires Base(k, st) && |st.ops| < NoVal
    requires Emitted(k.o, st.ops + [op], |st.ops|)
    ensures OpsOk(k.o, st.ops + [op])
    ensures forall v :: 0 <= v < |st.ops| ==> ValueOf(k.o, st.ops + [op], v) == ValueOf(k.o, st.ops, v)
    ensures RunCode(k.o, st.ops + [op], st.code, k.r0) == Now(k, st)
    ensures RunCode(k.o, st.ops + [op], st.code + [|st.ops|], k.r0) == RunOp(k.o, st.ops + [op], |st.ops|, Now(k, st))
  {
    var next := st.ops + [op];
    forall v | 0 <= v < |next| ensures Emitted(k.o, next, v) {
      if v < |st.ops| {
        assert Emitted(k.o, st.ops, v);
      }
    }
    forall v | 0 <= v < |st.ops| ensures ValueOf(k.o, next, v) == ValueOf(k.o, st.ops, v) {
      ValueStable(k.o, st.ops, next, v);
    }
    RunStable(k.o, st.ops, next, st.code, k.r0);
    assert (st.code + [|st.ops|])[..|st.code|] == st.code;
  }

  /** When a move may be made: the value is wanted in register `at`, is in `from`, and goes
      to `at` itself or to a register that is free now and stays free. */
  ghost predicate CanMove(st: Regs, at: nat, from: nat, to: nat)
    requires |st.s| == |st.t|
  {
    && at < |st.t| && from < |st.s| && to < |st.s|
    && st.t[at] != NoVal && st.s[at] != st.t[at] && st.s[from] == st.t[at]
    && (to == at || (st.s[to] == NoVal && st.t[to] == NoVal))
  }

  lemma MoveRuns(k: Goal, st: Regs, at: nat, from: nat, to: nat)
    requires Kept(k, st) && Moving(st) && CanMove(st, at, from, to) && |st.ops| < NoVal
    ensures var next, rr := MoveTo(st, at, from, to), |st.ops|;
            && Base(k, next)
            && (forall v :: 0 <= v < |st.ops| ==> ValueOf(k.o, next.ops, v) == ValueOf(k.o, st.ops, v))
            && ValueOf(k.o, next.ops, rr) == ValueOf(k.o, st.ops, st.s[from])
            && Now(k, next) == Now(k, st)[to := ValueOf(k.o, st.ops, st.s[from])]
  {
    var next := MoveTo(st, at, from, to);
    AppendOp(k, st, next.ops[|st.ops|]);
  }

  lemma MoveHolds(k: Goal, st: Regs, at: nat, from: nat, to: nat)
    requires Kept(k, st) && Moving(st) && CanMove(st, at, from, to) && |st.ops| < NoVal
    ensures var next := MoveTo(st, at, from, to); Base(k, next) && Holds(k, next)
  {
    MoveRuns(k, st, at, from, to);
  }

  lemma MoveRenames(k: Goal, st: Regs, at: nat, from: nat, to: nat)
    requires Kept(k, st) && Moving(st) && CanMove(st, at, from, to) && |st.ops| < NoVal
    ensures var next := MoveTo(st, at, from, to); Base(k, next) && RenamesOk(k, next)
  {
    MoveRuns(k, st, at, from, to);
  }

  lemma MoveWants(k: Goal, st: Regs, at: nat, from: nat, to: nat)
    requires Kept(k, st) && Moving(st) && CanMove(st, at, from, to) && |st.ops| < NoVal
    ensures var next := MoveTo(st, at, from, to); Base(k, next) && Wants(k, next)
  {
    var next := MoveTo(st, at, from, to);
    MoveRuns(k, st, at, from, to);
    forall r | 0 <= r < |next.t| && next.t[r] != NoVal ensures StandsFor(k, next, next.t[r], k.want[r]) {
      assert StandsFor(k, st, st.t[r], k.want[r]);
    }
  }

  lemma MoveFresh(k: Goal, st: Regs, at: nat, from: nat, to: nat)
    requires Base(k, st) && Wants(k, st) && FreshTargets(k, st) && CanMove(st, at, from, to)
    requires st.s[from] < |st.ops|
    ensures FreshTargets(k, MoveTo(st, at, from, to))
  {
    var next := MoveTo(st, at, from, to);
    forall r | 0 <= r < |next.t| && next.t[r] != NoVal && next.t[r] >= |k.o.val|
      ensures OnlyTarget(next.t, r) && (next.s[r] == next.t[r] || Parked(next.s, next.t, next.t[r]))
    {
      TargetsOld(k, st);
      if r == at {
        assert next.s[to] == next.t[r];
      } else {
        FreshElsewhere(k, st, at, from, to, r);
      }
    }
  }

  lemma TargetsOld(k: Goal, st: Regs)
    requires Base(k, st) && Wants(k, st)
    ensures forall q :: 0 <= q < |st.t| && st.t[q] != NoVal ==> st.t[q] < |st.ops|
  {
    forall q | 0 <= q < |st.t| && st.t[q] != NoVal ensures st.t[q] < |st.ops| {
      assert StandsFor(k, st, st.t[q], k.want[q]);
    }
  }

  lemma FreshElsewhere(k: Goal, st: Regs, at: nat, from: nat, to: nat, r: nat)
    requires Base(k, st) && CanMove(st, at, from, to) && st.s[from] < |st.ops|
    requires r < |st.t| && r != at && st.t[r] != NoVal && st.t[r] < |st.ops|
    requires OnlyTarget(st.t, r) && (st.s[r] == st.t[r] || Parked(st.s, st.t, st.t[r]))
    ensures var next := MoveTo(st, at, from, to);
            OnlyTarget(next.t, r) && (next.s[r] == next.t[r] || Parked(next.s, next.t, next.t[r]))
  {
    var next := MoveTo(st, at, from, to);
    if st.s[r] != st.t[r] {
      var q :| 0 <= q < |st.t| && st.s[q] == st.t[r] && st.t[q] == NoVal;
      assert next.s[q] == next.t[r] && next.t[q] == NoVal;
    }
  }

  lemma MoveMoving(k: Goal, st: Regs, at: nat, from: nat, to: nat)
    requires Kept(k, st) && Moving(st) && CanMove(st, at, from, to)
    ensures Moving(MoveTo(st, at, from, to))
  {
    var next := MoveTo(st, at, from, to);
    forall r | 0 <= r < |next.s| && next.s[r] != NoVal
      ensures next.s[r] < |next.ops| && next.ops[next.s[r]].reg == r
      ensures exists q :: 0 <= q < |next.t| && next.t[q] == next.s[r]
    {
      if r == to {
        assert next.t[at] == next.s[r];
      } else {
        var q :| 0 <= q < |st.t| && st.t[q] == st.s[r];
        assert q != at;
        assert next.t[q] == next.s[r];
      }
    }
  }

  lemma MoveLightens(k: Goal, st: Regs, at: nat, from: nat, to: nat)
    requires Base(k, st) && FreshTargets(k, st) && CanMove(st, at, from, to) && st.s[from] < |st.ops|
    requires to == at || st.t[at] < |k.o.val|
    ensures var next := MoveTo(st, at, from, to);
            Work(|k.o.val|, next.s, next.t) < Work(|k.o.val|, st.s, st.t)
  {
    var next := MoveTo(st, at, from, to);
    forall r | 0 <= r < |st.s| ensures Weight(|k.o.val|, next.s[r], next.t[r]) <= Weight(|k.o.val|, st.s[r], st.t[r]) {
      if r != at && st.t[r] != NoVal && st.t[r] >= |k.o.val| && st.s[r] == st.t[r] {
        assert r != from && r != to;
      }
    }
    LessWork(|k.o.val|, st.s, st.t, next.s, next.t, at);
  }

  /** A move keeps everything. */
  lemma MoveKeeps(k: Goal, st: Regs, at: nat, from: nat, to: nat)
    requires Kept(k, st) && Moving(st) && CanMove(st, at, from, to) && |st.ops| < NoVal
    requires to == at || st.t[at] < |k.o.val|
    ensures var next := MoveTo(st, at, from, to);
            && Kept(k, next) && Moving(next)
  {
    var next := MoveTo(st, at, from, to);
    MoveHolds(k, st, at, from, to);
    MoveRenames(k, st, at, from, to);
    MoveWants(k, st, at, from, to);
    MoveFresh(k, st, at, from, to);
    MoveMoving(k, st, at, from, to);
  }

  /** Nothing has gone through memory so far. */
  ghost predicate NoReloads(st: Regs) {
    forall i :: 0 <= i < |st.code| && st.code[i] < |st.ops| ==> st.ops[st.code[i]].origin.Move?
  }

  lemma MoveReloadsNothing(k: Goal, st: Regs, at: nat, from: nat, to: nat)
    requires Base(k, st) && NoReloads(st) && at < |st.t| && from < |st.s| && to < |st.s| && st.s[from] < |st.ops|
    ensures NoReloads(MoveTo(st, at, from, to))
  {
  }

  // ---- which values are renamed -------------------------------------------------------

  /** v is wanted in a register that does not hold it at the start. */
  ghost predicate Misplaced(k: Goal, v: OpId)
    requires |k.s0| == |k.want|
  {
    exists q :: 0 <= q < |k.want| && k.want[q] == v && k.s0[q] != v
  }

  ghost predicate Renames(st: Regs, v: OpId) {
    exists i :: 0 <= i < |st.ren| && st.ren[i].src == v
  }

  /** The original ops are as they were; only misplaced originals are renamed; an original
      that waits is misplaced; and a misplaced original is renamed or waits. */
  ghost predicate Traced(k: Goal, st: Regs) {
    && |st.s| == |st.t| == |k.want| == |k.s0|
    && |k.ops0| == |k.o.val| && k.ops0 <= st.ops
    && (forall i :: 0 <= i < |st.ren| && st.ren[i].src < |k.o.val| ==> Misplaced(k, st.ren[i].src))
    && (forall r :: 0 <= r < |st.t| ==> WaitsMisplaced(k, st, r) && RenamedOrWaits(k, st, r))
  }

  ghost predicate WaitsMisplaced(k: Goal, st: Regs, r: nat)
    requires |st.s| == |st.t| == |k.want| == |k.s0| && r < |st.t|
  {
    k.want[r] != NoVal && st.t[r] == k.want[r] && st.s[r] != st.t[r] ==> Misplaced(k, k.want[r])
  }

  ghost predicate RenamedOrWaits(k: Goal, st: Regs, r: nat)
    requires |st.s| == |st.t| == |k.want| == |k.s0| && r < |st.t|
  {
    k.want[r] != NoVal && k.s0[r] != k.want[r] && !Renames(st, k.want[r]) ==>
      st.t[r] == k.want[r] && st.s[r] != st.t[r]
  }

  lemma RenamesMore(st: Regs, next: Regs, e: Entry)
    requires next.ren == st.ren + [e]
    ensures forall v :: Renames(next, v) <==> Renames(st, v) || v == e.src
  {
    forall v ensures Renames(next, v) <==> Renames(st, v) || v == e.src {
      if Renames(st, v) {
        var i :| 0 <= i < |st.ren| && st.ren[i].src == v;
        assert next.ren[i].src == v;
      }
      assert next.ren[|st.ren|] == e;
    }
  }

  lemma MoveTraced(k: Goal, st: Regs, at: nat, from: nat, to: nat)
    requires Base(k, st) && Wants(k, st) && Traced(k, st) && CanMove(st, at, from, to) && st.s[from] < |st.ops|
    ensures Traced(k, MoveTo(st, at, from, to))
  {
    var next, v := MoveTo(st, at, from, to), st.t[at];
    assert StandsFor(k, st, v, k.want[at]);
    assert WaitsMisplaced(k, st, at);
    RenamesMore(st, next, Entry(v, |st.ops|));
    forall r | 0 <= r < |st.t| ensures WaitsMisplaced(k, next, r) && RenamedOrWaits(k, next, r) {
      assert WaitsMisplaced(k, st, r) && RenamedOrWaits(k, st, r);
      assert (st.t[r] == NoVal) == (k.want[r] == NoVal);
    }
  }

  lemma RestoreTraced(k: Goal, st: Regs, at: nat, op: RaOp)
    requires Kept(k, st) && Waiting(k, st) && Traced(k, st) && at < |st.t| && !InPlace(st, at)
    ensures Traced(k, RestoreTo(st, at, op))
  {
    var next, v := RestoreTo(st, at, op), st.t[at];
    assert StandsFor(k, st, v, k.want[at]);
    assert WaitsMisplaced(k, st, at);
    RenamesMore(st, next, Entry(v, |st.ops|));
    forall r | 0 <= r < |st.t| ensures WaitsMisplaced(k, next, r) && RenamedOrWaits(k, next, r) {
      assert WaitsMisplaced(k, st, r) && RenamedOrWaits(k, st, r);
    }
  }

  /** In the end exactly the misplaced originals have been renamed. */
  lemma RenamedAreMisplaced(k: Goal, st: Regs, v: OpId)
    requires Base(k, st) && Traced(k, st) && v < |k.o.val|
    requires forall r :: 0 <= r < |st.t| ==> InPlace(st, r)
    ensures Renames(st, v) <==> Misplaced(k, v)
  {
    if Renames(st, v) {
      var i :| 0 <= i < |st.ren| && st.ren[i].src == v;
    }
    if Misplaced(k, v) {
      var q :| 0 <= q < |k.want| && k.want[q] == v && k.s0[q] != v;
      assert RenamedOrWaits(k, st, q) && InPlace(st, q);
    }
  }

  // ---- what moves can do to values and targets ----------------------------------------

  /** r gets its value by a move: its target has been renamed. */
  predicate Moved(n0: nat, t: seq<OpId>, r: nat) {
    r < |t| && t[r] != NoVal && t[r] >= n0
  }

  /** r starts with the value it wants, and no other register wants it. */
  predicate Settled(s0: seq<OpId>, want: seq<OpId>, r: nat) {
    r < |want| == |s0| && want[r] != NoVal && s0[r] == want[r] && forall q :: 0 <= q < |want| && want[q] == want[r] ==> q == r
  }

  ghost predicate OwnRegs(k: Goal) {
    forall r :: 0 <= r < |k.s0| && k.s0[r] < |k.ops0| ==> k.ops0[k.s0[r]].reg == r
  }

  /** An original name is only where it was. */
  ghost predicate HeldStill(k: Goal, st: Regs)
    requires |st.s| == |k.s0|
  {
    forall r :: 0 <= r < |st.s| && st.s[r] < |k.o.val| ==> st.s[r] == k.s0[r]
  }

  /** If a register gets its value by a move, the original name of that value is gone, and the
      value started elsewhere. */
  ghost predicate MovedFrom(k: Goal, st: Regs, r: nat)
    requires |st.s| == |st.t| == |k.want| == |k.s0| && r < |st.t|
  {
    Moved(|k.o.val|, st.t, r) ==> k.want[r] !in st.s && k.want[r] in k.s0 && k.s0[r] != k.want[r]
  }

  /** Only one register gets a value by a move. */
  ghost predicate MovedOnce(k: Goal, st: Regs)
    requires |st.t| == |k.want|
  {
    forall q, r :: 0 <= q < r < |st.t| && Moved(|k.o.val|, st.t, q) && Moved(|k.o.val|, st.t, r) ==> k.want[q] != k.want[r]
  }

  /** What is settled at the start stays. */
  ghost predicate SettledStill(k: Goal, st: Regs, r: nat)
    requires |st.s| == |st.t| == |k.want| == |k.s0| && r < |st.t|
  {
    Settled(k.s0, k.want, r) ==> st.s[r] == k.want[r] && st.t[r] == k.want[r]
  }

  ghost predicate Drift(k: Goal, st: Regs)
    requires |st.s| == |st.t| == |k.want| == |k.s0|
  {
    && OwnRegs(k) && HeldStill(k, st) && MovedOnce(k, st)
    && (forall r :: 0 <= r < |st.t| ==> MovedFrom(k, st, r) && SettledStill(k, st, r))
  }

  lemma MoveDrifts(k: Goal, st: Regs, at: nat, from: nat, to: nat)
    requires Base(k, st) && Wants(k, st) && Moving(st) && Traced(k, st) && Drift(k, st) && CanMove(st, at, from, to)
    requires st.s[from] < |st.ops|
    ensures Drift(k, MoveTo(st, at, from, to))
  {
    var next := MoveTo(st, at, from, to);
    assert StandsFor(k, st, st.t[at], k.want[at]);
    if st.t[at] < |k.o.val| {
      OriginalMoves(k, st, at, from);
    }
    forall r | 0 <= r < |st.t| ensures MovedFrom(k, next, r) && SettledStill(k, next, r) {
      assert MovedFrom(k, st, r) && SettledStill(k, st, r) && MovedFrom(k, st, at);
      MoveDriftsAt(k, st, at, from, to, r);
    }
  }

  lemma MoveDriftsAt(k: Goal, st: Regs, at: nat, from: nat, to: nat, r: nat)
    requires Base(k, st) && Wants(k, st) && |st.s| == |k.s0| && HeldStill(k, st) && CanMove(st, at, from, to) && r < |st.t|
    requires MovedFrom(k, st, r) && SettledStill(k, st, r) && MovedFrom(k, st, at)
    requires st.s[from] < |st.ops| && |k.o.val| <= |st.ops|
    requires st.t[at] < |k.o.val| ==> k.want[at] == st.t[at] && k.s0[from] == st.t[at] && k.s0[at] != st.t[at]
    requires st.t[at] < |k.o.val| ==> forall q :: 0 <= q < |st.s| && st.s[q] == st.t[at] ==> q == from
    ensures MovedFrom(k, MoveTo(st, at, from, to), r) && SettledStill(k, MoveTo(st, at, from, to), r)
  {
    var next := MoveTo(st, at, from, to);
    if Moved(|k.o.val|, next.t, r) {
      assert StandsFor(k, st, st.t[r], k.want[r]);
      assert forall q :: 0 <= q < |next.s| ==> next.s[q] == |st.ops| || next.s[q] == NoVal || next.s[q] == st.s[q];
    }
  }

  /** When an original name is moved, it disappears. */
  lemma OriginalMoves(k: Goal, st: Regs, at: nat, from: nat)
    requires Base(k, st) && Wants(k, st) && Moving(st) && Traced(k, st) && Drift(k, st)
    requires at < |st.t| && from < |st.s| && st.t[at] != NoVal && st.s[at] != st.t[at] && st.s[from] == st.t[at] && st.t[at] < |k.o.val|
    ensures k.want[at] == st.t[at] && k.s0[from] == st.t[at] && k.s0[at] != st.t[at]
    ensures forall q :: 0 <= q < |st.s| && st.s[q] == st.t[at] ==> q == from
    ensures forall r :: 0 <= r < |st.t| && Moved(|k.o.val|, st.t, r) ==> k.want[r] != st.t[at]
  {
    assert StandsFor(k, st, st.t[at], k.want[at]);
    forall r | 0 <= r < |st.t| && Moved(|k.o.val|, st.t, r) ensures k.want[r] != st.t[at] {
      assert MovedFrom(k, st, r);
    }
  }

  // ---- between moves ------------------------------------------------------------------

  /** The state between two moves, with room for all ops that may still be needed. */
  ghost predicate InMoves(k: Goal, st: Regs) {
    Kept(k, st) && Moving(st) && NoReloads(st) && Traced(k, st) && Drift(k, st) && |st.ops| + Work(|k.o.val|, st.s, st.t) + |st.s| <= NoVal
  }

  ghost function Left(k: Goal, st: Regs): nat
    requires |st.s| == |st.t|
  {
    Work(|k.o.val|, st.s, st.t)
  }

  lemma MoveStep(k: Goal, st: Regs, at: nat, from: nat, to: nat)
    requires InMoves(k, st) && CanMove(st, at, from, to)
    requires to == at || st.t[at] < |k.o.val|
    ensures st.s[from] < |st.ops|
    ensures var next := MoveTo(st, at, from, to); InMoves(k, next) && Left(k, next) < Left(k, st)
  {
    MoveLightens(k, st, at, from, to);
    MoveKeeps(k, st, at, from, to);
    MoveReloadsNothing(k, st, at, from, to);
    MoveTraced(k, st, at, from, to);
    MoveDrifts(k, st, at, from, to);
  }

  /** A value in the way of another target is an original one. */
  lemma BlockerIsOriginal(k: Goal, st: Regs, t: nat, s: nat)
    requires Kept(k, st) && Moving(st) && t < |st.t| && s < |st.s| && !InPlace(st, t)
    requires st.s[s] == st.t[t] && st.t[s] != NoVal
    ensures st.t[t] < |k.o.val| && st.t[t] < |st.ops|
  {
    assert StandsFor(k, st, st.t[t], k.want[t]);
  }

  // ---- when nothing can be moved ------------------------------------------------------

  /** The value wanted in t is there, or nowhere, or t is taken. */
  ghost predicate NoFreeMoveTo(st: Regs, t: nat)
    requires |st.s| == |st.t| && t < |st.t|
  {
    InPlace(st, t) || forall s :: 0 <= s < |st.s| && st.s[s] == st.t[t] ==> st.s[t] != NoVal
  }

  /** The value wanted in t is there, or nowhere, or where nothing else is wanted. */
  ghost predicate NoCycleAt(st: Regs, t: nat)
    requires |st.s| == |st.t| && t < |st.t|
  {
    InPlace(st, t) || forall s :: 0 <= s < |st.s| && st.s[s] == st.t[t] ==> st.t[s] == NoVal
  }

  /** No value wanted in the first n registers can be moved there without overwriting. */
  ghost predicate NoFreeMove(st: Regs, n: nat)
    requires |st.s| == |st.t| && n <= |st.t|
  {
    n == 0 || (NoFreeMove(st, n - 1) && NoFreeMoveTo(st, n - 1))
  }

  /** No value wanted in the first n registers sits where another is wanted. */
  ghost predicate NoCycle(st: Regs, n: nat)
    requires |st.s| == |st.t| && n <= |st.t|
  {
    n == 0 || (NoCycle(st, n - 1) && NoCycleAt(st, n - 1))
  }

  lemma {:induction false} StuckAt(st: Regs, n: nat, t: nat)
    requires |st.s| == |st.t| && t < n <= |st.t| && NoFreeMove(st, n) && NoCycle(st, n)
    ensures NoFreeMoveTo(st, t) && NoCycleAt(st, t)
  {
    if t < n - 1 {
      StuckAt(st, n - 1, t);
    }
  }

  lemma TakenMeansCycle(st: Regs, t: nat)
    requires |st.s| == |st.t| && Moving(st) && NoFreeMove(st, |st.t|) && NoCycle(st, |st.t|)
    requires t < |st.t| && !InPlace(st, t)
    ensures st.s[t] == NoVal
  {
    if st.s[t] != NoVal {
      var q :| 0 <= q < |st.t| && st.t[q] == st.s[t];
      StuckAt(st, |st.t|, q);
      assert false;
    }
  }

  /** Neither a free move nor a cycle is left. */
  ghost predicate Stuck(st: Regs) {
    |st.s| == |st.t| && NoFreeMove(st, |st.t|) && NoCycle(st, |st.t|)
  }

  /** The assertion left commented out before the reloads holds: once no free move and no
      cycle is left, every register still waiting for its value is free, and what it waits
      for is an original value that no register holds. */
  lemma StuckMeansFree(k: Goal, st: Regs, t: nat)
    requires Kept(k, st) && Moving(st) && Stuck(st)
    requires t < |st.t| && !InPlace(st, t)
    ensures st.s[t] == NoVal && st.t[t] < |k.o.val| && st.t[t] == k.want[t] && st.t[t] !in st.s
  {
    assert StandsFor(k, st, st.t[t], k.want[t]);
    StuckAt(st, |st.t|, t);
    TakenMeansCycle(st, t);
    assert forall q :: 0 <= q < |st.s| ==> st.s[q] != st.t[t];
  }

  // ---- restores -----------------------------------------------------------------------

  /** Every register still waiting is free and waits for an original value. */
  ghost predicate Waiting(k: Goal, st: Regs)
    requires |st.s| == |st.t|
  {
    forall r :: 0 <= r < |st.t| && !InPlace(st, r) ==> st.s[r] == NoVal && st.t[r] < |k.o.val|
  }

  /** The operands of x can be read from the registers they were given. */
  predicate InputsHeld(st: Regs, x: OpId) {
    x < |st.ops| && forall j :: 0 <= j < |st.ops[x].ins| ==> Held(st, st.ops[x].ins[j])
  }

  predicate Held(st: Regs, v: OpId) {
    v < |st.ops| && st.ops[v].reg < |st.s| && st.s[st.ops[v].reg] == v && v != NoVal
  }

  /** Emit an op that puts the value wanted in `at` there. */
  function RestoreTo(st: Regs, at: nat, op: RaOp): Regs
    requires at < |st.t| && at < |st.s|
  {
    var rr := |st.ops|;
    Regs(st.ops + [op], st.s[at := st.t[at]], st.t, st.code + [rr], st.ren + [Entry(st.t[at], rr)])
  }

  /** A reload, or a recomputation of an op known to be equal. */
  ghost predicate RestoreOp(k: Goal, st: Regs, at: nat, op: RaOp)
    requires Base(k, st) && at < |st.t|
  {
    && op.reg == at
    && match op.origin
       case Load(v) => v == st.t[at]
       case Remat(v, x) => v == st.t[at] && v < |k.o.val| && x < |k.o.val| && x < |st.ops|
                           && k.o.val[x] == k.o.val[v] && st.ops[x].canRemat && InputsHeld(st, x)
       case _ => false
  }

  lemma RestoreRuns(k: Goal, st: Regs, at: nat, op: RaOp)
    requires Kept(k, st) && Waiting(k, st) && at < |st.t| && !InPlace(st, at) && |st.ops| < NoVal
    requires RestoreOp(k, st, at, op)
    ensures var next, rr := RestoreTo(st, at, op), |st.ops|;
            && Base(k, next)
            && (forall v :: 0 <= v < |st.ops| ==> ValueOf(k.o, next.ops, v) == ValueOf(k.o, st.ops, v))
            && ValueOf(k.o, next.ops, rr) == k.o.val[st.t[at]]
            && Now(k, next) == Now(k, st)[at := k.o.val[st.t[at]]]
  {
    var next, n := RestoreTo(st, at, op), |st.ops|;
    assert StandsFor(k, st, st.t[at], k.want[at]);
    assert Emitted(k.o, next.ops, n);
    AppendOp(k, st, op);
    if op.origin.Remat? {
      RematReads(k, st, op.origin.of_);
      var x := op.origin.of_;
      assert ReadAll(k.o, next.ops, next.ops[x].ins, Now(k, st)) == ReadAll(k.o, st.ops, st.ops[x].ins, Now(k, st));
    }
  }

  /** Operands that are held read as their values. */
  lemma RematReads(k: Goal, st: Regs, x: OpId)
    requires Base(k, st) && Holds(k, st) && x < |k.o.val| && x < |st.ops| && InputsHeld(st, x)
    ensures ReadAll(k.o, st.ops, st.ops[x].ins, Now(k, st)) == Values(k.o, st.ops[x].ins)
  {
    var ins := st.ops[x].ins;
    forall j | 0 <= j < |ins|
      ensures ins[j] < |k.o.val| && Read(Now(k, st), st.ops[ins[j]].reg) == k.o.val[ins[j]]
    {
      assert Held(st, ins[j]);
      assert Emitted(k.o, st.ops, ins[j]);
    }
  }

  /** A restore keeps everything and settles one register. */
  lemma RestoreKeeps(k: Goal, st: Regs, at: nat, op: RaOp)
    requires Kept(k, st) && Waiting(k, st) && at < |st.t| && !InPlace(st, at) && |st.ops| < NoVal
    requires RestoreOp(k, st, at, op)
    ensures var next := RestoreTo(st, at, op); Kept(k, next) && Waiting(k, next) && InPlace(next, at)
  {
    var next := RestoreTo(st, at, op);
    RestoreRuns(k, st, at, op);
    forall r | 0 <= r < |next.t| && next.t[r] != NoVal ensures StandsFor(k, next, next.t[r], k.want[r]) {
      assert StandsFor(k, st, st.t[r], k.want[r]);
    }
    forall r | 0 <= r < |next.t| && next.t[r] != NoVal && next.t[r] >= |k.o.val|
      ensures OnlyTarget(next.t, r) && (next.s[r] == next.t[r] || Parked(next.s, next.t, next.t[r]))
    {
      RestoreFresh(st, next, at, r);
    }
    RestoreRenames(k, st, at, op);
  }

  lemma RestoreRenames(k: Goal, st: Regs, at: nat, op: RaOp)
    requires Kept(k, st) && Waiting(k, st) && at < |st.t| && !InPlace(st, at) && |st.ops| < NoVal
    requires RestoreOp(k, st, at, op)
    ensures var next := RestoreTo(st, at, op); Base(k, next) && RenamesOk(k, next)
  {
    RestoreRuns(k, st, at, op);
    assert StandsFor(k, st, st.t[at], k.want[at]);
  }

  lemma RestoreFresh(st: Regs, next: Regs, at: nat, r: nat)
    requires |st.s| == |st.t| && at < |st.t| && st.s[at] == NoVal && r < |st.t| && st.t[r] != NoVal
    requires next.s == st.s[at := st.t[at]] && next.t == st.t
    requires OnlyTarget(st.t, r) && (st.s[r] == st.t[r] || Parked(st.s, st.t, st.t[r]))
    ensures OnlyTarget(next.t, r) && (next.s[r] == next.t[r] || Parked(next.s, next.t, next.t[r]))
  {
    if st.s[r] != st.t[r] {
      var q :| 0 <= q < |st.t| && st.s[q] == st.t[r] && st.t[q] == NoVal;
      assert next.s[q] == next.t[r] && next.t[q] == NoVal;
    }
  }

  /** Running the emitted code leaves the wanted value in register r, and r is said to hold
      a name for it. */
  ghost predicate Delivered(k: Goal, st: Regs, r: nat)
    requires Base(k, st) && r < |k.want|
  {
    && k.want[r] < |k.o.val| && Now(k, st)[r] == k.o.val[k.want[r]]
    && st.s[r] < |st.ops| && ValueOf(k.o, st.ops, st.s[r]) == k.o.val[k.want[r]]
  }

  /** When every register is settled, running the emitted code leaves every wanted value in
      its register. */
  lemma SettledIsDone(k: Goal, st: Regs)
    requires Kept(k, st) && forall r :: 0 <= r < |st.t| ==> InPlace(st, r)
    ensures forall r :: 0 <= r < |k.want| && k.want[r] != NoVal ==> Delivered(k, st, r)
  {
    forall r | 0 <= r < |k.want| && k.want[r] != NoVal ensures Delivered(k, st, r)
    {
      assert InPlace(st, r);
      assert StandsFor(k, st, st.t[r], k.want[r]);
    }
  }

  /** Looking through degenerate phis finds an equal original op. */
  ghost predicate RootsOk(k: Goal, root: seq<OpId>) {
    |root| == |k.o.val| && forall v :: 0 <= v < |root| ==> root[v] < |k.o.val| && k.o.val[root[v]] == k.o.val[v]
  }

  /** The state of the restore loop before register t. */
  ghost predicate Restoring(k: Goal, st: Regs, t: nat) {
    && Kept(k, st) && Waiting(k, st) && Traced(k, st) && t <= |st.t|
    && (forall r :: 0 <= r < t ==> InPlace(st, r))
    && |st.ops| + |st.t| - t <= NoVal
  }

  lemma RestoreStep(k: Goal, st: Regs, at: nat, op: RaOp)
    requires Restoring(k, st, at) && at < |st.t| && !InPlace(st, at) && RestoreOp(k, st, at, op)
    ensures Restoring(k, RestoreTo(st, at, op), at + 1)
  {
    RestoreKeeps(k, st, at, op);
    RestoreTraced(k, st, at, op);
    var next := RestoreTo(st, at, op);
    forall r | 0 <= r < at + 1 ensures InPlace(next, r) {
      if r < at { assert InPlace(st, r); }
    }
  }

  lemma StuckIsRestoring(k: Goal, st: Regs)
    requires InMoves(k, st) && Stuck(st)
    ensures Restoring(k, st, 0)
  {
    forall r | 0 <= r < |st.t| && !InPlace(st, r) ensures st.s[r] == NoVal && st.t[r] < |k.o.val| {
      StuckMeansFree(k, st, r);
    }
  }

  // ---- the start ----------------------------------------------------------------------

  /** Source registers whose value is among the targets; the others are free. */
  function Needed(s: seq<OpId>, t: seq<OpId>): (r: seq<OpId>)
    ensures |r| == |s| && forall i :: 0 <= i < |s| ==> r[i] == if s[i] in t then s[i] else NoVal
  {
    seq(|s|, i requires 0 <= i < |s| => if s[i] in t then s[i] else NoVal)
  }

  /** What register allocation hands to the shuffle: original ops in the registers they were
      given, original targets, and room for three new ops per register. */
  ghost predicate Start(k: Goal, st: Regs) {
    && OracleOk(k.o, st.ops) && |k.o.val| == |st.ops| && k.ops0 == st.ops
    && |st.s| == |st.t| == |k.want| == |k.r0| && st.code == [] && st.ren == []
    && |st.ops| + 3 * |st.t| <= NoVal
    && st.t == k.want && k.s0 == st.s
    && (forall r :: 0 <= r < |k.want| && k.want[r] != NoVal ==> k.want[r] < |st.ops|)
    && (forall r :: 0 <= r < |st.s| && st.s[r] != NoVal ==>
         st.s[r] < |st.ops| && st.ops[st.s[r]].reg == r && k.r0[r] == k.o.val[st.s[r]])
  }

  lemma StartDrifts(k: Goal, st: Regs)
    requires Start(k, st)
    ensures Drift(k, st.(s := Needed(st.s, st.t)))
  {
    var next := st.(s := Needed(st.s, st.t));
    forall r | 0 <= r < |next.t| ensures MovedFrom(k, next, r) && SettledStill(k, next, r) {
    }
  }

  lemma StartIsInMoves(k: Goal, st: Regs)
    requires Start(k, st)
    ensures InMoves(k, st.(s := Needed(st.s, st.t)))
  {
    var next := st.(s := Needed(st.s, st.t));
    forall v | 0 <= v < |st.ops| ensures Emitted(k.o, st.ops, v) {
    }
    forall r | 0 <= r < |next.t| && next.t[r] != NoVal ensures StandsFor(k, next, next.t[r], k.want[r]) {
    }
    forall r | 0 <= r < |next.t| ensures WaitsMisplaced(k, next, r) && RenamedOrWaits(k, next, r) {
      if k.want[r] != NoVal && next.s[r] != next.t[r] {
        assert st.s[r] != st.t[r];
      }
    }
    WorkBound(|k.o.val|, next.s, next.t);
    StartDrifts(k, st);
  }

  // ---- the alternatives of the target -------------------------------------------------

  /** Renaming keeps the value of an alternative, and changes its name exactly when the value
      was misplaced. */
  lemma ChasedAlternative(k: Goal, st: Regs, v: OpId)
    requires Kept(k, st) && Traced(k, st) && v < |k.o.val|
    requires forall r :: 0 <= r < |st.t| ==> InPlace(st, r)
    ensures Chase(st.ren, v) < |st.ops| && ValueOf(k.o, st.ops, Chase(st.ren, v)) == k.o.val[v]
    ensures Chase(st.ren, v) == v <==> !Misplaced(k, v)
  {
    assert Emitted(k.o, st.ops, v);
    ChasedValue(k, st, st.ren, v);
    ChaseKeeps(st.ren, |k.o.val|, v);
    RenamedAreMisplaced(k, st, v);
  }

  lemma {:induction false} ChasedValue(k: Goal, st: Regs, ren: seq<Entry>, v: OpId)
    requires Base(k, st) && RenamesOk(k, st) && ren <= st.ren && v < |st.ops|
    ensures Chase(ren, v) < |st.ops| && ValueOf(k.o, st.ops, Chase(ren, v)) == ValueOf(k.o, st.ops, v)
  {
    if ren != [] {
      var n := |ren| - 1;
      ChasedValue(k, st, ren[..n], v);
      assert ren[n] == st.ren[n];
    }
  }

  // ---- all values at once ---------------------------------------------------------------

  /** What is emitted must be right for all values that the registers may hold, so the state
      is followed for a whole family of goals. */
  ghost predicate AllMoves(K: iset<Goal>, st: Regs) {
    forall k {:trigger InMoves(k, st)} :: k in K ==> InMoves(k, st)
  }

  ghost predicate AllRestoring(K: iset<Goal>, st: Regs, t: nat) {
    forall k :: k in K ==> Restoring(k, st, t)
  }

  ghost predicate AllRoots(K: iset<Goal>, root: seq<OpId>) {
    forall k :: k in K ==> RootsOk(k, root)
  }

  ghost predicate AllRestoreOp(K: iset<Goal>, st: Regs, at: nat, op: RaOp) {
    forall k :: k in K ==> Base(k, st) && at < |st.t| && RestoreOp(k, st, at, op)
  }

  ghost predicate AllStart(K: iset<Goal>, st: Regs) {
    forall k :: k in K ==> Start(k, st)
  }

  /** Every wanted value is in its register, whatever the values are. */
  ghost predicate AllDelivered(K: iset<Goal>, st: Regs) {
    forall k :: k in K ==> AllThere(k, st)
  }

  ghost predicate AllThere(k: Goal, st: Regs) {
    Base(k, st) && forall r :: 0 <= r < |k.want| && k.want[r] != NoVal ==> Delivered(k, st, r)
  }

  lemma AllStartMoves(K: iset<Goal>, st: Regs)
    requires AllStart(K, st)
    ensures AllMoves(K, st.(s := Needed(st.s, st.t)))
  {
    forall k | k in K ensures InMoves(k, st.(s := Needed(st.s, st.t))) {
      StartIsInMoves(k, st);
    }
  }

  lemma AllDone(K: iset<Goal>, st: Regs)
    requires AllRestoring(K, st, |st.t|)
    ensures AllDelivered(K, st)
  {
    forall k | k in K ensures AllThere(k, st) {
      assert Restoring(k, st, |st.t|);
      SettledIsDone(k, st);
    }
  }

  lemma AllFreeStep(K: iset<Goal>, st: Regs, at: nat, from: nat)
    requires AllMoves(K, st) && |st.s| == |st.t| && CanMove(st, at, from, at) && st.s[from] < |st.ops|
    ensures AllMoves(K, MoveTo(st, at, from, at))
  {
    forall k | k in K ensures InMoves(k, MoveTo(st, at, from, at)) {
      MoveStep(k, st, at, from, at);
    }
  }

  lemma AllBreakStep(K: iset<Goal>, st: Regs, at: nat, from: nat, to: nat)
    requires AllMoves(K, st) && |st.s| == |st.t| && CanMove(st, at, from, to) && st.s[from] < |st.ops| && st.t[from] != NoVal
    ensures AllMoves(K, MoveTo(st, at, from, to))
  {
    forall k | k in K ensures InMoves(k, MoveTo(st, at, from, to)) {
      assert InMoves(k, st);
      BlockerIsOriginal(k, st, at, from);
      MoveStep(k, st, at, from, to);
    }
  }

  lemma AllStuck(K: iset<Goal>, st: Regs)
    requires AllMoves(K, st) && Stuck(st)
    ensures AllRestoring(K, st, 0)
  {
    forall k | k in K ensures Restoring(k, st, 0) {
      StuckIsRestoring(k, st);
    }
  }

  lemma AllRestoreStep(K: iset<Goal>, st: Regs, at: nat, op: RaOp)
    requires AllRestoring(K, st, at) && at < |st.t| && at < |st.s| && |st.s| == |st.t| && !InPlace(st, at) && AllRestoreOp(K, st, at, op)
    ensures AllRestoring(K, RestoreTo(st, at, op), at + 1)
  {
    forall k | k in K ensures Restoring(k, RestoreTo(st, at, op), at + 1) {
      RestoreStep(k, st, at, op);
    }
  }

  /** A register already in place needs no restore. */
  lemma AllSkip(K: iset<Goal>, st: Regs, t: nat)
    requires AllRestoring(K, st, t) && t < |st.t| && |st.s| == |st.t| && InPlace(st, t)
    ensures AllRestoring(K, st, t + 1)
  {
    forall k | k in K ensures Restoring(k, st, t + 1) {
      assert Restoring(k, st, t);
    }
  }

  /** A chosen restore is right for every goal. */
  lemma ChosenForAll(K: iset<Goal>, st: Regs, t: nat, root: seq<OpId>, op: RaOp)
    requires AllRestoring(K, st, t) && AllRoots(K, root) && t < |st.t| && |st.s| == |st.t| && !InPlace(st, t)
    requires op.reg == t && st.t[t] < |root|
    requires op.origin == Load(st.t[t])
      || (op.origin == Remat(st.t[t], root[st.t[t]]) && root[st.t[t]] < |st.ops| && st.ops[root[st.t[t]]].canRemat && InputsHeld(st, root[st.t[t]]))
    ensures AllRestoreOp(K, st, t, op)
  {
    forall k | k in K ensures Base(k, st) && t < |st.t| && RestoreOp(k, st, t, op) {
      assert Restoring(k, st, t) && RootsOk(k, root);
      assert StandsFor(k, st, st.t[t], k.want[t]);
    }
  }
}
