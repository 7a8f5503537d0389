/** Proc::opt_reassoc (src/opt-reassoc.cpp), integer rules. */
module Reassoc {
  import opened Digraph
  import opened Ir
  import opened Words
  import opened Cfg
  import opened Ssa
  import opened Rewriting
  import Liveness
  import Renaming
  import opened UseCounts
  import opened ReassocTheory
  import opened ReassocRules
  import opened ReassocForm

  predicate IsBin(p: Program, v: OpId, f: IntOp) {
    && v < |p.ops| && p.ops[v].opcode == Bin(f) && |p.ops[v].ins| == 2
    && p.ops[v].ins[0] < |p.ops| && p.ops[v].ins[1] < |p.ops|
  }

  predicate IsImm(p: Program, v: OpId, f: IntOp) {
    v < |p.ops| && p.ops[v].opcode == BinI(f) && |p.ops[v].ins| == 1 && p.ops[v].ins[0] < |p.ops|
  }

  predicate Once(nUse: seq<nat>, v: OpId) { v < |nUse| && nUse[v] == 1 }

  /** Why an operand may take the place of another: it is defined earlier, or it is there
      already. */
  datatype Why = Earlier | Repeated

  /** What the second operand has to be. */
  datatype Second = AnyOp | Exactly(c: Opcode)

  // ---- the rules ------------------------------------------------------------------------------

  /** (b f a) -> (a f b) where b is defined before a */
  function Reorder(p: Program, dom: DomSeq, x: OpId, f: IntOp): Program {
    if IsBin(p, x, f) && FirstOpDominates(p, dom, p.ops[x].ins[0], p.ops[x].ins[1])
    then p.(ops := p.ops[x := p.ops[x].(ins := [p.ops[x].ins[1], p.ops[x].ins[0]])])
    else p
  }

  /** (a g b) f (c g d) -> (a g' c) f' (b g' d) where b is defined before c */
  function Cross(p: Program, dom: DomSeq, nUse: seq<nat>, x: OpId, f: IntOp, g: IntOp, f': IntOp, g': IntOp): Program {
    if IsBin(p, x, f) && IsBin(p, p.ops[x].ins[0], g) && IsBin(p, p.ops[x].ins[1], g)
       && Once(nUse, p.ops[x].ins[0]) && Once(nUse, p.ops[x].ins[1])
       && FirstOpDominates(p, dom, p.ops[p.ops[x].ins[0]].ins[1], p.ops[p.ops[x].ins[1]].ins[0])
    then
      var n, m := p.ops[x].ins[0], p.ops[x].ins[1];
      Edit3(p, x, p.ops[x].(opcode := Bin(f')),
            n, p.ops[n].(opcode := Bin(g'), ins := [p.ops[n].ins[0], p.ops[m].ins[0]]),
            m, p.ops[m].(opcode := Bin(g'), ins := [p.ops[n].ins[1], p.ops[m].ins[1]]))
    else p
  }

  /** x is (a g b) f y where only x uses the first operand and a is not b. */
  predicate Matches(p: Program, nUse: seq<nat>, x: OpId, f: IntOp, g: IntOp) {
    && IsBin(p, x, f) && IsBin(p, p.ops[x].ins[0], g) && Once(nUse, p.ops[x].ins[0])
    && p.ops[p.ops[x].ins[0]].ins[0] != p.ops[p.ops[x].ins[0]].ins[1]
  }

  /** (a g b) f y -> (a f y) g b */
  function Slide(p: Program, dom: DomSeq, nUse: seq<nat>, x: OpId, f: IntOp, g: IntOp, why: Why): Program {
    if Matches(p, nUse, x, f, g) then
      var n, y := p.ops[x].ins[0], p.ops[x].ins[1];
      var a, b := p.ops[n].ins[0], p.ops[n].ins[1];
      if (why.Earlier? && FirstOpDominates(p, dom, y, b)) || (why.Repeated? && a == y)
      then Edit2(p, x, p.ops[x].(opcode := Bin(g), ins := [n, b]), n, p.ops[n].(opcode := Bin(f), ins := [a, y]))
      else p
    else p
  }

  /** (a g b) f y -> (y g b) f a */
  function Turn(p: Program, dom: DomSeq, nUse: seq<nat>, x: OpId, f: IntOp, g: IntOp, why: Why): Program {
    if Matches(p, nUse, x, f, g) then
      var n, y := p.ops[x].ins[0], p.ops[x].ins[1];
      var a, b := p.ops[n].ins[0], p.ops[n].ins[1];
      if (why.Earlier? && FirstOpDominates(p, dom, y, a)) || (why.Repeated? && b == y)
      then Edit2(p, x, p.ops[x].(ins := [n, a]), n, p.ops[n].(ins := [y, b]))
      else p
    else p
  }

  /** The same where the second operand, too, is used by x only. */
  function Hoist(p: Program, dom: DomSeq, nUse: seq<nat>, x: OpId, f: IntOp, g: IntOp, second: Second): Program {
    if IsBin(p, x, f) && Once(nUse, p.ops[x].ins[1]) && (second.AnyOp? || p.ops[p.ops[x].ins[1]].opcode == second.c)
    then Turn(p, dom, nUse, x, f, g, Earlier)
    else p
  }

  /** (a + b) - y -> (b - y) + a */
  function Flip(p: Program, dom: DomSeq, nUse: seq<nat>, x: OpId): Program {
    if Matches(p, nUse, x, Sub, Add) then
      var n, y := p.ops[x].ins[0], p.ops[x].ins[1];
      var a, b := p.ops[n].ins[0], p.ops[n].ins[1];
      if FirstOpDominates(p, dom, y, a)
      then Edit2(p, x, p.ops[x].(opcode := Bin(Add), ins := [n, a]), n, p.ops[n].(opcode := Bin(Sub), ins := [b, y]))
      else p
    else p
  }

  /** (a - b) - y -> a - (y + b) */
  function Fold(p: Program, dom: DomSeq, nUse: seq<nat>, x: OpId, why: Why): Program {
    if Matches(p, nUse, x, Sub, Sub) then
      var n, y := p.ops[x].ins[0], p.ops[x].ins[1];
      var a, b := p.ops[n].ins[0], p.ops[n].ins[1];
      if (why.Earlier? && FirstOpDominates(p, dom, y, a)) || (why.Repeated? && b == y)
      then Edit2(p, x, p.ops[x].(ins := [a, n]), n, p.ops[n].(opcode := Bin(Add), ins := [y, b]))
      else p
    else p
  }

  /** a - (a - b) -> b - (a - a) */
  function Tail(p: Program, nUse: seq<nat>, x: OpId): Program {
    if IsBin(p, x, Sub) && IsBin(p, p.ops[x].ins[1], Sub) && Once(nUse, p.ops[x].ins[1]) then
      var a, n := p.ops[x].ins[0], p.ops[x].ins[1];
      if p.ops[n].ins[0] != p.ops[n].ins[1] && p.ops[n].ins[0] == a
      then Edit2(p, x, p.ops[x].(ins := [p.ops[n].ins[1], n]), n, p.ops[n].(ins := [a, a]))
      else p
    else p
  }

  /** (a g b) f C -> (a f C) g b */
  function SlideImm(p: Program, nUse: seq<nat>, x: OpId, f: IntOp, g: IntOp): Program {
    if IsImm(p, x, f) && IsBin(p, p.ops[x].ins[0], g) && Once(nUse, p.ops[x].ins[0]) then
      var n := p.ops[x].ins[0];
      Edit2(p, x, p.ops[x].(opcode := Bin(g), ins := [n, p.ops[n].ins[1]], imm := 0),
            n, p.ops[n].(opcode := BinI(f), ins := [p.ops[n].ins[0]], imm := p.ops[x].imm))
    else p
  }

  /** (a f b) f C -> (b f C) f a */
  function TurnImm(p: Program, nUse: seq<nat>, x: OpId, f: IntOp): Program {
    if IsImm(p, x, f) && IsBin(p, p.ops[x].ins[0], f) && Once(nUse, p.ops[x].ins[0])
       && p.ops[p.ops[x].ins[0]].ins[0] != p.ops[p.ops[x].ins[0]].ins[1] then
      var n := p.ops[x].ins[0];
      Edit2(p, x, p.ops[x].(opcode := Bin(f), ins := [n, p.ops[n].ins[0]], imm := p.ops[n].imm),
            n, p.ops[n].(opcode := BinI(f), ins := [p.ops[n].ins[1]], imm := p.ops[x].imm))
    else p
  }

  /** (a f C) f a -> (a f a) f C */
  function DoubleImm(p: Program, nUse: seq<nat>, x: OpId, f: IntOp): Program {
    if IsBin(p, x, f) && IsImm(p, p.ops[x].ins[0], f) && Once(nUse, p.ops[x].ins[0])
       && p.ops[x].ins[1] == p.ops[p.ops[x].ins[0]].ins[0] then
      var n, a := p.ops[x].ins[0], p.ops[x].ins[1];
      Edit2(p, x, p.ops[x].(opcode := BinI(f), ins := [n], imm := p.ops[n].imm),
            n, p.ops[n].(opcode := Bin(f), ins := [a, a], imm := p.ops[x].imm))
    else p
  }

  /** (a f C1) f (b f C2) -> ((b f C2) f C1) f a */
  function HoistImm(p: Program, nUse: seq<nat>, x: OpId, f: IntOp): Program {
    if IsBin(p, x, f) && IsImm(p, p.ops[x].ins[0], f) && IsImm(p, p.ops[x].ins[1], f)
       && Once(nUse, p.ops[x].ins[0]) && Once(nUse, p.ops[x].ins[1])
       && p.ops[p.ops[p.ops[x].ins[0]].ins[0]].opcode != BinI(f) then
      var n, m := p.ops[x].ins[0], p.ops[x].ins[1];
      Edit2(p, x, p.ops[x].(ins := [n, p.ops[n].ins[0]]), n, p.ops[n].(ins := [m]))
    else p
  }

  predicate CanCancel(p: Program, x: OpId, c: Cancel) {
    && IsBin(p, x, c.f) && IsBin(p, p.ops[x].ins[0], c.g) && IsBin(p, p.ops[x].ins[1], c.h) && c.i < 2 && c.j < 2
    && p.ops[p.ops[x].ins[0]].ins[c.i] == p.ops[p.ops[x].ins[1]].ins[c.j]
  }

  // ---- what every rule keeps ------------------------------------------------------------------

  ghost predicate Inv(p0: Program, p: Program, live: seq<BlockId>, dom: DomSeq, nUse: seq<nat>, x: OpId) {
    Good(p, live, dom, nUse) && SameSeen(p0, p) && InCode(p, x)
  }

  lemma Next(p0: Program, p: Program, q: Program, live: seq<BlockId>, dom: DomSeq, nUse: seq<nat>, nUse': seq<nat>, x: OpId)
    requires Inv(p0, p, live, dom, nUse, x) && Good(q, live, dom, nUse') && SameSeen(p, q)
    ensures Inv(p0, q, live, dom, nUse', x)
  {
    SameSeenTrans(p0, p, q);
  }

  /** Once x is Bin(f), its operands are in order unless the first is Bin(f) itself. */
  ghost predicate InOrder(p: Program, dom: DomSeq, x: OpId, f: IntOp) {
    IsBin(p, x, f) ==> IsBin(p, p.ops[x].ins[0], f) || !FirstOpDominates(p, dom, p.ops[x].ins[0], p.ops[x].ins[1])
  }

  lemma ReorderKeeps(p0: Program, p: Program, live: seq<BlockId>, dom: DomSeq, nUse: seq<nat>, x: OpId, f: IntOp)
    requires Inv(p0, p, live, dom, nUse, x) && f != Sub
    ensures var q := Reorder(p, dom, x, f);
            && Inv(p0, q, live, dom, nUse, x)
            && (IsBin(q, x, f) ==> !FirstOpDominates(q, dom, q.ops[x].ins[0], q.ops[x].ins[1]))
  {
    var q := Reorder(p, dom, x, f);
    if q != p {
      ReorderOk(p, live, dom, nUse, x, f, p.ops[x].ins[0], p.ops[x].ins[1], q);
      Next(p0, p, q, live, dom, nUse, nUse, x);
    }
  }

  /** What a matched shape means. */
  lemma TreeFound(p: Program, live: seq<BlockId>, dom: DomSeq, nUse: seq<nat>, x: OpId, f: IntOp, g: IntOp)
    requires Good(p, live, dom, nUse) && InCode(p, x) && Matches(p, nUse, x, f, g)
    ensures var n, y := p.ops[x].ins[0], p.ops[x].ins[1];
            Tree(p, live, dom, nUse, x, f, n, y, g, p.ops[n].ins[0], p.ops[n].ins[1])
  {
    var n, y := p.ops[x].ins[0], p.ops[x].ins[1];
    assert p.ops[x].ins == [n, y] && p.ops[n].ins == [p.ops[n].ins[0], p.ops[n].ins[1]];
  }

  /** y may be moved into n because it is defined before an operand of n or is one. */
  lemma MayMove(p: Program, live: seq<BlockId>, dom: DomSeq, nUse: seq<nat>, x: OpId, f: IntOp, n: OpId, y: OpId,
                g: IntOp, a: OpId, b: OpId, w: OpId)
    requires Tree(p, live, dom, nUse, x, f, n, y, g, a, b) && (w == a || w == b)
    requires FirstOpDominates(p, dom, y, w) || y == a || y == b
    ensures InputOk(p, DefPoint(p.ops, n), y)
  {
    TreeLeaves(p, live, dom, nUse, x, f, n, y, g, a, b);
    if FirstOpDominates(p, dom, y, w) {
      assert w in p.ops[n].ins && n in p.ops[x].ins;
      MayReplace(p, live, dom, x, n, y, w);
    }
  }

  lemma SlideKeeps(p0: Program, p: Program, live: seq<BlockId>, dom: DomSeq, nUse: seq<nat>, x: OpId, f: IntOp, g: IntOp, why: Why)
    requires Inv(p0, p, live, dom, nUse, x) && Slides(f, g)
    ensures Inv(p0, Slide(p, dom, nUse, x, f, g, why), live, dom, nUse, x)
  {
    var q := Slide(p, dom, nUse, x, f, g, why);
    if q != p {
      var n, y := p.ops[x].ins[0], p.ops[x].ins[1];
      var a, b := p.ops[n].ins[0], p.ops[n].ins[1];
      TreeFound(p, live, dom, nUse, x, f, g);
      MayMove(p, live, dom, nUse, x, f, n, y, g, a, b, b);
      TreeLeaves(p, live, dom, nUse, x, f, n, y, g, a, b);
      SlideTrue(f, g);
      var ox, on := p.ops[x].(opcode := Bin(g), ins := [n, b]), p.ops[n].(opcode := Bin(f), ins := [a, y]);
      SlidePair(IntEval, p, x, f, g, n, y, a, b, ox, on);
      PairEdit(p, live, dom, nUse, x, ox, n, on);
      Next(p0, p, q, live, dom, nUse, nUse, x);
    }
  }

  lemma TurnKeeps(p0: Program, p: Program, live: seq<BlockId>, dom: DomSeq, nUse: seq<nat>, x: OpId, f: IntOp, g: IntOp, why: Why)
    requires Inv(p0, p, live, dom, nUse, x) && Turns(f, g)
    ensures Inv(p0, Turn(p, dom, nUse, x, f, g, why), live, dom, nUse, x)
  {
    var q := Turn(p, dom, nUse, x, f, g, why);
    if q != p {
      var n, y := p.ops[x].ins[0], p.ops[x].ins[1];
      var a, b := p.ops[n].ins[0], p.ops[n].ins[1];
      TreeFound(p, live, dom, nUse, x, f, g);
      MayMove(p, live, dom, nUse, x, f, n, y, g, a, b, a);
      TreeLeaves(p, live, dom, nUse, x, f, n, y, g, a, b);
      TurnTrue(f, g);
      var ox, on := p.ops[x].(ins := [n, a]), p.ops[n].(ins := [y, b]);
      TurnPair(IntEval, p, x, f, g, n, y, a, b, ox, on);
      PairEdit(p, live, dom, nUse, x, ox, n, on);
      Next(p0, p, q, live, dom, nUse, nUse, x);
    }
  }

  lemma HoistKeeps(p0: Program, p: Program, live: seq<BlockId>, dom: DomSeq, nUse: seq<nat>, x: OpId, f: IntOp, g: IntOp, second: Second)
    requires Inv(p0, p, live, dom, nUse, x) && Turns(f, g)
    ensures Inv(p0, Hoist(p, dom, nUse, x, f, g, second), live, dom, nUse, x)
  {
    TurnKeeps(p0, p, live, dom, nUse, x, f, g, Earlier);
  }

  lemma FlipKeeps(p0: Program, p: Program, live: seq<BlockId>, dom: DomSeq, nUse: seq<nat>, x: OpId)
    requires Inv(p0, p, live, dom, nUse, x)
    ensures Inv(p0, Flip(p, dom, nUse, x), live, dom, nUse, x)
  {
    var q := Flip(p, dom, nUse, x);
    if q != p {
      var n, y := p.ops[x].ins[0], p.ops[x].ins[1];
      var a, b := p.ops[n].ins[0], p.ops[n].ins[1];
      TreeFound(p, live, dom, nUse, x, Sub, Add);
      MayMove(p, live, dom, nUse, x, Sub, n, y, Add, a, b, a);
      TreeLeaves(p, live, dom, nUse, x, Sub, n, y, Add, a, b);
      SubLaws();
      var ox, on := p.ops[x].(opcode := Bin(Add), ins := [n, a]), p.ops[n].(opcode := Bin(Sub), ins := [b, y]);
      FlipPair(IntEval, p, x, n, y, a, b, ox, on);
      PairEdit(p, live, dom, nUse, x, ox, n, on);
      Next(p0, p, q, live, dom, nUse, nUse, x);
    }
  }

  lemma FoldKeeps(p0: Program, p: Program, live: seq<BlockId>, dom: DomSeq, nUse: seq<nat>, x: OpId, why: Why)
    requires Inv(p0, p, live, dom, nUse, x)
    ensures Inv(p0, Fold(p, dom, nUse, x, why), live, dom, nUse, x)
  {
    var q := Fold(p, dom, nUse, x, why);
    if q != p {
      var n, y := p.ops[x].ins[0], p.ops[x].ins[1];
      var a, b := p.ops[n].ins[0], p.ops[n].ins[1];
      TreeFound(p, live, dom, nUse, x, Sub, Sub);
      MayMove(p, live, dom, nUse, x, Sub, n, y, Sub, a, b, a);
      TreeLeaves(p, live, dom, nUse, x, Sub, n, y, Sub, a, b);
      SubLaws();
      var ox, on := p.ops[x].(ins := [a, n]), p.ops[n].(opcode := Bin(Add), ins := [y, b]);
      FoldPair(IntEval, p, x, n, y, a, b, ox, on);
      PairEdit(p, live, dom, nUse, x, ox, n, on);
      Next(p0, p, q, live, dom, nUse, nUse, x);
    }
  }

  /** An operand of x that only x uses. */
  lemma PairFound(p: Program, live: seq<BlockId>, dom: DomSeq, nUse: seq<nat>, x: OpId, n: OpId)
    requires Good(p, live, dom, nUse) && InCode(p, x) && IsInt(p.ops[x]) && n in p.ops[x].ins
    requires n < |p.ops| && IsInt(p.ops[n]) && Once(nUse, n)
    ensures Pair(p, live, dom, nUse, x, n)
  {
  }

  lemma TailKeeps(p0: Program, p: Program, live: seq<BlockId>, dom: DomSeq, nUse: seq<nat>, x: OpId)
    requires Inv(p0, p, live, dom, nUse, x)
    ensures Inv(p0, Tail(p, nUse, x), live, dom, nUse, x)
  {
    var q := Tail(p, nUse, x);
    if q != p {
      var a, n := p.ops[x].ins[0], p.ops[x].ins[1];
      var b := p.ops[n].ins[1];
      assert p.ops[x].ins == [a, n] && p.ops[n].ins == [a, b];
      PairFound(p, live, dom, nUse, x, n);
      PairLeaves(p, live, dom, nUse, x, n);
      assert a in p.ops[n].ins && b in p.ops[n].ins;
      SubLaws();
      var ox, on := p.ops[x].(ins := [b, n]), p.ops[n].(ins := [a, a]);
      TailPair(IntEval, p, x, n, a, b, ox, on);
      PairEdit(p, live, dom, nUse, x, ox, n, on);
      Next(p0, p, q, live, dom, nUse, nUse, x);
    }
  }

  lemma SlideImmKeeps(p0: Program, p: Program, live: seq<BlockId>, dom: DomSeq, nUse: seq<nat>, x: OpId, f: IntOp, g: IntOp)
    requires Inv(p0, p, live, dom, nUse, x) && Slides(f, g)
    ensures Inv(p0, SlideImm(p, nUse, x, f, g), live, dom, nUse, x)
  {
    var q := SlideImm(p, nUse, x, f, g);
    if q != p {
      var n := p.ops[x].ins[0];
      var a, b := p.ops[n].ins[0], p.ops[n].ins[1];
      assert p.ops[x].ins == [n] && p.ops[n].ins == [a, b];
      PairFound(p, live, dom, nUse, x, n);
      PairLeaves(p, live, dom, nUse, x, n);
      assert a in p.ops[n].ins && b in p.ops[n].ins;
      SlideTrue(f, g);
      var ox, on := p.ops[x].(opcode := Bin(g), ins := [n, b], imm := 0), p.ops[n].(opcode := BinI(f), ins := [a], imm := p.ops[x].imm);
      SlideImmPair(IntEval, p, x, f, g, n, a, b, 0, ox, on);
      PairEdit(p, live, dom, nUse, x, ox, n, on);
      Next(p0, p, q, live, dom, nUse, nUse, x);
    }
  }

  lemma TurnImmKeeps(p0: Program, p: Program, live: seq<BlockId>, dom: DomSeq, nUse: seq<nat>, x: OpId, f: IntOp)
    requires Inv(p0, p, live, dom, nUse, x) && f != Sub
    ensures Inv(p0, TurnImm(p, nUse, x, f), live, dom, nUse, x)
  {
    var q := TurnImm(p, nUse, x, f);
    if q != p {
      var n := p.ops[x].ins[0];
      var a, b := p.ops[n].ins[0], p.ops[n].ins[1];
      assert p.ops[x].ins == [n] && p.ops[n].ins == [a, b];
      PairFound(p, live, dom, nUse, x, n);
      PairLeaves(p, live, dom, nUse, x, n);
      assert a in p.ops[n].ins && b in p.ops[n].ins;
      TurnTrue(f, f);
      CommuteTrue(f);
      var ox, on := p.ops[x].(opcode := Bin(f), ins := [n, a], imm := p.ops[n].imm), p.ops[n].(opcode := BinI(f), ins := [b], imm := p.ops[x].imm);
      TurnImmPair(IntEval, p, x, f, n, a, b, ox, on);
      PairEdit(p, live, dom, nUse, x, ox, n, on);
      Next(p0, p, q, live, dom, nUse, nUse, x);
    }
  }

  lemma DoubleImmKeeps(p0: Program, p: Program, live: seq<BlockId>, dom: DomSeq, nUse: seq<nat>, x: OpId, f: IntOp)
    requires Inv(p0, p, live, dom, nUse, x) && f != Sub
    ensures Inv(p0, DoubleImm(p, nUse, x, f), live, dom, nUse, x)
  {
    var q := DoubleImm(p, nUse, x, f);
    if q != p {
      var n, a := p.ops[x].ins[0], p.ops[x].ins[1];
      assert p.ops[x].ins == [n, a] && p.ops[n].ins == [a];
      PairFound(p, live, dom, nUse, x, n);
      PairLeaves(p, live, dom, nUse, x, n);
      assert a in p.ops[n].ins;
      SlideTrue(f, f);
      var ox, on := p.ops[x].(opcode := BinI(f), ins := [n], imm := p.ops[n].imm), p.ops[n].(opcode := Bin(f), ins := [a, a], imm := p.ops[x].imm);
      DoubleImmPair(IntEval, p, x, f, n, a, ox, on);
      PairEdit(p, live, dom, nUse, x, ox, n, on);
      Next(p0, p, q, live, dom, nUse, nUse, x);
    }
  }

  /** If the first of two different operands is not defined before the second, the second is
      defined before the first. */
  lemma SecondBefore(p: Program, live: seq<BlockId>, dom: DomSeq, nUse: seq<nat>, x: OpId, n: OpId, m: OpId)
    requires Good(p, live, dom, nUse) && InCode(p, x) && p.ops[x].ins == [n, m] && n != m
    requires n < |p.ops| && m < |p.ops| && IsInt(p.ops[x]) && IsInt(p.ops[n]) && IsInt(p.ops[m])
    requires !FirstOpDominates(p, dom, n, m)
    ensures InputOk(p, DefPoint(p.ops, n), m)
  {
    assert n in p.ops[x].ins && m in p.ops[x].ins;
    InputsOf(p, x);
    FirstDominates(p, live, dom, x, n, m);
  }

  lemma HoistImmKeeps(p0: Program, p: Program, live: seq<BlockId>, dom: DomSeq, nUse: seq<nat>, x: OpId, f: IntOp)
    requires Inv(p0, p, live, dom, nUse, x) && f != Sub && InOrder(p, dom, x, f)
    ensures Inv(p0, HoistImm(p, nUse, x, f), live, dom, nUse, x)
  {
    var q := HoistImm(p, nUse, x, f);
    if q != p {
      var n, m := p.ops[x].ins[0], p.ops[x].ins[1];
      var a := p.ops[n].ins[0];
      assert p.ops[x].ins == [n, m] && p.ops[n].ins == [a];
      PairFound(p, live, dom, nUse, x, n);
      OtherSide(p, live, dom, nUse, x, n, m);
      SecondBefore(p, live, dom, nUse, x, n, m);
      PairLeaves(p, live, dom, nUse, x, n);
      assert a in p.ops[n].ins && m in p.ops[x].ins;
      TurnTrue(f, f);
      var ox, on := p.ops[x].(ins := [n, a]), p.ops[n].(ins := [m]);
      HoistImmPair(IntEval, p, x, f, n, m, a, ox, on);
      PairEdit(p, live, dom, nUse, x, ox, n, on);
      Next(p0, p, q, live, dom, nUse, nUse, x);
    }
  }

  lemma ForkFound(p: Program, live: seq<BlockId>, dom: DomSeq, nUse: seq<nat>, x: OpId, f: IntOp, g: IntOp,
                  n: OpId, a: OpId, b: OpId, m: OpId, c: OpId, d: OpId)
    requires Good(p, live, dom, nUse) && InCode(p, x) && IsBin(p, x, f) && p.ops[x].ins == [n, m]
    requires IsBin(p, n, g) && p.ops[n].ins == [a, b] && IsBin(p, m, g) && p.ops[m].ins == [c, d]
    requires Once(nUse, n) && Once(nUse, m)
    ensures Fork(p, live, dom, nUse, x, f, g, n, a, b, m, c, d)
  {
    assert n in p.ops[x].ins && m in p.ops[x].ins;
    PairFound(p, live, dom, nUse, x, n);
    PairFound(p, live, dom, nUse, x, m);
    OtherSide(p, live, dom, nUse, x, n, m);
  }

  lemma ForkOrder(p: Program, live: seq<BlockId>, dom: DomSeq, nUse: seq<nat>, x: OpId, f: IntOp, g: IntOp,
                  n: OpId, a: OpId, b: OpId, m: OpId, c: OpId, d: OpId)
    requires Fork(p, live, dom, nUse, x, f, g, n, a, b, m, c, d)
    requires !FirstOpDominates(p, dom, n, m) && FirstOpDominates(p, dom, b, c)
    ensures InputOk(p, DefPoint(p.ops, n), c) && InputOk(p, DefPoint(p.ops, m), b)
  {
    SecondBefore(p, live, dom, nUse, x, n, m);
    PairLeaves(p, live, dom, nUse, x, n);
    PairLeaves(p, live, dom, nUse, x, m);
    assert b in p.ops[n].ins && c in p.ops[m].ins && n in p.ops[x].ins && m in p.ops[x].ins;
    FirstDominates(p, live, dom, x, b, c);
    PairPlaces(p, live, dom, nUse, x, n);
    PairPlaces(p, live, dom, nUse, x, m);
    BeforeChain(p, m, b, c);
    BeforeChain(p, n, c, m);
  }

  lemma CrossFires(p: Program, live: seq<BlockId>, dom: DomSeq, nUse: seq<nat>, x: OpId, f: IntOp, g: IntOp, f': IntOp, g': IntOp,
                   n: OpId, a: OpId, b: OpId, m: OpId, c: OpId, d: OpId, q: Program)
    requires Good(p, live, dom, nUse) && InCode(p, x) && Crosses(f, g, f', g')
    requires IsBin(p, x, f) && p.ops[x].ins == [n, m] && IsBin(p, n, g) && p.ops[n].ins == [a, b]
    requires IsBin(p, m, g) && p.ops[m].ins == [c, d] && Once(nUse, n) && Once(nUse, m)
    requires !FirstOpDominates(p, dom, n, m) && FirstOpDominates(p, dom, b, c)
    requires q == Edit3(p, x, p.ops[x].(opcode := Bin(f')), n, p.ops[n].(opcode := Bin(g'), ins := [a, c]),
                        m, p.ops[m].(opcode := Bin(g'), ins := [b, d]))
    ensures Good(q, live, dom, nUse) && SameSeen(p, q)
  {
    ForkFound(p, live, dom, nUse, x, f, g, n, a, b, m, c, d);
    ForkOrder(p, live, dom, nUse, x, f, g, n, a, b, m, c, d);
    ForkFacts(p, live, dom, nUse, x, f, g, n, a, b, m, c, d);
    var ox := p.ops[x].(opcode := Bin(f'));
    var on, om := p.ops[n].(opcode := Bin(g'), ins := [a, c]), p.ops[m].(opcode := Bin(g'), ins := [b, d]);
    CrossTriple(p, x, f, g, n, a, b, m, c, d, f', g', ox, on, om);
    TripleEdit(p, live, dom, nUse, x, ox, n, on, m, om);
  }

  lemma CrossShape(p: Program, live: seq<BlockId>, dom: DomSeq, nUse: seq<nat>, x: OpId, f: IntOp, g: IntOp, f': IntOp, g': IntOp)
    requires Good(p, live, dom, nUse) && InCode(p, x) && Crosses(f, g, f', g')
    requires IsBin(p, x, f) ==> !FirstOpDominates(p, dom, p.ops[x].ins[0], p.ops[x].ins[1])
    requires Cross(p, dom, nUse, x, f, g, f', g') != p
    ensures var q := Cross(p, dom, nUse, x, f, g, f', g'); Good(q, live, dom, nUse) && SameSeen(p, q)
  {
    var n, m := p.ops[x].ins[0], p.ops[x].ins[1];
    var a, b, c, d := p.ops[n].ins[0], p.ops[n].ins[1], p.ops[m].ins[0], p.ops[m].ins[1];
    assert p.ops[x].ins == [n, m] && p.ops[n].ins == [a, b] && p.ops[m].ins == [c, d];
    CrossFires(p, live, dom, nUse, x, f, g, f', g', n, a, b, m, c, d, Cross(p, dom, nUse, x, f, g, f', g'));
  }

  lemma CrossKeeps(p0: Program, p: Program, live: seq<BlockId>, dom: DomSeq, nUse: seq<nat>, x: OpId,
                   f: IntOp, g: IntOp, f': IntOp, g': IntOp)
    requires Inv(p0, p, live, dom, nUse, x) && Crosses(f, g, f', g')
    requires IsBin(p, x, f) ==> !FirstOpDominates(p, dom, p.ops[x].ins[0], p.ops[x].ins[1])
    ensures Inv(p0, Cross(p, dom, nUse, x, f, g, f', g'), live, dom, nUse, x)
  {
    var q := Cross(p, dom, nUse, x, f, g, f', g');
    if q != p {
      CrossShape(p, live, dom, nUse, x, f, g, f', g');
      Next(p0, p, q, live, dom, nUse, nUse, x);
    }
  }

  // ---- operands stay in order until immediates are hoisted -----------------------------------------

  lemma CrossInOrder(p: Program, dom: DomSeq, nUse: seq<nat>, x: OpId, f: IntOp)
    requires InOrder(p, dom, x, f) && (IsBin(p, x, f) ==> x !in p.ops[x].ins)
    ensures InOrder(Cross(p, dom, nUse, x, f, f, f, f), dom, x, f)
  {
  }

  lemma SlideInOrder(p: Program, dom: DomSeq, nUse: seq<nat>, x: OpId, f: IntOp, why: Why)
    requires InOrder(p, dom, x, f) && (IsBin(p, x, f) ==> x !in p.ops[x].ins)
    ensures InOrder(Slide(p, dom, nUse, x, f, f, why), dom, x, f)
  {
  }

  lemma TurnInOrder(p: Program, dom: DomSeq, nUse: seq<nat>, x: OpId, f: IntOp, why: Why)
    requires InOrder(p, dom, x, f) && (IsBin(p, x, f) ==> x !in p.ops[x].ins)
    ensures InOrder(Turn(p, dom, nUse, x, f, f, why), dom, x, f)
  {
  }

  lemma HoistInOrder(p: Program, dom: DomSeq, nUse: seq<nat>, x: OpId, f: IntOp, second: Second)
    requires InOrder(p, dom, x, f) && (IsBin(p, x, f) ==> x !in p.ops[x].ins)
    ensures InOrder(Hoist(p, dom, nUse, x, f, f, second), dom, x, f)
  {
    TurnInOrder(p, dom, nUse, x, f, Earlier);
  }

  lemma NotOwnInput(p: Program, live: seq<BlockId>, dom: DomSeq, nUse: seq<nat>, x: OpId)
    requires Good(p, live, dom, nUse) && InCode(p, x)
    ensures x !in p.ops[x].ins
  {
    InputsOf(p, x);
  }

  // ---- cancelling ------------------------------------------------------------------------------

  /** x gives up its operands for what does not cancel. */
  function Remains(p: Program, x: OpId, c: Cancel): (r: seq<OpId>)
    requires CanCancel(p, x, c)
    ensures |r| == 2
  {
    [p.ops[p.ops[x].ins[0]].ins[1 - c.i], p.ops[p.ops[x].ins[1]].ins[1 - c.j]]
  }

  lemma CancelReady(p: Program, live: seq<BlockId>, dom: DomSeq, nUse: seq<nat>, x: OpId, n: OpId, m: OpId, u: OpId, w: OpId)
    requires Good(p, live, dom, nUse) && InCode(p, x) && IsInt(p.ops[x]) && p.ops[x].ins == [n, m] && n < |p.ops| && m < |p.ops|
    requires IsInt(p.ops[n]) && IsInt(p.ops[m]) && u in p.ops[n].ins && w in p.ops[m].ins
    ensures InputOk(p, DefPoint(p.ops, x), u) && InputOk(p, DefPoint(p.ops, x), w)
    ensures |nUse| == |p.ops| && nUse[n] > 0 && nUse[m] > (if n == m then 1 else 0)
  {
    CancelInputs(p, x, n, m, u, w);
    UsesCounted(p, live, nUse, x, n, m);
  }

  lemma UsesCounted(p: Program, live: seq<BlockId>, nUse: seq<nat>, x: OpId, n: OpId, m: OpId)
    requires Placed(p) && LiveExact(p.ops, p.code, live) && CountsExact(p, live, nUse) && InCode(p, x)
    requires p.ops[x].ins == [n, m] && n < |p.ops| && m < |p.ops|
    ensures nUse[n] > 0 && nUse[m] > (if n == m then 1 else 0)
  {
    OpRefsAtLeast(p, live, x, n);
    OpRefsAtLeast(p, live, x, m);
    TwoOccs(n, m, n);
    TwoOccs(n, m, m);
  }

  lemma CancelOne(p: Program, x: OpId, n: OpId, m: OpId, c: Cancel, ox: Op)
    requires CanCancel(p, x, c) && Cancels(c) && p.ops[x].ins == [n, m] && ox == p.ops[x].(ins := Remains(p, x, c))
    requires forall u :: u in ox.ins ==> InputOk(p, DefPoint(p.ops, x), u)
    ensures SingleOk(p, x, ox, {n, m})
  {
    var p0, p1, q0, q1 := p.ops[n].ins[0], p.ops[n].ins[1], p.ops[m].ins[0], p.ops[m].ins[1];
    assert p.ops[n].ins == [p0, p1] && p.ops[m].ins == [q0, q1];
    assert ox.ins == [Side(c.i, p1, p0), Side(c.j, q1, q0)];
    CancelSingle(p, x, n, m, c, p0, p1, q0, q1, ox);
  }

  lemma CancelFires(p: Program, live: seq<BlockId>, dom: DomSeq, nUse: seq<nat>, nUse': seq<nat>, x: OpId, n: OpId, m: OpId,
                    c: Cancel, u: OpId, w: OpId, ox: Op)
    requires Good(p, live, dom, nUse) && InCode(p, x) && CanCancel(p, x, c) && Cancels(c)
    requires p.ops[x].ins == [n, m] && Remains(p, x, c) == [u, w] && ox == p.ops[x].(ins := [u, w])
    requires InputOk(p, DefPoint(p.ops, x), u) && InputOk(p, DefPoint(p.ops, x), w)
    requires Recounted(p, x, ox, nUse, nUse')
    ensures Good(p.(ops := p.ops[x := ox]), live, dom, nUse') && SameSeen(p, p.(ops := p.ops[x := ox]))
  {
    BothInputs(p, DefPoint(p.ops, x), u, w);
    CancelOne(p, x, n, m, c, ox);
    SingleEdit(p, live, dom, nUse, nUse', x, ox, {n, m});
  }

  /** The counts are large enough to be taken down, and what is left is as sound as before. */
  lemma CancelKeeps(p0: Program, p: Program, live: seq<BlockId>, dom: DomSeq, nUse: seq<nat>, x: OpId, c: Cancel)
    requires Inv(p0, p, live, dom, nUse, x) && CanCancel(p, x, c) && Cancels(c)
    ensures var n, m, r := p.ops[x].ins[0], p.ops[x].ins[1], Remains(p, x, c);
            && n < |nUse| && m < |nUse| && r[0] < |nUse| && r[1] < |nUse|
            && nUse[n] > 0 && nUse[m] > (if n == m then 1 else 0)
            && Inv(p0, p.(ops := p.ops[x := p.ops[x].(ins := r)]), live, dom, Recount(nUse, n, m, r[0], r[1]), x)
  {
    var n, m, r := p.ops[x].ins[0], p.ops[x].ins[1], Remains(p, x, c);
    var u, w, ox := r[0], r[1], p.ops[x].(ins := r);
    assert r == [u, w] && p.ops[x].ins == [n, m];
    CancelReady(p, live, dom, nUse, x, n, m, u, w);
    var nUse' := Recount(nUse, n, m, u, w);
    RecountOk(p, x, ox, nUse, n, m, u, w);
    CancelFires(p, live, dom, nUse, nUse', x, n, m, c, u, w, ox);
    Next(p0, p, p.(ops := p.ops[x := ox]), live, dom, nUse, nUse', x);
  }

  // ---- visiting one op -----------------------------------------------------------------------------

  const IDiv: Opcode := Div(0)

  /** The state of the pass while it visits an op. */
  datatype Work = Work(p: Program, nUse: seq<nat>, progress: bool)

  /** A rule that fires is progress. */
  function Moved(w: Work, q: Program): Work {
    Work(q, w.nUse, w.progress || q != w.p)
  }

  ghost predicate Going(p0: Program, w: Work, live: seq<BlockId>, dom: DomSeq, x: OpId) {
    Inv(p0, w.p, live, dom, w.nUse, x)
  }

  // ---- when no rule applies ------------------------------------------------------------------------

  /** What some rules do to an op: they note progress, and do nothing just if none applies. */
  ghost predicate Visited(w0: Work, w: Work, still: bool) {
    && (w0.progress ==> w.progress)
    && (still ==> w == w0)
    && (!w.progress ==> w == w0 && still)
  }

  function Sort(w: Work, dom: DomSeq, x: OpId, f: IntOp): Work {
    w.(p := Reorder(w.p, dom, x, f))
  }

  ghost predicate CrossStill(p: Program, dom: DomSeq, nUse: seq<nat>, x: OpId, f: IntOp) {
    Cross(p, dom, nUse, x, f, f, f, f) == p
  }

  ghost predicate EarlyStill(p: Program, dom: DomSeq, nUse: seq<nat>, x: OpId, f: IntOp) {
    && Hoist(p, dom, nUse, x, f, f, Exactly(Bin(f))) == p
    && Slide(p, dom, nUse, x, f, f, Earlier) == p && Turn(p, dom, nUse, x, f, f, Earlier) == p
  }

  ghost predicate RepeatStill(p: Program, dom: DomSeq, nUse: seq<nat>, x: OpId, f: IntOp) {
    Turn(p, dom, nUse, x, f, f, Repeated) == p && Slide(p, dom, nUse, x, f, f, Repeated) == p
  }

  ghost predicate ConstantStill(p: Program, nUse: seq<nat>, x: OpId, f: IntOp) {
    HoistImm(p, nUse, x, f) == p && TurnImm(p, nUse, x, f) == p && DoubleImm(p, nUse, x, f) == p
  }

  ghost predicate ChainStill(p: Program, dom: DomSeq, nUse: seq<nat>, x: OpId, f: IntOp) {
    && CrossStill(p, dom, nUse, x, f) && EarlyStill(p, dom, nUse, x, f) && RepeatStill(p, dom, nUse, x, f)
    && ConstantStill(p, nUse, x, f)
  }

  ghost predicate SumStill1(p: Program, dom: DomSeq, nUse: seq<nat>, x: OpId) {
    Cross(p, dom, nUse, x, Add, Sub, Sub, Add) == p
  }

  ghost predicate SumStill2(p: Program, dom: DomSeq, nUse: seq<nat>, x: OpId) {
    && Hoist(p, dom, nUse, x, Add, Add, Exactly(Bin(Sub))) == p && Hoist(p, dom, nUse, x, Add, Sub, AnyOp) == p
    && Slide(p, dom, nUse, x, Sub, Add, Earlier) == p && Slide(p, dom, nUse, x, Add, Sub, Earlier) == p
  }

  ghost predicate SumStill3(p: Program, dom: DomSeq, nUse: seq<nat>, x: OpId) {
    && Turn(p, dom, nUse, x, Add, Sub, Earlier) == p && Flip(p, dom, nUse, x) == p
    && Slide(p, dom, nUse, x, Sub, Sub, Earlier) == p && Fold(p, dom, nUse, x, Earlier) == p
  }

  ghost predicate SumStill4(p: Program, dom: DomSeq, nUse: seq<nat>, x: OpId) {
    && Turn(p, dom, nUse, x, Add, Sub, Repeated) == p && Fold(p, dom, nUse, x, Repeated) == p
    && Slide(p, dom, nUse, x, Add, Sub, Repeated) == p && Slide(p, dom, nUse, x, Sub, Sub, Repeated) == p
    && Tail(p, nUse, x) == p
  }

  ghost predicate SumStill5(p: Program, x: OpId) {
    && !CanCancel(p, x, Cancel(Add, Sub, Add, 1, 0)) && !CanCancel(p, x, Cancel(Add, Sub, Add, 1, 1))
    && !CanCancel(p, x, Cancel(Add, Add, Sub, 1, 1)) && !CanCancel(p, x, Cancel(Add, Add, Sub, 0, 1))
    && !CanCancel(p, x, Cancel(Sub, Add, Add, 0, 0)) && !CanCancel(p, x, Cancel(Sub, Add, Add, 1, 0))
    && !CanCancel(p, x, Cancel(Sub, Add, Add, 1, 1))
  }

  ghost predicate SumStill(p: Program, dom: DomSeq, nUse: seq<nat>, x: OpId) {
    && SumStill1(p, dom, nUse, x) && SumStill2(p, dom, nUse, x) && SumStill3(p, dom, nUse, x)
    && SumStill4(p, dom, nUse, x) && SumStill5(p, x)
  }

  ghost predicate OuterStill(p: Program, dom: DomSeq, nUse: seq<nat>, x: OpId) {
    && SlideImm(p, nUse, x, Sub, Add) == p && SlideImm(p, nUse, x, Add, Sub) == p && SlideImm(p, nUse, x, Sub, Sub) == p
    && Hoist(p, dom, nUse, x, Mul, Mul, Exactly(IDiv)) == p
  }

  /** A nest is what the rules match. */
  lemma NestMatches(p: Program, nUse: seq<nat>, x: OpId, f: IntOp, g: IntOp, n: OpId, y: OpId, a: OpId, b: OpId)
    requires Nest(p, nUse, x, f, g, n, y, a, b) && a != b
    ensures Matches(p, nUse, x, f, g) && p.ops[x].ins[0] == n && p.ops[x].ins[1] == y
    ensures p.ops[n].ins[0] == a && p.ops[n].ins[1] == b
  {
  }

  lemma MatchesNest(p: Program, nUse: seq<nat>, x: OpId, f: IntOp, g: IntOp)
    requires Matches(p, nUse, x, f, g)
    ensures var n, y := p.ops[x].ins[0], p.ops[x].ins[1];
            Nest(p, nUse, x, f, g, n, y, p.ops[n].ins[0], p.ops[n].ins[1])
  {
    var n, y := p.ops[x].ins[0], p.ops[x].ins[1];
    assert p.ops[x].ins == [n, y] && p.ops[n].ins == [p.ops[n].ins[0], p.ops[n].ins[1]];
  }

  // The rules change what they match.

  lemma SlideMoves(p: Program, dom: DomSeq, nUse: seq<nat>, x: OpId, f: IntOp, g: IntOp, why: Why, n: OpId, y: OpId, a: OpId, b: OpId)
    requires Nest(p, nUse, x, f, g, n, y, a, b) && a != b && n != x
    requires if why.Earlier? then FirstOpDominates(p, dom, y, b) else a == y
    ensures Slide(p, dom, nUse, x, f, g, why) != p
  {
    NestMatches(p, nUse, x, f, g, n, y, a, b);
    assert Slide(p, dom, nUse, x, f, g, why).ops[x].ins == [n, b];
  }

  lemma TurnMoves(p: Program, dom: DomSeq, nUse: seq<nat>, x: OpId, f: IntOp, g: IntOp, why: Why, n: OpId, y: OpId, a: OpId, b: OpId)
    requires Nest(p, nUse, x, f, g, n, y, a, b) && a != b && n != x
    requires if why.Earlier? then FirstOpDominates(p, dom, y, a) else b == y
    ensures Turn(p, dom, nUse, x, f, g, why) != p
  {
    NestMatches(p, nUse, x, f, g, n, y, a, b);
    assert Turn(p, dom, nUse, x, f, g, why).ops[x].ins == [n, a];
  }

  lemma FlipMoves(p: Program, dom: DomSeq, nUse: seq<nat>, x: OpId, n: OpId, y: OpId, a: OpId, b: OpId)
    requires Nest(p, nUse, x, Sub, Add, n, y, a, b) && a != b && n != x && FirstOpDominates(p, dom, y, a)
    ensures Flip(p, dom, nUse, x) != p
  {
    NestMatches(p, nUse, x, Sub, Add, n, y, a, b);
    assert Flip(p, dom, nUse, x).ops[x].opcode == Bin(Add);
  }

  lemma FoldMoves(p: Program, dom: DomSeq, nUse: seq<nat>, x: OpId, why: Why, n: OpId, y: OpId, a: OpId, b: OpId)
    requires Nest(p, nUse, x, Sub, Sub, n, y, a, b) && a != b && n != x
    requires if why.Earlier? then FirstOpDominates(p, dom, y, a) else b == y
    ensures Fold(p, dom, nUse, x, why) != p
  {
    NestMatches(p, nUse, x, Sub, Sub, n, y, a, b);
    assert Fold(p, dom, nUse, x, why).ops[n].opcode == Bin(Add);
  }

  lemma CrossMoves(p: Program, dom: DomSeq, nUse: seq<nat>, x: OpId, f: IntOp, g: IntOp, f': IntOp, g': IntOp,
                   n: OpId, m: OpId, a: OpId, b: OpId, c: OpId, d: OpId)
    requires Twins(p, nUse, x, f, g, n, m, a, b, c, d) && n != x && m != x && FirstOpDominates(p, dom, b, c)
    ensures Cross(p, dom, nUse, x, f, g, f', g') != p
  {
    assert Cross(p, dom, nUse, x, f, g, f', g').ops[m].ins == [b, d];
  }

  lemma HoistImmMoves(p: Program, nUse: seq<nat>, x: OpId, f: IntOp, n: OpId, m: OpId, a: OpId, b: OpId)
    requires Two(p, x, f, n, m) && One(p, n, f, a) && One(p, m, f, b) && Alone(nUse, n) && Alone(nUse, m)
    requires p.ops[a].opcode != BinI(f) && n != x
    ensures HoistImm(p, nUse, x, f) != p
  {
    assert HoistImm(p, nUse, x, f).ops[x].ins == [n, a];
  }

  lemma TurnImmMoves(p: Program, nUse: seq<nat>, x: OpId, f: IntOp, n: OpId, a: OpId, b: OpId)
    requires One(p, x, f, n) && Two(p, n, f, a, b) && Alone(nUse, n) && a != b && n != x
    ensures TurnImm(p, nUse, x, f) != p
  {
    assert TurnImm(p, nUse, x, f).ops[x].opcode == Bin(f);
  }

  lemma DoubleImmMoves(p: Program, nUse: seq<nat>, x: OpId, f: IntOp, n: OpId, a: OpId)
    requires Two(p, x, f, n, a) && One(p, n, f, a) && Alone(nUse, n) && n != x
    ensures DoubleImm(p, nUse, x, f) != p
  {
    assert DoubleImm(p, nUse, x, f).ops[x].opcode == BinI(f);
  }

  /** The second operand goes into the first one unless it is late already. */
  lemma SlideTurnStill(p: Program, dom: DomSeq, nUse: seq<nat>, x: OpId, f: IntOp, g: IntOp)
    requires x < |p.ops| && x !in p.ops[x].ins
    requires Slide(p, dom, nUse, x, f, g, Earlier) == p && Turn(p, dom, nUse, x, f, g, Earlier) == p
    ensures Late(p, dom, nUse, x, f, g)
  {
    forall n: OpId, y: OpId, a: OpId, b: OpId | Nest(p, nUse, x, f, g, n, y, a, b) && a != b
      ensures !FirstOpDominates(p, dom, y, a) && !FirstOpDominates(p, dom, y, b)
    {
      assert n in p.ops[x].ins;
      if FirstOpDominates(p, dom, y, b) {
        SlideMoves(p, dom, nUse, x, f, g, Earlier, n, y, a, b);
      }
      if FirstOpDominates(p, dom, y, a) {
        TurnMoves(p, dom, nUse, x, f, g, Earlier, n, y, a, b);
      }
    }
  }

  lemma LateStill(p: Program, dom: DomSeq, nUse: seq<nat>, x: OpId, f: IntOp, g: IntOp, second: Second)
    requires Late(p, dom, nUse, x, f, g)
    ensures Slide(p, dom, nUse, x, f, g, Earlier) == p && Turn(p, dom, nUse, x, f, g, Earlier) == p
    ensures Hoist(p, dom, nUse, x, f, g, second) == p
  {
    if Matches(p, nUse, x, f, g) {
      MatchesNest(p, nUse, x, f, g);
    }
  }

  lemma RepeatedPairs(p: Program, dom: DomSeq, nUse: seq<nat>, x: OpId, f: IntOp, g: IntOp)
    requires x < |p.ops| && x !in p.ops[x].ins
    requires Slide(p, dom, nUse, x, f, g, Repeated) == p && Turn(p, dom, nUse, x, f, g, Repeated) == p
    ensures Paired(p, nUse, x, f, g)
  {
    forall n: OpId, y: OpId, a: OpId, b: OpId | Nest(p, nUse, x, f, g, n, y, a, b) && a != b ensures y != a && y != b {
      assert n in p.ops[x].ins;
      if y == a {
        SlideMoves(p, dom, nUse, x, f, g, Repeated, n, y, a, b);
      }
      if y == b {
        TurnMoves(p, dom, nUse, x, f, g, Repeated, n, y, a, b);
      }
    }
  }

  lemma PairedStill(p: Program, dom: DomSeq, nUse: seq<nat>, x: OpId, f: IntOp, g: IntOp)
    requires Paired(p, nUse, x, f, g)
    ensures Slide(p, dom, nUse, x, f, g, Repeated) == p && Turn(p, dom, nUse, x, f, g, Repeated) == p
  {
    if Matches(p, nUse, x, f, g) {
      MatchesNest(p, nUse, x, f, g);
    }
  }

  /** Differences: what is subtracted from a sum, */
  lemma SlideFlipStill(p: Program, dom: DomSeq, nUse: seq<nat>, x: OpId)
    requires x < |p.ops| && x !in p.ops[x].ins
    requires Slide(p, dom, nUse, x, Sub, Add, Earlier) == p && Flip(p, dom, nUse, x) == p
    ensures Late(p, dom, nUse, x, Sub, Add)
  {
    forall n: OpId, y: OpId, a: OpId, b: OpId | Nest(p, nUse, x, Sub, Add, n, y, a, b) && a != b
      ensures !FirstOpDominates(p, dom, y, a) && !FirstOpDominates(p, dom, y, b)
    {
      assert n in p.ops[x].ins;
      if FirstOpDominates(p, dom, y, b) {
        SlideMoves(p, dom, nUse, x, Sub, Add, Earlier, n, y, a, b);
      }
      if FirstOpDominates(p, dom, y, a) {
        FlipMoves(p, dom, nUse, x, n, y, a, b);
      }
    }
  }

  /** and what is subtracted from a difference. */
  lemma SlideFoldStill(p: Program, dom: DomSeq, nUse: seq<nat>, x: OpId)
    requires x < |p.ops| && x !in p.ops[x].ins
    requires Slide(p, dom, nUse, x, Sub, Sub, Earlier) == p && Fold(p, dom, nUse, x, Earlier) == p
    ensures Late(p, dom, nUse, x, Sub, Sub)
  {
    forall n: OpId, y: OpId, a: OpId, b: OpId | Nest(p, nUse, x, Sub, Sub, n, y, a, b) && a != b
      ensures !FirstOpDominates(p, dom, y, a) && !FirstOpDominates(p, dom, y, b)
    {
      assert n in p.ops[x].ins;
      if FirstOpDominates(p, dom, y, b) {
        SlideMoves(p, dom, nUse, x, Sub, Sub, Earlier, n, y, a, b);
      }
      if FirstOpDominates(p, dom, y, a) {
        FoldMoves(p, dom, nUse, x, Earlier, n, y, a, b);
      }
    }
  }

  lemma RepeatedFolds(p: Program, dom: DomSeq, nUse: seq<nat>, x: OpId)
    requires x < |p.ops| && x !in p.ops[x].ins
    requires Slide(p, dom, nUse, x, Sub, Sub, Repeated) == p && Fold(p, dom, nUse, x, Repeated) == p
    ensures Paired(p, nUse, x, Sub, Sub)
  {
    forall n: OpId, y: OpId, a: OpId, b: OpId | Nest(p, nUse, x, Sub, Sub, n, y, a, b) && a != b ensures y != a && y != b {
      assert n in p.ops[x].ins;
      if y == a {
        SlideMoves(p, dom, nUse, x, Sub, Sub, Repeated, n, y, a, b);
      }
      if y == b {
        FoldMoves(p, dom, nUse, x, Repeated, n, y, a, b);
      }
    }
  }

  lemma FoldStill(p: Program, dom: DomSeq, nUse: seq<nat>, x: OpId)
    requires Late(p, dom, nUse, x, Sub, Sub) && Paired(p, nUse, x, Sub, Sub) && Late(p, dom, nUse, x, Sub, Add)
    ensures Fold(p, dom, nUse, x, Earlier) == p && Fold(p, dom, nUse, x, Repeated) == p && Flip(p, dom, nUse, x) == p
  {
    if Matches(p, nUse, x, Sub, Sub) {
      MatchesNest(p, nUse, x, Sub, Sub);
    }
    if Matches(p, nUse, x, Sub, Add) {
      MatchesNest(p, nUse, x, Sub, Add);
    }
  }

  lemma CrossUncrosses(p: Program, dom: DomSeq, nUse: seq<nat>, x: OpId, f: IntOp, g: IntOp, f': IntOp, g': IntOp)
    requires x < |p.ops| && x !in p.ops[x].ins && Cross(p, dom, nUse, x, f, g, f', g') == p
    ensures Uncrossed(p, dom, nUse, x, f, g)
  {
    forall n: OpId, m: OpId, a: OpId, b: OpId, c: OpId, d: OpId | Twins(p, nUse, x, f, g, n, m, a, b, c, d)
      ensures !FirstOpDominates(p, dom, b, c)
    {
      assert n in p.ops[x].ins && m in p.ops[x].ins;
      if FirstOpDominates(p, dom, b, c) {
        CrossMoves(p, dom, nUse, x, f, g, f', g', n, m, a, b, c, d);
      }
    }
  }

  lemma UncrossedStill(p: Program, dom: DomSeq, nUse: seq<nat>, x: OpId, f: IntOp, g: IntOp, f': IntOp, g': IntOp)
    requires Uncrossed(p, dom, nUse, x, f, g)
    ensures Cross(p, dom, nUse, x, f, g, f', g') == p
  {
    if Cross(p, dom, nUse, x, f, g, f', g') != p {
      var n, m := p.ops[x].ins[0], p.ops[x].ins[1];
      assert p.ops[x].ins == [n, m] && p.ops[n].ins == [p.ops[n].ins[0], p.ops[n].ins[1]];
      assert p.ops[m].ins == [p.ops[m].ins[0], p.ops[m].ins[1]];
      assert Twins(p, nUse, x, f, g, n, m, p.ops[n].ins[0], p.ops[n].ins[1], p.ops[m].ins[0], p.ops[m].ins[1]);
    }
  }

  /** Constants. */
  lemma ConstantsSettle(p: Program, nUse: seq<nat>, x: OpId, f: IntOp)
    requires x < |p.ops| && x !in p.ops[x].ins && ConstantStill(p, nUse, x, f)
    ensures OneConstant(p, nUse, x, f) && OuterPair(p, nUse, x, f) && NoSplit(p, nUse, x, f)
  {
    forall n: OpId, m: OpId, a: OpId, b: OpId |
      Two(p, x, f, n, m) && One(p, n, f, a) && One(p, m, f, b) && Alone(nUse, n) && Alone(nUse, m)
      ensures p.ops[a].opcode == BinI(f)
    {
      assert n in p.ops[x].ins;
      if p.ops[a].opcode != BinI(f) {
        HoistImmMoves(p, nUse, x, f, n, m, a, b);
      }
    }
    forall n: OpId, a: OpId, b: OpId | One(p, x, f, n) && Two(p, n, f, a, b) && Alone(nUse, n) ensures a == b {
      assert n in p.ops[x].ins;
      if a != b {
        TurnImmMoves(p, nUse, x, f, n, a, b);
      }
    }
    forall n: OpId, a: OpId | Two(p, x, f, n, a) && One(p, n, f, a) ensures !Alone(nUse, n) {
      assert n in p.ops[x].ins;
      if Alone(nUse, n) {
        DoubleImmMoves(p, nUse, x, f, n, a);
      }
    }
  }

  lemma SettledConstants(p: Program, nUse: seq<nat>, x: OpId, f: IntOp)
    requires OneConstant(p, nUse, x, f) && OuterPair(p, nUse, x, f) && NoSplit(p, nUse, x, f)
    ensures ConstantStill(p, nUse, x, f)
  {
    if IsBin(p, x, f) {
      assert p.ops[x].ins == [p.ops[x].ins[0], p.ops[x].ins[1]];
    }
    if IsImm(p, x, f) {
      assert p.ops[x].ins == [p.ops[x].ins[0]];
    }
    forall n: OpId | IsImm(p, n, f) ensures One(p, n, f, p.ops[n].ins[0]) {
      assert p.ops[n].ins == [p.ops[n].ins[0]];
    }
    forall n: OpId | IsBin(p, n, f) ensures Two(p, n, f, p.ops[n].ins[0], p.ops[n].ins[1]) {
      assert p.ops[n].ins == [p.ops[n].ins[0], p.ops[n].ins[1]];
    }
  }

  lemma OuterSettles(p: Program, nUse: seq<nat>, x: OpId, f: IntOp, g: IntOp)
    requires x < |p.ops| && x !in p.ops[x].ins
    ensures SlideImm(p, nUse, x, f, g) == p <==> NoOuter(p, nUse, x, f, g)
  {
    forall n: OpId, a: OpId, b: OpId | One(p, x, f, n) && Two(p, n, g, a, b) && Alone(nUse, n) ensures SlideImm(p, nUse, x, f, g) != p {
      assert n in p.ops[x].ins;
      assert SlideImm(p, nUse, x, f, g).ops[x].opcode == Bin(g);
    }
    if SlideImm(p, nUse, x, f, g) != p {
      var n := p.ops[x].ins[0];
      assert p.ops[x].ins == [n] && p.ops[n].ins == [p.ops[n].ins[0], p.ops[n].ins[1]];
      assert One(p, x, f, n) && Two(p, n, g, p.ops[n].ins[0], p.ops[n].ins[1]);
    }
  }

  lemma TailSettles(p: Program, nUse: seq<nat>, x: OpId)
    requires x < |p.ops| && x !in p.ops[x].ins
    ensures Tail(p, nUse, x) == p <==> NoTail(p, nUse, x)
  {
    forall n: OpId, a: OpId, b: OpId | Two(p, x, Sub, a, n) && Two(p, n, Sub, a, b) && a != b && Alone(nUse, n)
      ensures Tail(p, nUse, x) != p
    {
      assert n in p.ops[x].ins;
      assert Tail(p, nUse, x).ops[x].ins == [b, n];
    }
    if Tail(p, nUse, x) != p {
      var a, n := p.ops[x].ins[0], p.ops[x].ins[1];
      assert p.ops[x].ins == [a, n] && p.ops[n].ins == [p.ops[n].ins[0], p.ops[n].ins[1]];
      assert Two(p, x, Sub, a, n) && Two(p, n, Sub, a, p.ops[n].ins[1]);
    }
  }

  /** A pair of operands that cancels, by their places. */
  lemma CanCancelMeans(p: Program, x: OpId, c: Cancel, n: OpId, m: OpId, a: OpId, b: OpId, d: OpId, e: OpId)
    requires Two(p, x, c.f, n, m) && Two(p, n, c.g, a, b) && Two(p, m, c.h, d, e) && c.i < 2 && c.j < 2
    ensures CanCancel(p, x, c) <==> (if c.i == 0 then a else b) == (if c.j == 0 then d else e)
  {
  }

  lemma CancelsSettle(p: Program, x: OpId)
    requires SumStill5(p, x)
    ensures NoneOfDifference(p, x) && NoneOfSum(p, x) && NoneOfSums(p, x)
  {
    forall n: OpId, m: OpId, a: OpId, b: OpId, c: OpId, d: OpId | Two(p, x, Add, n, m) && Two(p, n, Sub, a, b) && Two(p, m, Add, c, d)
      ensures b != c && b != d
    {
      CanCancelMeans(p, x, Cancel(Add, Sub, Add, 1, 0), n, m, a, b, c, d);
      CanCancelMeans(p, x, Cancel(Add, Sub, Add, 1, 1), n, m, a, b, c, d);
    }
    forall n: OpId, m: OpId, a: OpId, b: OpId, c: OpId, d: OpId | Two(p, x, Add, n, m) && Two(p, n, Add, a, b) && Two(p, m, Sub, c, d)
      ensures a != d && b != d
    {
      CanCancelMeans(p, x, Cancel(Add, Add, Sub, 0, 1), n, m, a, b, c, d);
      CanCancelMeans(p, x, Cancel(Add, Add, Sub, 1, 1), n, m, a, b, c, d);
    }
    forall n: OpId, m: OpId, a: OpId, b: OpId, c: OpId, d: OpId | Two(p, x, Sub, n, m) && Two(p, n, Add, a, b) && Two(p, m, Add, c, d)
      ensures a != c && b != c && b != d
    {
      CanCancelMeans(p, x, Cancel(Sub, Add, Add, 0, 0), n, m, a, b, c, d);
      CanCancelMeans(p, x, Cancel(Sub, Add, Add, 1, 0), n, m, a, b, c, d);
      CanCancelMeans(p, x, Cancel(Sub, Add, Add, 1, 1), n, m, a, b, c, d);
    }
  }

  lemma CancelShape(p: Program, x: OpId, c: Cancel)
    requires CanCancel(p, x, c)
    ensures var n, m := p.ops[x].ins[0], p.ops[x].ins[1];
            && Two(p, x, c.f, n, m) && Two(p, n, c.g, p.ops[n].ins[0], p.ops[n].ins[1])
            && Two(p, m, c.h, p.ops[m].ins[0], p.ops[m].ins[1]) && p.ops[n].ins[c.i] == p.ops[m].ins[c.j]
  {
    var n, m := p.ops[x].ins[0], p.ops[x].ins[1];
    assert p.ops[x].ins == [n, m] && p.ops[n].ins == [p.ops[n].ins[0], p.ops[n].ins[1]];
    assert p.ops[m].ins == [p.ops[m].ins[0], p.ops[m].ins[1]];
  }

  lemma NoneCancels(p: Program, x: OpId, c: Cancel)
    requires NoneOfDifference(p, x) && NoneOfSum(p, x) && NoneOfSums(p, x)
    requires Cancels(c) && !(c.f == Sub && c.i == 0 && c.j == 1)
    ensures !CanCancel(p, x, c)
  {
    if CanCancel(p, x, c) {
      CancelShape(p, x, c);
    }
  }

  lemma ChainSettles(p: Program, dom: DomSeq, nUse: seq<nat>, x: OpId, f: IntOp)
    requires x < |p.ops| && x !in p.ops[x].ins && Sorted(p, dom, x, f) && ChainStill(p, dom, nUse, x, f)
    ensures ChainForm(p, dom, nUse, x, f)
  {
    CrossUncrosses(p, dom, nUse, x, f, f, f, f);
    SlideTurnStill(p, dom, nUse, x, f, f);
    RepeatedPairs(p, dom, nUse, x, f, f);
    ConstantsSettle(p, nUse, x, f);
  }

  lemma SettledChain(p: Program, dom: DomSeq, nUse: seq<nat>, x: OpId, f: IntOp)
    requires ChainForm(p, dom, nUse, x, f)
    ensures ChainStill(p, dom, nUse, x, f)
  {
    UncrossedStill(p, dom, nUse, x, f, f, f, f);
    LateStill(p, dom, nUse, x, f, f, Exactly(Bin(f)));
    PairedStill(p, dom, nUse, x, f, f);
    SettledConstants(p, nUse, x, f);
  }

  lemma SumSettles(p: Program, dom: DomSeq, nUse: seq<nat>, x: OpId)
    requires x < |p.ops| && x !in p.ops[x].ins && Sorted(p, dom, x, Add) && SumStill(p, dom, nUse, x)
    ensures SumForm(p, dom, nUse, x)
  {
    CrossUncrosses(p, dom, nUse, x, Add, Sub, Sub, Add);
    SlideTurnStill(p, dom, nUse, x, Add, Sub);
    SlideFlipStill(p, dom, nUse, x);
    SlideFoldStill(p, dom, nUse, x);
    RepeatedPairs(p, dom, nUse, x, Add, Sub);
    RepeatedFolds(p, dom, nUse, x);
    TailSettles(p, nUse, x);
    CancelsSettle(p, x);
  }

  lemma SettledSum(p: Program, dom: DomSeq, nUse: seq<nat>, x: OpId)
    requires x < |p.ops| && x !in p.ops[x].ins && SumForm(p, dom, nUse, x) && Late(p, dom, nUse, x, Add, Add)
    ensures SumStill(p, dom, nUse, x)
  {
    UncrossedStill(p, dom, nUse, x, Add, Sub, Sub, Add);
    LateStill(p, dom, nUse, x, Add, Add, Exactly(Bin(Sub)));
    LateStill(p, dom, nUse, x, Add, Sub, AnyOp);
    LateStill(p, dom, nUse, x, Sub, Add, AnyOp);
    LateStill(p, dom, nUse, x, Sub, Sub, AnyOp);
    PairedStill(p, dom, nUse, x, Add, Sub);
    PairedStill(p, dom, nUse, x, Sub, Sub);
    FoldStill(p, dom, nUse, x);
    TailSettles(p, nUse, x);
    SettledCancels(p, x);
  }

  /** One term that cancels is left alone: (a + b) - (c + a). */
  lemma NotCancelled(p: Program, x: OpId, n: OpId, m: OpId, a: OpId, b: OpId, c: OpId)
    requires Two(p, x, Sub, n, m) && Two(p, n, Add, a, b) && Two(p, m, Add, c, a) && a != b && a != c && b != c
    ensures SumStill5(p, x)
  {
    CanCancelMeans(p, x, Cancel(Sub, Add, Add, 0, 0), n, m, a, b, c, a);
    CanCancelMeans(p, x, Cancel(Sub, Add, Add, 1, 0), n, m, a, b, c, a);
    CanCancelMeans(p, x, Cancel(Sub, Add, Add, 1, 1), n, m, a, b, c, a);
  }

  lemma SettledCancels(p: Program, x: OpId)
    requires NoneOfDifference(p, x) && NoneOfSum(p, x) && NoneOfSums(p, x)
    ensures SumStill5(p, x)
  {
    NoneCancels(p, x, Cancel(Add, Sub, Add, 1, 0));
    NoneCancels(p, x, Cancel(Add, Sub, Add, 1, 1));
    NoneCancels(p, x, Cancel(Add, Add, Sub, 1, 1));
    NoneCancels(p, x, Cancel(Add, Add, Sub, 0, 1));
    NoneCancels(p, x, Cancel(Sub, Add, Add, 0, 0));
    NoneCancels(p, x, Cancel(Sub, Add, Add, 1, 0));
    NoneCancels(p, x, Cancel(Sub, Add, Add, 1, 1));
  }

  lemma OutersSettle(p: Program, dom: DomSeq, nUse: seq<nat>, x: OpId)
    requires x < |p.ops| && x !in p.ops[x].ins
    ensures OuterStill(p, dom, nUse, x) ==> ConstantForm(p, nUse, x)
    ensures ConstantForm(p, nUse, x) && Late(p, dom, nUse, x, Mul, Mul) ==> OuterStill(p, dom, nUse, x)
  {
    OuterSettles(p, nUse, x, Sub, Add);
    OuterSettles(p, nUse, x, Add, Sub);
    OuterSettles(p, nUse, x, Sub, Sub);
    if Late(p, dom, nUse, x, Mul, Mul) {
      LateStill(p, dom, nUse, x, Mul, Mul, Exactly(IDiv));
    }
  }

  // Putting operands in order.

  /** Ordering the operands of x for f does just that, and nothing if x is not f. */
  lemma ReorderSorts(p: Program, dom: DomSeq, x: OpId, f: IntOp)
    requires x < |p.ops|
    ensures var q := Reorder(p, dom, x, f);
            && Swapped(p, q, x) && Sorted(q, dom, x, f) && q.ops[x].opcode == p.ops[x].opcode
            && (x !in p.ops[x].ins ==> x !in q.ops[x].ins)
            && (Sorted(p, dom, x, f) ==> q == p) && (p.ops[x].opcode != Bin(f) ==> q == p)
  {
    var q := Reorder(p, dom, x, f);
    if IsBin(p, x, f) {
      assert p.ops[x].ins == [p.ops[x].ins[0], p.ops[x].ins[1]];
    }
    forall n: OpId, m: OpId | Two(q, x, f, n, m) ensures !FirstOpDominates(q, dom, n, m) {
      SameOrder(p, q, dom, x, n, m);
      SameOrder(p, q, dom, x, m, n);
      if q == p {
        assert Two(p, x, f, n, m);
      }
    }
  }

  /** Whatever the operator of x is, its operands are in order. */
  ghost predicate SortedAtAll(p: Program, dom: DomSeq, x: OpId) {
    x < |p.ops| && forall f: IntOp :: p.ops[x].opcode == Bin(f) ==> Sorted(p, dom, x, f)
  }

  /** Where a visit stands: constants, sums, and the chains of some operators have their form
      unless there was progress, and nothing happens to an op that has its form from the start. */
  ghost predicate FormedBy(w0: Work, w: Work, dom: DomSeq, x: OpId, fs: set<IntOp>) {
    && (w0.progress ==> w.progress)
    && (Form(w0.p, dom, w0.nUse, x) ==> w == w0)
    && (!w.progress ==>
          && w.nUse == w0.nUse && Swapped(w0.p, w.p, x) && (w.p == w0.p || SortedAtAll(w.p, dom, x))
          && ConstantForm(w.p, w.nUse, x) && SumForm(w.p, dom, w.nUse, x)
          && forall f :: f in fs ==> ChainForm(w.p, dom, w.nUse, x, f))
  }

  /** Ordering for one operator does not disturb the form of another. */
  lemma ReorderKeepsForms(p: Program, dom: DomSeq, nUse: seq<nat>, x: OpId, f: IntOp, fs: set<IntOp>)
    requires x < |p.ops| && ConstantForm(p, nUse, x) && SumForm(p, dom, nUse, x)
    requires f in {Add, Mul, And, Xor, Or} && forall g :: g in fs ==> ChainForm(p, dom, nUse, x, g)
    ensures var q := Reorder(p, dom, x, f);
            ConstantForm(q, nUse, x) && SumForm(q, dom, nUse, x) && forall g :: g in fs ==> ChainForm(q, dom, nUse, x, g)
  {
    var q := Reorder(p, dom, x, f);
    ReorderSorts(p, dom, x, f);
    if q != p {
      OtherConstant(q, nUse, x);
      OtherSum(q, dom, nUse, x);
      forall g | g in fs ensures ChainForm(q, dom, nUse, x, g) {
        OtherChain(q, dom, nUse, x, g);
      }
    }
  }

  lemma FormedMore(w0: Work, w: Work, w': Work, dom: DomSeq, x: OpId, fs: set<IntOp>, f: IntOp)
    requires FormedBy(w0, w, dom, x, fs) && x < |w.p.ops| && x !in w.p.ops[x].ins && f in {Add, Mul, And, Xor, Or}
    requires Visited(Sort(w, dom, x, f), w', ChainStill(Sort(w, dom, x, f).p, dom, w.nUse, x, f))
    ensures FormedBy(w0, w', dom, x, fs + {f})
  {
    var q := Reorder(w.p, dom, x, f);
    ReorderSorts(w.p, dom, x, f);
    if Form(w0.p, dom, w0.nUse, x) {
      SettledChain(w.p, dom, w.nUse, x, f);
    }
    if !w'.progress {
      ReorderKeepsForms(w.p, dom, w.nUse, x, f, fs);
      ChainSettles(q, dom, w.nUse, x, f);
    }
  }

  lemma FormedFirst(w0: Work, w1: Work, w: Work, dom: DomSeq, x: OpId)
    requires x < |w0.p.ops| && x !in w0.p.ops[x].ins && x < |w1.p.ops| && x !in w1.p.ops[x].ins
    requires Visited(w0, w1, OuterStill(w0.p, dom, w0.nUse, x))
    requires Visited(Sort(w1, dom, x, Add), w, SumStill(Sort(w1, dom, x, Add).p, dom, w1.nUse, x))
    ensures FormedBy(w0, w, dom, x, {})
  {
    var q := Reorder(w1.p, dom, x, Add);
    OutersSettle(w0.p, dom, w0.nUse, x);
    ReorderSorts(w1.p, dom, x, Add);
    if Form(w0.p, dom, w0.nUse, x) {
      SettledSum(w0.p, dom, w0.nUse, x);
    }
    if !w.progress {
      SumSettles(q, dom, w.nUse, x);
      if q != w0.p {
        OtherConstant(q, w.nUse, x);
      }
    }
  }

  // ---- the rules, one after another --------------------------------------------------------------

  /** doReassoc: operands in order, then pairs. */
  method Chain1(w0: Work, live: seq<BlockId>, dom: DomSeq, x: OpId, f: IntOp, ghost p0: Program) returns (w: Work)
    requires Going(p0, w0, live, dom, x) && f != Sub
    ensures Going(p0, w, live, dom, x) && InOrder(w.p, dom, x, f)
    ensures Visited(Sort(w0, dom, x, f), w, CrossStill(Sort(w0, dom, x, f).p, dom, w0.nUse, x, f))
  {
    ReorderKeeps(p0, w0.p, live, dom, w0.nUse, x, f);
    w := w0.(p := Reorder(w0.p, dom, x, f));
    NotOwnInput(w.p, live, dom, w.nUse, x);
    CrossInOrder(w.p, dom, w.nUse, x, f);
    CrossKeeps(p0, w.p, live, dom, w.nUse, x, f, f, f, f);
    w := Moved(w, Cross(w.p, dom, w.nUse, x, f, f, f, f));
  }

  /** Operands of operands that are defined early move down. */
  method Chain2(w0: Work, live: seq<BlockId>, dom: DomSeq, x: OpId, f: IntOp, ghost p0: Program) returns (w: Work)
    requires Going(p0, w0, live, dom, x) && f != Sub && InOrder(w0.p, dom, x, f)
    ensures Going(p0, w, live, dom, x) && InOrder(w.p, dom, x, f)
    ensures Visited(w0, w, EarlyStill(w0.p, dom, w0.nUse, x, f))
  {
    w := w0;
    NotOwnInput(w.p, live, dom, w.nUse, x);
    HoistInOrder(w.p, dom, w.nUse, x, f, Exactly(Bin(f)));
    HoistKeeps(p0, w.p, live, dom, w.nUse, x, f, f, Exactly(Bin(f)));
    w := Moved(w, Hoist(w.p, dom, w.nUse, x, f, f, Exactly(Bin(f))));
    NotOwnInput(w.p, live, dom, w.nUse, x);
    SlideInOrder(w.p, dom, w.nUse, x, f, Earlier);
    SlideKeeps(p0, w.p, live, dom, w.nUse, x, f, f, Earlier);
    w := Moved(w, Slide(w.p, dom, w.nUse, x, f, f, Earlier));
    NotOwnInput(w.p, live, dom, w.nUse, x);
    TurnInOrder(w.p, dom, w.nUse, x, f, Earlier);
    TurnKeeps(p0, w.p, live, dom, w.nUse, x, f, f, Earlier);
    w := Moved(w, Turn(w.p, dom, w.nUse, x, f, f, Earlier));
  }

  /** Repeated operands pair up. */
  method Chain3(w0: Work, live: seq<BlockId>, dom: DomSeq, x: OpId, f: IntOp, ghost p0: Program) returns (w: Work)
    requires Going(p0, w0, live, dom, x) && f != Sub && InOrder(w0.p, dom, x, f)
    ensures Going(p0, w, live, dom, x) && InOrder(w.p, dom, x, f)
    ensures Visited(w0, w, RepeatStill(w0.p, dom, w0.nUse, x, f))
  {
    w := w0;
    NotOwnInput(w.p, live, dom, w.nUse, x);
    TurnInOrder(w.p, dom, w.nUse, x, f, Repeated);
    TurnKeeps(p0, w.p, live, dom, w.nUse, x, f, f, Repeated);
    w := Moved(w, Turn(w.p, dom, w.nUse, x, f, f, Repeated));
    NotOwnInput(w.p, live, dom, w.nUse, x);
    SlideInOrder(w.p, dom, w.nUse, x, f, Repeated);
    SlideKeeps(p0, w.p, live, dom, w.nUse, x, f, f, Repeated);
    w := Moved(w, Slide(w.p, dom, w.nUse, x, f, f, Repeated));
  }

  /** Immediates move down. */
  method Chain4(w0: Work, live: seq<BlockId>, dom: DomSeq, x: OpId, f: IntOp, ghost p0: Program) returns (w: Work)
    requires Going(p0, w0, live, dom, x) && f != Sub && InOrder(w0.p, dom, x, f)
    ensures Going(p0, w, live, dom, x)
    ensures Visited(w0, w, ConstantStill(w0.p, w0.nUse, x, f))
  {
    w := w0;
    HoistImmKeeps(p0, w.p, live, dom, w.nUse, x, f);
    w := Moved(w, HoistImm(w.p, w.nUse, x, f));
    TurnImmKeeps(p0, w.p, live, dom, w.nUse, x, f);
    w := Moved(w, TurnImm(w.p, w.nUse, x, f));
    DoubleImmKeeps(p0, w.p, live, dom, w.nUse, x, f);
    w := Moved(w, DoubleImm(w.p, w.nUse, x, f));
  }

  method DoReassoc(w0: Work, live: seq<BlockId>, dom: DomSeq, x: OpId, f: IntOp, ghost p0: Program) returns (w: Work)
    requires Going(p0, w0, live, dom, x) && f != Sub
    ensures Going(p0, w, live, dom, x)
    ensures Visited(Sort(w0, dom, x, f), w, ChainStill(Sort(w0, dom, x, f).p, dom, w0.nUse, x, f))
  {
    w := Chain1(w0, live, dom, x, f, p0);
    w := Chain2(w, live, dom, x, f, p0);
    w := Chain3(w, live, dom, x, f, p0);
    w := Chain4(w, live, dom, x, f, p0);
  }

  /** reassocSub: sums of differences. */
  method Sub1(w0: Work, live: seq<BlockId>, dom: DomSeq, x: OpId, ghost p0: Program) returns (w: Work)
    requires Going(p0, w0, live, dom, x)
    ensures Going(p0, w, live, dom, x)
    ensures Visited(Sort(w0, dom, x, Add), w, SumStill1(Sort(w0, dom, x, Add).p, dom, w0.nUse, x))
  {
    w := w0;
    ReorderKeeps(p0, w.p, live, dom, w.nUse, x, Add);
    w := w.(p := Reorder(w.p, dom, x, Add));
    CrossKeeps(p0, w.p, live, dom, w.nUse, x, Add, Sub, Sub, Add);
    w := Moved(w, Cross(w.p, dom, w.nUse, x, Add, Sub, Sub, Add));
  }

  /** Operands defined early move down. */
  method Sub2(w0: Work, live: seq<BlockId>, dom: DomSeq, x: OpId, ghost p0: Program) returns (w: Work)
    requires Going(p0, w0, live, dom, x)
    ensures Going(p0, w, live, dom, x)
    ensures Visited(w0, w, SumStill2(w0.p, dom, w0.nUse, x))
  {
    w := w0;
    HoistKeeps(p0, w.p, live, dom, w.nUse, x, Add, Add, Exactly(Bin(Sub)));
    w := Moved(w, Hoist(w.p, dom, w.nUse, x, Add, Add, Exactly(Bin(Sub))));
    HoistKeeps(p0, w.p, live, dom, w.nUse, x, Add, Sub, AnyOp);
    w := Moved(w, Hoist(w.p, dom, w.nUse, x, Add, Sub, AnyOp));
    SlideKeeps(p0, w.p, live, dom, w.nUse, x, Sub, Add, Earlier);
    w := Moved(w, Slide(w.p, dom, w.nUse, x, Sub, Add, Earlier));
    SlideKeeps(p0, w.p, live, dom, w.nUse, x, Add, Sub, Earlier);
    w := Moved(w, Slide(w.p, dom, w.nUse, x, Add, Sub, Earlier));
  }

  /** The same for what the first operand starts with. */
  method Sub3(w0: Work, live: seq<BlockId>, dom: DomSeq, x: OpId, ghost p0: Program) returns (w: Work)
    requires Going(p0, w0, live, dom, x)
    ensures Going(p0, w, live, dom, x)
    ensures Visited(w0, w, SumStill3(w0.p, dom, w0.nUse, x))
  {
    w := w0;
    TurnKeeps(p0, w.p, live, dom, w.nUse, x, Add, Sub, Earlier);
    w := Moved(w, Turn(w.p, dom, w.nUse, x, Add, Sub, Earlier));
    FlipKeeps(p0, w.p, live, dom, w.nUse, x);
    w := Moved(w, Flip(w.p, dom, w.nUse, x));
    SlideKeeps(p0, w.p, live, dom, w.nUse, x, Sub, Sub, Earlier);
    w := Moved(w, Slide(w.p, dom, w.nUse, x, Sub, Sub, Earlier));
    FoldKeeps(p0, w.p, live, dom, w.nUse, x, Earlier);
    w := Moved(w, Fold(w.p, dom, w.nUse, x, Earlier));
  }

  /** Repeated operands pair up. */
  method Sub4(w0: Work, live: seq<BlockId>, dom: DomSeq, x: OpId, ghost p0: Program) returns (w: Work)
    requires Going(p0, w0, live, dom, x)
    ensures Going(p0, w, live, dom, x)
    ensures Visited(w0, w, SumStill4(w0.p, dom, w0.nUse, x))
  {
    w := w0;
    TurnKeeps(p0, w.p, live, dom, w.nUse, x, Add, Sub, Repeated);
    w := Moved(w, Turn(w.p, dom, w.nUse, x, Add, Sub, Repeated));
    FoldKeeps(p0, w.p, live, dom, w.nUse, x, Repeated);
    w := Moved(w, Fold(w.p, dom, w.nUse, x, Repeated));
    SlideKeeps(p0, w.p, live, dom, w.nUse, x, Add, Sub, Repeated);
    w := Moved(w, Slide(w.p, dom, w.nUse, x, Add, Sub, Repeated));
    SlideKeeps(p0, w.p, live, dom, w.nUse, x, Sub, Sub, Repeated);
    w := Moved(w, Slide(w.p, dom, w.nUse, x, Sub, Sub, Repeated));
    TailKeeps(p0, w.p, live, dom, w.nUse, x);
    w := Moved(w, Tail(w.p, w.nUse, x));
  }

  /** simplify: a term that cancels leaves x with one operand of each side. */
  method DoCancel(w0: Work, live: seq<BlockId>, dom: DomSeq, x: OpId, c: Cancel, ghost p0: Program) returns (w: Work)
    requires Going(p0, w0, live, dom, x) && Cancels(c)
    ensures Going(p0, w, live, dom, x)
    ensures Visited(w0, w, !CanCancel(w0.p, x, c))
  {
    w := w0;
    if CanCancel(w.p, x, c) {
      CancelKeeps(p0, w.p, live, dom, w.nUse, x, c);
      var n, m, r := w.p.ops[x].ins[0], w.p.ops[x].ins[1], Remains(w.p, x, c);
      w := Work(w.p.(ops := w.p.ops[x := w.p.ops[x].(ins := r)]), Recount(w.nUse, n, m, r[0], r[1]), true);
    }
  }

  method Sub5(w0: Work, live: seq<BlockId>, dom: DomSeq, x: OpId, ghost p0: Program) returns (w: Work)
    requires Going(p0, w0, live, dom, x)
    ensures Going(p0, w, live, dom, x)
    ensures Visited(w0, w, SumStill5(w0.p, x))
  {
    w := DoCancel(w0, live, dom, x, Cancel(Add, Sub, Add, 1, 0), p0);
    w := DoCancel(w, live, dom, x, Cancel(Add, Sub, Add, 1, 1), p0);
    w := DoCancel(w, live, dom, x, Cancel(Add, Add, Sub, 1, 1), p0);
    w := DoCancel(w, live, dom, x, Cancel(Add, Add, Sub, 0, 1), p0);
    w := DoCancel(w, live, dom, x, Cancel(Sub, Add, Add, 0, 0), p0);
    w := DoCancel(w, live, dom, x, Cancel(Sub, Add, Add, 1, 0), p0);
    w := DoCancel(w, live, dom, x, Cancel(Sub, Add, Add, 1, 0), p0);
    w := DoCancel(w, live, dom, x, Cancel(Sub, Add, Add, 1, 1), p0);
  }

  method ReassocSub(w0: Work, live: seq<BlockId>, dom: DomSeq, x: OpId, ghost p0: Program) returns (w: Work)
    requires Going(p0, w0, live, dom, x)
    ensures Going(p0, w, live, dom, x)
    ensures Visited(Sort(w0, dom, x, Add), w, SumStill(Sort(w0, dom, x, Add).p, dom, w0.nUse, x))
  {
    w := Sub1(w0, live, dom, x, p0);
    w := Sub2(w, live, dom, x, p0);
    w := Sub3(w, live, dom, x, p0);
    w := Sub4(w, live, dom, x, p0);
    w := Sub5(w, live, dom, x, p0);
  }

  /** Constants move into the first operand, and a quotient into the deeper product. */
  method Immediates(w0: Work, live: seq<BlockId>, dom: DomSeq, x: OpId, ghost p0: Program) returns (w: Work)
    requires Going(p0, w0, live, dom, x)
    ensures Going(p0, w, live, dom, x)
    ensures Visited(w0, w, OuterStill(w0.p, dom, w0.nUse, x))
  {
    w := w0;
    SlideImmKeeps(p0, w.p, live, dom, w.nUse, x, Sub, Add);
    w := Moved(w, SlideImm(w.p, w.nUse, x, Sub, Add));
    SlideImmKeeps(p0, w.p, live, dom, w.nUse, x, Add, Sub);
    w := Moved(w, SlideImm(w.p, w.nUse, x, Add, Sub));
    SlideImmKeeps(p0, w.p, live, dom, w.nUse, x, Sub, Sub);
    w := Moved(w, SlideImm(w.p, w.nUse, x, Sub, Sub));
    HoistKeeps(p0, w.p, live, dom, w.nUse, x, Mul, Mul, Exactly(IDiv));
    w := Moved(w, Hoist(w.p, dom, w.nUse, x, Mul, Mul, Exactly(IDiv)));
  }

  /** All rules, in order, for one op. */
  method VisitOp(w0: Work, live: seq<BlockId>, dom: DomSeq, x: OpId, ghost p0: Program) returns (w: Work)
    requires Going(p0, w0, live, dom, x)
    ensures Going(p0, w, live, dom, x)
    ensures w0.progress ==> w.progress
    ensures Form(w0.p, dom, w0.nUse, x) ==> w == w0
    ensures !w.progress ==> w.nUse == w0.nUse && Swapped(w0.p, w.p, x) && Form(w.p, dom, w.nUse, x)
  {
    NotOwnInput(w0.p, live, dom, w0.nUse, x);
    var w1 := Immediates(w0, live, dom, x, p0);
    NotOwnInput(w1.p, live, dom, w1.nUse, x);
    w := ReassocSub(w1, live, dom, x, p0);
    FormedFirst(w0, w1, w, dom, x);
    w := VisitChain(w0, w, live, dom, x, Add, {}, p0);
    w := VisitChain(w0, w, live, dom, x, Mul, {Add}, p0);
    w := VisitChain(w0, w, live, dom, x, And, {Add, Mul}, p0);
    w := VisitChain(w0, w, live, dom, x, Xor, {Add, Mul, And}, p0);
    w := VisitChain(w0, w, live, dom, x, Or, {Add, Mul, And, Xor}, p0);
  }

  /** The chains of one more operator. */
  method VisitChain(ghost w0: Work, w1: Work, live: seq<BlockId>, dom: DomSeq, x: OpId, f: IntOp, ghost fs: set<IntOp>, ghost p0: Program)
    returns (w: Work)
    requires Going(p0, w1, live, dom, x) && f in {Add, Mul, And, Xor, Or} && FormedBy(w0, w1, dom, x, fs)
    ensures Going(p0, w, live, dom, x) && FormedBy(w0, w, dom, x, fs + {f})
  {
    NotOwnInput(w1.p, live, dom, w1.nUse, x);
    w := DoReassoc(w1, live, dom, x, f, p0);
    FormedMore(w0, w1, w, dom, x, fs, f);
  }

  /** What the pass keeps: use counts stay exact, definitions stay before uses, and nothing
      that anyone else can see has changed since p0. */
  ghost predicate Sound(pr: Proc, p0: Program)
    reads pr
  {
    Good(pr.prog, pr.live, pr.dom, pr.nUse) && SameSeen(p0, pr.prog)
  }

  lemma CodeOf(p: Program, live: seq<BlockId>, b: BlockId, j: nat)
    requires Placed(p) && LiveExact(p.ops, p.code, live) && b in live && b < |p.code| && j < |p.code[b]|
    ensures InCode(p, p.code[b][j])
  {
    assert LiveBlock(p.ops, p.code, b) && PlacedAt(p, b, j);
  }

  ghost predicate SoundWork(w: Work, live: seq<BlockId>, dom: DomSeq, p0: Program) {
    Good(w.p, live, dom, w.nUse) && SameSeen(p0, w.p)
  }

  // ---- visits keep the form of what was visited before ---------------------------------------------

  /** Dominators of a block stand at or before it. */
  ghost predicate DomsFirst(live: seq<BlockId>, dom: DomSeq) {
    forall k: nat, d: BlockId :: k < |live| && live[k] < |dom| && d in dom[live[k]] ==> d in live[..k + 1]
  }

  lemma ListedFirst(p: Program, live: seq<BlockId>, dom: DomSeq, nUse: seq<nat>)
    requires Good(p, live, dom, nUse) && DiscoveryOrder(p.ops, p.code, live)
    ensures DomsFirst(live, dom)
  {
    forall k: nat, d: BlockId | k < |live| && live[k] < |dom| && d in dom[live[k]] ensures d in live[..k + 1] {
      assert live[k] in live;
      DominatorsFirst(p.ops, p.code, live, k, d);
      var j :| 0 <= j <= k && live[j] == d;
      assert live[..k + 1][j] == d;
    }
  }

  /** An op whose value is used has its form. */
  ghost predicate FormAt(p: Program, dom: DomSeq, nUse: seq<nat>, x: OpId) {
    x < |p.ops| && x < |nUse| && !p.ops[x].opcode.Nop? && nUse[x] > 0 ==> Form(p, dom, nUse, x)
  }

  /** Index i of live[m] comes before index j of live[k]. */
  predicate Sooner(p: Program, live: seq<BlockId>, k: nat, j: nat, m: nat, i: nat) {
    m < |live| && live[m] < |p.code| && i < |p.code[live[m]]| && (m < k || (m == k && i < j))
  }

  ghost predicate FormedUpTo(p: Program, live: seq<BlockId>, dom: DomSeq, nUse: seq<nat>, k: nat, j: nat) {
    forall m: nat, i: nat :: Sooner(p, live, k, j, m, i) ==> FormAt(p, dom, nUse, p.code[live[m]][i])
  }

  /** Every op in live code whose value is used has its form. */
  ghost predicate AllFormed(p: Program, live: seq<BlockId>, dom: DomSeq, nUse: seq<nat>) {
    FormedUpTo(p, live, dom, nUse, |live|, 0)
  }

  /** Operands are visited before the ops that use them. */
  lemma OperandSooner(p: Program, live: seq<BlockId>, dom: DomSeq, nUse: seq<nat>, k: nat, j: nat, m: nat, i: nat)
    requires Good(p, live, dom, nUse) && DomsFirst(live, dom) && k < |live| && live[k] < |p.code| && j < |p.code[live[k]]|
    requires Sooner(p, live, k, j, m, i) && p.code[live[m]][i] < |p.ops| && IsInt(p.ops[p.code[live[m]][i]])
    ensures p.code[live[k]][j] !in p.ops[p.code[live[m]][i]].ins && p.code[live[k]][j] != p.code[live[m]][i]
  {
    var x, z := p.code[live[m]][i], p.code[live[k]][j];
    PlacedIn(p, live, m, i);
    PlacedIn(p, live, k, j);
    assert live[m] == live[k] ==> m == k;
    if z in p.ops[x].ins {
      InputsOf(p, x);
      BlockOf(p, live, dom, x, z);
      var n :| 0 <= n < m + 1 && live[..m + 1][n] == live[k];
      assert n == k;
      UsedBelow(p, x, z);
    }
  }

  lemma PlacedIn(p: Program, live: seq<BlockId>, m: nat, i: nat)
    requires Placed(p) && LiveExact(p.ops, p.code, live) && m < |live| && live[m] < |p.code| && i < |p.code[live[m]]|
    ensures var x := p.code[live[m]][i]; x < |p.ops| && p.ops[x].block == live[m] && p.ops[x].pos == i && InCode(p, x)
  {
    assert live[m] in live;
    assert LiveBlock(p.ops, p.code, live[m]) && PlacedAt(p, live[m], i);
  }

  /** Within a block an operand stands above. */
  lemma UsedBelow(p: Program, x: OpId, z: OpId)
    requires StrictSsa(p) && Liveness.PhisFirst(p) && InCode(p, x) && IsInt(p.ops[x]) && InCode(p, z) && p.ops[z].block == p.ops[x].block
    requires InputOk(p, DefPoint(p.ops, x), z)
    ensures p.ops[z].pos < p.ops[x].pos
  {
    if p.ops[x].pos <= p.ops[z].pos {
      PositionBefore(p, x, z);
      Renaming.PointReachable(p, p.ops[x].block, p.ops[x].pos + 1);
      DomAntisymmetric(Points(p), DefPoint(p.ops, x), DefPoint(p.ops, z));
    }
  }

  lemma FormAtStays(p: Program, q: Program, live: seq<BlockId>, dom: DomSeq, nUse: seq<nat>, k: nat, j: nat, m: nat, i: nat)
    requires Good(p, live, dom, nUse) && DomsFirst(live, dom) && k < |live| && live[k] < |p.code| && j < |p.code[live[k]]|
    requires Swapped(p, q, p.code[live[k]][j]) && Sooner(p, live, k, j, m, i) && FormAt(p, dom, nUse, p.code[live[m]][i])
    ensures FormAt(q, dom, nUse, p.code[live[m]][i])
  {
    var x, z := p.code[live[m]][i], p.code[live[k]][j];
    PlacedIn(p, live, m, i);
    PlacedIn(p, live, k, j);
    if IntOpcode(p.ops[x].opcode) {
      OperandSooner(p, live, dom, nUse, k, j, m, i);
      if nUse[x] > 0 && !p.ops[x].opcode.Nop? {
        FormFramed(p, q, dom, nUse, x, z);
      }
    } else {
      OtherForm(q, dom, nUse, x);
    }
  }

  lemma OtherForm(p: Program, dom: DomSeq, nUse: seq<nat>, x: OpId)
    requires x < |p.ops| && !IntOpcode(p.ops[x].opcode)
    ensures Form(p, dom, nUse, x)
  {
    OtherConstant(p, nUse, x);
    OtherSum(p, dom, nUse, x);
    OtherChain(p, dom, nUse, x, Add);
    OtherChain(p, dom, nUse, x, Mul);
    OtherChain(p, dom, nUse, x, And);
    OtherChain(p, dom, nUse, x, Xor);
    OtherChain(p, dom, nUse, x, Or);
  }

  lemma FormedNext(p: Program, q: Program, live: seq<BlockId>, dom: DomSeq, nUse: seq<nat>, k: nat, j: nat)
    requires Good(p, live, dom, nUse) && DomsFirst(live, dom) && k < |live| && live[k] < |p.code| && j < |p.code[live[k]]|
    requires Swapped(p, q, p.code[live[k]][j]) && FormAt(q, dom, nUse, p.code[live[k]][j])
    requires FormedUpTo(p, live, dom, nUse, k, j)
    ensures FormedUpTo(q, live, dom, nUse, k, j + 1)
  {
    forall m: nat, i: nat | Sooner(q, live, k, j + 1, m, i) ensures FormAt(q, dom, nUse, q.code[live[m]][i]) {
      if !(m == k && i == j) {
        assert Sooner(p, live, k, j, m, i);
        FormAtStays(p, q, live, dom, nUse, k, j, m, i);
      }
    }
  }

  lemma FormedBlock(p: Program, live: seq<BlockId>, dom: DomSeq, nUse: seq<nat>, k: nat)
    requires k < |live| && live[k] < |p.code| && FormedUpTo(p, live, dom, nUse, k, |p.code[live[k]]|)
    ensures FormedUpTo(p, live, dom, nUse, k + 1, 0)
  {
    forall m: nat, i: nat | Sooner(p, live, k + 1, 0, m, i) ensures FormAt(p, dom, nUse, p.code[live[m]][i]) {
      assert Sooner(p, live, k, |p.code[live[k]]|, m, i);
    }
  }

  lemma FormedHere(p: Program, live: seq<BlockId>, dom: DomSeq, nUse: seq<nat>, k: nat, j: nat)
    requires AllFormed(p, live, dom, nUse) && k < |live| && live[k] < |p.code| && j < |p.code[live[k]]|
    ensures FormAt(p, dom, nUse, p.code[live[k]][j])
  {
    assert Sooner(p, live, |live|, 0, k, j);
  }

  /** What the visits from block k on have left when they come to index j of block m. */
  ghost predicate PassedOver(w0: Work, w: Work, live: seq<BlockId>, dom: DomSeq, k: nat, m: nat, j: nat) {
    && (w0.progress ==> w.progress)
    && (AllFormed(w0.p, live, dom, w0.nUse) ==> w == w0)
    && (!w.progress ==> w.nUse == w0.nUse)
    && (!w.progress && FormedUpTo(w0.p, live, dom, w0.nUse, k, 0) ==> FormedUpTo(w.p, live, dom, w.nUse, m, j))
  }

  /** Visit the op at index j of live[k]. */
  method VisitAt(ghost w0: Work, w1: Work, live: seq<BlockId>, dom: DomSeq, k: nat, j: nat, ghost p0: Program) returns (w: Work)
    requires SoundWork(w1, live, dom, p0) && DomsFirst(live, dom) && k < |live| && live[k] < |p0.code| && j < |p0.code[live[k]]|
    requires PassedOver(w0, w1, live, dom, k, k, j)
    ensures SoundWork(w, live, dom, p0) && PassedOver(w0, w, live, dom, k, k, j + 1)
  {
    var x := w1.p.code[live[k]][j];
    assert live[k] in live;
    CodeOf(w1.p, live, live[k], j);
    w := w1;
    if AllFormed(w0.p, live, dom, w0.nUse) {
      FormedHere(w0.p, live, dom, w0.nUse, k, j);
    }
    if !w1.p.ops[x].opcode.Nop? && w1.nUse[x] != 0 {
      w := VisitOp(w1, live, dom, x, p0);
    }
    if !w.progress && FormedUpTo(w0.p, live, dom, w0.nUse, k, 0) {
      FormedNext(w1.p, w.p, live, dom, w.nUse, k, j);
    }
  }

  method VisitBlock(w0: Work, live: seq<BlockId>, dom: DomSeq, k: nat, ghost p0: Program) returns (w: Work)
    requires SoundWork(w0, live, dom, p0) && DomsFirst(live, dom) && k < |live| && live[k] < |p0.code|
    ensures SoundWork(w, live, dom, p0) && PassedOver(w0, w, live, dom, k, k + 1, 0)
  {
    w := w0;
    for j := 0 to |w0.p.code[live[k]]|
      invariant SoundWork(w, live, dom, p0) && PassedOver(w0, w, live, dom, k, k, j)
    {
      w := VisitAt(w0, w, live, dom, k, j, p0);
    }
    if !w.progress && FormedUpTo(w0.p, live, dom, w0.nUse, k, 0) {
      FormedBlock(w.p, live, dom, w.nUse, k);
    }
  }

  // ---- the pass ------------------------------------------------------------------------------------

  /** One round over all live blocks. */
  method Round(w0: Work, live: seq<BlockId>, dom: DomSeq, ghost p0: Program) returns (w: Work)
    requires SoundWork(w0, live, dom, p0) && DomsFirst(live, dom)
    ensures SoundWork(w, live, dom, p0)
    ensures AllFormed(w0.p, live, dom, w0.nUse) ==> w == w0
    ensures !w.progress ==> AllFormed(w.p, live, dom, w.nUse)
  {
    w := w0;
    for k := 0 to |live|
      invariant SoundWork(w, live, dom, p0) && PassedOver(w0, w, live, dom, 0, k, 0)
    {
      assert live[k] in live;
      assert LiveBlock(w.p.ops, w.p.code, live[k]);
      w := VisitBlock(w, live, dom, k, p0);
    }
  }

  /** Rounds until nothing moves, or given up. On every run the effects and everything that is
      read by anything but integer arithmetic are as before. Once nothing moves, all of the
      code has its form, and then nothing moves ever after. */
  method OptReassoc(pr: Proc, rounds: nat) returns (settled: bool, anyProgress: bool)
    requires Good(pr.prog, pr.live, pr.dom, pr.nUse) && DiscoveryOrder(pr.prog.ops, pr.prog.code, pr.live)
    modifies pr`prog, pr`nUse
    ensures Good(pr.prog, pr.live, pr.dom, pr.nUse) && SameSeen(old(pr.prog), pr.prog)
    ensures settled ==> AllFormed(pr.prog, pr.live, pr.dom, pr.nUse)
    ensures rounds > 0 ==> settled || anyProgress
    ensures old(AllFormed(pr.prog, pr.live, pr.dom, pr.nUse)) ==> !anyProgress && pr.prog == old(pr.prog) && pr.nUse == old(pr.nUse)
  {
    ghost var p0 := pr.prog;
    ghost var formed := AllFormed(pr.prog, pr.live, pr.dom, pr.nUse);
    SameSeenRefl(p0);
    ListedFirst(p0, pr.live, pr.dom, pr.nUse);
    settled, anyProgress := false, false;
    var round := 0;
    while !settled && round < rounds
      invariant Sound(pr, p0)
      invariant settled ==> AllFormed(pr.prog, pr.live, pr.dom, pr.nUse)
      invariant round > 0 ==> settled || anyProgress
      invariant formed ==> !anyProgress && pr.prog == p0 && pr.nUse == old(pr.nUse)
    {
      var w := Round(Work(pr.prog, pr.nUse, false), pr.live, pr.dom, p0);
      pr.prog, pr.nUse := w.p, w.nUse;
      settled := !w.progress;
      if w.progress { anyProgress := true; }
      round := round + 1;
    }
  }
}
