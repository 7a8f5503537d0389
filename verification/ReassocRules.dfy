/** The integer rewriting rules of opt_reassoc (src/opt-reassoc.cpp), each as an edit of the
    visited op x and of operands that only x uses. */
module ReassocRules {
  import opened Ir
  import opened Words
  import opened Ssa
  import opened Rewriting
  import opened UseCounts
  import opened Liveness
  import opened ReassocTheory

  // ---- shapes -------------------------------------------------------------------------------

  /** x is n f y with n itself a g b, used by x only. */
  ghost predicate Tree(p: Program, live: seq<BlockId>, dom: DomSeq, nUse: seq<nat>,
                       x: OpId, f: IntOp, n: OpId, y: OpId, g: IntOp, a: OpId, b: OpId)
  {
    && Pair(p, live, dom, nUse, x, n)
    && p.ops[x].opcode == Bin(f) && p.ops[x].ins == [n, y]
    && p.ops[n].opcode == Bin(g) && p.ops[n].ins == [a, b]
  }

  /** What is available where. */
  ghost predicate Leaf(p: Program, x: OpId, n: OpId, u: OpId)
    requires x < |p.ops| && n < |p.ops|
  {
    u != n && u < |p.ops| && InputOk(p, DefPoint(p.ops, x), u)
  }

  ghost predicate Inner(p: Program, x: OpId, n: OpId, u: OpId)
    requires x < |p.ops| && n < |p.ops|
  {
    Leaf(p, x, n, u) && InputOk(p, DefPoint(p.ops, n), u)
  }

  lemma PairLeaves(p: Program, live: seq<BlockId>, dom: DomSeq, nUse: seq<nat>, x: OpId, n: OpId)
    requires Pair(p, live, dom, nUse, x, n)
    ensures x != n && InputOk(p, DefPoint(p.ops, x), n)
    ensures forall u :: u in p.ops[n].ins ==> Inner(p, x, n, u)
    ensures forall u :: u in p.ops[x].ins && u != n ==> Leaf(p, x, n, u)
  {
    PairPlaces(p, live, dom, nUse, x, n);
    PairInputs(p, live, dom, nUse, x, n);
  }

  lemma OtherSide(p: Program, live: seq<BlockId>, dom: DomSeq, nUse: seq<nat>, x: OpId, n: OpId, y: OpId)
    requires Pair(p, live, dom, nUse, x, n) && (p.ops[x].ins == [n, y] || p.ops[x].ins == [y, n])
    ensures y != n
  {
    PairPrivate(p, live, dom, nUse, x, n);
    TwoOccs(n, y, n);
    TwoOccs(y, n, n);
  }

  lemma TreeLeaves(p: Program, live: seq<BlockId>, dom: DomSeq, nUse: seq<nat>,
                   x: OpId, f: IntOp, n: OpId, y: OpId, g: IntOp, a: OpId, b: OpId)
    requires Tree(p, live, dom, nUse, x, f, n, y, g, a, b)
    ensures x != n && InputOk(p, DefPoint(p.ops, x), n)
    ensures Inner(p, x, n, a) && Inner(p, x, n, b) && Leaf(p, x, n, y)
  {
    PairLeaves(p, live, dom, nUse, x, n);
    OtherSide(p, live, dom, nUse, x, n, y);
    assert a in p.ops[n].ins && b in p.ops[n].ins && y in p.ops[x].ins;
  }

  /** Four operands, dealt out differently. */
  lemma FourOccs(a: OpId, b: OpId, n: OpId, y: OpId)
    ensures SameOccs([n, b], [a, y], [n, y], [a, b])
    ensures SameOccs([n, a], [y, b], [n, y], [a, b])
    ensures SameOccs([n, a], [b, y], [n, y], [a, b])
    ensures SameOccs([a, n], [y, b], [n, y], [a, b])
    ensures SameOccs([a, n], [b, y], [a, b], [n, y])
  {
    forall v: OpId
      ensures Occ([n, b], v) + Occ([a, y], v) == Occ([n, y], v) + Occ([a, b], v)
      ensures Occ([n, a], v) + Occ([y, b], v) == Occ([n, y], v) + Occ([a, b], v)
      ensures Occ([n, a], v) + Occ([b, y], v) == Occ([n, y], v) + Occ([a, b], v)
      ensures Occ([a, n], v) + Occ([y, b], v) == Occ([n, y], v) + Occ([a, b], v)
    {
      TwoOccs(a, b, v);
      TwoOccs(n, y, v);
      TwoOccs(n, b, v);
      TwoOccs(a, y, v);
      TwoOccs(n, a, v);
      TwoOccs(y, b, v);
      TwoOccs(b, y, v);
      TwoOccs(a, n, v);
    }
  }

  /** An operand more or less, as an op gains or loses an immediate. */
  lemma ThreeOccs(a: OpId, b: OpId, n: OpId)
    ensures SameOccs([n, b], [a], [n], [a, b])
    ensures SameOccs([n, a], [b], [n], [a, b])
    ensures SameOccs([n], [a, b], [n, b], [a])
    ensures SameOccs([n, a], [b], [n, b], [a])
  {
    forall v: OpId
      ensures Occ([n, b], v) + Occ([a], v) == Occ([n], v) + Occ([a, b], v)
      ensures Occ([n, a], v) + Occ([b], v) == Occ([n], v) + Occ([a, b], v)
    {
      OneOcc(a, v);
      OneOcc(b, v);
      OneOcc(n, v);
      TwoOccs(a, b, v);
      TwoOccs(n, b, v);
      TwoOccs(n, a, v);
    }
  }

  /** New contents for x and n built from what is available. */
  lemma Rebuilt(ev: Arith, p: Program, x: OpId, ox: Op, n: OpId, on: Op)
    requires x < |p.ops| && n < |p.ops| && x != n && InputOk(p, DefPoint(p.ops, x), n)
    requires IsInt(ox) && IsInt(on) && SameSlot(p.ops[x], ox) && SameSlot(p.ops[n], on)
    requires forall k :: 0 <= k < |on.ins| ==> Inner(p, x, n, on.ins[k])
    requires forall k :: 0 <= k < |ox.ins| ==> ox.ins[k] == n || Leaf(p, x, n, ox.ins[k])
    requires SameOccs(ox.ins, on.ins, p.ops[x].ins, p.ops[n].ins)
    requires SameValue2(ev, p, x, ox, n, on)
    ensures PairOk(ev, p, x, ox, n, on)
  {
  }

  /** (a g b) f y -> (a f y) g b */
  lemma SlideValue(ev: Arith, p: Program, x: OpId, ox: Op, n: OpId, on: Op, f: IntOp, g: IntOp, a: OpId, b: OpId, y: OpId)
    requires x < |p.ops| && n < |p.ops| && a != n && b != n && y != n
    requires p.ops[x].opcode == Bin(f) && p.ops[x].ins == [n, y] && p.ops[n].opcode == Bin(g) && p.ops[n].ins == [a, b]
    requires SlideLaw(ev, f, g) && ox.opcode == Bin(g) && ox.ins == [n, b] && on.opcode == Bin(f) && on.ins == [a, y]
    ensures SameValue2(ev, p, x, ox, n, on)
  {
    forall e: seq<Word> | |e| == |p.ops| && e[n] == IntValue(ev, p.ops[n], e)
      ensures IntValue(ev, ox, e[n := IntValue(ev, on, e)]) == IntValue(ev, p.ops[x], e)
    {
      assert IntValue(ev, p.ops[x], e) == ev(f, ev(g, At(e, a), At(e, b)), At(e, y));
    }
  }

  lemma SlidePair(ev: Arith, p: Program, x: OpId, f: IntOp, g: IntOp, n: OpId, y: OpId, a: OpId, b: OpId, ox: Op, on: Op)
    requires x < |p.ops| && n < |p.ops| && x != n && InputOk(p, DefPoint(p.ops, x), n)
    requires Inner(p, x, n, a) && Inner(p, x, n, b) && Inner(p, x, n, y)
    requires p.ops[x].opcode == Bin(f) && p.ops[x].ins == [n, y] && p.ops[n].opcode == Bin(g) && p.ops[n].ins == [a, b]
    requires ox == p.ops[x].(opcode := Bin(g), ins := [n, b]) && on == p.ops[n].(opcode := Bin(f), ins := [a, y])
    requires SlideLaw(ev, f, g)
    ensures PairOk(ev, p, x, ox, n, on)
  {
    SlideValue(ev, p, x, ox, n, on, f, g, a, b, y);
    FourOccs(a, b, n, y);
    Rebuilt(ev, p, x, ox, n, on);
  }

  /** (a g b) f y -> (y g b) f a */
  lemma TurnValue(ev: Arith, p: Program, x: OpId, ox: Op, n: OpId, on: Op, f: IntOp, g: IntOp, a: OpId, b: OpId, y: OpId)
    requires x < |p.ops| && n < |p.ops| && a != n && b != n && y != n
    requires p.ops[x].opcode == Bin(f) && p.ops[x].ins == [n, y] && p.ops[n].opcode == Bin(g) && p.ops[n].ins == [a, b]
    requires TurnLaw(ev, f, g) && ox.opcode == Bin(f) && ox.ins == [n, a] && on.opcode == Bin(g) && on.ins == [y, b]
    ensures SameValue2(ev, p, x, ox, n, on)
  {
    forall e: seq<Word> | |e| == |p.ops| && e[n] == IntValue(ev, p.ops[n], e)
      ensures IntValue(ev, ox, e[n := IntValue(ev, on, e)]) == IntValue(ev, p.ops[x], e)
    {
      assert IntValue(ev, p.ops[x], e) == ev(f, ev(g, At(e, a), At(e, b)), At(e, y));
    }
  }

  lemma TurnPair(ev: Arith, p: Program, x: OpId, f: IntOp, g: IntOp, n: OpId, y: OpId, a: OpId, b: OpId, ox: Op, on: Op)
    requires x < |p.ops| && n < |p.ops| && x != n && InputOk(p, DefPoint(p.ops, x), n)
    requires Inner(p, x, n, a) && Inner(p, x, n, b) && Inner(p, x, n, y)
    requires p.ops[x].opcode == Bin(f) && p.ops[x].ins == [n, y] && p.ops[n].opcode == Bin(g) && p.ops[n].ins == [a, b]
    requires ox == p.ops[x].(ins := [n, a]) && on == p.ops[n].(ins := [y, b])
    requires TurnLaw(ev, f, g)
    ensures PairOk(ev, p, x, ox, n, on)
  {
    TurnValue(ev, p, x, ox, n, on, f, g, a, b, y);
    FourOccs(a, b, n, y);
    Rebuilt(ev, p, x, ox, n, on);
  }

  /** (a + b) - y -> (b - y) + a */
  lemma FlipValue(ev: Arith, p: Program, x: OpId, ox: Op, n: OpId, on: Op, a: OpId, b: OpId, y: OpId)
    requires x < |p.ops| && n < |p.ops| && a != n && b != n && y != n
    requires p.ops[x].opcode == Bin(Sub) && p.ops[x].ins == [n, y] && p.ops[n].opcode == Bin(Add) && p.ops[n].ins == [a, b]
    requires FlipLaw(ev) && ox.opcode == Bin(Add) && ox.ins == [n, a] && on.opcode == Bin(Sub) && on.ins == [b, y]
    ensures SameValue2(ev, p, x, ox, n, on)
  {
    forall e: seq<Word> | |e| == |p.ops| && e[n] == IntValue(ev, p.ops[n], e)
      ensures IntValue(ev, ox, e[n := IntValue(ev, on, e)]) == IntValue(ev, p.ops[x], e)
    {
      assert IntValue(ev, p.ops[x], e) == ev(Sub, ev(Add, At(e, a), At(e, b)), At(e, y));
    }
  }

  lemma FlipPair(ev: Arith, p: Program, x: OpId, n: OpId, y: OpId, a: OpId, b: OpId, ox: Op, on: Op)
    requires x < |p.ops| && n < |p.ops| && x != n && InputOk(p, DefPoint(p.ops, x), n)
    requires Inner(p, x, n, a) && Inner(p, x, n, b) && Inner(p, x, n, y)
    requires p.ops[x].opcode == Bin(Sub) && p.ops[x].ins == [n, y] && p.ops[n].opcode == Bin(Add) && p.ops[n].ins == [a, b]
    requires ox == p.ops[x].(opcode := Bin(Add), ins := [n, a]) && on == p.ops[n].(opcode := Bin(Sub), ins := [b, y])
    requires FlipLaw(ev)
    ensures PairOk(ev, p, x, ox, n, on)
  {
    FlipValue(ev, p, x, ox, n, on, a, b, y);
    FourOccs(a, b, n, y);
    Rebuilt(ev, p, x, ox, n, on);
  }

  /** (a - b) - y -> a - (y + b) */
  lemma FoldValue(ev: Arith, p: Program, x: OpId, ox: Op, n: OpId, on: Op, a: OpId, b: OpId, y: OpId)
    requires x < |p.ops| && n < |p.ops| && a != n && b != n && y != n
    requires p.ops[x].opcode == Bin(Sub) && p.ops[x].ins == [n, y] && p.ops[n].opcode == Bin(Sub) && p.ops[n].ins == [a, b]
    requires FoldLaw(ev) && ox.opcode == Bin(Sub) && ox.ins == [a, n] && on.opcode == Bin(Add) && on.ins == [y, b]
    ensures SameValue2(ev, p, x, ox, n, on)
  {
    forall e: seq<Word> | |e| == |p.ops| && e[n] == IntValue(ev, p.ops[n], e)
      ensures IntValue(ev, ox, e[n := IntValue(ev, on, e)]) == IntValue(ev, p.ops[x], e)
    {
      assert IntValue(ev, p.ops[x], e) == ev(Sub, ev(Sub, At(e, a), At(e, b)), At(e, y));
    }
  }

  lemma FoldPair(ev: Arith, p: Program, x: OpId, n: OpId, y: OpId, a: OpId, b: OpId, ox: Op, on: Op)
    requires x < |p.ops| && n < |p.ops| && x != n && InputOk(p, DefPoint(p.ops, x), n)
    requires Inner(p, x, n, a) && Inner(p, x, n, b) && Inner(p, x, n, y)
    requires p.ops[x].opcode == Bin(Sub) && p.ops[x].ins == [n, y] && p.ops[n].opcode == Bin(Sub) && p.ops[n].ins == [a, b]
    requires ox == p.ops[x].(ins := [a, n]) && on == p.ops[n].(opcode := Bin(Add), ins := [y, b])
    requires FoldLaw(ev)
    ensures PairOk(ev, p, x, ox, n, on)
  {
    FoldValue(ev, p, x, ox, n, on, a, b, y);
    FourOccs(a, b, n, y);
    Rebuilt(ev, p, x, ox, n, on);
  }

  /** a - (a - b) -> b - (a - a) */
  lemma TailValue(ev: Arith, p: Program, x: OpId, ox: Op, n: OpId, on: Op, a: OpId, b: OpId)
    requires x < |p.ops| && n < |p.ops| && a != n && b != n
    requires p.ops[x].opcode == Bin(Sub) && p.ops[x].ins == [a, n] && p.ops[n].opcode == Bin(Sub) && p.ops[n].ins == [a, b]
    requires TailLaw(ev) && ox.opcode == Bin(Sub) && ox.ins == [b, n] && on.opcode == Bin(Sub) && on.ins == [a, a]
    ensures SameValue2(ev, p, x, ox, n, on)
  {
    forall e: seq<Word> | |e| == |p.ops| && e[n] == IntValue(ev, p.ops[n], e)
      ensures IntValue(ev, ox, e[n := IntValue(ev, on, e)]) == IntValue(ev, p.ops[x], e)
    {
      assert IntValue(ev, p.ops[x], e) == ev(Sub, At(e, a), ev(Sub, At(e, a), At(e, b)));
    }
  }

  lemma TailPair(ev: Arith, p: Program, x: OpId, n: OpId, a: OpId, b: OpId, ox: Op, on: Op)
    requires x < |p.ops| && n < |p.ops| && x != n && InputOk(p, DefPoint(p.ops, x), n)
    requires Inner(p, x, n, a) && Inner(p, x, n, b)
    requires p.ops[x].opcode == Bin(Sub) && p.ops[x].ins == [a, n] && p.ops[n].opcode == Bin(Sub) && p.ops[n].ins == [a, b]
    requires ox == p.ops[x].(ins := [b, n]) && on == p.ops[n].(ins := [a, a])
    requires TailLaw(ev)
    ensures PairOk(ev, p, x, ox, n, on)
  {
    TailValue(ev, p, x, ox, n, on, a, b);
    FourOccs(a, a, b, n);
    FourOccs(a, b, a, n);
    Rebuilt(ev, p, x, ox, n, on);
  }

  // ---- immediates ---------------------------------------------------------------------------

  /** (a g b) f C -> (a f C) g b */
  lemma SlideImmValue(ev: Arith, p: Program, x: OpId, ox: Op, n: OpId, on: Op, f: IntOp, g: IntOp, a: OpId, b: OpId)
    requires x < |p.ops| && n < |p.ops| && a != n && b != n
    requires p.ops[x].opcode == BinI(f) && p.ops[x].ins == [n] && p.ops[n].opcode == Bin(g) && p.ops[n].ins == [a, b]
    requires SlideLaw(ev, f, g) && ox.opcode == Bin(g) && ox.ins == [n, b] && on.opcode == BinI(f) && on.ins == [a] && on.imm == p.ops[x].imm
    ensures SameValue2(ev, p, x, ox, n, on)
  {
    forall e: seq<Word> | |e| == |p.ops| && e[n] == IntValue(ev, p.ops[n], e)
      ensures IntValue(ev, ox, e[n := IntValue(ev, on, e)]) == IntValue(ev, p.ops[x], e)
    {
      assert IntValue(ev, p.ops[x], e) == ev(f, ev(g, At(e, a), At(e, b)), p.ops[x].imm);
    }
  }

  lemma SlideImmPair(ev: Arith, p: Program, x: OpId, f: IntOp, g: IntOp, n: OpId, a: OpId, b: OpId, rest: Word, ox: Op, on: Op)
    requires x < |p.ops| && n < |p.ops| && x != n && InputOk(p, DefPoint(p.ops, x), n)
    requires Inner(p, x, n, a) && Inner(p, x, n, b)
    requires p.ops[x].opcode == BinI(f) && p.ops[x].ins == [n] && p.ops[n].opcode == Bin(g) && p.ops[n].ins == [a, b]
    requires ox == p.ops[x].(opcode := Bin(g), ins := [n, b], imm := rest)
    requires on == p.ops[n].(opcode := BinI(f), ins := [a], imm := p.ops[x].imm)
    requires SlideLaw(ev, f, g)
    ensures PairOk(ev, p, x, ox, n, on)
  {
    SlideImmValue(ev, p, x, ox, n, on, f, g, a, b);
    ThreeOccs(a, b, n);
    Rebuilt(ev, p, x, ox, n, on);
  }

  /** (a f b) f C -> (b f C) f a */
  lemma TurnImmValue(ev: Arith, p: Program, x: OpId, ox: Op, n: OpId, on: Op, f: IntOp, a: OpId, b: OpId)
    requires x < |p.ops| && n < |p.ops| && a != n && b != n
    requires p.ops[x].opcode == BinI(f) && p.ops[x].ins == [n] && p.ops[n].opcode == Bin(f) && p.ops[n].ins == [a, b]
    requires TurnLaw(ev, f, f) && CommuteLaw(ev, f) && ox.opcode == Bin(f) && ox.ins == [n, a] && on.opcode == BinI(f) && on.ins == [b] && on.imm == p.ops[x].imm
    ensures SameValue2(ev, p, x, ox, n, on)
  {
    forall e: seq<Word> | |e| == |p.ops| && e[n] == IntValue(ev, p.ops[n], e)
      ensures IntValue(ev, ox, e[n := IntValue(ev, on, e)]) == IntValue(ev, p.ops[x], e)
    {
      assert IntValue(ev, p.ops[x], e) == ev(f, ev(f, At(e, a), At(e, b)), p.ops[x].imm);
    }
  }

  lemma TurnImmPair(ev: Arith, p: Program, x: OpId, f: IntOp, n: OpId, a: OpId, b: OpId, ox: Op, on: Op)
    requires x < |p.ops| && n < |p.ops| && x != n && InputOk(p, DefPoint(p.ops, x), n)
    requires Inner(p, x, n, a) && Inner(p, x, n, b)
    requires p.ops[x].opcode == BinI(f) && p.ops[x].ins == [n] && p.ops[n].opcode == Bin(f) && p.ops[n].ins == [a, b]
    requires ox == p.ops[x].(opcode := Bin(f), ins := [n, a], imm := p.ops[n].imm)
    requires on == p.ops[n].(opcode := BinI(f), ins := [b], imm := p.ops[x].imm)
    requires TurnLaw(ev, f, f) && CommuteLaw(ev, f)
    ensures PairOk(ev, p, x, ox, n, on)
  {
    TurnImmValue(ev, p, x, ox, n, on, f, a, b);
    ThreeOccs(a, b, n);
    Rebuilt(ev, p, x, ox, n, on);
  }

  /** (a f C) f a -> (a f a) f C */
  lemma DoubleImmValue(ev: Arith, p: Program, x: OpId, ox: Op, n: OpId, on: Op, f: IntOp, a: OpId)
    requires x < |p.ops| && n < |p.ops| && a != n
    requires p.ops[x].opcode == Bin(f) && p.ops[x].ins == [n, a] && p.ops[n].opcode == BinI(f) && p.ops[n].ins == [a]
    requires SlideLaw(ev, f, f) && ox.opcode == BinI(f) && ox.ins == [n] && ox.imm == p.ops[n].imm && on.opcode == Bin(f) && on.ins == [a, a]
    ensures SameValue2(ev, p, x, ox, n, on)
  {
    forall e: seq<Word> | |e| == |p.ops| && e[n] == IntValue(ev, p.ops[n], e)
      ensures IntValue(ev, ox, e[n := IntValue(ev, on, e)]) == IntValue(ev, p.ops[x], e)
    {
      assert IntValue(ev, p.ops[x], e) == ev(f, ev(f, At(e, a), p.ops[n].imm), At(e, a));
    }
  }

  lemma DoubleImmPair(ev: Arith, p: Program, x: OpId, f: IntOp, n: OpId, a: OpId, ox: Op, on: Op)
    requires x < |p.ops| && n < |p.ops| && x != n && InputOk(p, DefPoint(p.ops, x), n)
    requires Inner(p, x, n, a)
    requires p.ops[x].opcode == Bin(f) && p.ops[x].ins == [n, a] && p.ops[n].opcode == BinI(f) && p.ops[n].ins == [a]
    requires ox == p.ops[x].(opcode := BinI(f), ins := [n], imm := p.ops[n].imm)
    requires on == p.ops[n].(opcode := Bin(f), ins := [a, a], imm := p.ops[x].imm)
    requires SlideLaw(ev, f, f)
    ensures PairOk(ev, p, x, ox, n, on)
  {
    DoubleImmValue(ev, p, x, ox, n, on, f, a);
    ThreeOccs(a, a, n);
    Rebuilt(ev, p, x, ox, n, on);
  }

  /** (a f C) f m -> (m f C) f a */
  lemma HoistImmValue(ev: Arith, p: Program, x: OpId, ox: Op, n: OpId, on: Op, f: IntOp, m: OpId, a: OpId)
    requires x < |p.ops| && n < |p.ops| && a != n && m != n
    requires p.ops[x].opcode == Bin(f) && p.ops[x].ins == [n, m] && p.ops[n].opcode == BinI(f) && p.ops[n].ins == [a]
    requires TurnLaw(ev, f, f) && ox.opcode == Bin(f) && ox.ins == [n, a] && on.opcode == BinI(f) && on.ins == [m] && on.imm == p.ops[n].imm
    ensures SameValue2(ev, p, x, ox, n, on)
  {
    forall e: seq<Word> | |e| == |p.ops| && e[n] == IntValue(ev, p.ops[n], e)
      ensures IntValue(ev, ox, e[n := IntValue(ev, on, e)]) == IntValue(ev, p.ops[x], e)
    {
      assert IntValue(ev, p.ops[x], e) == ev(f, ev(f, At(e, a), p.ops[n].imm), At(e, m));
    }
  }

  lemma HoistImmPair(ev: Arith, p: Program, x: OpId, f: IntOp, n: OpId, m: OpId, a: OpId, ox: Op, on: Op)
    requires x < |p.ops| && n < |p.ops| && x != n && InputOk(p, DefPoint(p.ops, x), n)
    requires Inner(p, x, n, a) && Inner(p, x, n, m)
    requires p.ops[x].opcode == Bin(f) && p.ops[x].ins == [n, m] && p.ops[n].opcode == BinI(f) && p.ops[n].ins == [a]
    requires ox == p.ops[x].(ins := [n, a]) && on == p.ops[n].(ins := [m])
    requires TurnLaw(ev, f, f)
    ensures PairOk(ev, p, x, ox, n, on)
  {
    HoistImmValue(ev, p, x, ox, n, on, f, m, a);
    ThreeOccs(a, m, n);
    Rebuilt(ev, p, x, ox, n, on);
  }

  // ---- two operands -------------------------------------------------------------------------

  /** (a g b) f (c g d) */
  ghost predicate Fork(p: Program, live: seq<BlockId>, dom: DomSeq, nUse: seq<nat>, x: OpId, f: IntOp, g: IntOp,
                       n: OpId, a: OpId, b: OpId, m: OpId, c: OpId, d: OpId)
  {
    && Pair(p, live, dom, nUse, x, n) && Pair(p, live, dom, nUse, x, m) && n != m
    && p.ops[x].opcode == Bin(f) && p.ops[x].ins == [n, m]
    && p.ops[n].opcode == Bin(g) && p.ops[n].ins == [a, b]
    && p.ops[m].opcode == Bin(g) && p.ops[m].ins == [c, d]
  }

  lemma ForkFacts(p: Program, live: seq<BlockId>, dom: DomSeq, nUse: seq<nat>, x: OpId, f: IntOp, g: IntOp,
                  n: OpId, a: OpId, b: OpId, m: OpId, c: OpId, d: OpId)
    requires Fork(p, live, dom, nUse, x, f, g, n, a, b, m, c, d)
    ensures a != n && a != m && b != n && b != m && c != n && c != m && d != n && d != m
    ensures InputOk(p, DefPoint(p.ops, n), a) && InputOk(p, DefPoint(p.ops, m), d)
  {
    PairInputs(p, live, dom, nUse, x, n);
    PairInputs(p, live, dom, nUse, x, m);
    TripleApart(p, live, dom, nUse, x, n, m);
    assert a in p.ops[n].ins && b in p.ops[n].ins && c in p.ops[m].ins && d in p.ops[m].ins;
  }

  /** (a f b) f (c f d) -> (a f c) f (b f d), and (a - b) + (c - d) -> (a + c) - (b + d) */
  lemma CrossTriple(p: Program, x: OpId, f: IntOp, g: IntOp, n: OpId, a: OpId, b: OpId, m: OpId, c: OpId, d: OpId,
                    f': IntOp, g': IntOp, ox: Op, on: Op, om: Op)
    requires x < |p.ops| && n < |p.ops| && m < |p.ops| && n != m && Crosses(f, g, f', g')
    requires a != n && a != m && b != n && b != m && c != n && c != m && d != n && d != m
    requires p.ops[x].opcode == Bin(f) && p.ops[x].ins == [n, m]
    requires p.ops[n].opcode == Bin(g) && p.ops[n].ins == [a, b] && p.ops[m].opcode == Bin(g) && p.ops[m].ins == [c, d]
    requires ox == p.ops[x].(opcode := Bin(f')) && on == p.ops[n].(opcode := Bin(g'), ins := [a, c])
    requires om == p.ops[m].(opcode := Bin(g'), ins := [b, d])
    requires InputOk(p, DefPoint(p.ops, n), a) && InputOk(p, DefPoint(p.ops, n), c)
    requires InputOk(p, DefPoint(p.ops, m), b) && InputOk(p, DefPoint(p.ops, m), d)
    ensures TripleOk(p, x, ox, n, on, m, om)
  {
    CrossTrue(f, g, f', g');
    CrossValue(IntEval, p, x, f, g, n, a, b, m, c, d, f', g', ox, on, om);
    BothInputs(p, DefPoint(p.ops, n), a, c);
    BothInputs(p, DefPoint(p.ops, m), b, d);
    FourOccs(a, b, c, d);
  }

  lemma BothInputs(p: Program, z: Point, a: OpId, b: OpId)
    requires InputOk(p, z, a) && InputOk(p, z, b)
    ensures forall u :: u in [a, b] ==> InputOk(p, z, u)
  {
  }

  lemma CrossValue(ev: Arith, p: Program, x: OpId, f: IntOp, g: IntOp, n: OpId, a: OpId, b: OpId, m: OpId, c: OpId, d: OpId,
                   f': IntOp, g': IntOp, ox: Op, on: Op, om: Op)
    requires x < |p.ops| && n < |p.ops| && m < |p.ops| && n != m && CrossLaw(ev, f, g, f', g')
    requires a != n && a != m && b != n && b != m && c != n && c != m && d != n && d != m
    requires p.ops[x].opcode == Bin(f) && p.ops[x].ins == [n, m]
    requires p.ops[n].opcode == Bin(g) && p.ops[n].ins == [a, b] && p.ops[m].opcode == Bin(g) && p.ops[m].ins == [c, d]
    requires ox.opcode == Bin(f') && ox.ins == [n, m] && on.opcode == Bin(g') && on.ins == [a, c]
    requires om.opcode == Bin(g') && om.ins == [b, d]
    ensures SameValue3(ev, p, x, ox, n, on, m, om)
  {
    forall e: seq<Word> | |e| == |p.ops| && e[n] == IntValue(ev, p.ops[n], e) && e[m] == IntValue(ev, p.ops[m], e)
      ensures IntValue(ev, ox, e[n := IntValue(ev, on, e)][m := IntValue(ev, om, e)]) == IntValue(ev, p.ops[x], e)
    {
      assert CrossesAt(ev, f, g, f', g', At(e, a), At(e, b), At(e, c), At(e, d));
      CrossAt(ev, p, x, f, g, n, a, b, m, c, d, f', g', ox, on, om, e);
    }
  }

  lemma CrossAt(ev: Arith, p: Program, x: OpId, f: IntOp, g: IntOp, n: OpId, a: OpId, b: OpId, m: OpId, c: OpId, d: OpId,
                f': IntOp, g': IntOp, ox: Op, on: Op, om: Op, e: seq<Word>)
    requires x < |p.ops| && n < |p.ops| && m < |p.ops| && n != m && |e| == |p.ops|
    requires p.ops[x].opcode == Bin(f) && p.ops[x].ins == [n, m]
    requires p.ops[n].opcode == Bin(g) && p.ops[n].ins == [a, b] && p.ops[m].opcode == Bin(g) && p.ops[m].ins == [c, d]
    requires ox.opcode == Bin(f') && ox.ins == [n, m] && on.opcode == Bin(g') && on.ins == [a, c]
    requires om.opcode == Bin(g') && om.ins == [b, d]
    requires e[n] == IntValue(ev, p.ops[n], e) && e[m] == IntValue(ev, p.ops[m], e)
    requires ev(f, ev(g, At(e, a), At(e, b)), ev(g, At(e, c), At(e, d))) ==
               ev(f', ev(g', At(e, a), At(e, c)), ev(g', At(e, b), At(e, d)))
    ensures IntValue(ev, ox, e[n := IntValue(ev, on, e)][m := IntValue(ev, om, e)]) == IntValue(ev, p.ops[x], e)
  {
  }

  // ---- x alone ------------------------------------------------------------------------------

  lemma ReorderValue(ev: Arith, p: Program, x: OpId, f: IntOp, a: OpId, b: OpId, ox: Op)
    requires x < |p.ops| && p.ops[x].opcode == Bin(f) && p.ops[x].ins == [a, b] && CommuteLaw(ev, f)
    requires ox == p.ops[x].(ins := [b, a])
    ensures SameValue1(ev, p, x, ox, {})
  {
  }

  lemma ReorderOk(p: Program, live: seq<BlockId>, dom: DomSeq, nUse: seq<nat>, x: OpId, f: IntOp, a: OpId, b: OpId, q: Program)
    requires Good(p, live, dom, nUse) && InCode(p, x) && p.ops[x].opcode == Bin(f) && p.ops[x].ins == [a, b] && f != Sub
    requires q == p.(ops := p.ops[x := p.ops[x].(ins := [b, a])])
    ensures Good(q, live, dom, nUse) && SameSeen(p, q)
  {
    var ox := p.ops[x].(ins := [b, a]);
    InputsOf(p, x);
    forall v | 0 <= v < |nUse| ensures Occ(p.ops[x].ins, v) == Occ(ox.ins, v) {
      TwoOccs(a, b, v);
      TwoOccs(b, a, v);
    }
    CommuteTrue(f);
    ReorderValue(IntEval, p, x, f, a, b, ox);
    SingleEdit(p, live, dom, nUse, nUse, x, ox, {});
  }

  /** The counts after x trades its operands for one operand of each. */
  function Recount(nUse: seq<nat>, n: OpId, m: OpId, u: OpId, w: OpId): (r: seq<nat>)
    requires n < |nUse| && m < |nUse| && u < |nUse| && w < |nUse|
    requires nUse[n] > 0 && nUse[m] > (if n == m then 1 else 0)
    ensures |r| == |nUse|
  {
    var c0 := nUse[n := nUse[n] - 1];
    var c1 := c0[m := c0[m] - 1];
    var c2 := c1[u := c1[u] + 1];
    c2[w := c2[w] + 1]
  }

  lemma RecountOk(p: Program, x: OpId, ox: Op, nUse: seq<nat>, n: OpId, m: OpId, u: OpId, w: OpId)
    requires x < |p.ops| && p.ops[x].ins == [n, m] && ox.ins == [u, w]
    requires n < |nUse| && m < |nUse| && u < |nUse| && w < |nUse| && nUse[n] > 0 && nUse[m] > (if n == m then 1 else 0)
    ensures Recounted(p, x, ox, nUse, Recount(nUse, n, m, u, w))
  {
    forall v | 0 <= v < |nUse|
      ensures Recount(nUse, n, m, u, w)[v] + Occ(p.ops[x].ins, v) == nUse[v] + Occ(ox.ins, v)
    {
      TwoOccs(n, m, v);
      TwoOccs(u, w, v);
    }
  }

  lemma CancelInputs(p: Program, x: OpId, n: OpId, m: OpId, u: OpId, w: OpId)
    requires StrictSsa(p) && InCode(p, x) && IsInt(p.ops[x]) && p.ops[x].ins == [n, m] && n < |p.ops| && m < |p.ops|
    requires IsInt(p.ops[n]) && IsInt(p.ops[m]) && u in p.ops[n].ins && w in p.ops[m].ins
    ensures InputOk(p, DefPoint(p.ops, x), u) && InputOk(p, DefPoint(p.ops, x), w)
  {
    assert n in p.ops[x].ins && m in p.ops[x].ins;
    InputsAbove(p, x, n);
    InputsAbove(p, x, m);
  }

  lemma CancelSingle(p: Program, x: OpId, n: OpId, m: OpId, c: Cancel, p0: OpId, p1: OpId, q0: OpId, q1: OpId, ox: Op)
    requires x < |p.ops| && n < |p.ops| && m < |p.ops| && Cancels(c)
    requires p.ops[x].opcode == Bin(c.f) && p.ops[x].ins == [n, m]
    requires p.ops[n].opcode == Bin(c.g) && p.ops[n].ins == [p0, p1] && p.ops[m].opcode == Bin(c.h) && p.ops[m].ins == [q0, q1]
    requires Side(c.i, p0, p1) == Side(c.j, q0, q1)
    requires ox == p.ops[x].(ins := [Side(c.i, p1, p0), Side(c.j, q1, q0)])
    requires forall u :: u in ox.ins ==> InputOk(p, DefPoint(p.ops, x), u)
    ensures SingleOk(p, x, ox, {n, m})
  {
    CancelTrue(c);
    CancelValue(IntEval, p, x, n, m, c, p0, p1, q0, q1);
  }

  lemma CancelValue(ev: Arith, p: Program, x: OpId, n: OpId, m: OpId, c: Cancel, p0: OpId, p1: OpId, q0: OpId, q1: OpId)
    requires x < |p.ops| && n < |p.ops| && m < |p.ops| && CancelLaw(ev, c)
    requires p.ops[x].opcode == Bin(c.f) && p.ops[x].ins == [n, m]
    requires p.ops[n].opcode == Bin(c.g) && p.ops[n].ins == [p0, p1] && p.ops[m].opcode == Bin(c.h) && p.ops[m].ins == [q0, q1]
    requires Side(c.i, p0, p1) == Side(c.j, q0, q1)
    ensures SameValue1(ev, p, x, p.ops[x].(ins := [Side(c.i, p1, p0), Side(c.j, q1, q0)]), {n, m})
  {
    var u, w := Side(c.i, p1, p0), Side(c.j, q1, q0);
    forall e: seq<Word> | |e| == |p.ops| && Satisfies(ev, p, {n, m}, e)
      ensures IntValue(ev, p.ops[x].(ins := [u, w]), e) == IntValue(ev, p.ops[x], e)
    {
      assert At(e, n) == IntValue(ev, p.ops[n], e) && At(e, m) == IntValue(ev, p.ops[m], e);
      assert IntValue(ev, p.ops[x], e) == ev(c.f, ev(c.g, At(e, p0), At(e, p1)), ev(c.h, At(e, q0), At(e, q1)));
    }
  }
}
