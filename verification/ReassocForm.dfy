/** The form that opt_reassoc (src/opt-reassoc.cpp) brings integer expressions into: what an op
    and its operands look like when no rule applies. */
module ReassocForm {
  import opened Ir
  import opened Words
  import opened ReassocTheory

  // ---- shapes -----------------------------------------------------------------------------------

  /** v is a f b. */
  predicate Two(p: Program, v: OpId, f: IntOp, a: OpId, b: OpId) {
    v < |p.ops| && p.ops[v].opcode == Bin(f) && p.ops[v].ins == [a, b] && a < |p.ops| && b < |p.ops|
  }

  /** v is a f C for a constant C. */
  predicate One(p: Program, v: OpId, f: IntOp, a: OpId) {
    v < |p.ops| && p.ops[v].opcode == BinI(f) && p.ops[v].ins == [a] && a < |p.ops|
  }

  predicate Alone(nUse: seq<nat>, v: OpId) { v < |nUse| && nUse[v] == 1 }

  /** x is n f y, n is a g b, and n is used by x alone. */
  predicate Nest(p: Program, nUse: seq<nat>, x: OpId, f: IntOp, g: IntOp, n: OpId, y: OpId, a: OpId, b: OpId) {
    Two(p, x, f, n, y) && Two(p, n, g, a, b) && Alone(nUse, n)
  }

  /** x is (a g b) f (c g d), and nothing else uses the two operands. */
  predicate Twins(p: Program, nUse: seq<nat>, x: OpId, f: IntOp, g: IntOp, n: OpId, m: OpId, a: OpId, b: OpId, c: OpId, d: OpId) {
    Two(p, x, f, n, m) && Two(p, n, g, a, b) && Two(p, m, g, c, d) && Alone(nUse, n) && Alone(nUse, m)
  }

  // ---- where operands stand ---------------------------------------------------------------------

  /** The first operand is not defined before the second. */
  ghost predicate Sorted(p: Program, dom: DomSeq, x: OpId, f: IntOp) {
    forall n: OpId, m: OpId :: Two(p, x, f, n, m) ==> !FirstOpDominates(p, dom, n, m)
  }

  /** In (a g b) f y, y is defined before neither a nor b. */
  ghost predicate Late(p: Program, dom: DomSeq, nUse: seq<nat>, x: OpId, f: IntOp, g: IntOp) {
    forall n: OpId, y: OpId, a: OpId, b: OpId :: Nest(p, nUse, x, f, g, n, y, a, b) && a != b ==>
      !FirstOpDominates(p, dom, y, a) && !FirstOpDominates(p, dom, y, b)
  }

  /** In (a g b) f y, y is neither a nor b: equal operands stand together. */
  ghost predicate Paired(p: Program, nUse: seq<nat>, x: OpId, f: IntOp, g: IntOp) {
    forall n: OpId, y: OpId, a: OpId, b: OpId :: Nest(p, nUse, x, f, g, n, y, a, b) && a != b ==> y != a && y != b
  }

  /** In (a g b) f (c g d), c is not defined before b. */
  ghost predicate Uncrossed(p: Program, dom: DomSeq, nUse: seq<nat>, x: OpId, f: IntOp, g: IntOp) {
    forall n: OpId, m: OpId, a: OpId, b: OpId, c: OpId, d: OpId :: Twins(p, nUse, x, f, g, n, m, a, b, c, d) ==> !FirstOpDominates(p, dom, b, c)
  }

  // ---- where constants stand --------------------------------------------------------------------

  /** Not (a g b) f C. */
  ghost predicate NoOuter(p: Program, nUse: seq<nat>, x: OpId, f: IntOp, g: IntOp) {
    forall n: OpId, a: OpId, b: OpId :: One(p, x, f, n) && Two(p, n, g, a, b) ==> !Alone(nUse, n)
  }

  /** (a f b) f C only if a is b. */
  ghost predicate OuterPair(p: Program, nUse: seq<nat>, x: OpId, f: IntOp) {
    forall n: OpId, a: OpId, b: OpId :: One(p, x, f, n) && Two(p, n, f, a, b) && Alone(nUse, n) ==> a == b
  }

  /** Not (a f C) f a. */
  ghost predicate NoSplit(p: Program, nUse: seq<nat>, x: OpId, f: IntOp) {
    forall n: OpId, a: OpId :: Two(p, x, f, n, a) && One(p, n, f, a) ==> !Alone(nUse, n)
  }

  /** (a f C) f (b f D) only if a itself has a constant. */
  ghost predicate OneConstant(p: Program, nUse: seq<nat>, x: OpId, f: IntOp) {
    forall n: OpId, m: OpId, a: OpId, b: OpId :: Two(p, x, f, n, m) && One(p, n, f, a) && One(p, m, f, b) && Alone(nUse, n) && Alone(nUse, m) ==>
      p.ops[a].opcode == BinI(f)
  }

  // ---- what cancels -----------------------------------------------------------------------------

  /** Not a - (a - b). */
  ghost predicate NoTail(p: Program, nUse: seq<nat>, x: OpId) {
    forall n: OpId, a: OpId, b: OpId :: Two(p, x, Sub, a, n) && Two(p, n, Sub, a, b) && a != b ==> !Alone(nUse, n)
  }

  /** Nothing cancels in (a - b) + (c + d). */
  ghost predicate NoneOfDifference(p: Program, x: OpId) {
    forall n: OpId, m: OpId, a: OpId, b: OpId, c: OpId, d: OpId :: Two(p, x, Add, n, m) && Two(p, n, Sub, a, b) && Two(p, m, Add, c, d) ==> b != c && b != d
  }

  /** Nothing cancels in (a + b) + (c - d). */
  ghost predicate NoneOfSum(p: Program, x: OpId) {
    forall n: OpId, m: OpId, a: OpId, b: OpId, c: OpId, d: OpId :: Two(p, x, Add, n, m) && Two(p, n, Add, a, b) && Two(p, m, Sub, c, d) ==> a != d && b != d
  }

  /** Nothing cancels in (a + b) - (c + d), except that a may be d. */
  ghost predicate NoneOfSums(p: Program, x: OpId) {
    forall n: OpId, m: OpId, a: OpId, b: OpId, c: OpId, d: OpId :: Two(p, x, Sub, n, m) && Two(p, n, Add, a, b) && Two(p, m, Add, c, d) ==>
      a != c && b != c && b != d
  }

  // ---- all of it --------------------------------------------------------------------------------

  /** Chains of one operator that may be regrouped in any way. */
  ghost predicate ChainForm(p: Program, dom: DomSeq, nUse: seq<nat>, x: OpId, f: IntOp) {
    && Sorted(p, dom, x, f) && Uncrossed(p, dom, nUse, x, f, f) && Late(p, dom, nUse, x, f, f) && Paired(p, nUse, x, f, f)
    && OneConstant(p, nUse, x, f) && OuterPair(p, nUse, x, f) && NoSplit(p, nUse, x, f)
  }

  /** Sums and differences. */
  ghost predicate SumForm(p: Program, dom: DomSeq, nUse: seq<nat>, x: OpId) {
    && Sorted(p, dom, x, Add) && Uncrossed(p, dom, nUse, x, Add, Sub)
    && Late(p, dom, nUse, x, Add, Sub) && Late(p, dom, nUse, x, Sub, Add) && Late(p, dom, nUse, x, Sub, Sub)
    && Paired(p, nUse, x, Add, Sub) && Paired(p, nUse, x, Sub, Sub) && NoTail(p, nUse, x)
    && NoneOfDifference(p, x) && NoneOfSum(p, x) && NoneOfSums(p, x)
  }

  ghost predicate ConstantForm(p: Program, nUse: seq<nat>, x: OpId) {
    NoOuter(p, nUse, x, Sub, Add) && NoOuter(p, nUse, x, Add, Sub) && NoOuter(p, nUse, x, Sub, Sub)
  }

  ghost predicate Chains(p: Program, dom: DomSeq, nUse: seq<nat>, x: OpId) {
    && ChainForm(p, dom, nUse, x, Add) && ChainForm(p, dom, nUse, x, Mul) && ChainForm(p, dom, nUse, x, And)
    && ChainForm(p, dom, nUse, x, Xor) && ChainForm(p, dom, nUse, x, Or)
  }

  ghost predicate Form(p: Program, dom: DomSeq, nUse: seq<nat>, x: OpId) {
    ConstantForm(p, nUse, x) && SumForm(p, dom, nUse, x) && Chains(p, dom, nUse, x)
  }

  // ---- swapping the operands of some other op ---------------------------------------------------

  /** At most the two operands of z have changed places. */
  predicate Swapped(p: Program, q: Program, z: OpId) {
    q == p || (z < |p.ops| && |p.ops[z].ins| == 2
               && q == p.(ops := p.ops[z := p.ops[z].(ins := [p.ops[z].ins[1], p.ops[z].ins[0]])]))
  }

  /** The form of x depends on x and its operands. */
  ghost predicate Elsewhere(p: Program, q: Program, x: OpId, z: OpId) {
    Swapped(p, q, z) && x < |p.ops| && z != x && z !in p.ops[x].ins
  }

  lemma SameOrder(p: Program, q: Program, dom: DomSeq, z: OpId, u: OpId, w: OpId)
    requires Swapped(p, q, z)
    ensures FirstOpDominates(q, dom, u, w) <==> FirstOpDominates(p, dom, u, w)
  {
    assert NDom(q, dom, u) == NDom(p, dom, u) && NDom(q, dom, w) == NDom(p, dom, w);
  }

  lemma NestSame(p: Program, q: Program, nUse: seq<nat>, x: OpId, z: OpId, f: IntOp, g: IntOp, n: OpId, y: OpId, a: OpId, b: OpId)
    requires Elsewhere(p, q, x, z) && Nest(q, nUse, x, f, g, n, y, a, b)
    ensures Nest(p, nUse, x, f, g, n, y, a, b)
  {
    assert n in q.ops[x].ins;
  }

  lemma TwinsSame(p: Program, q: Program, nUse: seq<nat>, x: OpId, z: OpId, f: IntOp, g: IntOp,
                 n: OpId, m: OpId, a: OpId, b: OpId, c: OpId, d: OpId)
    requires Elsewhere(p, q, x, z) && Twins(q, nUse, x, f, g, n, m, a, b, c, d)
    ensures Twins(p, nUse, x, f, g, n, m, a, b, c, d)
  {
    assert n in q.ops[x].ins && m in q.ops[x].ins;
  }

  lemma SortedFramed(p: Program, q: Program, dom: DomSeq, x: OpId, z: OpId, f: IntOp)
    requires Elsewhere(p, q, x, z) && Sorted(p, dom, x, f)
    ensures Sorted(q, dom, x, f)
  {
    forall n: OpId, m: OpId | Two(q, x, f, n, m) ensures !FirstOpDominates(q, dom, n, m) {
      assert Two(p, x, f, n, m);
      SameOrder(p, q, dom, z, n, m);
    }
  }

  lemma LateFramed(p: Program, q: Program, dom: DomSeq, nUse: seq<nat>, x: OpId, z: OpId, f: IntOp, g: IntOp)
    requires Elsewhere(p, q, x, z) && Late(p, dom, nUse, x, f, g)
    ensures Late(q, dom, nUse, x, f, g)
  {
    forall n: OpId, y: OpId, a: OpId, b: OpId | Nest(q, nUse, x, f, g, n, y, a, b) && a != b
      ensures !FirstOpDominates(q, dom, y, a) && !FirstOpDominates(q, dom, y, b)
    {
      NestSame(p, q, nUse, x, z, f, g, n, y, a, b);
      SameOrder(p, q, dom, z, y, a);
      SameOrder(p, q, dom, z, y, b);
    }
  }

  lemma PairedFramed(p: Program, q: Program, nUse: seq<nat>, x: OpId, z: OpId, f: IntOp, g: IntOp)
    requires Elsewhere(p, q, x, z) && Paired(p, nUse, x, f, g)
    ensures Paired(q, nUse, x, f, g)
  {
    forall n: OpId, y: OpId, a: OpId, b: OpId | Nest(q, nUse, x, f, g, n, y, a, b) && a != b ensures y != a && y != b {
      NestSame(p, q, nUse, x, z, f, g, n, y, a, b);
    }
  }

  lemma UncrossedFramed(p: Program, q: Program, dom: DomSeq, nUse: seq<nat>, x: OpId, z: OpId, f: IntOp, g: IntOp)
    requires Elsewhere(p, q, x, z) && Uncrossed(p, dom, nUse, x, f, g)
    ensures Uncrossed(q, dom, nUse, x, f, g)
  {
    forall n: OpId, m: OpId, a: OpId, b: OpId, c: OpId, d: OpId | Twins(q, nUse, x, f, g, n, m, a, b, c, d)
      ensures !FirstOpDominates(q, dom, b, c)
    {
      TwinsSame(p, q, nUse, x, z, f, g, n, m, a, b, c, d);
      SameOrder(p, q, dom, z, b, c);
    }
  }

  lemma ConstantsFramed(p: Program, q: Program, nUse: seq<nat>, x: OpId, z: OpId, f: IntOp, g: IntOp)
    requires Elsewhere(p, q, x, z)
    ensures NoOuter(p, nUse, x, f, g) ==> NoOuter(q, nUse, x, f, g)
    ensures OuterPair(p, nUse, x, f) ==> OuterPair(q, nUse, x, f)
  {
    forall n: OpId, a: OpId, b: OpId, h: IntOp | One(q, x, f, n) && Two(q, n, h, a, b) ensures One(p, x, f, n) && Two(p, n, h, a, b) {
      assert n in q.ops[x].ins;
    }
  }

  lemma SplitFramed(p: Program, q: Program, nUse: seq<nat>, x: OpId, z: OpId, f: IntOp)
    requires Elsewhere(p, q, x, z) && NoSplit(p, nUse, x, f)
    ensures NoSplit(q, nUse, x, f)
  {
    forall n: OpId, a: OpId | Two(q, x, f, n, a) && One(q, n, f, a) ensures !Alone(nUse, n) {
      assert n in q.ops[x].ins;
      assert Two(p, x, f, n, a) && One(p, n, f, a);
    }
  }

  lemma OneConstantFramed(p: Program, q: Program, nUse: seq<nat>, x: OpId, z: OpId, f: IntOp)
    requires Elsewhere(p, q, x, z) && OneConstant(p, nUse, x, f)
    ensures OneConstant(q, nUse, x, f)
  {
    forall n: OpId, m: OpId, a: OpId, b: OpId |
      Two(q, x, f, n, m) && One(q, n, f, a) && One(q, m, f, b) && Alone(nUse, n) && Alone(nUse, m)
      ensures q.ops[a].opcode == BinI(f)
    {
      assert n in q.ops[x].ins && m in q.ops[x].ins;
      assert Two(p, x, f, n, m) && One(p, n, f, a) && One(p, m, f, b);
    }
  }

  lemma OperandsSame(p: Program, q: Program, x: OpId, z: OpId, f: IntOp, g: IntOp, h: IntOp, n: OpId, m: OpId, a: OpId, b: OpId, c: OpId, d: OpId)
    requires Elsewhere(p, q, x, z) && Two(q, x, f, n, m) && Two(q, n, g, a, b) && Two(q, m, h, c, d)
    ensures Two(p, x, f, n, m) && Two(p, n, g, a, b) && Two(p, m, h, c, d)
  {
    assert n in q.ops[x].ins && m in q.ops[x].ins;
  }

  lemma CancelsFramed(p: Program, q: Program, nUse: seq<nat>, x: OpId, z: OpId)
    requires Elsewhere(p, q, x, z) && NoneOfDifference(p, x) && NoneOfSum(p, x) && NoneOfSums(p, x)
    ensures NoneOfDifference(q, x) && NoneOfSum(q, x) && NoneOfSums(q, x)
  {
    forall n: OpId, m: OpId, a: OpId, b: OpId, c: OpId, d: OpId | Two(q, x, Add, n, m) && Two(q, n, Sub, a, b) && Two(q, m, Add, c, d)
      ensures b != c && b != d
    {
      OperandsSame(p, q, x, z, Add, Sub, Add, n, m, a, b, c, d);
    }
    forall n: OpId, m: OpId, a: OpId, b: OpId, c: OpId, d: OpId | Two(q, x, Add, n, m) && Two(q, n, Add, a, b) && Two(q, m, Sub, c, d)
      ensures a != d && b != d
    {
      OperandsSame(p, q, x, z, Add, Add, Sub, n, m, a, b, c, d);
    }
    forall n: OpId, m: OpId, a: OpId, b: OpId, c: OpId, d: OpId | Two(q, x, Sub, n, m) && Two(q, n, Add, a, b) && Two(q, m, Add, c, d)
      ensures a != c && b != c && b != d
    {
      OperandsSame(p, q, x, z, Sub, Add, Add, n, m, a, b, c, d);
    }
  }

  lemma TailFramed(p: Program, q: Program, nUse: seq<nat>, x: OpId, z: OpId)
    requires Elsewhere(p, q, x, z) && NoTail(p, nUse, x)
    ensures NoTail(q, nUse, x)
  {
    forall n: OpId, a: OpId, b: OpId | Two(q, x, Sub, a, n) && Two(q, n, Sub, a, b) && a != b ensures !Alone(nUse, n) {
      assert n in q.ops[x].ins;
      assert Two(p, x, Sub, a, n) && Two(p, n, Sub, a, b);
    }
  }

  lemma ChainFramed(p: Program, q: Program, dom: DomSeq, nUse: seq<nat>, x: OpId, z: OpId, f: IntOp)
    requires Elsewhere(p, q, x, z) && ChainForm(p, dom, nUse, x, f)
    ensures ChainForm(q, dom, nUse, x, f)
  {
    SortedFramed(p, q, dom, x, z, f);
    UncrossedFramed(p, q, dom, nUse, x, z, f, f);
    LateFramed(p, q, dom, nUse, x, z, f, f);
    PairedFramed(p, q, nUse, x, z, f, f);
    ConstantsFramed(p, q, nUse, x, z, f, f);
    SplitFramed(p, q, nUse, x, z, f);
    OneConstantFramed(p, q, nUse, x, z, f);
  }

  lemma SumFramed(p: Program, q: Program, dom: DomSeq, nUse: seq<nat>, x: OpId, z: OpId)
    requires Elsewhere(p, q, x, z) && SumForm(p, dom, nUse, x)
    ensures SumForm(q, dom, nUse, x)
  {
    SortedFramed(p, q, dom, x, z, Add);
    UncrossedFramed(p, q, dom, nUse, x, z, Add, Sub);
    LateFramed(p, q, dom, nUse, x, z, Add, Sub);
    LateFramed(p, q, dom, nUse, x, z, Sub, Add);
    LateFramed(p, q, dom, nUse, x, z, Sub, Sub);
    PairedFramed(p, q, nUse, x, z, Add, Sub);
    PairedFramed(p, q, nUse, x, z, Sub, Sub);
    TailFramed(p, q, nUse, x, z);
    CancelsFramed(p, q, nUse, x, z);
  }

  lemma FormFramed(p: Program, q: Program, dom: DomSeq, nUse: seq<nat>, x: OpId, z: OpId)
    requires Elsewhere(p, q, x, z) && Form(p, dom, nUse, x)
    ensures Form(q, dom, nUse, x)
  {
    ConstantsFramed(p, q, nUse, x, z, Sub, Add);
    ConstantsFramed(p, q, nUse, x, z, Add, Sub);
    ConstantsFramed(p, q, nUse, x, z, Sub, Sub);
    SumFramed(p, q, dom, nUse, x, z);
    ChainFramed(p, q, dom, nUse, x, z, Add);
    ChainFramed(p, q, dom, nUse, x, z, Mul);
    ChainFramed(p, q, dom, nUse, x, z, And);
    ChainFramed(p, q, dom, nUse, x, z, Xor);
    ChainFramed(p, q, dom, nUse, x, z, Or);
  }

  // ---- the opcode decides -----------------------------------------------------------------------

  lemma OtherChain(p: Program, dom: DomSeq, nUse: seq<nat>, x: OpId, f: IntOp)
    requires x < |p.ops| && p.ops[x].opcode != Bin(f) && p.ops[x].opcode != BinI(f)
    ensures ChainForm(p, dom, nUse, x, f)
  {
  }

  lemma OtherSum(p: Program, dom: DomSeq, nUse: seq<nat>, x: OpId)
    requires x < |p.ops| && p.ops[x].opcode != Bin(Add) && p.ops[x].opcode != Bin(Sub)
    ensures SumForm(p, dom, nUse, x)
  {
  }

  lemma OtherConstant(p: Program, nUse: seq<nat>, x: OpId)
    requires x < |p.ops| && p.ops[x].opcode != BinI(Add) && p.ops[x].opcode != BinI(Sub)
    ensures ConstantForm(p, nUse, x)
  {
  }
}
