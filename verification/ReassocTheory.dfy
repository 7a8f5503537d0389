/** What every step of opt_reassoc (src/opt-reassoc.cpp) keeps, and the test that orders
    operands. */
module ReassocTheory {
  import opened Digraph
  import opened Lists
  import opened Ir
  import opened Words
  import opened Cfg
  import opened DomTheory
  import opened Ssa
  import opened Renaming
  import opened Rewriting
  import opened UseCounts
  import opened Liveness

  type DomSeq = seq<seq<BlockId>>

  predicate IntOpcode(c: Opcode) { c.Bin? || c.BinI? }

  /** Strict SSA with exact use counts and current dominator lists. */
  ghost predicate Good(p: Program, live: seq<BlockId>, dom: DomSeq, nUse: seq<nat>) {
    && StrictSsa(p) && PhisFirst(p) && LiveExact(p.ops, p.code, live) && NoDup(live)
    && Exact(BlockGraph(p.ops, p.code), live, dom) && Ordered(live, dom)
    && CountsExact(p, live, nUse)
    && forall v :: 0 <= v < |p.ops| && IntOpcode(p.ops[v].opcode) ==> IsInt(p.ops[v])
  }

  ghost predicate CountsExact(p: Program, live: seq<BlockId>, nUse: seq<nat>) {
    |nUse| == |p.ops| && forall v :: 0 <= v < |nUse| ==> nUse[v] == Refs(p, live, v)
  }

  // ---- what may not change ----------------------------------------------------------------

  /** v is read by something other than integer arithmetic: a phi, a load, a store, a call, a
      branch, a return, a division or a conversion. */
  ghost predicate Seen(p: Program, v: OpId) {
    || (exists y: OpId :: InCode(p, y) && !IntOpcode(p.ops[y].opcode) && v in p.ops[y].ins)
    || (exists b: BlockId :: LiveBlock(p.ops, p.code, b) && b < |p.alts| && FlowsInto(p.alts[b], v))
  }

  ghost predicate FlowsInto(alts: seq<PhiAlt>, v: OpId) {
    exists a :: a in alts && a.val == v
  }

  /** Only integer ops differ, and only in what they compute. */
  ghost predicate SameFrame(p: Program, q: Program) {
    && q.code == p.code && q.alts == p.alts && |q.ops| == |p.ops| && Points(q) == Points(p)
    && (forall b: BlockId :: LiveBlock(q.ops, q.code, b) <==> LiveBlock(p.ops, p.code, b))
    && forall v :: 0 <= v < |p.ops| ==>
         && q.ops[v] == p.ops[v].(opcode := q.ops[v].opcode, ins := q.ops[v].ins, imm := q.ops[v].imm)
         && (IntOpcode(q.ops[v].opcode) <==> IntOpcode(p.ops[v].opcode))
         && (!IntOpcode(p.ops[v].opcode) ==> q.ops[v] == p.ops[v])
  }

  ghost predicate AlikeOn(p: Program, q: Program, sem: Semantics, st: State, r: seq<Point>)
    requires Placed(p) && Placed(q) && SameFrame(p, q) && IsRun(Points(p), r) && |st.env| == |p.ops|
  {
    var s, s' := Exec(p, sem, st, r), Exec(q, sem, st, r);
    s'.world == s.world && forall v: OpId :: v < |p.ops| && Seen(p, v) ==> s'.env[v] == s.env[v]
  }

  /** On every run both programs have the same effects, and everything but integer arithmetic
      reads the same values. */
  ghost predicate SameSeen(p: Program, q: Program) {
    && Placed(p) && Placed(q) && SameFrame(p, q)
    && forall sem: Semantics, st: State, r: seq<Point> ::
         IsRun(Points(p), r) && |st.env| == |p.ops| ==> AlikeOn(p, q, sem, st, r)
  }

  lemma SameSeenRefl(p: Program)
    requires Placed(p)
    ensures SameSeen(p, p)
  {
  }

  lemma SeenFramed(p: Program, q: Program)
    requires SameFrame(p, q)
    ensures forall v :: Seen(q, v) <==> Seen(p, v)
  {
    forall v ensures Seen(q, v) <==> Seen(p, v) {
      assert forall y: OpId :: InCode(q, y) <==> InCode(p, y);
      if Seen(p, v) {
        if y: OpId :| InCode(p, y) && !IntOpcode(p.ops[y].opcode) && v in p.ops[y].ins {
          assert InCode(q, y) && q.ops[y] == p.ops[y];
        } else {
          var b: BlockId :| LiveBlock(p.ops, p.code, b) && b < |p.alts| && FlowsInto(p.alts[b], v);
          assert LiveBlock(q.ops, q.code, b);
        }
      }
      if Seen(q, v) {
        if y: OpId :| InCode(q, y) && !IntOpcode(q.ops[y].opcode) && v in q.ops[y].ins {
          assert InCode(p, y) && q.ops[y] == p.ops[y];
        } else {
          var b: BlockId :| LiveBlock(q.ops, q.code, b) && b < |q.alts| && FlowsInto(q.alts[b], v);
          assert LiveBlock(p.ops, p.code, b);
        }
      }
    }
  }

  lemma SameSeenTrans(p: Program, q: Program, s: Program)
    requires SameSeen(p, q) && SameSeen(q, s)
    ensures SameSeen(p, s)
  {
    SeenFramed(p, q);
    forall sem: Semantics, st: State, r: seq<Point> | IsRun(Points(p), r) && |st.env| == |p.ops|
      ensures AlikeOn(p, s, sem, st, r)
    {
      assert AlikeOn(p, q, sem, st, r) && AlikeOn(q, s, sem, st, r);
    }
  }

  // ---- one edit -----------------------------------------------------------------------------

  lemma HiddenNotSeen(p: Program, q: Program, x: OpId, hidden: set<OpId>, v: OpId)
    requires Edited(p, q, x, hidden) && Private(p, x, hidden) && Seen(p, v)
    ensures v !in hidden
  {
    if y: OpId :| InCode(p, y) && !IntOpcode(p.ops[y].opcode) && v in p.ops[y].ins {
      assert y == x || y in hidden ==> IsInt(p.ops[y]);
    } else {
      var b: BlockId :| LiveBlock(p.ops, p.code, b) && b < |p.alts| && FlowsInto(p.alts[b], v);
      var a :| a in p.alts[b] && a.val == v;
    }
  }

  lemma EditFrame(p: Program, q: Program, x: OpId, hidden: set<OpId>)
    requires Edited(p, q, x, hidden)
    ensures SameFrame(p, q)
    ensures PhisFirst(p) ==> PhisFirst(q)
  {
    EditedGraphs(p, q, x, hidden);
  }

  /** An edit within a private group of ops keeps everything that a pass relies on, and
      nobody sees it. */
  lemma EditKeeps(p: Program, q: Program, live: seq<BlockId>, dom: DomSeq, nUse: seq<nat>, nUse': seq<nat>,
                  x: OpId, hidden: set<OpId>, known: set<OpId>)
    requires Good(p, live, dom, nUse) && Edited(p, q, x, hidden) && NewInputsOk(p, q, x, hidden)
    requires Private(p, x, hidden) && Known(p, x, known) && Known(q, x, known)
    requires ValueKept(IntEval, p, q, x, hidden, known) && CountsExact(q, live, nUse')
    ensures Good(q, live, dom, nUse') && SameSeen(p, q)
  {
    EditedStrict(p, q, x, hidden);
    EditedGraphs(p, q, x, hidden);
    EditFrame(p, q, x, hidden);
    forall sem: Semantics, st: State, r: seq<Point> | IsRun(Points(p), r) && |st.env| == |p.ops|
      ensures AlikeOn(p, q, sem, st, r)
    {
      EditedSame(p, q, x, hidden, known, sem, st, r);
      forall v: OpId | v < |p.ops| && Seen(p, v) ensures Exec(q, sem, st, r).env[v] == Exec(p, sem, st, r).env[v] {
        HiddenNotSeen(p, q, x, hidden, v);
      }
    }
  }

  // ---- the order of definitions -----------------------------------------------------------

  lemma InputsOf(p: Program, x: OpId)
    requires StrictSsa(p) && InCode(p, x)
    ensures forall u :: u in p.ops[x].ins ==> InputOk(p, DefPoint(p.ops, x), u) && InCode(p, u)
  {
    var b, j := p.ops[x].block, p.ops[x].pos;
    assert PlacedAt(p, b, j) && InputsOk(p, b, j);
    forall u | u in p.ops[x].ins ensures InputOk(p, DefPoint(p.ops, x), u) && InCode(p, u) {
      assert InputOk(p, Point(b, j + 1), u);
    }
  }

  lemma CodeReachable(p: Program, x: OpId)
    requires CfgOk(p.ops, p.code) && InCode(p, x)
    ensures Reachable(Points(p), DefPoint(p.ops, x))
  {
    PointReachable(p, p.ops[x].block, DefPoint(p.ops, x).i);
  }

  /** Defined strictly before something defined before n: strictly before n. */
  lemma BeforeChain(p: Program, n: OpId, u: OpId, w: OpId)
    requires Placed(p) && InCode(p, n) && Defined(p, u) && InputOk(p, DefPoint(p.ops, n), w)
    requires Dominates(Points(p), DefPoint(p.ops, u), DefPoint(p.ops, w))
    ensures InputOk(p, DefPoint(p.ops, n), u)
  {
    var a, b, c := DefPoint(p.ops, u), DefPoint(p.ops, w), DefPoint(p.ops, n);
    DomTransitive(Points(p), a, b, c);
    if a == c {
      CodeReachable(p, n);
      DomAntisymmetric(Points(p), c, b);
    }
  }

  /** Operands of an operand. */
  lemma InputsAbove(p: Program, x: OpId, n: OpId)
    requires StrictSsa(p) && InCode(p, x) && IsInt(p.ops[x]) && n in p.ops[x].ins && n < |p.ops| && IsInt(p.ops[n])
    ensures forall u :: u in p.ops[n].ins ==> InputOk(p, DefPoint(p.ops, n), u) && InputOk(p, DefPoint(p.ops, x), u)
    ensures InputOk(p, DefPoint(p.ops, x), n) && n != x && n !in p.ops[n].ins
  {
    InputsOf(p, x);
    InputsOf(p, n);
    forall u | u in p.ops[n].ins ensures InputOk(p, DefPoint(p.ops, x), u) {
      BeforeChain(p, x, u, n);
    }
  }

  // ---- firstOpDominates ---------------------------------------------------------------------

  function NDom(p: Program, dom: DomSeq, v: OpId): nat {
    if v < |p.ops| && p.ops[v].block < |dom| then |dom[p.ops[v].block]| else 0
  }

  predicate FirstOpDominates(p: Program, dom: DomSeq, u: OpId, w: OpId) {
    && u < |p.ops| && w < |p.ops| && u != w
    && (NDom(p, dom, u) < NDom(p, dom, w)
        || (NDom(p, dom, u) == NDom(p, dom, w) && p.ops[u].pos < p.ops[w].pos))
  }

  lemma BlockOf(p: Program, live: seq<BlockId>, dom: DomSeq, x: OpId, u: OpId)
    requires StrictSsa(p) && LiveExact(p.ops, p.code, live) && Exact(BlockGraph(p.ops, p.code), live, dom)
    requires InCode(p, x) && InputOk(p, DefPoint(p.ops, x), u)
    ensures p.ops[x].block in live && p.ops[u].block in dom[p.ops[x].block]
  {
    PointDominanceLowers(p, DefPoint(p.ops, u), DefPoint(p.ops, x));
  }

  /** The block of one operand is the other's, or dominates it, as the list sizes say. */
  lemma OperandBlocks(p: Program, live: seq<BlockId>, dom: DomSeq, x: OpId, u: OpId, w: OpId)
    requires StrictSsa(p) && LiveExact(p.ops, p.code, live) && InCode(p, x)
    requires Exact(BlockGraph(p.ops, p.code), live, dom) && Ordered(live, dom)
    requires InputOk(p, DefPoint(p.ops, x), u) && InputOk(p, DefPoint(p.ops, x), w)
    ensures NDom(p, dom, u) <= NDom(p, dom, w) ==> Dominates(BlockGraph(p.ops, p.code), p.ops[u].block, p.ops[w].block)
    ensures NDom(p, dom, u) == NDom(p, dom, w) <==> p.ops[u].block == p.ops[w].block
  {
    BlockOf(p, live, dom, x, u);
    BlockOf(p, live, dom, x, w);
    LengthOrdersChain(BlockGraph(p.ops, p.code), live, dom, p.ops[u].block, p.ops[w].block, p.ops[x].block);
  }

  lemma BlockBefore(p: Program, u: OpId, w: OpId)
    requires Placed(p) && Defined(p, u) && Defined(p, w) && p.ops[u].block != p.ops[w].block
    requires Dominates(BlockGraph(p.ops, p.code), p.ops[u].block, p.ops[w].block)
    ensures Dominates(Points(p), DefPoint(p.ops, u), DefPoint(p.ops, w))
  {
    BlockDominanceLifts(p.ops, p.code, p.ops[u].block, DefPoint(p.ops, u).i, p.ops[w].block, DefPoint(p.ops, w).i);
  }

  lemma PositionBefore(p: Program, u: OpId, w: OpId)
    requires PhisFirst(p) && Defined(p, u) && Defined(p, w)
    requires p.ops[u].block == p.ops[w].block && p.ops[u].pos <= p.ops[w].pos
    ensures Dominates(Points(p), DefPoint(p.ops, u), DefPoint(p.ops, w))
  {
    SameBlockDominates(p.ops, p.code, p.ops[u].block, DefPoint(p.ops, u).i, DefPoint(p.ops, w).i);
  }

  /** The test is right about two ops that are available at one op. */
  lemma FirstDominates(p: Program, live: seq<BlockId>, dom: DomSeq, x: OpId, u: OpId, w: OpId)
    requires StrictSsa(p) && PhisFirst(p) && LiveExact(p.ops, p.code, live) && InCode(p, x)
    requires Exact(BlockGraph(p.ops, p.code), live, dom) && Ordered(live, dom)
    requires InputOk(p, DefPoint(p.ops, x), u) && InputOk(p, DefPoint(p.ops, x), w)
    ensures FirstOpDominates(p, dom, u, w) ==> Dominates(Points(p), DefPoint(p.ops, u), DefPoint(p.ops, w))
    ensures !FirstOpDominates(p, dom, u, w) ==> Dominates(Points(p), DefPoint(p.ops, w), DefPoint(p.ops, u))
  {
    OperandBlocks(p, live, dom, x, u, w);
    OperandBlocks(p, live, dom, x, w, u);
    if p.ops[u].block == p.ops[w].block {
      if p.ops[u].pos <= p.ops[w].pos {
        PositionBefore(p, u, w);
      }
      if p.ops[w].pos <= p.ops[u].pos {
        PositionBefore(p, w, u);
      }
      assert p.ops[u].pos == p.ops[w].pos ==> u == w;
    } else if NDom(p, dom, u) < NDom(p, dom, w) {
      BlockBefore(p, u, w);
    } else {
      BlockBefore(p, w, u);
    }
  }

  /** What may be swapped into n in place of one of its operands. */
  lemma MayReplace(p: Program, live: seq<BlockId>, dom: DomSeq, x: OpId, n: OpId, u: OpId, w: OpId)
    requires StrictSsa(p) && PhisFirst(p) && LiveExact(p.ops, p.code, live)
    requires Exact(BlockGraph(p.ops, p.code), live, dom) && Ordered(live, dom)
    requires InCode(p, x) && IsInt(p.ops[x]) && n in p.ops[x].ins && n < |p.ops| && IsInt(p.ops[n])
    requires InputOk(p, DefPoint(p.ops, x), u) && w in p.ops[n].ins && FirstOpDominates(p, dom, u, w)
    ensures InputOk(p, DefPoint(p.ops, n), u)
  {
    InputsAbove(p, x, n);
    FirstDominates(p, live, dom, x, u, w);
    BeforeChain(p, n, u, w);
  }

  // ---- the kinds of edits -------------------------------------------------------------------

  /** The contents of op o replaced, its place kept. */
  function Become(o: Op, opcode: Opcode, ins: seq<OpId>, imm: Word): Op {
    o.(opcode := opcode, ins := ins, imm := imm)
  }

  function Edit2(p: Program, x: OpId, ox: Op, n: OpId, on: Op): Program
    requires x < |p.ops| && n < |p.ops|
  {
    p.(ops := p.ops[x := ox][n := on])
  }

  predicate SameSlot(o: Op, o': Op) {
    o' == Become(o, o'.opcode, o'.ins, o'.imm)
  }

  /** Two pairs of operand lists hold the same operands, equally often. */
  ghost predicate SameOccs(a: seq<OpId>, b: seq<OpId>, c: seq<OpId>, d: seq<OpId>) {
    forall v: OpId :: Occ(a, v) + Occ(b, v) == Occ(c, v) + Occ(d, v)
  }

  lemma OneOcc(a: OpId, v: OpId)
    ensures Occ([a], v) == if a == v then 1 else 0
  {
    assert [a][..0] == [];
  }

  lemma TwoOccs(a: OpId, b: OpId, v: OpId)
    ensures Occ([a, b], v) == (if a == v then 1 else 0) + (if b == v then 1 else 0)
  {
    assert [a, b][..1] == [a];
    OneOcc(a, v);
  }

  /** x and its operand n, which nothing else uses, are integer ops. */
  ghost predicate Pair(p: Program, live: seq<BlockId>, dom: DomSeq, nUse: seq<nat>, x: OpId, n: OpId) {
    && Good(p, live, dom, nUse) && InCode(p, x) && IsInt(p.ops[x])
    && n in p.ops[x].ins && n < |p.ops| && IsInt(p.ops[n]) && nUse[n] == 1
  }

  lemma PairPlaces(p: Program, live: seq<BlockId>, dom: DomSeq, nUse: seq<nat>, x: OpId, n: OpId)
    requires Pair(p, live, dom, nUse, x, n)
    ensures n != x && InCode(p, n) && Positioned(p, live) && Listed(p, live, x) && Listed(p, live, n)
    ensures Refs(p, live, n) == 1
  {
    InputsOf(p, x);
    InputsAbove(p, x, n);
    PlacedIsPositioned(p, live);
  }

  lemma PairInputs(p: Program, live: seq<BlockId>, dom: DomSeq, nUse: seq<nat>, x: OpId, n: OpId)
    requires Pair(p, live, dom, nUse, x, n)
    ensures n !in p.ops[n].ins && InputOk(p, DefPoint(p.ops, x), n)
    ensures forall u :: u in p.ops[n].ins ==> InputOk(p, DefPoint(p.ops, n), u) && InputOk(p, DefPoint(p.ops, x), u)
    ensures forall u :: u in p.ops[x].ins ==> InputOk(p, DefPoint(p.ops, x), u)
  {
    InputsAbove(p, x, n);
    InputsOf(p, x);
  }

  lemma PairPrivate(p: Program, live: seq<BlockId>, dom: DomSeq, nUse: seq<nat>, x: OpId, n: OpId)
    requires Pair(p, live, dom, nUse, x, n)
    ensures Private(p, x, {n}) && Occ(p.ops[x].ins, n) == 1
  {
    PairPlaces(p, live, dom, nUse, x, n);
    OnePrivate(p, live, x, n);
  }

  /** x keeps its value when n takes its new one. */
  ghost predicate SameValue2(ev: Arith, p: Program, x: OpId, ox: Op, n: OpId, on: Op)
    requires x < |p.ops| && n < |p.ops|
  {
    forall e: seq<Word> :: |e| == |p.ops| && e[n] == IntValue(ev, p.ops[n], e) ==>
      IntValue(ev, ox, e[n := IntValue(ev, on, e)]) == IntValue(ev, p.ops[x], e)
  }

  lemma Refs2(p: Program, live: seq<BlockId>, x: OpId, ox: Op, n: OpId, on: Op, v: OpId)
    requires Positioned(p, live) && Listed(p, live, x) && Listed(p, live, n) && x != n
    requires SameSlot(p.ops[x], ox) && SameSlot(p.ops[n], on) && SameOccs(ox.ins, on.ins, p.ops[x].ins, p.ops[n].ins)
    ensures Refs(Edit2(p, x, ox, n, on), live, v) == Refs(p, live, v)
  {
    var p1 := p.(ops := p.ops[x := ox]);
    RefsUpdate(p, live, x, ox, v);
    assert Positioned(p1, live) by {
      forall b, j | b in live && 0 <= j && b < |p1.code| && j < |p1.code[b]| ensures PositionedAt(p1, b, j) {
        assert PositionedAt(p, b, j);
      }
    }
    assert Listed(p1, live, n);
    RefsUpdate(p1, live, n, on, v);
    assert Occ(ox.ins, v) + Occ(on.ins, v) == Occ(p.ops[x].ins, v) + Occ(p.ops[n].ins, v);
  }

  lemma PairCounts(p: Program, live: seq<BlockId>, nUse: seq<nat>, x: OpId, ox: Op, n: OpId, on: Op)
    requires Positioned(p, live) && Listed(p, live, x) && Listed(p, live, n) && x != n && CountsExact(p, live, nUse)
    requires SameSlot(p.ops[x], ox) && SameSlot(p.ops[n], on) && SameOccs(ox.ins, on.ins, p.ops[x].ins, p.ops[n].ins)
    ensures CountsExact(Edit2(p, x, ox, n, on), live, nUse)
  {
    forall v | 0 <= v < |nUse| ensures nUse[v] == Refs(Edit2(p, x, ox, n, on), live, v) {
      Refs2(p, live, x, ox, n, on, v);
    }
  }

  lemma PairEdited(p: Program, x: OpId, ox: Op, n: OpId, on: Op)
    requires InCode(p, x) && InCode(p, n) && x != n && IsInt(p.ops[x]) && IsInt(p.ops[n])
    requires IsInt(ox) && IsInt(on) && SameSlot(p.ops[x], ox) && SameSlot(p.ops[n], on)
    ensures Edited(p, Edit2(p, x, ox, n, on), x, {n})
  {
  }

  lemma PairNew(p: Program, x: OpId, ox: Op, n: OpId, on: Op)
    requires x < |p.ops| && n < |p.ops| && x != n
    requires forall u :: u in on.ins ==> InputOk(p, DefPoint(p.ops, n), u)
    requires forall u :: u in ox.ins ==> InputOk(p, DefPoint(p.ops, x), u)
    ensures NewInputsOk(p, Edit2(p, x, ox, n, on), x, {n})
  {
  }

  lemma PairKnown(p: Program, q: Program, x: OpId, ox: Op, n: OpId, on: Op)
    requires InCode(p, x) && InCode(p, n) && x != n && q == Edit2(p, x, ox, n, on) && Edited(p, q, x, {n})
    requires InputOk(p, DefPoint(p.ops, x), n)
    ensures Known(p, x, {n}) && Known(q, x, {n})
  {
    InputCarries(p, q, x, {n});
    EditedGraphs(p, q, x, {n});
  }

  /** New contents whose operands are available and which keep the value of x. */
  ghost predicate PairOk(ev: Arith, p: Program, x: OpId, ox: Op, n: OpId, on: Op)
    requires x < |p.ops| && n < |p.ops|
  {
    && IsInt(ox) && IsInt(on) && SameSlot(p.ops[x], ox) && SameSlot(p.ops[n], on)
    && (forall u :: u in on.ins ==> InputOk(p, DefPoint(p.ops, n), u))
    && (forall u :: u in ox.ins ==> InputOk(p, DefPoint(p.ops, x), u))
    && SameOccs(ox.ins, on.ins, p.ops[x].ins, p.ops[n].ins)
    && SameValue2(ev, p, x, ox, n, on)
  }

  /** Rewriting x together with an operand that only x uses. */
  lemma PairEdit(p: Program, live: seq<BlockId>, dom: DomSeq, nUse: seq<nat>, x: OpId, ox: Op, n: OpId, on: Op)
    requires Pair(p, live, dom, nUse, x, n) && PairOk(IntEval, p, x, ox, n, on)
    ensures Good(Edit2(p, x, ox, n, on), live, dom, nUse) && SameSeen(p, Edit2(p, x, ox, n, on))
  {
    var q := Edit2(p, x, ox, n, on);
    PairPlaces(p, live, dom, nUse, x, n);
    PairInputs(p, live, dom, nUse, x, n);
    PairPrivate(p, live, dom, nUse, x, n);
    PairEdited(p, x, ox, n, on);
    PairNew(p, x, ox, n, on);
    PairKnown(p, q, x, ox, n, on);
    PairCounts(p, live, nUse, x, ox, n, on);
    PairValue(p, q, x, ox, n, on);
    EditKeeps(p, q, live, dom, nUse, nUse, x, {n}, {n});
  }

  lemma PairValue(p: Program, q: Program, x: OpId, ox: Op, n: OpId, on: Op)
    requires x < |p.ops| && n < |p.ops| && x != n && q == Edit2(p, x, ox, n, on)
    requires SameValue2(IntEval, p, x, ox, n, on) && IsInt(on)
    requires forall u :: u in on.ins ==> InputOk(p, DefPoint(p.ops, n), u)
    ensures ValueKept(IntEval, p, q, x, {n}, {n})
  {
    assert n !in on.ins;
    forall e: seq<Word>, f: seq<Word> |
      |e| == |f| == |p.ops| && (forall v :: 0 <= v < |e| && v !in {n} ==> e[v] == f[v])
      && Satisfies(IntEval, p, {n}, e) && Satisfies(IntEval, q, {n}, f)
      ensures IntValue(IntEval, q.ops[x], f) == IntValue(IntEval, p.ops[x], e)
    {
      assert At(e, n) == IntValue(IntEval, p.ops[n], e) && At(f, n) == IntValue(IntEval, q.ops[n], f);
      PairValueAt(p, x, ox, n, on, e, f);
    }
  }

  lemma PairValueAt(p: Program, x: OpId, ox: Op, n: OpId, on: Op, e: seq<Word>, f: seq<Word>)
    requires x < |p.ops| && n < |p.ops| && SameValue2(IntEval, p, x, ox, n, on) && n !in on.ins
    requires |e| == |f| == |p.ops| && forall v :: 0 <= v < |e| && v != n ==> e[v] == f[v]
    requires e[n] == IntValue(IntEval, p.ops[n], e) && f[n] == IntValue(IntEval, on, f)
    ensures IntValue(IntEval, ox, f) == IntValue(IntEval, p.ops[x], e)
  {
    SameOperands(on, e, f, {n});
    assert f == e[n := IntValue(IntEval, on, e)];
  }

  lemma SameOperands(o: Op, e: seq<Word>, f: seq<Word>, hidden: set<OpId>)
    requires |e| == |f| && forall v :: 0 <= v < |e| && v !in hidden ==> e[v] == f[v]
    requires forall u :: u in o.ins ==> u !in hidden
    ensures IntValue(IntEval, o, f) == IntValue(IntEval, o, e)
  {
    assert forall k :: 0 <= k < |o.ins| ==> o.ins[k] in o.ins;
  }

  // ---- edits of x and two operands ------------------------------------------------------------

  function Edit3(p: Program, x: OpId, ox: Op, n: OpId, on: Op, m: OpId, om: Op): Program
    requires x < |p.ops| && n < |p.ops| && m < |p.ops|
  {
    p.(ops := p.ops[x := ox][n := on][m := om])
  }

  ghost predicate SameValue3(ev: Arith, p: Program, x: OpId, ox: Op, n: OpId, on: Op, m: OpId, om: Op)
    requires x < |p.ops| && n < |p.ops| && m < |p.ops|
  {
    forall e: seq<Word> :: |e| == |p.ops| && e[n] == IntValue(ev, p.ops[n], e) && e[m] == IntValue(ev, p.ops[m], e) ==>
      IntValue(ev, ox, e[n := IntValue(ev, on, e)][m := IntValue(ev, om, e)]) == IntValue(ev, p.ops[x], e)
  }

  lemma TripleCounts(p: Program, live: seq<BlockId>, nUse: seq<nat>, x: OpId, ox: Op, n: OpId, on: Op, m: OpId, om: Op)
    requires Positioned(p, live) && Listed(p, live, x) && Listed(p, live, n) && Listed(p, live, m)
    requires x != n && x != m && n != m && CountsExact(p, live, nUse)
    requires SameSlot(p.ops[x], ox) && SameSlot(p.ops[n], on) && SameSlot(p.ops[m], om) && ox.ins == p.ops[x].ins
    requires SameOccs(on.ins, om.ins, p.ops[n].ins, p.ops[m].ins)
    ensures CountsExact(Edit3(p, x, ox, n, on, m, om), live, nUse)
  {
    var p1 := p.(ops := p.ops[x := ox]);
    assert Positioned(p1, live) by {
      forall b, j | b in live && 0 <= j && b < |p1.code| && j < |p1.code[b]| ensures PositionedAt(p1, b, j) {
        assert PositionedAt(p, b, j);
      }
    }
    forall v | 0 <= v < |nUse| ensures nUse[v] == Refs(p1, live, v) {
      RefsUpdate(p, live, x, ox, v);
    }
    PairCounts(p1, live, nUse, n, on, m, om);
  }

  lemma TripleEdited(p: Program, x: OpId, ox: Op, n: OpId, on: Op, m: OpId, om: Op)
    requires InCode(p, x) && InCode(p, n) && InCode(p, m) && x != n && x != m && n != m
    requires IsInt(p.ops[x]) && IsInt(p.ops[n]) && IsInt(p.ops[m]) && IsInt(ox) && IsInt(on) && IsInt(om)
    requires SameSlot(p.ops[x], ox) && SameSlot(p.ops[n], on) && SameSlot(p.ops[m], om)
    ensures Edited(p, Edit3(p, x, ox, n, on, m, om), x, {n, m})
  {
  }

  lemma TripleNew(p: Program, x: OpId, ox: Op, n: OpId, on: Op, m: OpId, om: Op)
    requires x < |p.ops| && n < |p.ops| && m < |p.ops| && x != n && x != m && n != m
    requires forall u :: u in on.ins ==> InputOk(p, DefPoint(p.ops, n), u)
    requires forall u :: u in om.ins ==> InputOk(p, DefPoint(p.ops, m), u)
    requires forall u :: u in ox.ins ==> InputOk(p, DefPoint(p.ops, x), u)
    ensures NewInputsOk(p, Edit3(p, x, ox, n, on, m, om), x, {n, m})
  {
  }

  lemma GroupKnown(p: Program, q: Program, x: OpId, hidden: set<OpId>, known: set<OpId>)
    requires Edited(p, q, x, hidden)
    requires forall s :: s in known ==> s < |p.ops| && IsInt(p.ops[s]) && IsInt(q.ops[s]) && InputOk(p, DefPoint(p.ops, x), s)
    ensures Known(p, x, known) && Known(q, x, known)
  {
    InputCarries(p, q, x, hidden);
    EditedGraphs(p, q, x, hidden);
  }

  lemma TripleValueAt(p: Program, x: OpId, ox: Op, n: OpId, on: Op, m: OpId, om: Op, e: seq<Word>, f: seq<Word>)
    requires x < |p.ops| && n < |p.ops| && m < |p.ops| && n != m && SameValue3(IntEval, p, x, ox, n, on, m, om)
    requires forall u :: u in on.ins || u in om.ins ==> u != n && u != m
    requires |e| == |f| == |p.ops| && forall v :: 0 <= v < |e| && v != n && v != m ==> e[v] == f[v]
    requires e[n] == IntValue(IntEval, p.ops[n], e) && f[n] == IntValue(IntEval, on, f)
    requires e[m] == IntValue(IntEval, p.ops[m], e) && f[m] == IntValue(IntEval, om, f)
    ensures IntValue(IntEval, ox, f) == IntValue(IntEval, p.ops[x], e)
  {
    SameOperands(on, e, f, {n, m});
    SameOperands(om, e, f, {n, m});
    assert f == e[n := IntValue(IntEval, on, e)][m := IntValue(IntEval, om, e)];
  }

  lemma TripleValue(p: Program, q: Program, x: OpId, ox: Op, n: OpId, on: Op, m: OpId, om: Op)
    requires x < |p.ops| && n < |p.ops| && m < |p.ops| && x != n && x != m && n != m
    requires q == Edit3(p, x, ox, n, on, m, om) && SameValue3(IntEval, p, x, ox, n, on, m, om)
    requires forall u :: u in on.ins || u in om.ins ==> u != n && u != m
    ensures ValueKept(IntEval, p, q, x, {n, m}, {n, m})
  {
    forall e: seq<Word>, f: seq<Word> |
      |e| == |f| == |p.ops| && (forall v :: 0 <= v < |e| && v !in {n, m} ==> e[v] == f[v])
      && Satisfies(IntEval, p, {n, m}, e) && Satisfies(IntEval, q, {n, m}, f)
      ensures IntValue(IntEval, q.ops[x], f) == IntValue(IntEval, p.ops[x], e)
    {
      assert At(e, n) == IntValue(IntEval, p.ops[n], e) && At(f, n) == IntValue(IntEval, q.ops[n], f);
      assert At(e, m) == IntValue(IntEval, p.ops[m], e) && At(f, m) == IntValue(IntEval, q.ops[m], f);
      TripleValueAt(p, x, ox, n, on, m, om, e, f);
    }
  }

  lemma TripleApart(p: Program, live: seq<BlockId>, dom: DomSeq, nUse: seq<nat>, x: OpId, n: OpId, m: OpId)
    requires Pair(p, live, dom, nUse, x, n) && Pair(p, live, dom, nUse, x, m) && n != m
    ensures Private(p, x, {n, m})
    ensures forall u :: u in p.ops[n].ins || u in p.ops[m].ins ==> u != n && u != m
  {
    PairPlaces(p, live, dom, nUse, x, n);
    PairPlaces(p, live, dom, nUse, x, m);
    TwoPrivate(p, live, x, n, m);
  }

  /** What the group of x, n and m is known to satisfy before it is edited. */
  ghost predicate Group(p: Program, live: seq<BlockId>, x: OpId, n: OpId, m: OpId) {
    && InCode(p, x) && InCode(p, n) && InCode(p, m) && x != n && x != m && n != m
    && Positioned(p, live) && Listed(p, live, x) && Listed(p, live, n) && Listed(p, live, m)
    && IsInt(p.ops[x]) && IsInt(p.ops[n]) && IsInt(p.ops[m]) && Private(p, x, {n, m})
    && InputOk(p, DefPoint(p.ops, x), n) && InputOk(p, DefPoint(p.ops, x), m)
    && (forall u :: u in p.ops[n].ins || u in p.ops[m].ins ==> u != n && u != m)
    && (forall u :: u in p.ops[x].ins ==> InputOk(p, DefPoint(p.ops, x), u))
  }

  lemma IsGroup(p: Program, live: seq<BlockId>, dom: DomSeq, nUse: seq<nat>, x: OpId, n: OpId, m: OpId)
    requires Pair(p, live, dom, nUse, x, n) && Pair(p, live, dom, nUse, x, m) && n != m
    ensures Group(p, live, x, n, m)
  {
    PairPlaces(p, live, dom, nUse, x, n);
    PairPlaces(p, live, dom, nUse, x, m);
    PairInputs(p, live, dom, nUse, x, n);
    PairInputs(p, live, dom, nUse, x, m);
    TripleApart(p, live, dom, nUse, x, n, m);
  }

  ghost predicate TripleOk(p: Program, x: OpId, ox: Op, n: OpId, on: Op, m: OpId, om: Op)
    requires x < |p.ops| && n < |p.ops| && m < |p.ops|
  {
    && IsInt(ox) && IsInt(on) && IsInt(om) && ox.ins == p.ops[x].ins
    && SameSlot(p.ops[x], ox) && SameSlot(p.ops[n], on) && SameSlot(p.ops[m], om)
    && (forall u :: u in on.ins ==> InputOk(p, DefPoint(p.ops, n), u))
    && (forall u :: u in om.ins ==> InputOk(p, DefPoint(p.ops, m), u))
    && (forall u :: u in on.ins || u in om.ins ==> u in p.ops[n].ins || u in p.ops[m].ins)
    && SameOccs(on.ins, om.ins, p.ops[n].ins, p.ops[m].ins)
    && SameValue3(IntEval, p, x, ox, n, on, m, om)
  }

  lemma GroupEdit(p: Program, q: Program, live: seq<BlockId>, nUse: seq<nat>, x: OpId, ox: Op, n: OpId, on: Op, m: OpId, om: Op)
    requires Group(p, live, x, n, m) && CountsExact(p, live, nUse) && TripleOk(p, x, ox, n, on, m, om)
    requires q == Edit3(p, x, ox, n, on, m, om)
    ensures Edited(p, q, x, {n, m}) && NewInputsOk(p, q, x, {n, m}) && Known(p, x, {n, m}) && Known(q, x, {n, m})
    ensures CountsExact(q, live, nUse) && ValueKept(IntEval, p, q, x, {n, m}, {n, m})
  {
    TripleEdited(p, x, ox, n, on, m, om);
    TripleNew(p, x, ox, n, on, m, om);
    GroupKnown(p, q, x, {n, m}, {n, m});
    TripleCounts(p, live, nUse, x, ox, n, on, m, om);
    TripleValue(p, q, x, ox, n, on, m, om);
  }

  /** Rewriting x together with two operands that only x uses. */
  lemma TripleEdit(p: Program, live: seq<BlockId>, dom: DomSeq, nUse: seq<nat>,
                   x: OpId, ox: Op, n: OpId, on: Op, m: OpId, om: Op)
    requires Pair(p, live, dom, nUse, x, n) && Pair(p, live, dom, nUse, x, m) && n != m
    requires TripleOk(p, x, ox, n, on, m, om)
    ensures Good(Edit3(p, x, ox, n, on, m, om), live, dom, nUse) && SameSeen(p, Edit3(p, x, ox, n, on, m, om))
  {
    var q := Edit3(p, x, ox, n, on, m, om);
    IsGroup(p, live, dom, nUse, x, n, m);
    GroupEdit(p, q, live, nUse, x, ox, n, on, m, om);
    EditKeeps(p, q, live, dom, nUse, nUse, x, {n, m}, {n, m});
  }

  // ---- edits of x alone -------------------------------------------------------------------------

  ghost predicate SameValue1(ev: Arith, p: Program, x: OpId, ox: Op, known: set<OpId>)
    requires x < |p.ops|
  {
    forall e: seq<Word> :: |e| == |p.ops| && Satisfies(ev, p, known, e) ==> IntValue(ev, ox, e) == IntValue(ev, p.ops[x], e)
  }

  lemma SingleValue(p: Program, q: Program, x: OpId, ox: Op, known: set<OpId>)
    requires x < |p.ops| && q == p.(ops := p.ops[x := ox]) && SameValue1(IntEval, p, x, ox, known)
    ensures ValueKept(IntEval, p, q, x, {}, known)
  {
    forall e: seq<Word>, f: seq<Word> |
      |e| == |f| == |p.ops| && (forall v :: 0 <= v < |e| && v !in {} ==> e[v] == f[v])
      && Satisfies(IntEval, p, known, e) && Satisfies(IntEval, q, known, f)
      ensures IntValue(IntEval, q.ops[x], f) == IntValue(IntEval, p.ops[x], e)
    {
      assert e == f;
    }
  }

  ghost predicate SingleOk(p: Program, x: OpId, ox: Op, known: set<OpId>)
    requires x < |p.ops|
  {
    && IsInt(ox) && SameSlot(p.ops[x], ox)
    && (forall u :: u in ox.ins ==> InputOk(p, DefPoint(p.ops, x), u))
    && (forall s :: s in known ==> s in p.ops[x].ins && s < |p.ops| && IsInt(p.ops[s]))
    && SameValue1(IntEval, p, x, ox, known)
  }

  ghost predicate Recounted(p: Program, x: OpId, ox: Op, nUse: seq<nat>, nUse': seq<nat>)
    requires x < |p.ops|
  {
    && |nUse'| == |nUse|
    && forall v :: 0 <= v < |nUse| ==> nUse'[v] + Occ(p.ops[x].ins, v) == nUse[v] + Occ(ox.ins, v)
  }

  /** Rewriting x alone, given what its operands compute. */
  lemma SingleEdit(p: Program, live: seq<BlockId>, dom: DomSeq, nUse: seq<nat>, nUse': seq<nat>, x: OpId, ox: Op, known: set<OpId>)
    requires Good(p, live, dom, nUse) && InCode(p, x) && IsInt(p.ops[x]) && SingleOk(p, x, ox, known)
    requires Recounted(p, x, ox, nUse, nUse')
    ensures Good(p.(ops := p.ops[x := ox]), live, dom, nUse') && SameSeen(p, p.(ops := p.ops[x := ox]))
  {
    var q := p.(ops := p.ops[x := ox]);
    InputsOf(p, x);
    PlacedIsPositioned(p, live);
    assert Edited(p, q, x, {});
    assert Private(p, x, {});
    forall v | 0 <= v < |nUse| ensures nUse'[v] == Refs(q, live, v) {
      RefsUpdate(p, live, x, ox, v);
    }
    SingleKnown(p, q, x, ox, known);
    SingleValue(p, q, x, ox, known);
    EditKeeps(p, q, live, dom, nUse, nUse', x, {}, known);
  }

  lemma SingleKnown(p: Program, q: Program, x: OpId, ox: Op, known: set<OpId>)
    requires StrictSsa(p) && InCode(p, x) && q == p.(ops := p.ops[x := ox]) && Edited(p, q, x, {})
    requires forall s :: s in known ==> s in p.ops[x].ins && s < |p.ops| && IsInt(p.ops[s])
    ensures Known(p, x, known) && Known(q, x, known)
  {
    InputsOf(p, x);
    GroupKnown(p, q, x, {}, known);
  }
}
