/** Phi elimination in Proc::opt_dce (src/opt-dce.cpp): a phi whose alternatives are only
    itself and one other value is replaced by that value. */
module PhiElim {
  import opened Digraph
  import opened Lists
  import opened Ir
  import opened Cfg
  import opened Ssa
  import opened Renaming

  /** One slot per block argument, indexed by phiIndex. */
  type Slots = seq<OpId>

  /** The alternatives of a block name phis that own a slot each. */
  ghost predicate SlotsOk(ops: seq<Op>, alts: seq<PhiAlt>, nArgs: nat) {
    && (forall k :: 0 <= k < |alts| ==>
          && alts[k].phi < |ops| && ops[alts[k].phi].phiIndex < nArgs
          && alts[k].val < NoVal && alts[k].phi < NoVal)
    && (forall j, k :: 0 <= j < |alts| && 0 <= k < |alts| ==>
          (ops[alts[j].phi].phiIndex == ops[alts[k].phi].phiIndex ==> alts[j].phi == alts[k].phi))
  }

  ghost predicate HasAlt(alts: seq<PhiAlt>, phi: OpId, val: OpId) {
    exists k :: 0 <= k < |alts| && alts[k].phi == phi && alts[k].val == val
  }

  /** The slot of a phi once all alternatives have been seen: empty if there is none but the
      phi itself, the value if there is exactly one other, the phi if there are more. */
  ghost predicate SlotMeans(alts: seq<PhiAlt>, phi: OpId, t: OpId) {
    && (t == NoVal ==> forall x :: HasAlt(alts, phi, x) ==> x == phi)
    && (t != NoVal && t != phi ==> HasAlt(alts, phi, t) && forall x :: HasAlt(alts, phi, x) ==> x == phi || x == t)
    && (t == phi ==> exists x, y :: HasAlt(alts, phi, x) && HasAlt(alts, phi, y) && x != y && x != phi && y != phi)
  }

  lemma SlotStep(alts: seq<PhiAlt>, a: PhiAlt, phi: OpId, t: OpId, t': OpId)
    requires SlotMeans(alts, phi, t) && a.val != NoVal && phi != NoVal
    requires t' == if a.phi != phi || a.val == phi then t
                   else if t == NoVal then a.val
                   else if t != a.val then phi else t
    ensures SlotMeans(alts + [a], phi, t')
  {
    var next := alts + [a];
    forall x ensures HasAlt(next, phi, x) <==> HasAlt(alts, phi, x) || (a.phi == phi && a.val == x) {
      if HasAlt(alts, phi, x) {
        var k :| 0 <= k < |alts| && alts[k].phi == phi && alts[k].val == x;
        assert next[k] == alts[k];
      }
      if a.phi == phi && a.val == x {
        assert next[|alts|] == a;
      }
    }
    if t' == phi {
      if t == phi {
        var x, y :| HasAlt(alts, phi, x) && HasAlt(alts, phi, y) && x != y && x != phi && y != phi;
        assert HasAlt(next, phi, x) && HasAlt(next, phi, y);
      } else {
        assert HasAlt(next, phi, t) && HasAlt(next, phi, a.val);
      }
    }
  }

  /** The first pass over the alternatives of one block. */
  method FindSources(ops: seq<Op>, alts: seq<PhiAlt>, nArgs: nat) returns (tmp: Slots)
    requires SlotsOk(ops, alts, nArgs)
    ensures |tmp| == nArgs
    ensures forall k :: 0 <= k < |alts| ==> SlotMeans(alts, alts[k].phi, tmp[ops[alts[k].phi].phiIndex])
  {
    tmp := seq(nArgs, _ => NoVal);
    for i := 0 to |alts|
      invariant |tmp| == nArgs
      invariant forall k :: 0 <= k < |alts| ==> SlotMeans(alts[..i], alts[k].phi, tmp[ops[alts[k].phi].phiIndex])
    {
      var s := alts[i];
      var slot := ops[s.phi].phiIndex;
      ghost var before := tmp;
      if s.phi != s.val {
        if tmp[slot] == NoVal {
          tmp := tmp[slot := s.val];
        } else if tmp[slot] != s.val {
          tmp := tmp[slot := s.phi];
        }
      }
      assert alts[..i + 1] == alts[..i] + [s];
      forall k | 0 <= k < |alts| ensures SlotMeans(alts[..i + 1], alts[k].phi, tmp[ops[alts[k].phi].phiIndex]) {
        var phi := alts[k].phi;
        SlotStep(alts[..i], s, phi, before[ops[phi].phiIndex], tmp[ops[phi].phiIndex]);
      }
    }
    assert alts[..|alts|] == alts;
  }

  /** Slots of all live blocks. */
  ghost predicate SlotsBuilt(p: Program, live: seq<BlockId>, args: seq<Slots>) {
    && |args| == |p.alts|
    && forall b, k :: b in live && b < |args| && 0 <= k < |p.alts[b]| ==>
         && p.alts[b][k].phi < |p.ops| && p.ops[p.alts[b][k].phi].phiIndex < |args[b]|
         && SlotMeans(p.alts[b], p.alts[b][k].phi, args[b][p.ops[p.alts[b][k].phi].phiIndex])
  }

  /** What the rename passes replace x by. */
  function Source(p: Program, live: seq<BlockId>, args: seq<Slots>, x: OpId): OpId {
    if OpLive(p, live, x) && p.ops[x].opcode.Phi? && p.ops[x].block < |args|
       && p.ops[x].phiIndex < |args[p.ops[x].block]|
    then args[p.ops[x].block][p.ops[x].phiIndex]
    else x
  }

  function Sources(p: Program, live: seq<BlockId>, args: seq<Slots>): (r: Subst)
    ensures |r| == |p.ops| && forall x :: 0 <= x < |r| ==> r[x] == Source(p, live, args, x)
  {
    seq(|p.ops|, x requires 0 <= x => Source(p, live, args, x))
  }

  // ---- why it is sound ----------------------------------------------------------------

  /** A reachable block other than the entry is first entered over an edge whose source it
      does not dominate. */
  lemma FirstEntry(p: Program, b: BlockId) returns (q: seq<Point>)
    requires Placed(p) && LiveBlock(p.ops, p.code, b) && b != 0
    ensures RunTo(Points(p), q, Point(b, 0)) && |q| > 1 && Point(b, 0) !in q[..|q| - 1]
    ensures IsRun(Points(p), q[..|q| - 1])
    ensures var a := q[|q| - 2].b;
            && a < |p.code| && q[|q| - 2] == Point(a, |p.code[a]|)
            && LiveBlock(p.ops, p.code, a) && b in Succ(p.ops, p.code, a) && b < |p.code|
  {
    assert EndsOk(p.ops, p.code, b);
    PointReachable(p, b, 0);
    var r :| RunTo(Points(p), r, Point(b, 0));
    q := FirstVisit(Points(p), r, Point(b, 0));
    var n := |q| - 1;
    assert n > 0;
    assert (q[n - 1], q[n - 1 + 1]) in Points(p).edges;
    PointLive(p.ops, p.code, q[..n]);
  }

  lemma EdgeAlt(p: Program, a: BlockId, b: BlockId, x: OpId)
    requires StrictSsa(p) && LiveBlock(p.ops, p.code, a) && a < |p.code|
    requires b in Succ(p.ops, p.code, a) && b < |p.alts| && IsPhiOf(p, b, x)
    ensures var y := PhiSource(p.alts[b], x, a);
            HasAlt(p.alts[b], x, y) && UseOk(p, Point(a, |p.code[a]|), y)
    ensures exists k :: 0 <= k < |p.alts[b]| && p.alts[b][k].phi == x
  {
    assert EdgeOk(p, a, b, x);
    var y := PhiSource(p.alts[b], x, a);
    var k :| 0 <= k < |p.alts[b]| && p.alts[b][k] == PhiAlt(x, a, y);
  }

  lemma LivePhi(p: Program, live: seq<BlockId>, x: OpId)
    requires Placed(p) && LiveExact(p.ops, p.code, live) && OpLive(p, live, x) && p.ops[x].opcode.Phi?
    ensures LiveBlock(p.ops, p.code, p.ops[x].block) && p.ops[x].block != 0
    ensures IsPhiOf(p, p.ops[x].block, x) && Defined(p, x)
  {
    assert LiveBlock(p.ops, p.code, p.ops[x].block);
    assert PlacedAt(p, p.ops[x].block, p.ops[x].pos);
  }

  /** The slot of a live phi is never empty, and a value in it is defined on every run
      strictly before the phi. */
  lemma SlotDominates(p: Program, live: seq<BlockId>, args: seq<Slots>, x: OpId)
    requires StrictSsa(p) && LiveExact(p.ops, p.code, live) && SlotsBuilt(p, live, args)
    requires OpLive(p, live, x) && p.ops[x].opcode.Phi?
    ensures var t := Source(p, live, args, x);
            && t != NoVal && SlotMeans(p.alts[p.ops[x].block], x, t)
            && (t != x ==> UseOk(p, DefPoint(p.ops, x), t) && DefPoint(p.ops, t) != DefPoint(p.ops, x))
  {
    LivePhi(p, live, x);
    var b, z := p.ops[x].block, DefPoint(p.ops, x);
    var q := FirstEntry(p, b);
    var t := OwnSlot(p, live, args, x, q);
    EdgeAlt(p, q[|q| - 2].b, b, x);
    var y := PhiSource(p.alts[b], x, q[|q| - 2].b);
    NotItself(p, x, q, y);
    if t != x {
      assert t == y;
      forall r | RunTo(Points(p), r, z) ensures DefPoint(p.ops, t) in r {
        EveryEntryHas(p, x, t, r);
      }
      assert DefPoint(p.ops, t) in q[..|q| - 1];
    }
  }

  lemma OwnSlot(p: Program, live: seq<BlockId>, args: seq<Slots>, x: OpId, q: seq<Point>) returns (t: OpId)
    requires StrictSsa(p) && LiveExact(p.ops, p.code, live) && SlotsBuilt(p, live, args)
    requires OpLive(p, live, x) && IsPhiOf(p, p.ops[x].block, x)
    requires |q| > 1 && q[|q| - 2].b < |p.code| && LiveBlock(p.ops, p.code, q[|q| - 2].b)
    requires p.ops[x].block in Succ(p.ops, p.code, q[|q| - 2].b)
    ensures t == Source(p, live, args, x) && SlotMeans(p.alts[p.ops[x].block], x, t)
  {
    var b := p.ops[x].block;
    EdgeAlt(p, q[|q| - 2].b, b, x);
    var k :| 0 <= k < |p.alts[b]| && p.alts[b][k].phi == x;
    t := args[b][p.ops[x].phiIndex];
  }

  lemma NotItself(p: Program, x: OpId, q: seq<Point>, y: OpId)
    requires IsRun(Points(p), q) && |q| > 1 && IsRun(Points(p), q[..|q| - 1]) && x < |p.ops|
    requires DefPoint(p.ops, x) !in q[..|q| - 1]
    requires UseOk(p, q[|q| - 2], y)
    ensures y != x && DefPoint(p.ops, y) in q[..|q| - 1]
  {
    assert RunTo(Points(p), q[..|q| - 1], q[|q| - 2]);
  }

  /** Every run into the block enters it first over an edge that carries t. */
  lemma EveryEntryHas(p: Program, x: OpId, t: OpId, r: seq<Point>)
    requires StrictSsa(p) && x < |p.ops| && t < |p.ops| && p.ops[x].opcode.Phi? && p.ops[x].block != 0
    requires IsPhiOf(p, p.ops[x].block, x)
    requires RunTo(Points(p), r, DefPoint(p.ops, x))
    requires t != NoVal && t != x && SlotMeans(p.alts[p.ops[x].block], x, t)
    ensures DefPoint(p.ops, t) in r
  {
    var b, z := p.ops[x].block, DefPoint(p.ops, x);
    var q := FirstVisit(Points(p), r, z);
    var n := |q| - 1;
    assert n > 0;
    assert (q[n - 1], q[n - 1 + 1]) in Points(p).edges;
    PointLive(p.ops, p.code, q[..n]);
    var a := q[n - 1].b;
    EdgeAlt(p, a, b, x);
    NotItself(p, x, q, PhiSource(p.alts[b], x, a));
    assert q[..n] <= r;
  }

  /** Phi elimination only ever replaces a value by one defined strictly before it. */
  lemma SourcesEarlier(p: Program, live: seq<BlockId>, args: seq<Slots>)
    requires StrictSsa(p) && LiveExact(p.ops, p.code, live) && SlotsBuilt(p, live, args)
    ensures Earlier(p, Sources(p, live, args))
    ensures forall x :: 0 <= x < |p.ops| ==> Sources(p, live, args)[x] < |p.ops|
  {
    var sigma := Sources(p, live, args);
    forall x | 0 <= x < |p.ops| ensures sigma[x] < |p.ops| {
      if sigma[x] != x {
        SlotDominates(p, live, args, x);
      }
    }
    forall x: OpId {:trigger Replaced(p, sigma, x)} | Replaced(p, sigma, x)
      ensures UseOk(p, DefPoint(p.ops, x), sigma[x]) && DefPoint(p.ops, sigma[x]) != DefPoint(p.ops, x)
    {
      SlotDominates(p, live, args, x);
    }
  }

  /** On every run, in every outside world, an eliminated phi has the value of its source as
      soon as it is assigned. */
  lemma SourcesJustified(p: Program, live: seq<BlockId>, args: seq<Slots>, sem: Semantics, st: State)
    requires StrictSsa(p) && LiveExact(p.ops, p.code, live) && SlotsBuilt(p, live, args)
    requires |st.env| == |p.ops| && Earlier(p, Sources(p, live, args))
    ensures Justified(p, sem, st, Sources(p, live, args))
  {
    var sigma := Sources(p, live, args);
    forall r | IsRun(Points(p), r) ensures AssignedEqual(p, sem, st, sigma, r) {
      if |r| > 1 ==> Agree(p, sigma, r[|r| - 2], Before(p, sem, st, r).env) {
        forall x: OpId {:trigger Replaced(p, sigma, x)} | Replaced(p, sigma, x) && DefPoint(p.ops, x) == r[|r| - 1]
          ensures Exec(p, sem, st, r).env[x] == Exec(p, sem, st, r).env[sigma[x]]
        {
          TakesSource(p, live, args, sem, st, r, x);
        }
      }
    }
  }

  lemma TakesSource(p: Program, live: seq<BlockId>, args: seq<Slots>, sem: Semantics, st: State, r: seq<Point>, x: OpId)
    requires StrictSsa(p) && LiveExact(p.ops, p.code, live) && SlotsBuilt(p, live, args)
    requires |st.env| == |p.ops| && Earlier(p, Sources(p, live, args))
    requires IsRun(Points(p), r) && Replaced(p, Sources(p, live, args), x) && DefPoint(p.ops, x) == r[|r| - 1]
    requires |r| > 1 ==> Agree(p, Sources(p, live, args), r[|r| - 2], Before(p, sem, st, r).env)
    ensures Exec(p, sem, st, r).env[x] == Exec(p, sem, st, r).env[Sources(p, live, args)[x]]
  {
    var sigma := Sources(p, live, args);
    LivePhi(p, live, x);
    SlotDominates(p, live, args, x);
    var n, b, t := |r| - 1, p.ops[x].block, sigma[x];
    assert n > 0;
    assert (r[n - 1], r[n - 1 + 1]) in Points(p).edges;
    assert IsRun(Points(p), r[..n]);
    PointLive(p.ops, p.code, r[..n]);
    var a := r[n - 1].b;
    EdgeAlt(p, a, b, x);
    OnlyDefsChange(p, sem, st, r, t);
  }

  // ---- the passes ---------------------------------------------------------------------

  /** Fill the slots of every live block. */
  method FindAllSources(p: Program, live: seq<BlockId>, nArgs: seq<nat>) returns (args: seq<Slots>)
    requires |nArgs| == |p.alts| && NoDup(live) && forall k :: 0 <= k < |live| ==> live[k] < |p.alts|
    requires forall b :: b in live && b < |p.alts| ==> SlotsOk(p.ops, p.alts[b], nArgs[b])
    ensures SlotsBuilt(p, live, args)
  {
    args := seq(|p.alts|, _ => []);
    for i := 0 to |live|
      invariant |args| == |p.alts| && SlotsBuilt(p, live[..i], args)
    {
      var b := live[i];
      assert b in live && b !in live[..i] && live[..i + 1] == live[..i] + [b];
      var tmp := FindSources(p.ops, p.alts[b], nArgs[b]);
      args := args[b := tmp];
    }
    assert live[..|live|] == live;
  }

  /** Rename the operands of one op, input by input. */
  method RenameOp(p: Program, live: seq<BlockId>, args: seq<Slots>, ins0: seq<OpId>) returns (ins: seq<OpId>)
    ensures ins == RenameIns(Sources(p, live, args), ins0)
  {
    ins := ins0;
    for k := 0 to |ins|
      invariant |ins| == |ins0| && ins[k..] == ins0[k..]
      invariant ins[..k] == RenameIns(Sources(p, live, args), ins0)[..k]
    {
      assert ins[k] == ins0[k];
      var src := Source(p, live, args, ins[k]);
      if src != ins[k] {
        ins := ins[k := src];
      }
    }
  }

  method RenameBlockAlts(p: Program, live: seq<BlockId>, args: seq<Slots>, alts0: seq<PhiAlt>) returns (alts: seq<PhiAlt>)
    ensures alts == RenameAlts(Sources(p, live, args), alts0)
  {
    alts := alts0;
    for k := 0 to |alts|
      invariant |alts| == |alts0| && alts[k..] == alts0[k..]
      invariant alts[..k] == RenameAlts(Sources(p, live, args), alts0)[..k]
    {
      assert alts[k] == alts0[k];
      var src := Source(p, live, args, alts[k].val);
      if src != alts[k].val {
        alts := alts[k := alts[k].(val := src)];
      }
    }
  }

  /** Rename all ops of one block's code. */
  method RenameCode(p: Program, live: seq<BlockId>, args: seq<Slots>, code: seq<OpId>, ops0: seq<Op>) returns (ops: seq<Op>)
    requires |ops0| == |p.ops| && NoDup(code) && forall j :: 0 <= j < |code| ==> code[j] < |ops0|
    ensures |ops| == |ops0|
    ensures forall v :: 0 <= v < |ops| ==>
      ops[v] == if v in code then ops0[v].(ins := RenameIns(Sources(p, live, args), ops0[v].ins)) else ops0[v]
  {
    ops := ops0;
    for j := 0 to |code|
      invariant |ops| == |ops0|
      invariant forall v :: 0 <= v < |ops| ==>
        ops[v] == if v in code[..j] then ops0[v].(ins := RenameIns(Sources(p, live, args), ops0[v].ins)) else ops0[v]
    {
      var v := code[j];
      assert v !in code[..j] && code[..j + 1] == code[..j] + [v];
      var ins := RenameOp(p, live, args, ops[v].ins);
      ops := ops[v := ops[v].(ins := ins)];
    }
    assert code[..|code|] == code;
  }

  lemma CodeNoDup(p: Program, live: seq<BlockId>, b: BlockId)
    requires Placed(p) && LiveExact(p.ops, p.code, live) && b in live
    ensures b < |p.code| && NoDup(p.code[b])
    ensures forall j :: 0 <= j < |p.code[b]| ==> p.code[b][j] < |p.ops| && p.ops[p.code[b][j]].block == b
    ensures forall v: OpId :: v in p.code[b] <==> OpLive(p, live, v) && p.ops[v].block == b
  {
    assert LiveBlock(p.ops, p.code, b) && EndsOk(p.ops, p.code, b);
    forall j: nat | j < |p.code[b]|
      ensures p.code[b][j] < |p.ops| && p.ops[p.code[b][j]].block == b && p.ops[p.code[b][j]].pos == j
    {
      assert PlacedAt(p, b, j);
    }
  }

  /** Eliminate phis in all live blocks, in place. */
  method EliminatePhis(proc: Proc, nArgs: seq<nat>) returns (ghost args: seq<Slots>)
    requires proc.Shape() && StrictSsa(proc.prog)
    requires DiscoveryOrder(proc.prog.ops, proc.prog.code, proc.live)
    requires LiveExact(proc.prog.ops, proc.prog.code, proc.live)
    requires |nArgs| == |proc.prog.alts|
    requires forall b :: b in proc.live && b < |nArgs| ==> SlotsOk(proc.prog.ops, proc.prog.alts[b], nArgs[b])
    modifies proc`prog
    ensures proc.Shape() && SlotsBuilt(old(proc.prog), proc.live, args)
    ensures proc.prog == Renamed(old(proc.prog), proc.live, Sources(old(proc.prog), proc.live, args))
  {
    var p, live := proc.prog, proc.live;
    var tmp := FindAllSources(p, live, nArgs);
    args := tmp;
    var ops, alts := RenameBlocks(p, live, tmp);
    proc.prog := Program(ops, p.code, alts);
    assert proc.prog == Renamed(p, live, Sources(p, live, args));
  }

  method RenameBlocks(p: Program, live: seq<BlockId>, args: seq<Slots>) returns (ops: seq<Op>, alts: seq<seq<PhiAlt>>)
    requires Placed(p) && LiveExact(p.ops, p.code, live) && NoDup(live)
    requires forall k :: 0 <= k < |live| ==> live[k] < |p.alts|
    ensures ops == Renamed(p, live, Sources(p, live, args)).ops
    ensures alts == Renamed(p, live, Sources(p, live, args)).alts
  {
    ops, alts := p.ops, p.alts;
    ghost var sigma := Sources(p, live, args);
    for i := 0 to |live|
      invariant |ops| == |p.ops| && |alts| == |p.alts|
      invariant forall v :: 0 <= v < |ops| ==>
        ops[v] == if OpLive(p, live, v) && p.ops[v].block in live[..i]
                  then p.ops[v].(ins := RenameIns(sigma, p.ops[v].ins)) else p.ops[v]
      invariant forall b :: 0 <= b < |alts| ==> alts[b] == if b in live[..i] then RenameAlts(sigma, p.alts[b]) else p.alts[b]
    {
      var b := live[i];
      assert b in live && b !in live[..i] && live[..i + 1] == live[..i] + [b];
      CodeNoDup(p, live, b);
      ops := RenameCode(p, live, args, p.code[b], ops);
      var renamed := RenameBlockAlts(p, live, args, alts[b]);
      alts := alts[b := renamed];
    }
    assert live[..|live|] == live;
  }

  /** The main result: after phi elimination the program is still in strict SSA form and every
      run, in every outside world, computes the same values and has the same effects. */
  lemma PhiEliminationPreserves(p: Program, live: seq<BlockId>, args: seq<Slots>, sem: Semantics, st: State, r: seq<Point>)
    requires StrictSsa(p) && LiveExact(p.ops, p.code, live) && SlotsBuilt(p, live, args)
    requires |st.env| == |p.ops| && IsRun(Points(p), r)
    ensures var q := Renamed(p, live, Sources(p, live, args));
            && StrictSsa(q) && Points(q) == Points(p)
            && Exec(q, sem, st, r) == Exec(p, sem, st, r)
  {
    var sigma := Sources(p, live, args);
    SourcesEarlier(p, live, args);
    SourcesJustified(p, live, args, sem, st);
    RenamedStrict(p, live, sigma);
    RenamedSame(p, live, sem, st, sigma, r);
  }
}
