/** Use counts as the number of references in live code: what nUse == 1 tells a pass. */
module UseCounts {
  import opened Digraph
  import opened Lists
  import opened Ir
  import opened Cfg
  import opened Ssa
  import opened Rewriting
  import opened Liveness

  function CodeRefs(ops: seq<Op>, code: seq<OpId>, v: OpId): nat {
    if code == [] then 0
    else
      var c := code[|code| - 1];
      CodeRefs(ops, code[..|code| - 1], v) + if c < |ops| then Occ(ops[c].ins, v) else 0
  }

  function AltRefs(alts: seq<PhiAlt>, v: OpId): nat {
    if alts == [] then 0
    else AltRefs(alts[..|alts| - 1], v) + if alts[|alts| - 1].val == v then 1 else 0
  }

  function BlockRefs(p: Program, b: BlockId, v: OpId): nat {
    (if b < |p.code| then CodeRefs(p.ops, p.code[b], v) else 0)
    + (if b < |p.alts| then AltRefs(p.alts[b], v) else 0)
  }

  /** How often v is an operand or a phi alternative in live blocks. */
  function Refs(p: Program, live: seq<BlockId>, v: OpId): nat {
    if live == [] then 0 else Refs(p, live[..|live| - 1], v) + BlockRefs(p, live[|live| - 1], v)
  }

  /** Every op of a live block knows its place, so it occurs once. */
  ghost predicate Positioned(p: Program, live: seq<BlockId>) {
    && NoDup(live)
    && forall b, j :: b in live && 0 <= j && b < |p.code| && j < |p.code[b]| ==> PositionedAt(p, b, j)
  }

  ghost predicate PositionedAt(p: Program, b: BlockId, j: nat)
    requires b < |p.code| && j < |p.code[b]|
  {
    p.code[b][j] < |p.ops| && p.ops[p.code[b][j]].block == b && p.ops[p.code[b][j]].pos == j
  }

  lemma PlacedIsPositioned(p: Program, live: seq<BlockId>)
    requires Placed(p) && LiveExact(p.ops, p.code, live) && NoDup(live)
    ensures Positioned(p, live)
  {
    forall b, j | b in live && 0 <= j && b < |p.code| && j < |p.code[b]| ensures PositionedAt(p, b, j) {
      assert LiveBlock(p.ops, p.code, b) && PlacedAt(p, b, j);
    }
  }

  /** An op of a listed block. */
  ghost predicate Listed(p: Program, live: seq<BlockId>, x: OpId) {
    && x < |p.ops| && p.ops[x].block in live && p.ops[x].block < |p.code|
    && p.ops[x].pos < |p.code[p.ops[x].block]| && p.code[p.ops[x].block][p.ops[x].pos] == x
  }

  // ---- editing one op ------------------------------------------------------------------

  lemma {:induction false} CodeRefsUpdate(p: Program, b: BlockId, j: nat, x: OpId, o: Op, v: OpId)
    requires x < |p.ops| && o.block == p.ops[x].block && o.pos == p.ops[x].pos
    requires b < |p.code| && j <= |p.code[b]| && forall i :: 0 <= i < j ==> PositionedAt(p, b, i)
    ensures CodeRefs(p.ops[x := o], p.code[b][..j], v) + (if x in p.code[b][..j] then Occ(p.ops[x].ins, v) else 0)
         == CodeRefs(p.ops, p.code[b][..j], v) + (if x in p.code[b][..j] then Occ(o.ins, v) else 0)
  {
    if j > 0 {
      CodeRefsUpdate(p, b, j - 1, x, o, v);
      var code := p.code[b];
      assert code[..j][..j - 1] == code[..j - 1] && code[..j][j - 1] == code[j - 1];
      assert PositionedAt(p, b, j - 1);
      if x in code[..j - 1] {
        var i :| 0 <= i < j - 1 && code[..j - 1][i] == x;
        assert PositionedAt(p, b, i);
      }
      assert x in code[..j] <==> x in code[..j - 1] || x == code[j - 1];
    }
  }

  lemma {:induction false} RefsUpdate(p: Program, live: seq<BlockId>, x: OpId, o: Op, v: OpId)
    requires Positioned(p, live) && x < |p.ops| && o.block == p.ops[x].block && o.pos == p.ops[x].pos
    ensures Refs(p.(ops := p.ops[x := o]), live, v) + (if Listed(p, live, x) then Occ(p.ops[x].ins, v) else 0)
         == Refs(p, live, v) + (if Listed(p, live, x) then Occ(o.ins, v) else 0)
  {
    if live != [] {
      var n := |live| - 1;
      var b, rest := live[n], live[..n];
      RefsUpdate(p, rest, x, o, v);
      assert b !in rest;
      assert Listed(p, live, x) <==> Listed(p, rest, x) || (p.ops[x].block == b && Listed(p, [b], x));
      if b < |p.code| {
        assert forall i :: 0 <= i < |p.code[b]| ==> PositionedAt(p, b, i);
        CodeRefsUpdate(p, b, |p.code[b]|, x, o, v);
        assert p.code[b][..|p.code[b]|] == p.code[b];
        if x in p.code[b] {
          var i :| 0 <= i < |p.code[b]| && p.code[b][i] == x;
          assert PositionedAt(p, b, i);
        }
      }
    }
  }

  // ---- what a count tells ---------------------------------------------------------------

  lemma {:induction false} CodeRefsAtLeast(ops: seq<Op>, code: seq<OpId>, i: nat, v: OpId)
    requires i < |code| && code[i] < |ops|
    ensures Occ(ops[code[i]].ins, v) <= CodeRefs(ops, code, v)
  {
    if i < |code| - 1 {
      CodeRefsAtLeast(ops, code[..|code| - 1], i, v);
    }
  }

  lemma {:induction false} AltRefsAtLeast(alts: seq<PhiAlt>, i: nat)
    requires i < |alts|
    ensures AltRefs(alts, alts[i].val) > 0
  {
    if i < |alts| - 1 {
      AltRefsAtLeast(alts[..|alts| - 1], i);
    }
  }

  lemma {:induction false} RefsAtLeast(p: Program, live: seq<BlockId>, b: BlockId, v: OpId)
    requires b in live
    ensures BlockRefs(p, b, v) <= Refs(p, live, v)
  {
    if b != live[|live| - 1] {
      RefsAtLeast(p, live[..|live| - 1], b, v);
    }
  }

  lemma OpRefsAtLeast(p: Program, live: seq<BlockId>, y: OpId, v: OpId)
    requires Listed(p, live, y)
    ensures Occ(p.ops[y].ins, v) <= Refs(p, live, v)
  {
    CodeRefsAtLeast(p.ops, p.code[p.ops[y].block], p.ops[y].pos, v);
    RefsAtLeast(p, live, p.ops[y].block, v);
  }

  /** A value with one reference, an operand of x, is used by x once and by nothing else. */
  lemma OnlyUser(p: Program, live: seq<BlockId>, x: OpId, n: OpId)
    requires Positioned(p, live) && Listed(p, live, x) && n in p.ops[x].ins && Refs(p, live, n) == 1
    ensures Occ(p.ops[x].ins, n) == 1
    ensures forall y: OpId :: Listed(p, live, y) && n in p.ops[y].ins ==> y == x
    ensures forall b: BlockId, a: PhiAlt :: b in live && b < |p.alts| && a in p.alts[b] ==> a.val != n
  {
    var q := p.(ops := p.ops[x := p.ops[x].(ins := [])]);
    OccPositive(p.ops[x].ins, n);
    RefsUpdate(p, live, x, q.ops[x], n);
    OpRefsAtLeast(p, live, x, n);
    assert Refs(q, live, n) == 0;
    forall y: OpId | Listed(p, live, y) && n in p.ops[y].ins ensures y == x {
      if y != x {
        assert Listed(q, live, y);
        OpRefsAtLeast(q, live, y, n);
        OccPositive(q.ops[y].ins, n);
      }
    }
    forall b: BlockId, a: PhiAlt | b in live && b < |p.alts| && a in p.alts[b] ensures a.val != n {
      var k :| 0 <= k < |p.alts[b]| && p.alts[b][k] == a;
      AltRefsAtLeast(p.alts[b], k);
      RefsAtLeast(q, live, b, a.val);
    }
  }

  lemma OnePrivate(p: Program, live: seq<BlockId>, x: OpId, n: OpId)
    requires LiveExact(p.ops, p.code, live) && Positioned(p, live) && InCode(p, x)
    requires n in p.ops[x].ins && Refs(p, live, n) == 1
    ensures Private(p, x, {n}) && Occ(p.ops[x].ins, n) == 1
  {
    OnlyUser(p, live, x, n);
    assert forall y: OpId :: InCode(p, y) ==> Listed(p, live, y);
  }

  lemma TwoPrivate(p: Program, live: seq<BlockId>, x: OpId, n: OpId, m: OpId)
    requires LiveExact(p.ops, p.code, live) && Positioned(p, live) && InCode(p, x)
    requires n in p.ops[x].ins && Refs(p, live, n) == 1 && m in p.ops[x].ins && Refs(p, live, m) == 1
    ensures Private(p, x, {n, m}) && Occ(p.ops[x].ins, n) == 1 && Occ(p.ops[x].ins, m) == 1
    ensures forall y: OpId :: InCode(p, y) && y != x ==> n !in p.ops[y].ins && m !in p.ops[y].ins
  {
    OnlyUser(p, live, x, n);
    OnlyUser(p, live, x, m);
    assert forall y: OpId :: InCode(p, y) ==> Listed(p, live, y);
  }
}
