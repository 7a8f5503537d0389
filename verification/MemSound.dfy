/** What the memory versions of MemTags guarantee: loads with equal versions see the same
    memory. */
module MemSound {
  import opened Digraph
  import opened Ir
  import opened Cfg
  import opened Ssa
  import opened MemTags

  /** The version in force once point z has been executed. */
  function CurTag(p: Program, unsafeOpt: bool, t: Tags, z: Point): OpId {
    if z.b < |p.code| && z.i <= |p.code[z.b]| && z.b < |t.tag| then
      var c := LocalTag(p.ops, p.code[z.b], unsafeOpt, z.i);
      if c != NoVal then c else t.tag[z.b]
    else NoVal
  }

  /** Not past the final op of an exit. */
  predicate Inner(p: Program, z: Point) {
    z.b < |p.code| && (z.i < |p.code[z.b]| || Succ(p.ops, p.code, z.b) != [])
  }

  /** Where the version named v starts: after the op itself, or at the entry of the block
      whose jump gives a merge its name. */
  function TagPoint(p: Program, v: OpId): Point
    requires v < |p.ops|
  {
    if p.ops[v].IsTerminator() then Point(p.ops[v].block, 0) else Point(p.ops[v].block, p.ops[v].pos + 1)
  }

  ghost predicate NewVersionAt(p: Program, unsafeOpt: bool, z: Point) {
    0 < z.i && z.b < |p.code| && z.i <= |p.code[z.b]| && p.code[z.b][z.i - 1] < |p.ops|
    && NewVersion(p.ops[p.code[z.b][z.i - 1]], unsafeOpt)
  }

  ghost predicate StartsAt(p: Program, unsafeOpt: bool, t: Tags, z: Point) {
    CurTag(p, unsafeOpt, t, z) < |p.ops| && TagPoint(p, CurTag(p, unsafeOpt, t, z)) == z
  }

  ghost predicate HandedOn(p: Program, unsafeOpt: bool, t: Tags, e: Point, z: Point) {
    Inner(p, e) && CurTag(p, unsafeOpt, t, z) == CurTag(p, unsafeOpt, t, e) && !NewVersionAt(p, unsafeOpt, z)
  }

  /** One step of a run either starts the version in force or hands on the previous one. */
  lemma TagStep(p: Program, unsafeOpt: bool, live: seq<BlockId>, comeFrom: seq<seq<BlockId>>, t: Tags, r: seq<Point>)
    requires Placed(p) && CfgBuilt(p.ops, p.code, live, comeFrom) && EntryOk(p, unsafeOpt, comeFrom)
    requires Solved(p, unsafeOpt, live, comeFrom, t)
    requires IsRun(Points(p), r) && Inner(p, r[|r| - 1])
    ensures || StartsAt(p, unsafeOpt, t, r[|r| - 1])
            || (|r| > 1 && HandedOn(p, unsafeOpt, t, r[|r| - 2], r[|r| - 1]))
            || (|r| == 1 && CurTag(p, unsafeOpt, t, r[|r| - 1]) == NoVal)
  {
    var n := |r| - 1;
    var z := r[n];
    PointLive(p.ops, p.code, r);
    if n > 0 {
      assert (r[n - 1], r[n - 1 + 1]) in Points(p).edges;
      if z.i > 0 {
        BodyStep(p, unsafeOpt, t, z);
      } else {
        assert IsRun(Points(p), r[..n]);
        PointLive(p.ops, p.code, r[..n]);
        EntryStep(p, unsafeOpt, live, comeFrom, t, r[n - 1].b, z.b);
      }
    } else {
      RootStep(p, unsafeOpt, live, comeFrom, t);
    }
  }

  lemma BodyStep(p: Program, unsafeOpt: bool, t: Tags, z: Point)
    requires Placed(p) && LiveBlock(p.ops, p.code, z.b) && z.b < |p.code| && 0 < z.i <= |p.code[z.b]|
    requires Inner(p, z) && z.b < |t.tag|
    ensures StartsAt(p, unsafeOpt, t, z) || HandedOn(p, unsafeOpt, t, Point(z.b, z.i - 1), z)
  {
    assert PlacedAt(p, z.b, z.i - 1);
  }

  lemma RootStep(p: Program, unsafeOpt: bool, live: seq<BlockId>, comeFrom: seq<seq<BlockId>>, t: Tags)
    requires Placed(p) && CfgBuilt(p.ops, p.code, live, comeFrom) && EntryOk(p, unsafeOpt, comeFrom)
    requires Solved(p, unsafeOpt, live, comeFrom, t)
    ensures CurTag(p, unsafeOpt, t, Point(0, 0)) == NoVal
  {
    assert live[0] in live && MergedAt(p, comeFrom, t, 0);
  }

  lemma EntryStep(p: Program, unsafeOpt: bool, live: seq<BlockId>, comeFrom: seq<seq<BlockId>>, t: Tags, a: BlockId, b: BlockId)
    requires Placed(p) && CfgBuilt(p.ops, p.code, live, comeFrom) && Solved(p, unsafeOpt, live, comeFrom, t)
    requires LiveBlock(p.ops, p.code, a) && LiveBlock(p.ops, p.code, b) && a < |p.code| && b < |p.code|
    requires b in Succ(p.ops, p.code, a)
    ensures StartsAt(p, unsafeOpt, t, Point(b, 0)) || HandedOn(p, unsafeOpt, t, Point(a, |p.code[a]|), Point(b, 0))
  {
    assert a in live && b in live && MergedAt(p, comeFrom, t, b);
    assert a in comeFrom[b];
    var k :| 0 <= k < |comeFrom[b]| && comeFrom[b][k] == a;
    var i :| 0 <= i < |live| && live[i] == a;
    assert t.out[live[i]] != NoVal;
    assert t.out[comeFrom[b][k]] != NoVal;
    assert PlacedAt(p, b, |p.code[b]| - 1);
  }

  /** The version in force started somewhere on every run. */
  lemma {:induction false} TagOnRun(p: Program, unsafeOpt: bool, live: seq<BlockId>, comeFrom: seq<seq<BlockId>>,
                                    t: Tags, r: seq<Point>)
    requires Placed(p) && CfgBuilt(p.ops, p.code, live, comeFrom) && EntryOk(p, unsafeOpt, comeFrom)
    requires Solved(p, unsafeOpt, live, comeFrom, t)
    requires IsRun(Points(p), r) && Inner(p, r[|r| - 1]) && CurTag(p, unsafeOpt, t, r[|r| - 1]) != NoVal
    ensures CurTag(p, unsafeOpt, t, r[|r| - 1]) < |p.ops|
    ensures TagPoint(p, CurTag(p, unsafeOpt, t, r[|r| - 1])) in r
    decreases |r|
  {
    TagStep(p, unsafeOpt, live, comeFrom, t, r);
    if !StartsAt(p, unsafeOpt, t, r[|r| - 1]) {
      assert IsRun(Points(p), r[..|r| - 1]);
      TagOnRun(p, unsafeOpt, live, comeFrom, t, r[..|r| - 1]);
    }
  }

  /** A later point where the version of d is in force again cannot be where it starts. */
  lemma NotRestarted(p: Program, unsafeOpt: bool, live: seq<BlockId>, comeFrom: seq<seq<BlockId>>,
                     t: Tags, r: seq<Point>, d: Point)
    requires Placed(p) && CfgBuilt(p.ops, p.code, live, comeFrom) && EntryOk(p, unsafeOpt, comeFrom)
    requires Solved(p, unsafeOpt, live, comeFrom, t)
    requires IsRun(Points(p), r) && Dominates(Points(p), d, r[|r| - 1]) && d != r[|r| - 1]
    requires Inner(p, d) && Inner(p, r[|r| - 1])
    requires CurTag(p, unsafeOpt, t, d) == CurTag(p, unsafeOpt, t, r[|r| - 1])
    ensures |r| > 1 && HandedOn(p, unsafeOpt, t, r[|r| - 2], r[|r| - 1])
  {
    var z := r[|r| - 1];
    StepBack(p, r, d);
    TagStep(p, unsafeOpt, live, comeFrom, t, r);
    if StartsAt(p, unsafeOpt, t, z) {
      forall q | RunTo(Points(p), q, d) ensures z in q {
        if CurTag(p, unsafeOpt, t, d) != NoVal {
          TagOnRun(p, unsafeOpt, live, comeFrom, t, q);
        }
      }
      RunReaches(p, r);
      DomAntisymmetric(Points(p), z, d);
      assert false;
    }
  }

  /** Between the last visit to d and a point it dominates under the same version, no op that
      starts a version runs. */
  lemma {:induction false} NoVersionBetween(p: Program, unsafeOpt: bool, live: seq<BlockId>, comeFrom: seq<seq<BlockId>>,
                                            t: Tags, r: seq<Point>, d: Point, i: nat)
    requires Placed(p) && CfgBuilt(p.ops, p.code, live, comeFrom) && EntryOk(p, unsafeOpt, comeFrom)
    requires Solved(p, unsafeOpt, live, comeFrom, t)
    requires IsRun(Points(p), r) && Dominates(Points(p), d, r[|r| - 1])
    requires Inner(p, d) && Inner(p, r[|r| - 1])
    requires CurTag(p, unsafeOpt, t, d) == CurTag(p, unsafeOpt, t, r[|r| - 1])
    requires i < |r| && r[i] == d && d !in r[i + 1..]
    ensures forall k :: i < k < |r| ==> !NewVersionAt(p, unsafeOpt, r[k])
    decreases |r|
  {
    var n := |r| - 1;
    if i < n {
      assert r[i + 1..][n - (i + 1)] == r[n];
      NotRestarted(p, unsafeOpt, live, comeFrom, t, r, d);
      StepBack(p, r, d);
      assert r[..n][i + 1..] <= r[i + 1..];
      NoVersionBetween(p, unsafeOpt, live, comeFrom, t, r[..n], d, i);
    }
  }

  // ---- loads --------------------------------------------------------------------------

  /** The version CSE compares: the load's own tag or, lacking one, its block's. */
  function Resolved(p: Program, t: Tags, opTag: seq<OpId>, v: OpId): OpId
    requires v < |p.ops| && v < |opTag|
  {
    if opTag[v] != NoVal then opTag[v]
    else if p.ops[v].block < |t.tag| then t.tag[p.ops[v].block] else NoVal
  }

  lemma ResolvedIsCurrent(p: Program, unsafeOpt: bool, live: seq<BlockId>, t: Tags, opTag: seq<OpId>, v: OpId)
    requires Placed(p) && LiveExact(p.ops, p.code, live) && LoadsTagged(p, unsafeOpt, live, opTag)
    requires Defined(p, v) && p.ops[v].HasMemTag() && Sized(p, t)
    ensures Resolved(p, t, opTag, v) == CurTag(p, unsafeOpt, t, DefPoint(p.ops, v))
    ensures Inner(p, DefPoint(p.ops, v)) && !NewVersionAt(p, unsafeOpt, DefPoint(p.ops, v))
    ensures DefPoint(p.ops, v) == Point(p.ops[v].block, p.ops[v].pos + 1)
    ensures Resolved(p, t, opTag, v) == CurTag(p, unsafeOpt, t, Point(p.ops[v].block, p.ops[v].pos))
  {
    var b, j := p.ops[v].block, p.ops[v].pos;
    assert b in live && PlacedAt(p, b, j);
    assert opTag[p.code[b][j]] == LocalTag(p.ops, p.code[b], unsafeOpt, j);
  }

  /** If two loads carry the same version and the first dominates the second, then on every
      run no op with side effects is executed between the last execution of the first and the
      second. */
  lemma SameTagNoWrite(p: Program, unsafeOpt: bool, live: seq<BlockId>, comeFrom: seq<seq<BlockId>>,
                       t: Tags, opTag: seq<OpId>, x: OpId, y: OpId, r: seq<Point>, i: nat)
    requires Placed(p) && CfgBuilt(p.ops, p.code, live, comeFrom) && EntryOk(p, unsafeOpt, comeFrom)
    requires Solved(p, unsafeOpt, live, comeFrom, t) && LoadsTagged(p, unsafeOpt, live, opTag)
    requires Defined(p, x) && Defined(p, y) && p.ops[x].HasMemTag() && p.ops[y].HasMemTag()
    requires Resolved(p, t, opTag, x) == Resolved(p, t, opTag, y)
    requires Dominates(Points(p), DefPoint(p.ops, x), DefPoint(p.ops, y))
    requires RunTo(Points(p), r, DefPoint(p.ops, y))
    requires i < |r| && r[i] == DefPoint(p.ops, x) && DefPoint(p.ops, x) !in r[i + 1..]
    ensures forall k :: i < k < |r| ==> !NewVersionAt(p, unsafeOpt, r[k])
  {
    ResolvedIsCurrent(p, unsafeOpt, live, t, opTag, x);
    ResolvedIsCurrent(p, unsafeOpt, live, t, opTag, y);
    NoVersionBetween(p, unsafeOpt, live, comeFrom, t, r, DefPoint(p.ops, x), i);
  }

  /** x still holds what loading it again in state s would give. */
  ghost predicate Fresh(p: Program, sem: Semantics, x: OpId, s: State)
    requires x < |p.ops| == |s.env|
  {
    var op := p.ops[x];
    (forall k :: 0 <= k < |op.ins| ==> op.ins[k] < |s.env|)
    && s.env[x] == sem.load(op.opcode, op.imm, Args(s.env, op.ins), s.world)
  }

  lemma FreshWhenLoaded(p: Program, sem: Semantics, st: State, r: seq<Point>, x: OpId)
    requires StrictSsa(p) && IsRun(Points(p), r) && |st.env| == |p.ops|
    requires Defined(p, x) && p.ops[x].HasMemTag() && r[|r| - 1] == DefPoint(p.ops, x)
    ensures Fresh(p, sem, x, Exec(p, sem, st, r))
  {
    assert PlacedAt(p, p.ops[x].block, p.ops[x].pos);
    InputsKept(p, sem, st, r, x);
  }

  lemma FreshKept(p: Program, unsafeOpt: bool, sem: Semantics, st: State, r: seq<Point>, x: OpId)
    requires StrictSsa(p) && IsRun(Points(p), r) && |st.env| == |p.ops|
    requires Defined(p, x) && p.ops[x].HasMemTag() && Dominates(Points(p), DefPoint(p.ops, x), r[|r| - 1])
    requires r[|r| - 1] != DefPoint(p.ops, x) && !NewVersionAt(p, unsafeOpt, r[|r| - 1])
    requires Fresh(p, sem, x, Before(p, sem, st, r))
    ensures Fresh(p, sem, x, Exec(p, sem, st, r))
  {
    InputsKept(p, sem, st, r, x);
    OnlyDefsChange(p, sem, st, r, x);
    WorldKept(p, unsafeOpt, sem, st, r);
  }

  /** Wherever a load is available under its own version, loading again would give the same
      value. */
  lemma {:induction false} LoadHolds(p: Program, unsafeOpt: bool, live: seq<BlockId>, comeFrom: seq<seq<BlockId>>, t: Tags,
                                     sem: Semantics, st: State, r: seq<Point>, x: OpId)
    requires StrictSsa(p) && CfgBuilt(p.ops, p.code, live, comeFrom) && EntryOk(p, unsafeOpt, comeFrom)
    requires Solved(p, unsafeOpt, live, comeFrom, t) && |st.env| == |p.ops|
    requires Defined(p, x) && p.ops[x].HasMemTag() && Inner(p, DefPoint(p.ops, x))
    requires IsRun(Points(p), r) && Inner(p, r[|r| - 1]) && Dominates(Points(p), DefPoint(p.ops, x), r[|r| - 1])
    requires CurTag(p, unsafeOpt, t, DefPoint(p.ops, x)) == CurTag(p, unsafeOpt, t, r[|r| - 1])
    ensures Fresh(p, sem, x, Exec(p, sem, st, r))
    decreases |r|
  {
    var d := DefPoint(p.ops, x);
    if r[|r| - 1] == d {
      FreshWhenLoaded(p, sem, st, r, x);
    } else {
      NotRestarted(p, unsafeOpt, live, comeFrom, t, r, d);
      StepBack(p, r, d);
      LoadHolds(p, unsafeOpt, live, comeFrom, t, sem, st, r[..|r| - 1], x);
      FreshKept(p, unsafeOpt, sem, st, r, x);
    }
  }

  lemma WorldKept(p: Program, unsafeOpt: bool, sem: Semantics, st: State, r: seq<Point>)
    requires Placed(p) && IsRun(Points(p), r) && |st.env| == |p.ops|
    requires !NewVersionAt(p, unsafeOpt, r[|r| - 1])
    ensures Exec(p, sem, st, r).world == Before(p, sem, st, r).world
  {
    PointLive(p.ops, p.code, r);
    var z := r[|r| - 1];
    if z.i > 0 {
      assert PlacedAt(p, z.b, z.i - 1);
    }
  }
}
