/** The first pass of Proc::findSCC (src/opt-ra.cpp): a greedy assignment of stack congruence
    classes in discovery order. */
module Scc {
  import opened Digraph
  import opened Lists
  import opened Ir
  import opened Cfg
  import opened Ssa
  import opened Liveness
  import Renaming

  /** scc[x] is the class of x, NoVal while it has none. */
  type Classes = seq<nat>

  /** Where the code of a block assigns x; phis of a block are numbered one after another. */
  function Place(p: Program, x: OpId): Point
    requires x < |p.ops|
  {
    Point(p.ops[x].block, p.ops[x].pos + 1)
  }

  /** y has a class that differs from those of all other values live once y is assigned, all
      of which have one. */
  ghost predicate Separated(p: Program, scc: Classes, y: OpId)
    requires |scc| == |p.ops| && y < |p.ops|
  {
    scc[y] != NoVal && forall x: OpId :: x < |p.ops| && x != y && LiveAfter(p, Place(p, y), x) ==>
      scc[x] != NoVal && scc[x] != scc[y]
  }

  // ---- live values are assigned before ------------------------------------------------

  /** A value live after z was assigned on every run to z. */
  lemma PlaceDominates(p: Program, z: Point, x: OpId)
    requires StrictSsa(p) && AltsStrict(p) && PhisFirst(p) && Reachable(Points(p), z) && LiveAfter(p, z, x)
    ensures Defined(p, x) && Dominates(Points(p), Place(p, x), z)
  {
    LiveIsDominated(p, z, x);
    if p.ops[x].opcode.Phi? {
      forall r | RunTo(Points(p), r, z) ensures Place(p, x) in r {
        PhiPlaceOnRun(p, r, z, x);
      }
    }
  }

  lemma PhiPlaceOnRun(p: Program, r: seq<Point>, z: Point, x: OpId)
    requires Placed(p) && PhisFirst(p) && Defined(p, x) && p.ops[x].opcode.Phi?
    requires RunTo(Points(p), r, z) && DefPoint(p.ops, x) in r && LiveAfter(p, z, x)
    ensures Place(p, x) in r
  {
    var b := p.ops[x].block;
    var i := Last(r, Point(b, 0));
    if Place(p, x) !in r[i..] {
      StaysBefore(p, r, i, b, p.ops[x].pos, |r| - 1);
      var q :| LivePath(p, z, x, q);
      PhiCutsPath(p, q, 0, x);
    }
  }

  /** A run that enters b and never passes index n of it is still in b, before n. */
  lemma {:induction false} StaysBefore(p: Program, r: seq<Point>, i: nat, b: BlockId, n: nat, k: nat)
    requires IsRun(Points(p), r) && i <= k < |r| && r[i] == Point(b, 0)
    requires b < |p.code| && n < |p.code[b]| && Point(b, n + 1) !in r[i..]
    ensures r[k].b == b && r[k].i <= n
    decreases k
  {
    if k > i {
      StaysBefore(p, r, i, b, n, k - 1);
      assert (r[k - 1], r[k - 1 + 1]) in Points(p).edges;
      assert r[i..][k - i] == r[k];
    }
  }

  /** Two values that are live together: the one assigned later is assigned while the other
      is live. */
  lemma LiveTogether(p: Program, z: Point, x: OpId, y: OpId)
    requires StrictSsa(p) && AltsStrict(p) && PhisFirst(p) && Reachable(Points(p), z)
    requires LiveAfter(p, z, x) && LiveAfter(p, z, y) && x != y
    ensures x < |p.ops| && y < |p.ops|
    ensures LiveAfter(p, Place(p, y), x) || LiveAfter(p, Place(p, x), y)
  {
    PlaceDominates(p, z, x);
    PlaceDominates(p, z, y);
    DomChain(Points(p), Place(p, x), Place(p, y), z);
    if Dominates(Points(p), Place(p, x), Place(p, y)) {
      LiveAtLater(p, z, x, y);
    } else {
      LiveAtLater(p, z, y, x);
    }
  }

  lemma LiveAtLater(p: Program, z: Point, x: OpId, y: OpId)
    requires StrictSsa(p) && Reachable(Points(p), z) && LiveAfter(p, z, x) && x != y
    requires Defined(p, x) && Defined(p, y)
    requires Dominates(Points(p), Place(p, x), Place(p, y)) && Dominates(Points(p), Place(p, y), z)
    ensures LiveAfter(p, Place(p, y), x)
  {
    var r :| RunTo(Points(p), r, z);
    var i := Last(r, Place(p, y));
    NoReentry(Points(p), Place(p, x), Place(p, y), r, i);
    var q :| LivePath(p, z, x, q);
    PathSuffix(Points(p), r, i);
    forall k | i < k < |r| ensures !DefinesAt(p, r[k], x) {
      assert r[k] == r[i + 1..][k - (i + 1)];
      NotPlace(p, r[k], x, r, k);
    }
    ExtendBack(p, r[i..], q, z, x);
  }

  /** A live path stays one when it is reached without assigning the value. */
  lemma ExtendBack(p: Program, s: seq<Point>, q: seq<Point>, z: Point, x: OpId)
    requires LivePath(p, z, x, q) && IsPath(Points(p), s) && s[|s| - 1] == z
    requires forall k :: 0 < k < |s| ==> !DefinesAt(p, s[k], x)
    ensures LiveAfter(p, s[0], x)
  {
    var path := s + q[1..];
    PathJoin(Points(p), s, q);
    assert path[|path| - 1] == q[|q| - 1];
    forall k | 0 < k < |path| - 1 ensures !DefinesAt(p, path[k], x) {
      if k >= |s| {
        assert path[k] == q[k - |s| + 1];
      }
    }
    assert LivePath(p, s[0], x, path);
  }

  lemma NotPlace(p: Program, z: Point, x: OpId, r: seq<Point>, k: nat)
    requires Placed(p) && IsRun(Points(p), r) && k < |r| && r[k] == z && Defined(p, x) && z != Place(p, x)
    ensures !DefinesAt(p, z, x)
  {
    RunPrefix(Points(p), r, k);
    PointLive(p.ops, p.code, r[..k + 1]);
    if 0 < z.i <= |p.code[z.b]| {
      assert PlacedAt(p, z.b, z.i - 1);
    }
  }

  /** The heart of the pass: if every value live after z is separated, no two of them share a
      class. */
  lemma LiveDistinct(p: Program, scc: Classes, z: Point, x: OpId, y: OpId)
    requires StrictSsa(p) && AltsStrict(p) && PhisFirst(p) && Reachable(Points(p), z) && |scc| == |p.ops|
    requires LiveAfter(p, z, x) && LiveAfter(p, z, y) && x != y && x < |p.ops| && y < |p.ops|
    requires Separated(p, scc, x) && Separated(p, scc, y)
    ensures scc[x] != scc[y]
  {
    LiveTogether(p, z, x, y);
  }

  // ---- order of discovery -------------------------------------------------------------

  /** Blocks whose points strictly dominate the entry of live[k] were discovered before it:
      why a live-in value always has its class. */
  lemma DiscoveredBefore(p: Program, live: seq<BlockId>, k: nat, d: Point)
    requires Placed(p) && DiscoveryOrder(p.ops, p.code, live) && LiveExact(p.ops, p.code, live) && k < |live|
    requires Dominates(Points(p), d, Point(live[k], 0)) && d.i > 0
    ensures d.b in live[..k]
  {
    var q := DiscoveryRun(p.ops, p.code, live, k);
    var r := PointRun(p, q);
    assert d in r && d.b in q;
    if d.b == live[k] {
      SameBlockDominates(p.ops, p.code, d.b, 0, d.i);
      assert Reachable(Points(p), Point(live[k], 0));
      DomAntisymmetric(Points(p), Point(live[k], 0), d);
      assert false;
    }
    assert live[..k + 1] == live[..k] + [live[k]];
  }

  // ---- the scan -----------------------------------------------------------------------

  ghost function Assigned(scc: Classes): set<int> {
    set x | 0 <= x < |scc| && scc[x] != NoVal
  }

  /** The ops that the scan has passed when it stands before index j of block live[k]. */
  ghost predicate Passed(p: Program, live: seq<BlockId>, k: nat, j: nat, x: OpId)
    requires k <= |live|
  {
    Defined(p, x) && (p.ops[x].block in live[..k] || (k < |live| && p.ops[x].block == live[k] && p.ops[x].pos < j))
  }

  /** Just the passed values have classes, and all of them are separated. */
  ghost predicate SccInv(p: Program, live: seq<BlockId>, scc: Classes, used: seq<bool>, k: nat, j: nat)
    requires k <= |live|
  {
    && |scc| == |p.ops|
    && (forall x: OpId :: x < |scc| ==> (scc[x] != NoVal <==> Passed(p, live, k, j, x)))
    && (forall x: OpId :: x < |scc| && scc[x] != NoVal ==> scc[x] < |used| && Separated(p, scc, x))
    && |used| <= |Assigned(scc)|
  }

  /** The classes of all values live after z, save perhaps one, are marked. */
  ghost predicate Reserved(p: Program, scc: Classes, used: seq<bool>, z: Point, except: OpId)
    requires |scc| == |p.ops|
  {
    forall x: OpId :: x < |scc| && x != except && LiveAfter(p, z, x) ==> scc[x] < |used| && used[scc[x]]
  }

  lemma AssignedGrows(scc: Classes, c: OpId, cls: nat)
    requires c < |scc| && scc[c] == NoVal && cls != NoVal
    ensures |Assigned(scc[c := cls])| == |Assigned(scc)| + 1
  {
    assert Assigned(scc[c := cls]) == Assigned(scc) + {c};
  }

  lemma AssignedBounded(scc: Classes, c: OpId)
    requires c < |scc| && scc[c] == NoVal
    ensures |Assigned(scc)| < |scc|
  {
    assert Assigned(scc) <= Range(|scc|) - {c as int};
    SubsetSize(Assigned(scc), Range(|scc|) - {c as int});
  }

  lemma NewSeparated(p: Program, live: seq<BlockId>, scc: Classes, used: seq<bool>, k: nat, j: nat, c: OpId, cls: nat)
    requires Ready(p, live) && k < |live| && live[k] < |p.code| && j < |p.code[live[k]]| && p.code[live[k]][j] == c
    requires c < |p.ops| && Place(p, c) == Point(live[k], j + 1)
    requires SccInv(p, live, scc, used, k, j) && scc[c] == NoVal && cls != NoVal
    requires Reserved(p, scc, used, Point(live[k], j + 1), c)
    requires cls < |used| ==> !used[cls]
    ensures Separated(p, scc[c := cls], c)
  {
    var next := scc[c := cls];
    forall x: OpId | x < |p.ops| && x != c && LiveAfter(p, Place(p, c), x)
      ensures next[x] != NoVal && next[x] != next[c]
    {
      assert scc[x] < |used| && used[scc[x]];
      LiveIsAssigned(p, live, scc, used, k, j, x);
    }
  }

  lemma StaySeparated(p: Program, scc: Classes, c: OpId, cls: nat)
    requires |scc| == |p.ops| && c < |scc| && scc[c] == NoVal
    ensures forall x: OpId :: x < |scc| && x != c && Separated(p, scc, x) ==> Separated(p, scc[c := cls], x)
  {
    var next := scc[c := cls];
    forall x: OpId | x < |scc| && x != c && Separated(p, scc, x) ensures Separated(p, next, x) {
      forall y: OpId | y < |p.ops| && y != x && LiveAfter(p, Place(p, x), y)
        ensures next[y] != NoVal && next[y] != next[x]
      {
        assert scc[y] != NoVal;
      }
    }
  }

  /** Giving c a class that no value live next to it holds keeps everything separated. */
  lemma AssignKeeps(p: Program, live: seq<BlockId>, scc: Classes, used: seq<bool>, used': seq<bool>, k: nat, j: nat, c: OpId, cls: nat)
    requires Ready(p, live) && k < |live| && live[k] < |p.code| && j < |p.code[live[k]]| && p.code[live[k]][j] == c
    requires c < |p.ops| && p.ops[c].HasOutput()
    requires SccInv(p, live, scc, used, k, j) && scc[c] == NoVal && cls != NoVal
    requires Reserved(p, scc, used, Point(live[k], j + 1), c)
    requires cls <= |used| && (cls < |used| ==> !used[cls] && used' == used[cls := true])
    requires cls == |used| ==> used' == used + [true]
    ensures SccInv(p, live, scc[c := cls], used', k, j + 1)
    ensures Reserved(p, scc[c := cls], used', Point(live[k], j + 1), |scc|)
  {
    var next, b := scc[c := cls], live[k];
    assert live[k] in live && LiveBlock(p.ops, p.code, b) && PlacedAt(p, b, j);
    AssignedGrows(scc, c, cls);
    assert Place(p, c) == Point(b, j + 1);
    NewSeparated(p, live, scc, used, k, j, c, cls);
    StaySeparated(p, scc, c, cls);
    forall x: OpId | x < |next| ensures next[x] != NoVal <==> Passed(p, live, k, j + 1, x) {
      PassedStep(p, live, k, j, c, x);
    }
    ReservedKept(p, scc, used, used', Point(b, j + 1), c, cls);
  }

  lemma ReservedKept(p: Program, scc: Classes, used: seq<bool>, used': seq<bool>, z: Point, c: OpId, cls: nat)
    requires |scc| == |p.ops| && c < |scc| && Reserved(p, scc, used, z, c)
    requires cls <= |used| && (cls < |used| ==> used' == used[cls := true])
    requires cls == |used| ==> used' == used + [true]
    ensures Reserved(p, scc[c := cls], used', z, |scc|)
  {
  }

  /** Strict SSA and live blocks in discovery order. */
  ghost predicate Ready(p: Program, live: seq<BlockId>) {
    && StrictSsa(p) && AltsStrict(p) && PhisFirst(p)
    && DiscoveryOrder(p.ops, p.code, live) && LiveExact(p.ops, p.code, live)
  }

  lemma PassedStep(p: Program, live: seq<BlockId>, k: nat, j: nat, c: OpId, x: OpId)
    requires Ready(p, live) && k < |live| && live[k] < |p.code| && j < |p.code[live[k]]| && p.code[live[k]][j] == c
    requires c < |p.ops|
    ensures Passed(p, live, k, j + 1, x) <==> Passed(p, live, k, j, x) || (x == c && p.ops[c].HasOutput())
  {
    assert live[k] in live && LiveBlock(p.ops, p.code, live[k]) && PlacedAt(p, live[k], j);
    if Defined(p, x) && p.ops[x].block == live[k] && p.ops[x].pos == j {
      assert x == c;
    }
  }

  /** Whatever is live after index j of the current block, other than what is assigned there,
      has been passed. */
  lemma LiveIsAssigned(p: Program, live: seq<BlockId>, scc: Classes, used: seq<bool>, k: nat, j: nat, x: OpId)
    requires Ready(p, live) && k < |live| && live[k] < |p.code| && j < |p.code[live[k]]|
    requires SccInv(p, live, scc, used, k, j)
    requires x < |p.ops| && LiveAfter(p, Point(live[k], j + 1), x) && x != p.code[live[k]][j]
    ensures scc[x] != NoVal
  {
    var b := live[k];
    assert b in live && LiveBlock(p.ops, p.code, b) && PlacedAt(p, b, j);
    assert (Point(b, j), Point(b, j + 1)) in Points(p).edges;
    assert !DefinesAt(p, Point(b, j + 1), x);
    LiveStep(p, Point(b, j), Point(b, j + 1), x);
    LiveWasPassed(p, live, k, j, x);
  }

  lemma LiveWasPassed(p: Program, live: seq<BlockId>, k: nat, j: nat, x: OpId)
    requires Ready(p, live) && k < |live| && live[k] < |p.code| && j <= |p.code[live[k]]|
    requires LiveAfter(p, Point(live[k], j), x)
    ensures Passed(p, live, k, j, x)
  {
    var b := live[k];
    assert b in live && LiveBlock(p.ops, p.code, b);
    Renaming.PointReachable(p, b, j);
    PlaceDominates(p, Point(b, j), x);
    var d := Place(p, x);
    if d.b == b {
      if d.i > j {
        SameBlockDominates(p.ops, p.code, b, j, d.i);
        DomAntisymmetric(Points(p), Point(b, j), d);
        assert false;
      }
    } else {
      FurtherUp(p, d, b, 0, j);
      DiscoveredBefore(p, live, k, d);
    }
  }

  // ---- use counts ---------------------------------------------------------------------

  /** The remaining uses of every value that matters to the block: operands from index j on
      and whatever its last op carries out. */
  ghost predicate Counted(p: Program, livein: LiveLists, b: BlockId, j: nat, nUse: seq<nat>)
    requires b < |p.code| && j <= |p.code[b]|
  {
    |nUse| == |p.ops| && forall x: OpId :: x < |p.ops| && Matters(p, livein, b, x) ==>
      nUse[x] == Tally(p, livein, b, j, false, 0, x)
  }

  ghost predicate Matters(p: Program, livein: LiveLists, b: BlockId, x: OpId) {
    b < |livein| && (x in livein[b] || (Defined(p, x) && p.ops[x].block == b))
  }

  /** Counting without forgetting finds at least as much. */
  lemma {:induction false} CountsCover(p: Program, livein: LiveLists, b: BlockId, j: nat, x: OpId)
    requires b < |p.code| && j <= |p.code[b]|
    ensures Tally(p, livein, b, j, true, 0, x) <= Tally(p, livein, b, j, false, 0, x)
    decreases |p.code[b]| - j
  {
    if j < |p.code[b]| {
      CountsCover(p, livein, b, j + 1, x);
    }
  }

  /** A value whose last use has been counted off is dead. */
  lemma UncountedIsDead(p: Program, live: seq<BlockId>, livein: LiveLists, b: BlockId, j: nat, x: OpId)
    requires Placed(p) && LiveExact(p.ops, p.code, live) && LiveInExact(p, live, livein) && ValuesOk(p, live)
    requires b in live && b < |p.code| && j < |p.code[b]| && IsValue(p, x) && x != p.code[b][j]
    requires LiveAfter(p, Point(b, j + 1), x)
    requires p.code[b][j] < |p.ops|
    ensures Tally(p, livein, b, j, false, 0, x) > Occ(p.ops[p.code[b][j]].ins, x)
  {
    assert LiveBlock(p.ops, p.code, b) && PlacedAt(p, b, j) && EndsOk(p.ops, p.code, b);
    FullLists(p, live, livein);
    var q :| LivePath(p, Point(b, j + 1), x, q);
    if j + 1 < |p.code[b]| {
      NeedsComplete(p, live, livein, Point(b, j + 1), x, q);
      CountsCover(p, livein, b, j + 1, x);
    } else {
      LeavesBlock(p, live, livein, b, x, q);
      JumpMeaning(p, livein, b, x);
    }
  }

  lemma FullLists(p: Program, live: seq<BlockId>, livein: LiveLists)
    requires Placed(p) && LiveExact(p.ops, p.code, live) && LiveInExact(p, live, livein)
    ensures forall b :: b in live ==> FullAt(p, livein, b)
  {
    forall b, x: OpId | b in live && b < |livein| && x in livein[b] ensures LiveAfter(p, Point(b, 0), x) {
      assert ListedExactly(p, livein, b);
    }
    forall b | b in live ensures FullAt(p, livein, b) {
      assert LiveBlock(p.ops, p.code, b) && EndsOk(p.ops, p.code, b) && ListedExactly(p, livein, b);
      forall x: OpId | IsValue(p, x) && Needs(p, livein, b, 0, x) ensures x in livein[b] {
        NeedsSound(p, live, livein, b, 0, x);
      }
    }
  }

  lemma LeavesBlock(p: Program, live: seq<BlockId>, livein: LiveLists, b: BlockId, x: OpId, q: seq<Point>)
    requires Placed(p) && LiveExact(p.ops, p.code, live) && |livein| == |p.code|
    requires forall b :: b in live ==> FullAt(p, livein, b)
    requires IsValue(p, x) && b in live && b < |p.code| && LivePath(p, Point(b, |p.code[b]|), x, q)
    ensures CarriedOut(p, livein, b, x)
  {
    assert (q[0], q[0 + 1]) in Points(p).edges;
    var s := q[1].b;
    assert q[1] == Point(s, 0) && s in Succ(p.ops, p.code, b);
    assert LiveBlock(p.ops, p.code, b);
    assert (b, s) in BlockGraph(p.ops, p.code).edges;
    ReachableStep(BlockGraph(p.ops, p.code), b, s);
    assert LiveBlock(p.ops, p.code, s) && s in live && EndsOk(p.ops, p.code, s);
    SuffixLive(p, Point(b, |p.code[b]|), x, q);
    NeedsComplete(p, live, livein, Point(s, 0), x, q[1..]);
    assert FullAt(p, livein, s);
  }

  /** Operands of a live block are live into it or defined in it. */
  lemma OperandMatters(p: Program, live: seq<BlockId>, livein: LiveLists, b: BlockId, j: nat, x: OpId)
    requires Ready(p, live) && ValuesOk(p, live) && LiveInExact(p, live, livein)
    requires b in live && b < |p.code| && j < |p.code[b]| && p.code[b][j] < |p.ops| && x in p.ops[p.code[b][j]].ins
    ensures IsValue(p, x) && x != p.code[b][j] && LiveAfter(p, Point(b, j), x) && Matters(p, livein, b, x)
  {
    assert LiveBlock(p.ops, p.code, b) && PlacedAt(p, b, j) && InputsOk(p, b, j);
    assert InputOk(p, Point(b, j + 1), x);
    assert PlacedAt(p, p.ops[x].block, p.ops[x].pos);
    assert UsesAt(p, Point(b, j + 1), x);
    assert (Point(b, j), Point(b, j + 1)) in Points(p).edges;
    LiveStep(p, Point(b, j), Point(b, j + 1), x);
    if p.ops[x].block != b {
      LiveFromEntry(p, b, j, x);
      assert ListedExactly(p, livein, b);
    }
  }

  lemma {:induction false} LiveFromEntry(p: Program, b: BlockId, j: nat, x: OpId)
    requires Placed(p) && LiveBlock(p.ops, p.code, b) && b < |p.code| && j <= |p.code[b]|
    requires x < |p.ops| && p.ops[x].block != b && LiveAfter(p, Point(b, j), x)
    ensures LiveAfter(p, Point(b, 0), x)
    decreases j
  {
    if j > 0 {
      assert PlacedAt(p, b, j - 1);
      assert (Point(b, j - 1), Point(b, j)) in Points(p).edges;
      LiveStep(p, Point(b, j - 1), Point(b, j), x);
      LiveFromEntry(p, b, j - 1, x);
    }
  }

  // ---- the methods --------------------------------------------------------------------

  /** Count off the operands of one op; a class is freed with the last use of its value. */
  method FreeInputs(scc: Classes, ins: seq<OpId>, nUse0: seq<nat>, used0: seq<bool>) returns (nUse: seq<nat>, used: seq<bool>)
    requires |scc| == |nUse0| && forall k :: 0 <= k < |ins| ==> ins[k] < |scc| && scc[ins[k]] < |used0|
    requires forall x :: x in ins ==> x < |nUse0| && nUse0[x] >= Occ(ins, x)
    ensures |nUse| == |nUse0| && forall x :: 0 <= x < |nUse| ==> nUse[x] as int == if x in ins then nUse0[x] - Occ(ins, x) else nUse0[x]
    ensures |used| == |used0| && forall k :: 0 <= k < |used| && used[k] ==> used0[k]
    ensures forall k :: 0 <= k < |used| && used0[k] && !used[k] ==>
              exists x :: x in ins && x < |scc| && scc[x] == k && nUse0[x] == Occ(ins, x)
    ensures forall x :: x in ins && nUse0[x] == Occ(ins, x) ==> !used[scc[x]]
  {
    nUse, used := nUse0, used0;
    for i := 0 to |ins|
      invariant |nUse| == |nUse0| && |used| == |used0|
      invariant forall x :: 0 <= x < |nUse| ==> nUse[x] as int == if x in ins then nUse0[x] - Occ(ins[..i], x) else nUse0[x]
      invariant forall k :: 0 <= k < |used| && used[k] ==> used0[k]
      invariant forall k :: 0 <= k < |used| && used0[k] && !used[k] ==>
        exists x :: x in ins && x < |scc| && scc[x] == k && nUse0[x] == Occ(ins, x)
      invariant forall x :: x in ins[..i] && nUse0[x] == Occ(ins[..i], x) ==> !used[scc[x]]
    {
      var x := ins[i];
      assert x in ins && ins[..i + 1][..i] == ins[..i] && ins[..i + 1][i] == x;
      OccPrefix(ins, i + 1, x);
      nUse := nUse[x := nUse[x] - 1];
      if nUse[x] == 0 {
        used := used[scc[x] := false];
      }
    }
    assert ins[..|ins|] == ins;
  }

  lemma {:induction false} OccPrefix(s: seq<OpId>, i: nat, x: OpId)
    requires i <= |s|
    ensures Occ(s[..i], x) <= Occ(s, x)
    decreases |s|
  {
    if i == |s| {
      assert s[..i] == s;
    } else {
      OccPrefix(s[..|s| - 1], i, x);
      assert s[..|s| - 1][..i] == s[..i];
    }
  }

  /** The first free class, or the next new one. */
  method PickClass(used: seq<bool>) returns (cls: nat)
    ensures cls <= |used| && (cls < |used| ==> !used[cls]) && forall i :: 0 <= i < cls ==> used[i]
  {
    for i := 0 to |used|
      invariant forall m :: 0 <= m < i ==> used[m]
    {
      if !used[i] { return i; }
    }
    return |used|;
  }

  /** Alternative k of phi c has a class, and the class is taken. */
  predicate AltTaken(scc: Classes, used: seq<bool>, alts: seq<PhiAlt>, c: OpId, k: nat)
    requires k < |alts| && alts[k].val < |scc| && (scc[alts[k].val] != NoVal ==> scc[alts[k].val] < |used|)
  {
    alts[k].phi == c && scc[alts[k].val] != NoVal ==> used[scc[alts[k].val]]
  }

  predicate FirstFree(scc: Classes, used: seq<bool>, alts: seq<PhiAlt>, c: OpId, k: nat, cls: nat)
    requires k < |alts| && forall i :: 0 <= i < |alts| ==> alts[i].val < |scc| && (scc[alts[i].val] != NoVal ==> scc[alts[i].val] < |used|)
  {
    alts[k].phi == c && scc[alts[k].val] == cls && forall i :: 0 <= i < k ==> AltTaken(scc, used, alts, c, i)
  }

  /** For a phi, the class of the first alternative whose class is free; only if there is no
      such alternative, the next new one. */
  method PickPhiClass(scc: Classes, used: seq<bool>, alts: seq<PhiAlt>, c: OpId) returns (cls: nat)
    requires forall x :: 0 <= x < |scc| && scc[x] != NoVal ==> scc[x] < |used|
    requires forall k :: 0 <= k < |alts| ==> alts[k].val < |scc|
    ensures cls <= |used| && (cls < |used| ==> !used[cls])
    ensures cls < |used| ==> exists k :: 0 <= k < |alts| && FirstFree(scc, used, alts, c, k, cls)
    ensures cls == |used| ==> forall i :: 0 <= i < |alts| ==> AltTaken(scc, used, alts, c, i)
  {
    for k := 0 to |alts|
      invariant forall i :: 0 <= i < k ==> AltTaken(scc, used, alts, c, i)
    {
      if alts[k].phi != c { continue; }
      if scc[alts[k].val] != NoVal && !used[scc[alts[k].val]] {
        assert FirstFree(scc, used, alts, c, k, scc[alts[k].val]);
        return scc[alts[k].val];
      }
    }
    return |used|;
  }

  /** Everything that ScanBlock knows before index j of block live[k]. */
  ghost predicate ScanInv(p: Program, live: seq<BlockId>, livein: LiveLists, scc: Classes, used: seq<bool>,
                          nUse: seq<nat>, k: nat, j: nat)
  {
    && k < |live| && live[k] < |p.code| && j <= |p.code[live[k]]|
    && SccInv(p, live, scc, used, k, j)
    && Reserved(p, scc, used, Point(live[k], j), |scc|)
    && (j < |p.code[live[k]]| ==> Counted(p, livein, live[k], j, nUse))
  }

  ghost predicate Inputs(p: Program, live: seq<BlockId>, livein: LiveLists) {
    Ready(p, live) && ValuesOk(p, live) && LiveInExact(p, live, livein) && ListedValues(p, livein)
  }

  /** Freeing the classes of dead operands leaves those of live values reserved. */
  lemma FreeKeepsReserved(p: Program, live: seq<BlockId>, livein: LiveLists, scc: Classes, used: seq<bool>, used': seq<bool>,
                          nUse: seq<nat>, k: nat, j: nat)
    requires Inputs(p, live, livein) && ScanInv(p, live, livein, scc, used, nUse, k, j)
    requires j < |p.code[live[k]]| && p.code[live[k]][j] < |p.ops| && |used'| == |used|
    requires var ins := p.ops[p.code[live[k]][j]].ins;
             forall i :: 0 <= i < |used| && used[i] && !used'[i] ==>
               exists y :: y in ins && y < |scc| && scc[y] == i && nUse[y] == Occ(ins, y)
    ensures Reserved(p, scc, used', Point(live[k], j + 1), p.code[live[k]][j])
  {
    var b, c := live[k], p.code[live[k]][j];
    assert b in live && LiveBlock(p.ops, p.code, b) && PlacedAt(p, b, j);
    forall x: OpId | x < |scc| && x != c && LiveAfter(p, Point(b, j + 1), x)
      ensures scc[x] < |used'| && used'[scc[x]]
    {
      StillLive(p, b, j, x);
      assert scc[x] < |used| && used[scc[x]];
      if !used'[scc[x]] {
        var y :| y in p.ops[c].ins && y < |scc| && scc[y] == scc[x] && nUse[y] == Occ(p.ops[c].ins, y);
        FreedIsOther(p, live, livein, scc, used, nUse, k, j, x, y);
      }
    }
  }

  lemma StillLive(p: Program, b: BlockId, j: nat, x: OpId)
    requires Placed(p) && b < |p.code| && j < |p.code[b]| && x != p.code[b][j] && LiveAfter(p, Point(b, j + 1), x)
    ensures LiveAfter(p, Point(b, j), x)
  {
    assert (Point(b, j), Point(b, j + 1)) in Points(p).edges;
    LiveStep(p, Point(b, j), Point(b, j + 1), x);
  }

  lemma FreedIsOther(p: Program, live: seq<BlockId>, livein: LiveLists, scc: Classes, used: seq<bool>, nUse: seq<nat>,
                     k: nat, j: nat, x: OpId, y: OpId)
    requires Inputs(p, live, livein) && ScanInv(p, live, livein, scc, used, nUse, k, j)
    requires j < |p.code[live[k]]| && p.code[live[k]][j] < |p.ops| && x < |scc| && y < |scc|
    requires x != p.code[live[k]][j] && LiveAfter(p, Point(live[k], j + 1), x) && LiveAfter(p, Point(live[k], j), x)
    requires y in p.ops[p.code[live[k]][j]].ins && nUse[y] == Occ(p.ops[p.code[live[k]][j]].ins, y)
    ensures scc[x] != scc[y]
  {
    var b := live[k];
    assert b in live && LiveBlock(p.ops, p.code, b);
    OperandMatters(p, live, livein, b, j, y);
    if x == y {
      UncountedIsDead(p, live, livein, b, j, x);
      assert false;
    } else {
      LiveWasPassed(p, live, k, j, x);
      LiveWasPassed(p, live, k, j, y);
      Renaming.PointReachable(p, b, j);
      LiveDistinct(p, scc, Point(b, j), x, y);
    }
  }

  lemma CountStep(p: Program, live: seq<BlockId>, livein: LiveLists, b: BlockId, j: nat, nUse: seq<nat>, nUse': seq<nat>)
    requires Placed(p) && LiveExact(p.ops, p.code, live) && b in live && b < |p.code| && j + 1 < |p.code[b]|
    requires Counted(p, livein, b, j, nUse) && |nUse'| == |nUse| && p.code[b][j] < |p.ops|
    requires var ins := p.ops[p.code[b][j]].ins;
             forall x :: 0 <= x < |nUse| ==> nUse'[x] as int == if x in ins then nUse[x] - Occ(ins, x) else nUse[x]
    ensures Counted(p, livein, b, j + 1, nUse')
  {
    assert LiveBlock(p.ops, p.code, b) && PlacedAt(p, b, j);
    var ins := p.ops[p.code[b][j]].ins;
    forall x: OpId | x < |p.ops| && Matters(p, livein, b, x) ensures nUse'[x] == Tally(p, livein, b, j + 1, false, 0, x) {
      OccPositive(ins, x);
    }
  }

  lemma NoOutputStep(p: Program, live: seq<BlockId>, scc: Classes, used: seq<bool>, used': seq<bool>, k: nat, j: nat)
    requires Ready(p, live) && k < |live| && live[k] < |p.code| && j < |p.code[live[k]]|
    requires p.code[live[k]][j] < |p.ops| && !p.ops[p.code[live[k]][j]].HasOutput() && |scc| == |p.ops|
    requires Reserved(p, scc, used', Point(live[k], j + 1), p.code[live[k]][j])
    requires SccInv(p, live, scc, used, k, j) && |used'| == |used|
    ensures SccInv(p, live, scc, used', k, j + 1)
    ensures Reserved(p, scc, used', Point(live[k], j + 1), |scc|)
  {
    var b, c := live[k], p.code[live[k]][j];
    assert b in live && LiveBlock(p.ops, p.code, b);
    Renaming.PointReachable(p, b, j + 1);
    if LiveAfter(p, Point(b, j + 1), c) {
      LiveIsDominated(p, Point(b, j + 1), c);
    }
    forall x: OpId | x < |p.ops| ensures Passed(p, live, k, j + 1, x) <==> Passed(p, live, k, j, x) {
      PassedStep(p, live, k, j, c, x);
    }
  }

  // ---- phis of one block --------------------------------------------------------------

  /** Two phis of one block never share a class, whether or not they are used. */
  ghost predicate PhisApart(p: Program, scc: Classes) {
    |scc| == |p.ops| && forall x: OpId, y: OpId ::
      x < |scc| && y < |scc| && x != y && scc[x] != NoVal && scc[y] != NoVal
      && p.ops[x].opcode.Phi? && p.ops[y].opcode.Phi? && p.ops[x].block == p.ops[y].block
      ==> scc[x] != scc[y]
  }

  ghost predicate OnlyPhis(p: Program, b: BlockId, j: nat) {
    b < |p.code| && j <= |p.code[b]| && forall i :: 0 <= i < j ==> p.code[b][i] < |p.ops| && p.ops[p.code[b][i]].opcode.Phi?
  }

  /** As long as there were only phis, nothing has been freed. */
  ghost predicate PhisMarked(p: Program, scc: Classes, used: seq<bool>, b: BlockId, j: nat) {
    OnlyPhis(p, b, j) ==> forall i :: 0 <= i < j ==> p.code[b][i] < |scc| && scc[p.code[b][i]] < |used| && used[scc[p.code[b][i]]]
  }

  lemma PhiStaysApart(p: Program, live: seq<BlockId>, scc: Classes, used: seq<bool>, k: nat, j: nat, cls: nat)
    requires Ready(p, live) && k < |live| && live[k] < |p.code| && j < |p.code[live[k]]| && p.code[live[k]][j] < |p.ops|
    requires SccInv(p, live, scc, used, k, j) && PhisApart(p, scc) && PhisMarked(p, scc, used, live[k], j)
    requires cls < |used| ==> !used[cls]
    ensures PhisApart(p, scc[p.code[live[k]][j] := cls])
  {
    var b, c := live[k], p.code[live[k]][j];
    assert b in live && LiveBlock(p.ops, p.code, b) && PlacedAt(p, b, j);
    forall y: OpId | y < |scc| && y != c && scc[y] != NoVal && p.ops[y].opcode.Phi? && p.ops[y].block == b && p.ops[c].opcode.Phi?
      ensures scc[y] != cls
    {
      assert Passed(p, live, k, j, y) && b !in live[..k];
      assert OnlyPhis(p, b, j) by {
        forall i | 0 <= i < j ensures p.code[b][i] < |p.ops| && p.ops[p.code[b][i]].opcode.Phi? {
          assert PlacedAt(p, b, i);
        }
      }
      assert p.code[b][p.ops[y].pos] == y;
    }
  }

  lemma PhisMarkedStep(p: Program, scc: Classes, used: seq<bool>, used': seq<bool>, b: BlockId, j: nat, cls: nat)
    requires b < |p.code| && j < |p.code[b]| && p.code[b][j] < |scc| == |p.ops| && PhisMarked(p, scc, used, b, j)
    requires scc[p.code[b][j]] == NoVal && |used| <= NoVal
    requires cls < |used'| && used'[cls] && |used| <= |used'| && forall i :: 0 <= i < |used| && used[i] ==> used'[i]
    ensures PhisMarked(p, scc[p.code[b][j] := cls], used', b, j + 1)
  {
    if OnlyPhis(p, b, j + 1) {
      assert OnlyPhis(p, b, j);
    }
  }

  // ---- which class is chosen ------------------------------------------------------------

  /** x is live into b, or assigned in b before index j. */
  ghost predicate InPlay(p: Program, livein: LiveLists, b: BlockId, j: nat, x: OpId) {
    b < |livein| && (x in livein[b] || (Defined(p, x) && p.ops[x].block == b && p.ops[x].pos < j))
  }

  /** No op of b before index j uses x. */
  ghost predicate Unused(p: Program, b: BlockId, j: nat, x: OpId) {
    b < |p.code| && forall i :: 0 <= i < j && i < |p.code[b]| && p.code[b][i] < |p.ops| ==> x !in p.ops[p.code[b][i]].ins
  }

  /** The class is that of a value which is live after index j of b, or has not been used in b. */
  ghost predicate Occupied(p: Program, livein: LiveLists, scc: Classes, b: BlockId, j: nat, cls: nat) {
    exists x: OpId :: x < |scc| && scc[x] == cls && InPlay(p, livein, b, j, x) && (LiveAfter(p, Point(b, j + 1), x) || Unused(p, b, j + 1, x))
  }

  /** The value assigned at index j of live[k] has the smallest class that is not occupied. */
  ghost predicate LeastFree(p: Program, live: seq<BlockId>, livein: LiveLists, scc: Classes, k: nat, j: nat)
    requires k < |live| && live[k] < |p.code| && j < |p.code[live[k]]| && p.code[live[k]][j] < |scc|
  {
    forall i :: 0 <= i < scc[p.code[live[k]][j]] ==> Occupied(p, livein, scc, live[k], j, i)
  }

  /** Alternative i of the phi at index j of live[k], if assigned before it, is in an occupied
      class. */
  ghost predicate AltOccupied(p: Program, live: seq<BlockId>, livein: LiveLists, scc: Classes, k: nat, j: nat, i: nat)
    requires k < |live| && live[k] < |p.code| && live[k] < |p.alts| && j < |p.code[live[k]]| && i < |p.alts[live[k]]|
  {
    var s := p.alts[live[k]][i];
    s.phi == p.code[live[k]][j] && Passed(p, live, k, j, s.val) && s.val < |scc| ==>
      Occupied(p, livein, scc, live[k], j, scc[s.val])
  }

  /** The phi has the class of its alternative i, which was assigned before it; the classes of
      earlier alternatives are occupied. */
  ghost predicate TakesAlt(p: Program, live: seq<BlockId>, livein: LiveLists, scc: Classes, k: nat, j: nat, i: nat)
    requires k < |live| && live[k] < |p.code| && live[k] < |p.alts| && j < |p.code[live[k]]| && i < |p.alts[live[k]]|
    requires p.code[live[k]][j] < |scc|
  {
    var s, c := p.alts[live[k]][i], p.code[live[k]][j];
    && s.phi == c && Passed(p, live, k, j, s.val) && s.val < |scc| && scc[s.val] == scc[c]
    && forall m :: 0 <= m < i ==> AltOccupied(p, live, livein, scc, k, j, m)
  }

  /** It has a class that nothing assigned before it has; those of all alternatives are
      occupied. */
  ghost predicate TakesNew(p: Program, live: seq<BlockId>, livein: LiveLists, scc: Classes, k: nat, j: nat)
    requires k < |live| && live[k] < |p.code| && live[k] < |p.alts| && j < |p.code[live[k]]| && p.code[live[k]][j] < |scc|
  {
    && (forall m :: 0 <= m < |p.alts[live[k]]| ==> AltOccupied(p, live, livein, scc, k, j, m))
    && forall x: OpId :: x < |scc| && Passed(p, live, k, j, x) ==> scc[x] != scc[p.code[live[k]][j]]
  }

  /** How the class of the value at index j of live[k] was chosen. */
  ghost predicate ChosenAt(p: Program, live: seq<BlockId>, livein: LiveLists, scc: Classes, k: nat, j: nat) {
    && k < |live| && live[k] < |p.code| && live[k] < |p.alts| && j < |p.code[live[k]]| && p.code[live[k]][j] < |scc| == |p.ops|
    && var c := p.code[live[k]][j];
       p.ops[c].HasOutput() ==>
         if p.ops[c].opcode.Phi? then
           TakesNew(p, live, livein, scc, k, j)
           || exists i :: 0 <= i < |p.alts[live[k]]| && TakesAlt(p, live, livein, scc, k, j, i)
         else LeastFree(p, live, livein, scc, k, j)
  }

  /** Index i of live[m] comes before index j of live[k]. */
  predicate Earlier(p: Program, live: seq<BlockId>, k: nat, j: nat, m: nat, i: nat) {
    m < |live| && live[m] < |p.code| && i < |p.code[live[m]]| && (m < k || (m == k && i < j))
  }

  /** All values assigned before index j of live[k]. */
  ghost predicate ChosenUpTo(p: Program, live: seq<BlockId>, livein: LiveLists, scc: Classes, k: nat, j: nat) {
    forall m: nat, i: nat :: Earlier(p, live, k, j, m, i) ==> ChosenAt(p, live, livein, scc, m, i)
  }

  /** A value live into b, or assigned in b before index j, has the class. */
  ghost predicate TakenBefore(p: Program, livein: LiveLists, scc: Classes, b: BlockId, j: nat, cls: nat) {
    exists x: OpId :: x < |scc| && scc[x] == cls && InPlay(p, livein, b, j, x)
  }

  /** A phi shares its class with one of its alternatives, unless the classes of all those
      assigned before it are held by live-in values of its block and phis above it. */
  lemma PhiShares(p: Program, live: seq<BlockId>, livein: LiveLists, scc: Classes, k: nat, j: nat)
    requires ChosenAt(p, live, livein, scc, k, j) && p.ops[p.code[live[k]][j]].opcode.Phi?
    ensures var c, alts := p.code[live[k]][j], p.alts[live[k]];
            || (exists i :: 0 <= i < |alts| && alts[i].phi == c && alts[i].val < |scc| && scc[alts[i].val] == scc[c])
            || forall i :: 0 <= i < |alts| && alts[i].phi == c && alts[i].val < |scc| && Passed(p, live, k, j, alts[i].val) ==>
                 TakenBefore(p, livein, scc, live[k], j, scc[alts[i].val])
  {
    var c, alts := p.code[live[k]][j], p.alts[live[k]];
    if TakesNew(p, live, livein, scc, k, j) {
      forall i | 0 <= i < |alts| && alts[i].phi == c && alts[i].val < |scc| && Passed(p, live, k, j, alts[i].val)
        ensures TakenBefore(p, livein, scc, live[k], j, scc[alts[i].val])
      {
        assert AltOccupied(p, live, livein, scc, k, j, i);
      }
    }
  }

  /** What has been chosen stays when another value gets its class. */
  lemma ChosenStays(p: Program, live: seq<BlockId>, livein: LiveLists, scc: Classes, used: seq<bool>, k: nat, j: nat, c: OpId, cls: nat)
    requires Ready(p, live) && k < |live| && SccInv(p, live, scc, used, k, j) && ChosenUpTo(p, live, livein, scc, k, j)
    requires c < |scc| && scc[c] == NoVal && |used| <= NoVal
    ensures ChosenUpTo(p, live, livein, scc[c := cls], k, j)
  {
    forall m: nat, i: nat | Earlier(p, live, k, j, m, i)
      ensures ChosenAt(p, live, livein, scc[c := cls], m, i)
    {
      ChoiceStays(p, live, livein, scc, used, k, j, c, cls, m, i);
    }
  }

  lemma OccupiedStays(p: Program, livein: LiveLists, scc: Classes, b: BlockId, j: nat, i: nat, c: OpId, cls: nat)
    requires Occupied(p, livein, scc, b, j, i) && c < |scc| && scc[c] == NoVal && i != NoVal
    ensures Occupied(p, livein, scc[c := cls], b, j, i)
  {
    var x: OpId :| x < |scc| && scc[x] == i && InPlay(p, livein, b, j, x) && (LiveAfter(p, Point(b, j + 1), x) || Unused(p, b, j + 1, x));
    assert scc[c := cls][x] == i;
  }

  lemma ChoiceStays(p: Program, live: seq<BlockId>, livein: LiveLists, scc: Classes, used: seq<bool>, k: nat, j: nat, c: OpId, cls: nat, m: nat, i: nat)
    requires Ready(p, live) && k < |live| && SccInv(p, live, scc, used, k, j) && |used| <= NoVal
    requires c < |scc| && scc[c] == NoVal && ChosenAt(p, live, livein, scc, m, i) && (m < k || (m == k && i < j))
    ensures ChosenAt(p, live, livein, scc[c := cls], m, i)
  {
    var b, next := live[m], scc[c := cls];
    var d := p.code[b][i];
    assert b in live && LiveBlock(p.ops, p.code, b) && PlacedAt(p, b, i);
    if p.ops[d].HasOutput() {
      assert Passed(p, live, k, j, d) && scc[d] != NoVal;
      assert forall x: OpId :: x < |scc| && Passed(p, live, m, i, x) ==> Passed(p, live, k, j, x) && scc[x] != NoVal;
      if p.ops[d].opcode.Phi? {
        forall n | 0 <= n < |p.alts[b]| && AltOccupied(p, live, livein, scc, m, i, n) ensures AltOccupied(p, live, livein, next, m, i, n) {
          AltStays(p, live, livein, scc, m, i, n, c, cls);
        }
        if n :| 0 <= n < |p.alts[b]| && TakesAlt(p, live, livein, scc, m, i, n) {
          assert TakesAlt(p, live, livein, next, m, i, n);
        }
      } else {
        forall n | 0 <= n < next[d] ensures Occupied(p, livein, next, b, i, n) {
          OccupiedStays(p, livein, scc, b, i, n, c, cls);
        }
      }
    }
  }

  lemma AltStays(p: Program, live: seq<BlockId>, livein: LiveLists, scc: Classes, k: nat, j: nat, i: nat, c: OpId, cls: nat)
    requires k < |live| && live[k] < |p.code| && live[k] < |p.alts| && j < |p.code[live[k]]| && i < |p.alts[live[k]]|
    requires AltOccupied(p, live, livein, scc, k, j, i) && c < |scc| && scc[c] == NoVal
    requires forall x: OpId :: x < |scc| && Passed(p, live, k, j, x) ==> scc[x] != NoVal
    ensures AltOccupied(p, live, livein, scc[c := cls], k, j, i)
  {
    var s := p.alts[live[k]][i];
    if s.phi == p.code[live[k]][j] && Passed(p, live, k, j, s.val) && s.val < |scc| {
      OccupiedStays(p, livein, scc, live[k], j, scc[s.val], c, cls);
    }
  }

  // ---- who holds a class ------------------------------------------------------------------

  /** x holds its class: it has uses left, or none of the first j ops of b was one. */
  ghost predicate Holds(p: Program, livein: LiveLists, scc: Classes, nUse: seq<nat>, b: BlockId, j: nat, m: nat, x: OpId, cls: nat) {
    x < |scc| && x < |nUse| && scc[x] == cls && InPlay(p, livein, b, j, x) && (nUse[x] > 0 || Unused(p, b, m, x))
  }

  ghost predicate HeldClass(p: Program, livein: LiveLists, scc: Classes, nUse: seq<nat>, b: BlockId, j: nat, m: nat, cls: nat) {
    exists x: OpId :: Holds(p, livein, scc, nUse, b, j, m, x, cls)
  }

  /** Every class that is marked is held by a value in play at index j, after the first m ops. */
  ghost predicate Held(p: Program, livein: LiveLists, scc: Classes, used: seq<bool>, nUse: seq<nat>, b: BlockId, j: nat, m: nat) {
    forall i :: 0 <= i < |used| && used[i] ==> HeldClass(p, livein, scc, nUse, b, j, m, i)
  }

  /** Operands that are used up give up their classes. */
  lemma HeldOn(p: Program, livein: LiveLists, scc: Classes, used: seq<bool>, used': seq<bool>, nUse: seq<nat>, nUse': seq<nat>, b: BlockId, j: nat)
    requires Held(p, livein, scc, used, nUse, b, j, j) && b < |p.code| && j < |p.code[b]| && p.code[b][j] < |p.ops|
    requires |nUse'| == |nUse| && |used'| == |used| && forall i :: 0 <= i < |used'| && used'[i] ==> used[i]
    requires var ins := p.ops[p.code[b][j]].ins;
             && (forall x :: 0 <= x < |nUse| ==> nUse'[x] as int == if x in ins then nUse[x] - Occ(ins, x) else nUse[x])
             && forall x :: x in ins && x < |nUse| && x < |scc| && nUse[x] == Occ(ins, x) && scc[x] < |used'| ==> !used'[scc[x]]
    ensures Held(p, livein, scc, used', nUse', b, j, j + 1)
  {
    forall i | 0 <= i < |used'| && used'[i] ensures HeldClass(p, livein, scc, nUse', b, j, j + 1, i) {
      var x: OpId :| Holds(p, livein, scc, nUse, b, j, j, x, i);
      assert Holds(p, livein, scc, nUse', b, j, j + 1, x, i);
    }
  }

  lemma HeldNext(p: Program, livein: LiveLists, scc: Classes, used: seq<bool>, nUse: seq<nat>, b: BlockId, j: nat)
    requires Held(p, livein, scc, used, nUse, b, j, j + 1)
    ensures Held(p, livein, scc, used, nUse, b, j + 1, j + 1)
  {
    forall i | 0 <= i < |used| && used[i] ensures HeldClass(p, livein, scc, nUse, b, j + 1, j + 1, i) {
      var x: OpId :| Holds(p, livein, scc, nUse, b, j, j + 1, x, i);
      assert Holds(p, livein, scc, nUse, b, j + 1, j + 1, x, i);
    }
  }

  /** The new value holds its class. */
  lemma HeldByNew(p: Program, live: seq<BlockId>, livein: LiveLists, scc: Classes, used: seq<bool>, used': seq<bool>, nUse: seq<nat>,
                  k: nat, j: nat, cls: nat)
    requires Ready(p, live) && k < |live| && live[k] < |p.code| && live[k] < |livein| && j < |p.code[live[k]]| && |nUse| == |p.ops| == |scc|
    requires Held(p, livein, scc, used, nUse, live[k], j, j + 1) && |used| <= NoVal
    requires var c := p.code[live[k]][j]; c < |p.ops| && p.ops[c].HasOutput() && scc[c] == NoVal
    requires cls <= |used| && used' == if cls < |used| then used[cls := true] else used + [true]
    ensures Held(p, livein, scc[p.code[live[k]][j] := cls], used', nUse, live[k], j + 1, j + 1)
  {
    var b, c := live[k], p.code[live[k]][j];
    var next := scc[c := cls];
    assert b in live && LiveBlock(p.ops, p.code, b) && PlacedAt(p, b, j);
    forall i | 0 <= i < |used'| && used'[i] ensures HeldClass(p, livein, next, nUse, b, j + 1, j + 1, i) {
      if i == cls {
        NotUsedBefore(p, b, j);
        assert Holds(p, livein, next, nUse, b, j + 1, j + 1, c, i);
      } else {
        var x: OpId :| Holds(p, livein, scc, nUse, b, j, j + 1, x, i);
        assert Holds(p, livein, next, nUse, b, j + 1, j + 1, x, i);
      }
    }
  }

  /** Nothing is used before it is assigned. */
  lemma NotUsedBefore(p: Program, b: BlockId, j: nat)
    requires StrictSsa(p) && PhisFirst(p) && LiveBlock(p.ops, p.code, b) && b < |p.code| && j < |p.code[b]|
    requires p.code[b][j] < |p.ops| && p.ops[p.code[b][j]].HasOutput()
    ensures Unused(p, b, j + 1, p.code[b][j])
  {
    var c := p.code[b][j];
    assert PlacedAt(p, b, j);
    forall i | 0 <= i < j + 1 && p.code[b][i] < |p.ops| ensures c !in p.ops[p.code[b][i]].ins {
      assert PlacedAt(p, b, i) && InputsOk(p, b, i);
      if c in p.ops[p.code[b][i]].ins {
        UsedAfter(p, b, i, c);
      }
    }
  }

  lemma UsedAfter(p: Program, b: BlockId, i: nat, c: OpId)
    requires StrictSsa(p) && PhisFirst(p) && LiveBlock(p.ops, p.code, b) && b < |p.code| && i < |p.code[b]| && p.code[b][i] < |p.ops|
    requires InputOk(p, Point(b, i + 1), c) && p.ops[c].block == b && c in p.ops[p.code[b][i]].ins
    ensures p.ops[c].pos < i
  {
    var d, z := DefPoint(p.ops, c), Point(b, i + 1);
    assert PlacedAt(p, b, i) && PlacedAt(p, b, p.ops[c].pos);
    if p.ops[c].pos >= i {
      if p.ops[c].opcode.Phi? {
        PhiAbove(p, b, i, p.ops[c].pos);
      } else {
        SameBlockDominates(p.ops, p.code, b, i + 1, d.i);
        Renaming.PointReachable(p, b, i + 1);
        DomAntisymmetric(Points(p), z, d);
      }
    }
  }

  /** Before a phi there are only phis, which have no operands. */
  lemma PhiAbove(p: Program, b: BlockId, i: nat, j: nat)
    requires Placed(p) && LiveBlock(p.ops, p.code, b) && b < |p.code| && i <= j < |p.code[b]|
    requires PhisFirst(p) && p.code[b][j] < |p.ops| && p.ops[p.code[b][j]].opcode.Phi? && p.code[b][i] < |p.ops|
    ensures p.ops[p.code[b][i]].ins == []
  {
    assert PlacedAt(p, b, i);
  }

  /** A value with uses left is live. */
  lemma UsesLeftIsLive(p: Program, live: seq<BlockId>, livein: LiveLists, scc: Classes, used: seq<bool>, k: nat, j: nat, x: OpId)
    requires Inputs(p, live, livein) && k < |live| && live[k] < |p.code| && j < |p.code[live[k]]| && SccInv(p, live, scc, used, k, j)
    requires InPlay(p, livein, live[k], j, x) && x < |scc| && scc[x] != NoVal && p.code[live[k]][j] != x
    requires Tally(p, livein, live[k], j + 1, false, 0, x) > 0
    ensures LiveAfter(p, Point(live[k], j + 1), x)
  {
    var b := live[k];
    assert b in live && LiveBlock(p.ops, p.code, b) && EndsOk(p.ops, p.code, b);
    forall i | j + 1 <= i < |p.code[b]| ensures p.code[b][i] != x {
      assert PlacedAt(p, b, i) && Passed(p, live, k, j, x) && b !in live[..k];
    }
    ForgetsNothing(p, livein, b, j + 1, x);
    assert ListedExactly(p, livein, b);
    NeedsSound(p, live, livein, b, j + 1, x);
  }

  /** Where x is not assigned, forgetting at assignments makes no difference. */
  lemma {:induction false} ForgetsNothing(p: Program, livein: LiveLists, b: BlockId, j: nat, x: OpId)
    requires b < |p.code| && j <= |p.code[b]| && forall i :: j <= i < |p.code[b]| ==> p.code[b][i] != x
    ensures Tally(p, livein, b, j, true, 0, x) == Tally(p, livein, b, j, false, 0, x)
    decreases |p.code[b]| - j
  {
    if j < |p.code[b]| {
      ForgetsNothing(p, livein, b, j + 1, x);
    }
  }

  /** A class that is marked after the operands of the op at index j is occupied. */
  lemma MarkedIsOccupied(p: Program, live: seq<BlockId>, livein: LiveLists, scc: Classes, used: seq<bool>, nUse: seq<nat>, k: nat, j: nat, i: nat)
    requires Inputs(p, live, livein) && k < |live| && live[k] < |p.code| && j + 1 < |p.code[live[k]]| && SccInv(p, live, scc, used, k, j)
    requires Counted(p, livein, live[k], j + 1, nUse) && Held(p, livein, scc, used, nUse, live[k], j, j + 1)
    requires i < |used| <= NoVal && used[i] && p.code[live[k]][j] < |scc| && scc[p.code[live[k]][j]] == NoVal
    ensures Occupied(p, livein, scc, live[k], j, i)
  {
    var b := live[k];
    var x: OpId :| Holds(p, livein, scc, nUse, b, j, j + 1, x, i);
    if nUse[x] > 0 {
      assert Passed(p, live, k, j, x);
      UsesLeftIsLive(p, live, livein, scc, used, k, j, x);
    }
  }

  /** The class that has been picked is the one to choose. */
  lemma PickedIsChosen(p: Program, live: seq<BlockId>, livein: LiveLists, scc: Classes, used: seq<bool>, nUse: seq<nat>, k: nat, j: nat, cls: nat)
    requires Inputs(p, live, livein) && k < |live| && live[k] < |p.code| && j + 1 < |p.code[live[k]]| && SccInv(p, live, scc, used, k, j)
    requires Counted(p, livein, live[k], j + 1, nUse) && Held(p, livein, scc, used, nUse, live[k], j, j + 1) && |used| <= NoVal
    requires var c := p.code[live[k]][j]; c < |scc| && scc[c] == NoVal && Picked(p, scc, used, live[k], c, cls)
    ensures ChosenAt(p, live, livein, scc[p.code[live[k]][j] := cls], k, j)
  {
    var b, c := live[k], p.code[live[k]][j];
    var next := scc[c := cls];
    assert b in live && LiveBlock(p.ops, p.code, b) && PlacedAt(p, b, j);
    forall i: nat | i < |used| && used[i] ensures Occupied(p, livein, next, b, j, i) {
      MarkedIsOccupied(p, live, livein, scc, used, nUse, k, j, i);
      OccupiedStays(p, livein, scc, b, j, i, c, cls);
    }
    if p.ops[c].opcode.Phi? {
      PickedPhi(p, live, livein, scc, used, k, j, cls);
    }
  }

  /** What the two ways to pick a class promise. */
  ghost predicate Picked(p: Program, scc: Classes, used: seq<bool>, b: BlockId, c: OpId, cls: nat) {
    && c < |p.ops| && b < |p.alts| && cls <= |used|
    && (forall x :: 0 <= x < |scc| && scc[x] != NoVal ==> scc[x] < |used|) && (forall k :: 0 <= k < |p.alts[b]| ==> p.alts[b][k].val < |scc|)
    && if p.ops[c].opcode.Phi? then
         && (cls < |used| ==> exists k :: 0 <= k < |p.alts[b]| && FirstFree(scc, used, p.alts[b], c, k, cls))
         && (cls == |used| ==> forall i :: 0 <= i < |p.alts[b]| ==> AltTaken(scc, used, p.alts[b], c, i))
       else forall i :: 0 <= i < cls ==> used[i]
  }

  /** An alternative whose class is taken is in an occupied class. */
  lemma TakenIsOccupied(p: Program, live: seq<BlockId>, livein: LiveLists, scc: Classes, used: seq<bool>, k: nat, j: nat, cls: nat, i: nat)
    requires k < |live| && live[k] < |p.code| && live[k] < |p.alts| && j < |p.code[live[k]]| && SccInv(p, live, scc, used, k, j)
    requires p.code[live[k]][j] < |scc| && scc[p.code[live[k]][j]] == NoVal
    requires i < |p.alts[live[k]]| && p.alts[live[k]][i].val < |scc| && AltTaken(scc, used, p.alts[live[k]], p.code[live[k]][j], i)
    requires forall i: nat :: i < |used| && used[i] ==> Occupied(p, livein, scc[p.code[live[k]][j] := cls], live[k], j, i)
    ensures AltOccupied(p, live, livein, scc[p.code[live[k]][j] := cls], k, j, i)
  {
    var s := p.alts[live[k]][i];
    if Passed(p, live, k, j, s.val) {
      assert scc[s.val] != NoVal && s.val != p.code[live[k]][j];
    }
  }

  lemma PickedPhi(p: Program, live: seq<BlockId>, livein: LiveLists, scc: Classes, used: seq<bool>, k: nat, j: nat, cls: nat)
    requires Ready(p, live) && k < |live| && live[k] < |p.code| && j < |p.code[live[k]]| && SccInv(p, live, scc, used, k, j) && |used| <= NoVal
    requires var c := p.code[live[k]][j];
             c < |scc| && scc[c] == NoVal && p.ops[c].opcode.Phi? && Picked(p, scc, used, live[k], c, cls)
    requires forall i: nat :: i < |used| && used[i] ==> Occupied(p, livein, scc[p.code[live[k]][j] := cls], live[k], j, i)
    ensures ChosenAt(p, live, livein, scc[p.code[live[k]][j] := cls], k, j)
  {
    var b, c := live[k], p.code[live[k]][j];
    var next := scc[c := cls];
    forall i | 0 <= i < |p.alts[b]| && AltTaken(scc, used, p.alts[b], c, i) ensures AltOccupied(p, live, livein, next, k, j, i) {
      TakenIsOccupied(p, live, livein, scc, used, k, j, cls, i);
    }
    if cls < |used| {
      var i :| 0 <= i < |p.alts[b]| && FirstFree(scc, used, p.alts[b], c, i, cls);
      assert TakesAlt(p, live, livein, next, k, j, i);
    } else {
      assert TakesNew(p, live, livein, next, k, j);
    }
  }

  /** Up to and with the op at index j, every class is the one to choose. */
  lemma ChosenNext(p: Program, live: seq<BlockId>, livein: LiveLists, scc: Classes, k: nat, j: nat)
    requires ChosenUpTo(p, live, livein, scc, k, j) && ChosenAt(p, live, livein, scc, k, j)
    ensures ChosenUpTo(p, live, livein, scc, k, j + 1)
  {
  }

  lemma ChosenBlock(p: Program, live: seq<BlockId>, livein: LiveLists, scc: Classes, k: nat)
    requires k < |live| && live[k] < |p.code| && ChosenUpTo(p, live, livein, scc, k, |p.code[live[k]]|)
    ensures ChosenUpTo(p, live, livein, scc, k + 1, 0)
  {
    forall m: nat, i: nat | Earlier(p, live, k + 1, 0, m, i) ensures ChosenAt(p, live, livein, scc, m, i) {
      assert Earlier(p, live, k, |p.code[live[k]]|, m, i);
    }
  }

  lemma FewClasses(p: Program, live: seq<BlockId>, scc: Classes, used: seq<bool>, k: nat, j: nat, c: OpId)
    requires Placed(p) && k <= |live| && SccInv(p, live, scc, used, k, j) && c < |scc| && scc[c] == NoVal
    ensures |used| < NoVal
  {
    AssignedBounded(scc, c);
  }

  /** The class given to the op at index j keeps the account of choices and holders. */
  lemma ClassGiven(p: Program, live: seq<BlockId>, livein: LiveLists, scc: Classes, used: seq<bool>, used': seq<bool>, nUse: seq<nat>,
                   k: nat, j: nat, cls: nat)
    requires Inputs(p, live, livein) && k < |live| && live[k] < |p.code| && j + 1 < |p.code[live[k]]| && SccInv(p, live, scc, used, k, j)
    requires Counted(p, livein, live[k], j + 1, nUse) && Held(p, livein, scc, used, nUse, live[k], j, j + 1)
    requires var c := p.code[live[k]][j];
             c < |scc| && scc[c] == NoVal && p.ops[c].HasOutput() && Picked(p, scc, used, live[k], c, cls)
    requires ChosenUpTo(p, live, livein, scc, k, j)
    requires used' == if cls < |used| then used[cls := true] else used + [true]
    ensures ChosenUpTo(p, live, livein, scc[p.code[live[k]][j] := cls], k, j + 1)
    ensures Held(p, livein, scc[p.code[live[k]][j] := cls], used', nUse, live[k], j + 1, j + 1)
  {
    var c := p.code[live[k]][j];
    FewClasses(p, live, scc, used, k, j, c);
    PickedIsChosen(p, live, livein, scc, used, nUse, k, j, cls);
    ChosenStays(p, live, livein, scc, used, k, j, c, cls);
    ChosenNext(p, live, livein, scc[c := cls], k, j);
    HeldByNew(p, live, livein, scc, used, used', nUse, k, j, cls);
  }

  /** Free the classes of the operands that die at index j. */
  method FreeDead(p: Program, live: seq<BlockId>, livein: LiveLists, scc: Classes, used0: seq<bool>, nUse0: seq<nat>, k: nat, j: nat)
    returns (used: seq<bool>, nUse: seq<nat>)
    requires Inputs(p, live, livein) && ScanInv(p, live, livein, scc, used0, nUse0, k, j)
    requires j < |p.code[live[k]]| && p.code[live[k]][j] < |p.ops| && PhisMarked(p, scc, used0, live[k], j)
    requires Held(p, livein, scc, used0, nUse0, live[k], j, j)
    ensures |nUse| == |nUse0| && |used| == |used0| && SccInv(p, live, scc, used, k, j)
    ensures Reserved(p, scc, used, Point(live[k], j + 1), p.code[live[k]][j])
    ensures j + 1 < |p.code[live[k]]| ==> Counted(p, livein, live[k], j + 1, nUse)
    ensures Held(p, livein, scc, used, nUse, live[k], j, j + 1)
    ensures p.ops[p.code[live[k]][j]].opcode.Phi? ==> PhisMarked(p, scc, used, live[k], j)
  {
    var b := live[k];
    var c := p.code[b][j];
    assert b in live && LiveBlock(p.ops, p.code, b) && PlacedAt(p, b, j);
    OperandsReady(p, live, livein, scc, used0, nUse0, k, j);
    nUse, used := FreeInputs(scc, p.ops[c].ins, nUse0, used0);
    FreeKeepsReserved(p, live, livein, scc, used0, used, nUse0, k, j);
    if j + 1 < |p.code[b]| {
      CountStep(p, live, livein, b, j, nUse0, nUse);
    }
    HeldOn(p, livein, scc, used0, used, nUse0, nUse, b, j);
    MarksSurvive(p, scc, used0, used, b, j);
  }

  /** Process one op: free dead operands, then give the output a class. */
  method ScanOp(p: Program, live: seq<BlockId>, livein: LiveLists, scc0: Classes, used0: seq<bool>, nUse0: seq<nat>, k: nat, j: nat)
    returns (scc: Classes, used: seq<bool>, nUse: seq<nat>)
    requires Inputs(p, live, livein) && ScanInv(p, live, livein, scc0, used0, nUse0, k, j)
    requires j < |p.code[live[k]]| && PhisApart(p, scc0) && PhisMarked(p, scc0, used0, live[k], j)
    requires Held(p, livein, scc0, used0, nUse0, live[k], j, j) && ChosenUpTo(p, live, livein, scc0, k, j)
    ensures ScanInv(p, live, livein, scc, used, nUse, k, j + 1) && |nUse| == |nUse0|
    ensures PhisApart(p, scc) && PhisMarked(p, scc, used, live[k], j + 1)
    ensures Held(p, livein, scc, used, nUse, live[k], j + 1, j + 1) && ChosenUpTo(p, live, livein, scc, k, j + 1)
  {
    var b := live[k];
    var c := p.code[b][j];
    assert b in live && LiveBlock(p.ops, p.code, b) && PlacedAt(p, b, j);
    scc := scc0;
    used, nUse := FreeDead(p, live, livein, scc, used0, nUse0, k, j);
    if p.ops[c].HasOutput() {
      scc, used := GiveClass(p, live, livein, scc, used, nUse, k, j);
    } else {
      NoOutputStep(p, live, scc, used0, used, k, j);
      HeldNext(p, livein, scc, used, nUse, b, j);
      ChosenNext(p, live, livein, scc, k, j);
    }
  }

  /** Pick a class for the output of c. */
  method PickFor(p: Program, scc: Classes, used: seq<bool>, b: BlockId, c: OpId) returns (cls: nat)
    requires c < |p.ops| && b < |p.alts| && forall x :: 0 <= x < |scc| && scc[x] != NoVal ==> scc[x] < |used|
    requires forall i :: 0 <= i < |p.alts[b]| ==> p.alts[b][i].val < |scc|
    ensures cls <= |used| && (cls < |used| ==> !used[cls]) && Picked(p, scc, used, b, c, cls)
  {
    if p.ops[c].opcode.Phi? {
      cls := PickPhiClass(scc, used, p.alts[b], c);
    } else {
      cls := PickClass(used);
    }
  }

  method GiveClass(p: Program, live: seq<BlockId>, livein: LiveLists, scc0: Classes, used0: seq<bool>, nUse: seq<nat>, k: nat, j: nat)
    returns (scc: Classes, used: seq<bool>)
    requires Inputs(p, live, livein) && k < |live| && live[k] < |p.code| && j + 1 < |p.code[live[k]]|
    requires p.code[live[k]][j] < |p.ops| && p.ops[p.code[live[k]][j]].HasOutput()
    requires SccInv(p, live, scc0, used0, k, j)
    requires Reserved(p, scc0, used0, Point(live[k], j + 1), p.code[live[k]][j])
    requires PhisApart(p, scc0) && (p.ops[p.code[live[k]][j]].opcode.Phi? ==> PhisMarked(p, scc0, used0, live[k], j))
    requires Counted(p, livein, live[k], j + 1, nUse) && Held(p, livein, scc0, used0, nUse, live[k], j, j + 1)
    requires ChosenUpTo(p, live, livein, scc0, k, j)
    ensures SccInv(p, live, scc, used, k, j + 1)
    ensures Reserved(p, scc, used, Point(live[k], j + 1), |scc|)
    ensures PhisApart(p, scc) && PhisMarked(p, scc, used, live[k], j + 1)
    ensures Held(p, livein, scc, used, nUse, live[k], j + 1, j + 1) && ChosenUpTo(p, live, livein, scc, k, j + 1)
  {
    var b := live[k];
    var c := p.code[b][j];
    NotYet(p, live, scc0, used0, k, j);
    AltValues(p, live, b);
    var cls := PickFor(p, scc0, used0, b, c);
    AssignedBounded(scc0, c);
    used := if cls < |used0| then used0[cls := true] else used0 + [true];
    scc := scc0[c := cls];
    AssignKeeps(p, live, scc0, used0, used, k, j, c, cls);
    ClassGiven(p, live, livein, scc0, used0, used, nUse, k, j, cls);
    PhisKept(p, live, scc0, used0, used, k, j, cls);
  }

  lemma PhisKept(p: Program, live: seq<BlockId>, scc: Classes, used: seq<bool>, used': seq<bool>, k: nat, j: nat, cls: nat)
    requires Ready(p, live) && k < |live| && live[k] < |p.code| && j < |p.code[live[k]]| && p.code[live[k]][j] < |p.ops|
    requires SccInv(p, live, scc, used, k, j) && PhisApart(p, scc) && scc[p.code[live[k]][j]] == NoVal && |used| <= NoVal
    requires p.ops[p.code[live[k]][j]].opcode.Phi? ==> PhisMarked(p, scc, used, live[k], j)
    requires cls <= |used| && (cls < |used| ==> !used[cls]) && used' == if cls < |used| then used[cls := true] else used + [true]
    ensures PhisApart(p, scc[p.code[live[k]][j] := cls]) && PhisMarked(p, scc[p.code[live[k]][j] := cls], used', live[k], j + 1)
  {
    if p.ops[p.code[live[k]][j]].opcode.Phi? {
      PhiStaysApart(p, live, scc, used, k, j, cls);
      PhisMarkedStep(p, scc, used, used', live[k], j, cls);
    }
  }

  /** A phi has no operands to free. */
  lemma MarksSurvive(p: Program, scc: Classes, used: seq<bool>, used': seq<bool>, b: BlockId, j: nat)
    requires b < |p.code| && j < |p.code[b]| && p.code[b][j] < |p.ops| && PlacedAt(p, b, j)
    requires PhisMarked(p, scc, used, b, j) && |used'| == |used|
    requires p.ops[p.code[b][j]].ins == [] ==> forall k :: 0 <= k < |used| && used[k] ==> used'[k]
    ensures p.ops[p.code[b][j]].opcode.Phi? ==> PhisMarked(p, scc, used', b, j)
  {
  }

  lemma AltValues(p: Program, live: seq<BlockId>, b: BlockId)
    requires ValuesOk(p, live) && b < |p.alts|
    ensures forall i :: 0 <= i < |p.alts[b]| ==> p.alts[b][i].val < |p.ops|
  {
    forall i | 0 <= i < |p.alts[b]| ensures p.alts[b][i].val < |p.ops| {
      assert IsValue(p, p.alts[b][i].val);
    }
  }

  lemma NotYet(p: Program, live: seq<BlockId>, scc: Classes, used: seq<bool>, k: nat, j: nat)
    requires Ready(p, live) && k < |live| && live[k] < |p.code| && j < |p.code[live[k]]|
    requires SccInv(p, live, scc, used, k, j)
    ensures var c := p.code[live[k]][j]; c < |p.ops| && scc[c] == NoVal
  {
    var b, c := live[k], p.code[live[k]][j];
    assert b in live && LiveBlock(p.ops, p.code, b) && PlacedAt(p, b, j);
    assert b !in live[..k];
    assert !Passed(p, live, k, j, c);
  }

  lemma OperandsReady(p: Program, live: seq<BlockId>, livein: LiveLists, scc: Classes, used: seq<bool>, nUse: seq<nat>, k: nat, j: nat)
    requires Inputs(p, live, livein) && ScanInv(p, live, livein, scc, used, nUse, k, j)
    requires j < |p.code[live[k]]| && p.code[live[k]][j] < |p.ops|
    ensures var ins := p.ops[p.code[live[k]][j]].ins;
            && (forall i :: 0 <= i < |ins| ==> ins[i] < |scc| && scc[ins[i]] < |used|)
            && (forall x :: x in ins ==> x < |nUse| && nUse[x] >= Occ(ins, x))
  {
    var b, c := live[k], p.code[live[k]][j];
    assert b in live;
    forall x | x in p.ops[c].ins ensures x < |scc| && scc[x] < |used| && nUse[x] >= Occ(p.ops[c].ins, x) {
      OperandMatters(p, live, livein, b, j, x);
    }
  }

  /** Start a block: reset and recount the uses, then reserve the classes of all live-in
      values, each of which has one. */
  method StartBlock(p: Program, live: seq<BlockId>, livein: LiveLists, scc: Classes, used0: seq<bool>, nUse0: seq<nat>, k: nat)
    returns (used: seq<bool>, nUse: seq<nat>)
    requires Inputs(p, live, livein) && k < |live| && SccInv(p, live, scc, used0, k, 0) && |nUse0| == |p.ops|
    ensures ScanInv(p, live, livein, scc, used, nUse, k, 0) && PhisMarked(p, scc, used, live[k], 0)
    ensures Held(p, livein, scc, used, nUse, live[k], 0, 0)
  {
    var b := live[k];
    assert b in live && LiveBlock(p.ops, p.code, b) && EndsOk(p.ops, p.code, b);
    CanScan(p, live, livein, b);
    nUse := ResetFor(p, livein, b, nUse0);
    nUse := FindUsesBlock(p, livein, nUse, b, false);
    LiveInHasClass(p, live, livein, scc, used0, k);
    used := ReserveAll(scc, livein[b], |used0|);
    HeldAtStart(p, livein, scc, used, nUse, b);
    forall x: OpId | x < |scc| && LiveAfter(p, Point(b, 0), x) ensures scc[x] < |used| && used[scc[x]] {
      LiveIsListed(p, live, livein, b, x);
    }
  }

  /** On entry to a block, the live-in values hold the classes. */
  lemma HeldAtStart(p: Program, livein: LiveLists, scc: Classes, used: seq<bool>, nUse: seq<nat>, b: BlockId)
    requires b < |p.code| && b < |livein| && |nUse| == |scc| && forall x :: x in livein[b] ==> x < |scc|
    requires forall m :: 0 <= m < |used| && used[m] ==> exists x :: x in livein[b] && scc[x] == m
    ensures Held(p, livein, scc, used, nUse, b, 0, 0)
  {
    forall i | 0 <= i < |used| && used[i] ensures HeldClass(p, livein, scc, nUse, b, 0, 0, i) {
      var x :| x in livein[b] && scc[x] == i;
      assert Holds(p, livein, scc, nUse, b, 0, 0, x, i);
    }
  }

  lemma LiveIsListed(p: Program, live: seq<BlockId>, livein: LiveLists, b: BlockId, x: OpId)
    requires Inputs(p, live, livein) && b in live && b < |p.code| && LiveAfter(p, Point(b, 0), x)
    ensures x in livein[b]
  {
    assert LiveBlock(p.ops, p.code, b) && EndsOk(p.ops, p.code, b);
    Renaming.PointReachable(p, b, 0);
    LiveIsDominated(p, Point(b, 0), x);
    assert ListedExactly(p, livein, b);
  }

  /** The assertion on entry to a block never fires: every live-in value has its class. */
  lemma LiveInHasClass(p: Program, live: seq<BlockId>, livein: LiveLists, scc: Classes, used: seq<bool>, k: nat)
    requires Inputs(p, live, livein) && k < |live| && SccInv(p, live, scc, used, k, 0)
    ensures live[k] < |livein|
    ensures forall x :: x in livein[live[k]] ==> x < |scc| && scc[x] != NoVal && scc[x] < |used|
  {
    var b := live[k];
    assert b in live && LiveBlock(p.ops, p.code, b) && EndsOk(p.ops, p.code, b);
    forall x | x in livein[b] ensures x < |scc| && scc[x] != NoVal {
      ListedIsLive(p, live, livein, b, x);
      LiveWasPassed(p, live, k, 0, x);
    }
  }

  method ReserveAll(scc: Classes, list: seq<OpId>, n: nat) returns (used: seq<bool>)
    requires forall x :: x in list ==> x < |scc| && scc[x] < n
    ensures |used| == n && forall x :: x in list ==> used[scc[x]]
    ensures forall m :: 0 <= m < n && used[m] ==> exists x :: x in list && scc[x] == m
  {
    used := seq(n, _ => false);
    for i := 0 to |list|
      invariant |used| == n
      invariant forall m :: 0 <= m < n && used[m] ==> exists x :: x in list && scc[x] == m
      invariant forall x :: x in list[..i] ==> x in list && used[scc[x]]
    {
      assert list[i] in list && list[..i + 1] == list[..i] + [list[i]];
      used := used[scc[list[i]] := true];
    }
    assert list[..|list|] == list;
  }

  /** Forget the counts of live-in values and of everything the block defines. */
  method ResetFor(p: Program, livein: LiveLists, b: BlockId, nUse0: seq<nat>) returns (nUse: seq<nat>)
    requires b < |p.code| && b < |livein| && |nUse0| == |p.ops|
    requires forall j :: 0 <= j < |p.code[b]| ==> p.code[b][j] < |p.ops|
    requires forall x :: x in livein[b] ==> x < |p.ops|
    ensures |nUse| == |p.ops|
    ensures forall x: OpId :: x < |nUse| && Matters(p, livein, b, x) ==> nUse[x] == 0
  {
    nUse := nUse0;
    for i := 0 to |livein[b]|
      invariant |nUse| == |p.ops|
      invariant forall x :: x in livein[b][..i] ==> x < |nUse| && nUse[x] == 0
    {
      assert livein[b][i] in livein[b] && livein[b][..i + 1] == livein[b][..i] + [livein[b][i]];
      nUse := nUse[livein[b][i] := 0];
    }
    assert livein[b][..|livein[b]|] == livein[b];
    for j := 0 to |p.code[b]|
      invariant |nUse| == |p.ops|
      invariant forall x :: x in livein[b] ==> x < |nUse| && nUse[x] == 0
      invariant forall l :: 0 <= l < j && p.ops[p.code[b][l]].HasOutput() ==> nUse[p.code[b][l]] == 0
    {
      if p.ops[p.code[b][j]].HasOutput() { nUse := nUse[p.code[b][j] := 0]; }
    }
  }

  /** Assign classes in one block. */
  method ScanBlock(p: Program, live: seq<BlockId>, livein: LiveLists, scc0: Classes, used0: seq<bool>, nUse0: seq<nat>, k: nat)
    returns (scc: Classes, used: seq<bool>, nUse: seq<nat>)
    requires Inputs(p, live, livein) && k < |live| && SccInv(p, live, scc0, used0, k, 0) && |nUse0| == |p.ops|
    requires PhisApart(p, scc0) && ChosenUpTo(p, live, livein, scc0, k, 0)
    ensures SccInv(p, live, scc, used, k + 1, 0) && |nUse| == |p.ops| && PhisApart(p, scc)
    ensures ChosenUpTo(p, live, livein, scc, k + 1, 0)
  {
    var b := live[k];
    assert b in live && LiveBlock(p.ops, p.code, b) && EndsOk(p.ops, p.code, b);
    scc := scc0;
    used, nUse := StartBlock(p, live, livein, scc, used0, nUse0, k);
    for j := 0 to |p.code[b]|
      invariant ScanInv(p, live, livein, scc, used, nUse, k, j) && |nUse| == |p.ops|
      invariant PhisApart(p, scc) && PhisMarked(p, scc, used, b, j)
      invariant Held(p, livein, scc, used, nUse, b, j, j) && ChosenUpTo(p, live, livein, scc, k, j)
    {
      scc, used, nUse := ScanOp(p, live, livein, scc, used, nUse, k, j);
    }
    NextBlock(p, live, scc, used, k);
    ChosenBlock(p, live, livein, scc, k);
  }

  lemma NextBlock(p: Program, live: seq<BlockId>, scc: Classes, used: seq<bool>, k: nat)
    requires Ready(p, live) && k < |live| && live[k] < |p.code| && SccInv(p, live, scc, used, k, |p.code[live[k]]|)
    ensures SccInv(p, live, scc, used, k + 1, 0)
  {
    assert live[..k + 1] == live[..k] + [live[k]];
    forall x: OpId | x < |p.ops| ensures Passed(p, live, k + 1, 0, x) <==> Passed(p, live, k, |p.code[live[k]]|, x) {
    }
  }

  /** All values of a program have classes and no two that are ever live together share one. */
  ghost predicate ClassesOk(p: Program, scc: Classes) {
    && |scc| == |p.ops|
    && (forall x: OpId :: Defined(p, x) ==> scc[x] != NoVal)
    && forall z: Point, x: OpId, y: OpId ::
         Reachable(Points(p), z) && LiveAfter(p, z, x) && LiveAfter(p, z, y) && x != y && x < |scc| && y < |scc|
         ==> scc[x] != scc[y]
  }

  /** The first pass of findSCC: besides, phis of one block have different classes, used or
      not, nScc is above all classes, and each class was the one to choose. */
  method FindScc(p: Program, live: seq<BlockId>, livein: LiveLists, nUse0: seq<nat>) returns (scc: Classes, nScc: nat)
    requires Inputs(p, live, livein) && |nUse0| == |p.ops|
    ensures ClassesOk(p, scc) && PhisApart(p, scc)
    ensures nScc <= |p.ops| && forall x: OpId :: x < |scc| ==> scc[x] < nScc || (scc[x] == NoVal && !Defined(p, x))
    ensures ChosenUpTo(p, live, livein, scc, |live|, 0)
  {
    scc := seq(|p.ops|, _ => NoVal);
    var used: seq<bool> := [];
    var nUse := nUse0;
    for k := 0 to |live|
      invariant SccInv(p, live, scc, used, k, 0) && |nUse| == |p.ops| && PhisApart(p, scc)
      invariant ChosenUpTo(p, live, livein, scc, k, 0)
    {
      scc, used, nUse := ScanBlock(p, live, livein, scc, used, nUse, k);
    }
    nScc := |used|;
    SubsetSize(Assigned(scc), Range(|scc|));
    AllDistinct(p, live, scc, used);
  }

  lemma AllDistinct(p: Program, live: seq<BlockId>, scc: Classes, used: seq<bool>)
    requires Ready(p, live) && SccInv(p, live, scc, used, |live|, 0)
    ensures ClassesOk(p, scc)
  {
    assert live[..|live|] == live;
    forall x: OpId | Defined(p, x) ensures scc[x] != NoVal {
      assert p.ops[x].block in live;
      assert Passed(p, live, |live|, 0, x);
    }
    forall z: Point, x: OpId, y: OpId |
      Reachable(Points(p), z) && LiveAfter(p, z, x) && LiveAfter(p, z, y) && x != y && x < |scc| && y < |scc|
      ensures scc[x] != scc[y]
    {
      PlaceDominates(p, z, x);
      PlaceDominates(p, z, y);
      LiveDistinct(p, scc, z, x, y);
    }
  }
}
