/** Proc::rebuild_memtags (src/opt-cse.cpp): memory versions, named after the op that last
    may have changed memory or after the block where versions merge. */
module MemTags {
  import opened Digraph
  import opened Lists
  import opened Ir
  import opened Cfg
  import opened Ssa

  /** Ops that start a new memory version. */
  predicate NewVersion(op: Op, unsafeOpt: bool) {
    !op.IsJump() && op.HasSideFX() && (!unsafeOpt || !op.CanCSE())
  }

  /** The version after the first j ops of a block, NoVal if none of them starts one. */
  function LocalTag(ops: seq<Op>, code: seq<OpId>, unsafeOpt: bool, j: nat): OpId
    requires j <= |code|
  {
    if j == 0 then NoVal
    else if code[j - 1] < |ops| && NewVersion(ops[code[j - 1]], unsafeOpt) then code[j - 1]
    else LocalTag(ops, code, unsafeOpt, j - 1)
  }

  function OutTag(p: Program, unsafeOpt: bool, b: BlockId): OpId
    requires b < |p.code|
  {
    LocalTag(p.ops, p.code[b], unsafeOpt, |p.code[b]|)
  }

  lemma {:induction false} LocalTagIs(p: Program, unsafeOpt: bool, b: BlockId, j: nat)
    requires Placed(p) && LiveBlock(p.ops, p.code, b) && b < |p.code| && j <= |p.code[b]|
    requires LocalTag(p.ops, p.code[b], unsafeOpt, j) != NoVal
    ensures var t := LocalTag(p.ops, p.code[b], unsafeOpt, j);
            && t < |p.ops| && p.ops[t].block == b && p.ops[t].pos < j && p.code[b][p.ops[t].pos] == t
            && NewVersion(p.ops[t], unsafeOpt)
            && (p.ops[t].IsTerminator() ==> j == |p.code[b]|)
    decreases j
  {
    assert PlacedAt(p, b, j - 1);
    if !NewVersion(p.ops[p.code[b][j - 1]], unsafeOpt) {
      LocalTagIs(p, unsafeOpt, b, j - 1);
    }
  }

  // ---- the merge at block entry -------------------------------------------------------

  ghost predicate Disagree(from: seq<BlockId>, memout: seq<OpId>)
    requires forall k :: 0 <= k < |from| ==> from[k] < |memout|
  {
    exists j, k :: 0 <= j < k < |from|
      && memout[from[j]] != NoVal && memout[from[k]] != NoVal && memout[from[j]] != memout[from[k]]
  }

  /** t is the merge of the versions leaving the listed blocks: absent versions are skipped,
      equal ones agree, and any disagreement is a new version named after `back`. */
  ghost predicate IsMerge(from: seq<BlockId>, memout: seq<OpId>, back: OpId, t: OpId)
    requires forall k :: 0 <= k < |from| ==> from[k] < |memout|
  {
    || (t == NoVal && forall k :: 0 <= k < |from| ==> memout[from[k]] == NoVal)
    || ((exists k :: 0 <= k < |from| && memout[from[k]] == t)
        && t != NoVal && forall k :: 0 <= k < |from| ==> memout[from[k]] in {NoVal, t})
    || (t == back && Disagree(from, memout))
  }

  method Merge(from: seq<BlockId>, memout: seq<OpId>, back: OpId) returns (t: OpId)
    requires forall k :: 0 <= k < |from| ==> from[k] < |memout|
    ensures IsMerge(from, memout, back, t)
  {
    t := NoVal;
    for k := 0 to |from|
      invariant forall i :: 0 <= i < k ==> memout[from[i]] in {NoVal, t}
      invariant t != NoVal ==> exists i :: 0 <= i < k && memout[from[i]] == t
    {
      var m := memout[from[k]];
      if m == NoVal { continue; }
      if m == t { continue; }
      if t == NoVal {
        t := m;
      } else {
        t := back;
        break;
      }
    }
  }

  // ---- what every assignment of the iteration keeps -----------------------------------

  /** The discovery tree: the earlier block that each block was found from. */
  ghost function Parent(ops: seq<Op>, code: seq<seq<OpId>>, live: seq<BlockId>, k: nat): (j: nat)
    requires DiscoveryOrder(ops, code, live) && 0 < k < |live|
    ensures j < k && live[k] in Succ(ops, code, live[j])
  {
    assert FoundEarlier(ops, code, live, k);
    var j :| 0 <= j < k && live[k] in Succ(ops, code, live[j]);
    j
  }

  /** live[i] is live[k] or one of its ancestors in the discovery tree. */
  ghost predicate Above(ops: seq<Op>, code: seq<seq<OpId>>, live: seq<BlockId>, i: nat, k: nat)
    requires DiscoveryOrder(ops, code, live) && k < |live|
    decreases k
  {
    i == k || (k > 0 && Above(ops, code, live, i, Parent(ops, code, live, k)))
  }

  lemma {:induction false} ParentAbove(ops: seq<Op>, code: seq<seq<OpId>>, live: seq<BlockId>, i: nat, k: nat)
    requires DiscoveryOrder(ops, code, live) && k < |live| && 0 < i < |live| && Above(ops, code, live, i, k)
    ensures Above(ops, code, live, Parent(ops, code, live, i), k)
    ensures i <= k
    decreases k
  {
    if i != k {
      ParentAbove(ops, code, live, i, Parent(ops, code, live, k));
    }
  }

  /** live[i] starts a version and has a way out. */
  ghost predicate Emits(p: Program, unsafeOpt: bool, b: BlockId) {
    b < |p.code| && OutTag(p, unsafeOpt, b) != NoVal && Succ(p.ops, p.code, b) != []
  }

  /** The entry holds `alloc`, which starts a version, and nothing jumps back to it. */
  ghost predicate EntryOk(p: Program, unsafeOpt: bool, comeFrom: seq<seq<BlockId>>) {
    0 < |p.code| && 0 < |comeFrom| && OutTag(p, unsafeOpt, 0) != NoVal && comeFrom[0] == []
  }

  datatype Tags = Tags(tag: seq<OpId>, out: seq<OpId>)

  ghost predicate Sized(p: Program, t: Tags) {
    |t.tag| == |t.out| == |p.code|
  }

  /** A pass-through block hands on what it gets; a block that starts a version keeps it. */
  ghost predicate OutOk(p: Program, unsafeOpt: bool, live: seq<BlockId>, t: Tags)
    requires Sized(p, t)
  {
    forall b :: b in live && b < |p.code| && Succ(p.ops, p.code, b) != [] ==>
      t.out[b] == if OutTag(p, unsafeOpt, b) != NoVal then OutTag(p, unsafeOpt, b) else t.tag[b]
  }

  /** No block that a version has to pass on the way to its own block ever gets it as its
      incoming version; in particular, no block with successors gets its own. */
  ghost predicate NotOwn(p: Program, unsafeOpt: bool, live: seq<BlockId>, t: Tags)
    requires Sized(p, t) && DiscoveryOrder(p.ops, p.code, live)
  {
    forall i, k :: 0 <= i < |live| && 0 <= k < |live| && Above(p.ops, p.code, live, i, k) && Emits(p, unsafeOpt, live[k]) ==>
      t.tag[live[i]] != OutTag(p, unsafeOpt, live[k])
  }

  /** The first n discovered blocks have been visited. */
  ghost predicate Visited(p: Program, live: seq<BlockId>, t: Tags, n: nat)
    requires Sized(p, t)
  {
    forall i :: 0 <= i < n && i < |live| && live[i] < |p.code| && Succ(p.ops, p.code, live[i]) != [] ==> t.out[live[i]] != NoVal
  }

  ghost predicate TagInv(p: Program, unsafeOpt: bool, live: seq<BlockId>, t: Tags, n: nat) {
    && DiscoveryOrder(p.ops, p.code, live) && Sized(p, t)
    && OutOk(p, unsafeOpt, live, t) && NotOwn(p, unsafeOpt, live, t) && Visited(p, live, t, n)
  }

  function Update(t: Tags, b: BlockId, m: OpId): Tags
    requires b < |t.tag| && b < |t.out|
  {
    Tags(t.tag[b := m], if t.tag[b] == t.out[b] then t.out[b := m] else t.out)
  }

  lemma AncestorOut(p: Program, unsafeOpt: bool, live: seq<BlockId>, t: Tags, n: nat, i: nat, k: nat)
    requires Placed(p) && LiveExact(p.ops, p.code, live) && TagInv(p, unsafeOpt, live, t, n)
    requires i < k < |live| && Above(p.ops, p.code, live, i, k) && Emits(p, unsafeOpt, live[k])
    requires Succ(p.ops, p.code, live[i]) != []
    ensures t.out[live[i]] != OutTag(p, unsafeOpt, live[k])
  {
    var a, b := live[i], live[k];
    assert a in live && b in live && LiveBlock(p.ops, p.code, b) && LiveBlock(p.ops, p.code, a);
    LocalTagIs(p, unsafeOpt, b, |p.code[b]|);
    if OutTag(p, unsafeOpt, a) != NoVal {
      LocalTagIs(p, unsafeOpt, a, |p.code[a]|);
    }
  }

  /** The version that block live[k] gets: the one its discoverer hands on, or a new one. */
  lemma MergeSeesParent(p: Program, unsafeOpt: bool, live: seq<BlockId>, comeFrom: seq<seq<BlockId>>,
                        t: Tags, n: nat, k: nat, m: OpId)
    requires CfgBuilt(p.ops, p.code, live, comeFrom) && TagInv(p, unsafeOpt, live, t, n)
    requires 0 < k < |live| && k <= n && live[k] < |p.code| && p.code[live[k]] != []
    requires forall i :: 0 <= i < |comeFrom[live[k]]| ==> comeFrom[live[k]][i] < |t.out|
    requires IsMerge(comeFrom[live[k]], t.out, p.code[live[k]][|p.code[live[k]]| - 1], m)
    ensures var a := live[Parent(p.ops, p.code, live, k)];
            && Succ(p.ops, p.code, a) != [] && t.out[a] != NoVal
            && (m == t.out[a] || m == p.code[live[k]][|p.code[live[k]]| - 1])
  {
    var j := Parent(p.ops, p.code, live, k);
    var a, b := live[j], live[k];
    assert a in live && b in live && a in comeFrom[b];
    var i :| 0 <= i < |comeFrom[b]| && comeFrom[b][i] == a;
    assert t.out[comeFrom[b][i]] != NoVal;
  }

  /** A merge is never named after an op that the block hands on. */
  lemma MergeIsNotOwn(p: Program, unsafeOpt: bool, live: seq<BlockId>, b: BlockId, c: BlockId)
    requires Placed(p) && LiveExact(p.ops, p.code, live) && b in live && c in live
    requires Emits(p, unsafeOpt, c) && b < |p.code| && p.code[b] != []
    ensures p.code[b][|p.code[b]| - 1] != OutTag(p, unsafeOpt, c)
  {
    assert LiveBlock(p.ops, p.code, b) && LiveBlock(p.ops, p.code, c);
    LocalTagIs(p, unsafeOpt, c, |p.code[c]|);
    assert PlacedAt(p, b, |p.code[b]| - 1);
  }

  /** The new version differs from whatever the block and those found through it emit. */
  lemma NewTagNotOwn(p: Program, unsafeOpt: bool, live: seq<BlockId>, comeFrom: seq<seq<BlockId>>,
                     t: Tags, n: nat, k: nat, m: OpId, d: nat)
    requires Placed(p) && CfgBuilt(p.ops, p.code, live, comeFrom) && EntryOk(p, unsafeOpt, comeFrom)
    requires TagInv(p, unsafeOpt, live, t, n) && k < |live| && k <= n
    requires live[k] < |p.code| && p.code[live[k]] != []
    requires forall i :: 0 <= i < |comeFrom[live[k]]| ==> comeFrom[live[k]][i] < |t.out|
    requires IsMerge(comeFrom[live[k]], t.out, p.code[live[k]][|p.code[live[k]]| - 1], m)
    requires d < |live| && Above(p.ops, p.code, live, k, d) && Emits(p, unsafeOpt, live[d])
    ensures m != OutTag(p, unsafeOpt, live[d])
  {
    if k > 0 {
      MergeSeesParent(p, unsafeOpt, live, comeFrom, t, n, k, m);
      ParentAbove(p.ops, p.code, live, k, d);
      AncestorOut(p, unsafeOpt, live, t, n, Parent(p.ops, p.code, live, k), d);
      MergeIsNotOwn(p, unsafeOpt, live, live[k], live[d]);
    }
  }

  lemma UpdateKeeps(p: Program, unsafeOpt: bool, live: seq<BlockId>, comeFrom: seq<seq<BlockId>>,
                    t: Tags, n: nat, k: nat, m: OpId)
    requires Placed(p) && CfgBuilt(p.ops, p.code, live, comeFrom) && EntryOk(p, unsafeOpt, comeFrom)
    requires TagInv(p, unsafeOpt, live, t, n) && k < |live| && k <= n
    requires live[k] < |p.code| && p.code[live[k]] != []
    requires forall i :: 0 <= i < |comeFrom[live[k]]| ==> comeFrom[live[k]][i] < |t.out|
    requires IsMerge(comeFrom[live[k]], t.out, p.code[live[k]][|p.code[live[k]]| - 1], m)
    ensures TagInv(p, unsafeOpt, live, Update(t, live[k], m), if k < n then n else n + 1)
    ensures k > 0 ==> m != NoVal
  {
    var b, u := live[k], Update(t, live[k], m);
    forall d: nat | d < |live| && Above(p.ops, p.code, live, k, d) && Emits(p, unsafeOpt, live[d])
      ensures m != OutTag(p, unsafeOpt, live[d])
    {
      NewTagNotOwn(p, unsafeOpt, live, comeFrom, t, n, k, m, d);
    }
    if k > 0 {
      MergeSeesParent(p, unsafeOpt, live, comeFrom, t, n, k, m);
      assert b in live;
      LastIsOp(p, live, b);
    }
    UpdateKeepsTree(p, unsafeOpt, live, t, n, k, m);
  }

  lemma UpdateKeepsOut(p: Program, unsafeOpt: bool, live: seq<BlockId>, t: Tags, k: nat, m: OpId)
    requires DiscoveryOrder(p.ops, p.code, live) && Sized(p, t) && k < |live| && live[k] < |p.code|
    requires OutOk(p, unsafeOpt, live, t) && NotOwn(p, unsafeOpt, live, t)
    ensures OutOk(p, unsafeOpt, live, Update(t, live[k], m))
  {
    assert Above(p.ops, p.code, live, k, k);
  }

  /** The bookkeeping of one assignment, given what the new version is not. */
  lemma UpdateKeepsTree(p: Program, unsafeOpt: bool, live: seq<BlockId>, t: Tags, n: nat, k: nat, m: OpId)
    requires TagInv(p, unsafeOpt, live, t, n) && k < |live| && k <= n && live[k] < |p.code|
    requires m == NoVal ==> OutTag(p, unsafeOpt, live[k]) != NoVal
    requires forall d: nat :: d < |live| && Above(p.ops, p.code, live, k, d) && Emits(p, unsafeOpt, live[d]) ==>
               m != OutTag(p, unsafeOpt, live[d])
    ensures TagInv(p, unsafeOpt, live, Update(t, live[k], m), if k < n then n else n + 1)
  {
    var b, u := live[k], Update(t, live[k], m);
    assert Above(p.ops, p.code, live, k, k);
    UpdateKeepsOut(p, unsafeOpt, live, t, k, m);
    forall i, d | 0 <= i < |live| && 0 <= d < |live| && Above(p.ops, p.code, live, i, d) && Emits(p, unsafeOpt, live[d])
      ensures u.tag[live[i]] != OutTag(p, unsafeOpt, live[d])
    {
      if i != k {
        assert live[i] != live[k];
      }
    }
  }

  lemma LastIsOp(p: Program, live: seq<BlockId>, b: BlockId)
    requires Placed(p) && LiveExact(p.ops, p.code, live) && b in live && b < |p.code| && p.code[b] != []
    ensures p.code[b][|p.code[b]| - 1] < |p.ops|
  {
    assert LiveBlock(p.ops, p.code, b) && EndsOk(p.ops, p.code, b);
  }

  // ---- the passes ---------------------------------------------------------------------

  ghost predicate MergedAt(p: Program, comeFrom: seq<seq<BlockId>>, t: Tags, b: BlockId) {
    && b < |p.code| && p.code[b] != [] && b < |t.tag| && b < |comeFrom|
    && (forall k :: 0 <= k < |comeFrom[b]| ==> comeFrom[b][k] < |t.out|)
    && IsMerge(comeFrom[b], t.out, p.code[b][|p.code[b]| - 1], t.tag[b])
  }

  /** What holds when a sweep changes nothing. */
  ghost predicate Solved(p: Program, unsafeOpt: bool, live: seq<BlockId>, comeFrom: seq<seq<BlockId>>, t: Tags) {
    && TagInv(p, unsafeOpt, live, t, |live|)
    && forall b :: b in live ==> MergedAt(p, comeFrom, t, b)
  }

  /** One visit to b: its incoming version becomes the merge of what its predecessors hand on,
      and if it handed on the old one it hands on the new one. */
  ghost predicate Visit(p: Program, comeFrom: seq<seq<BlockId>>, t: Tags, u: Tags, b: BlockId) {
    && b < |t.tag| && |t.out| == |t.tag| == |u.tag| && MergedAt(p, comeFrom, Tags(u.tag, t.out), b)
    && u == Tags(t.tag[b := u.tag[b]], if t.tag[b] == t.out[b] then t.out[b := u.tag[b]] else t.out)
  }

  /** The visits to the first k live blocks, one after another. */
  ghost predicate Visits(p: Program, live: seq<BlockId>, comeFrom: seq<seq<BlockId>>, ts: seq<Tags>, k: nat)
    requires k <= |live|
  {
    |ts| == k + 1 && forall i :: 0 <= i < k ==> Visit(p, comeFrom, ts[i], ts[i + 1], live[i])
  }

  ghost predicate Swept(p: Program, live: seq<BlockId>, comeFrom: seq<seq<BlockId>>, t: Tags, u: Tags) {
    exists ts :: Visits(p, live, comeFrom, ts, |live|) && ts[0] == t && ts[|live|] == u
  }

  /** Sweep after sweep, each of which changes something but perhaps the last one. */
  ghost predicate Sweeps(p: Program, live: seq<BlockId>, comeFrom: seq<seq<BlockId>>, ts: seq<Tags>) {
    && ts != []
    && (forall i :: 0 <= i < |ts| - 1 ==> Swept(p, live, comeFrom, ts[i], ts[i + 1]))
    && forall i :: 0 <= i < |ts| - 2 ==> ts[i] != ts[i + 1]
  }

  /** Nothing has come in yet, and every block hands on its own last version. */
  ghost predicate Unvisited(p: Program, unsafeOpt: bool, live: seq<BlockId>, t: Tags) {
    Sized(p, t) && forall b :: b in live && b < |p.code| ==> t.tag[b] == NoVal && t.out[b] == OutTag(p, unsafeOpt, b)
  }

  /** Every load carries the version its own block gives it, NoVal if none. */
  ghost predicate LoadsTagged(p: Program, unsafeOpt: bool, live: seq<BlockId>, opTag: seq<OpId>) {
    && |opTag| == |p.ops|
    && forall b, j :: b in live && b < |p.code| && 0 <= j < |p.code[b]| && p.code[b][j] < |p.ops|
         && p.ops[p.code[b][j]].HasMemTag()
         ==> opTag[p.code[b][j]] == LocalTag(p.ops, p.code[b], unsafeOpt, j)
  }

  /** Scan one block for its own versions. */
  method ScanBlock(p: Program, unsafeOpt: bool, b: BlockId, opTag0: seq<OpId>) returns (opTag: seq<OpId>, tag: OpId)
    requires b < |p.code| && |opTag0| == |p.ops|
    requires forall j :: 0 <= j < |p.code[b]| ==> p.code[b][j] < |p.ops|
    requires forall i, j :: 0 <= i < j < |p.code[b]| ==> p.code[b][i] != p.code[b][j]
    ensures |opTag| == |opTag0| && tag == OutTag(p, unsafeOpt, b)
    ensures forall v :: 0 <= v < |opTag| && v !in p.code[b] ==> opTag[v] == opTag0[v]
    ensures forall j :: 0 <= j < |p.code[b]| && p.ops[p.code[b][j]].HasMemTag() ==>
              opTag[p.code[b][j]] == LocalTag(p.ops, p.code[b], unsafeOpt, j)
  {
    opTag, tag := opTag0, NoVal;
    for j := 0 to |p.code[b]|
      invariant |opTag| == |opTag0| && tag == LocalTag(p.ops, p.code[b], unsafeOpt, j)
      invariant forall v :: 0 <= v < |opTag| && v !in p.code[b] ==> opTag[v] == opTag0[v]
      invariant forall i :: 0 <= i < j && p.ops[p.code[b][i]].HasMemTag() ==>
        opTag[p.code[b][i]] == LocalTag(p.ops, p.code[b], unsafeOpt, i)
    {
      var c := p.code[b][j];
      assert c in p.code[b];
      if NewVersion(p.ops[c], unsafeOpt) { tag := c; }
      if p.ops[c].HasMemTag() { opTag := opTag[c := tag]; }
    }
  }

  lemma CodeDistinct(p: Program, live: seq<BlockId>, b: BlockId)
    requires Placed(p) && LiveExact(p.ops, p.code, live) && b in live
    ensures b < |p.code| && p.code[b] != []
    ensures forall j :: 0 <= j < |p.code[b]| ==> p.code[b][j] < |p.ops| && p.ops[p.code[b][j]].block == b
    ensures forall i, j :: 0 <= i < j < |p.code[b]| ==> p.code[b][i] != p.code[b][j]
  {
    assert LiveBlock(p.ops, p.code, b) && EndsOk(p.ops, p.code, b);
    forall j: nat | j < |p.code[b]|
      ensures p.code[b][j] < |p.ops| && p.ops[p.code[b][j]].block == b && p.ops[p.code[b][j]].pos == j
    {
      assert PlacedAt(p, b, j);
    }
  }

  method ScanBlocks(proc: Proc, unsafeOpt: bool)
    requires proc.Shape() && Placed(proc.prog)
    requires CfgBuilt(proc.prog.ops, proc.prog.code, proc.live, proc.comeFrom)
    modifies proc`memtag, proc`memout, proc`opTag
    ensures proc.Shape()
    ensures LoadsTagged(proc.prog, unsafeOpt, proc.live, proc.opTag)
    ensures TagInv(proc.prog, unsafeOpt, proc.live, Tags(proc.memtag, proc.memout), 0)
    ensures Unvisited(proc.prog, unsafeOpt, proc.live, Tags(proc.memtag, proc.memout))
  {
    var p, live := proc.prog, proc.live;
    var tag: seq<OpId>, out: seq<OpId>, opTag: seq<OpId> := proc.memtag, proc.memout, proc.opTag;
    for i := 0 to |live|
      invariant |tag| == |out| == |p.code| && |opTag| == |p.ops|
      invariant forall b :: b in live[..i] && b < |p.code| ==> tag[b] == NoVal && out[b] == OutTag(p, unsafeOpt, b)
      invariant LoadsTagged(p, unsafeOpt, live[..i], opTag)
    {
      var b := live[i];
      assert b in live && b !in live[..i] && live[..i + 1] == live[..i] + [b];
      CodeDistinct(p, live, b);
      forall a | a in live[..i] ensures a < |p.code| && forall j :: 0 <= j < |p.code[a]| ==> p.code[a][j] !in p.code[b] {
        CodeDistinct(p, live, a);
      }
      var local: OpId;
      opTag, local := ScanBlock(p, unsafeOpt, b, opTag);
      tag, out := tag[b := NoVal], out[b := local];
    }
    assert live[..|live|] == live;
    proc.memtag, proc.memout, proc.opTag := tag, out, opTag;
  }

  lemma FromInRange(p: Program, live: seq<BlockId>, comeFrom: seq<seq<BlockId>>, b: BlockId)
    requires CfgBuilt(p.ops, p.code, live, comeFrom) && b in live
    ensures b < |comeFrom| && forall k :: 0 <= k < |comeFrom[b]| ==> comeFrom[b][k] < |p.code| && comeFrom[b][k] in live
  {
    forall k | 0 <= k < |comeFrom[b]| ensures comeFrom[b][k] in live {
      assert comeFrom[b][k] in comeFrom[b];
    }
  }

  /** Recompute the incoming version of one block. */
  method VisitBlock(p: Program, unsafeOpt: bool, live: seq<BlockId>, comeFrom: seq<seq<BlockId>>,
                    t: Tags, ghost n: nat, k: nat) returns (u: Tags, changed: bool)
    requires Placed(p) && CfgBuilt(p.ops, p.code, live, comeFrom) && EntryOk(p, unsafeOpt, comeFrom)
    requires TagInv(p, unsafeOpt, live, t, n) && k < |live| && k <= n
    ensures TagInv(p, unsafeOpt, live, u, if k < n then n else n + 1)
    ensures !changed ==> u == t && MergedAt(p, comeFrom, u, live[k])
    ensures Visit(p, comeFrom, t, u, live[k]) && (changed ==> u.tag[live[k]] != t.tag[live[k]])
  {
    var b := live[k];
    assert b in live;
    CodeDistinct(p, live, b);
    FromInRange(p, live, comeFrom, b);
    var m := Merge(comeFrom[b], t.out, p.code[b][|p.code[b]| - 1]);
    UpdateKeeps(p, unsafeOpt, live, comeFrom, t, n, k, m);
    changed := t.tag[b] != m;
    u := Tags(t.tag[b := m], if t.tag[b] == t.out[b] then t.out[b := m] else t.out);
  }

  /** One round over all live blocks. */
  method Sweep(proc: Proc, unsafeOpt: bool, ghost n: nat) returns (progress: bool)
    requires proc.Shape() && Placed(proc.prog)
    requires CfgBuilt(proc.prog.ops, proc.prog.code, proc.live, proc.comeFrom)
    requires EntryOk(proc.prog, unsafeOpt, proc.comeFrom) && n in {0, |proc.live|}
    requires TagInv(proc.prog, unsafeOpt, proc.live, Tags(proc.memtag, proc.memout), n)
    modifies proc`memtag, proc`memout
    ensures proc.Shape()
    ensures TagInv(proc.prog, unsafeOpt, proc.live, Tags(proc.memtag, proc.memout), |proc.live|)
    ensures !progress ==> Solved(proc.prog, unsafeOpt, proc.live, proc.comeFrom, Tags(proc.memtag, proc.memout))
    ensures Swept(proc.prog, proc.live, proc.comeFrom, old(Tags(proc.memtag, proc.memout)), Tags(proc.memtag, proc.memout))
    ensures progress <==> Tags(proc.memtag, proc.memout) != old(Tags(proc.memtag, proc.memout))
  {
    progress := false;
    var t := Tags(proc.memtag, proc.memout);
    t, progress := SweepTags(proc.prog, unsafeOpt, proc.live, proc.comeFrom, t, n);
    proc.memtag, proc.memout := t.tag, t.out;
  }

  method SweepTags(p: Program, unsafeOpt: bool, live: seq<BlockId>, comeFrom: seq<seq<BlockId>>, t0: Tags, ghost n: nat)
    returns (t: Tags, progress: bool)
    requires Placed(p) && CfgBuilt(p.ops, p.code, live, comeFrom) && EntryOk(p, unsafeOpt, comeFrom)
    requires TagInv(p, unsafeOpt, live, t0, n) && n in {0, |live|}
    ensures TagInv(p, unsafeOpt, live, t, |live|)
    ensures !progress ==> Solved(p, unsafeOpt, live, comeFrom, t)
    ensures Swept(p, live, comeFrom, t0, t) && (progress <==> t != t0)
  {
    t, progress := t0, false;
    ghost var ts := [t0];
    for k := 0 to |live|
      invariant TagInv(p, unsafeOpt, live, t, if n == 0 then k else n)
      invariant !progress ==> forall i :: 0 <= i < k ==> MergedAt(p, comeFrom, t, live[i])
      invariant Sweeping(p, live, comeFrom, t0, t, ts, k, progress)
    {
      var changed;
      ghost var before := t;
      t, changed := VisitBlock(p, unsafeOpt, live, comeFrom, t, if n == 0 then k else n, k);
      VisitCounts(p, live, comeFrom, t0, before, t, ts, k, progress);
      ts := ts + [t];
      if changed { progress := true; }
    }
  }

  /** The k visits so far; blocks to come are as they were. */
  ghost predicate Sweeping(p: Program, live: seq<BlockId>, comeFrom: seq<seq<BlockId>>, t0: Tags, t: Tags, ts: seq<Tags>,
                           k: nat, progress: bool)
    requires k <= |live|
  {
    && Visits(p, live, comeFrom, ts, k) && ts[0] == t0 && ts[k] == t && |t.tag| == |t0.tag|
    && (progress <==> t != t0) && (progress ==> t.tag != t0.tag)
    && forall i :: k <= i < |live| && live[i] < |t.tag| ==> t.tag[live[i]] == t0.tag[live[i]]
  }

  /** A block is visited once in a sweep: what has changed stays changed. */
  lemma VisitCounts(p: Program, live: seq<BlockId>, comeFrom: seq<seq<BlockId>>, t0: Tags, t: Tags, u: Tags, ts: seq<Tags>,
                    k: nat, progress: bool)
    requires NoDup(live) && k < |live| && Visit(p, comeFrom, t, u, live[k]) && Sweeping(p, live, comeFrom, t0, t, ts, k, progress)
    ensures Sweeping(p, live, comeFrom, t0, u, ts + [u], k + 1, progress || u.tag[live[k]] != t.tag[live[k]])
  {
    var b, us := live[k], ts + [u];
    forall i | 0 <= i < k + 1 ensures Visit(p, comeFrom, us[i], us[i + 1], live[i]) {
      if i < k {
        assert us[i] == ts[i] && us[i + 1] == ts[i + 1];
      }
    }
    if u.tag[b] != t.tag[b] {
      assert u.tag[b] != t0.tag[b];
    } else {
      assert u.tag == t.tag && u.out == t.out;
    }
    if t.tag != t0.tag {
      var c :| 0 <= c < |t.tag| && t.tag[c] != t0.tag[c];
      assert c != b && u.tag[c] == t.tag[c];
    }
  }

  /** One more sweep. */
  lemma SweepsMore(p: Program, live: seq<BlockId>, comeFrom: seq<seq<BlockId>>, ts: seq<Tags>, t: Tags)
    requires Sweeps(p, live, comeFrom, ts) && Swept(p, live, comeFrom, ts[|ts| - 1], t)
    requires |ts| > 1 ==> ts[|ts| - 2] != ts[|ts| - 1]
    ensures Sweeps(p, live, comeFrom, ts + [t])
  {
    var us := ts + [t];
    forall i | 0 <= i < |us| - 1 ensures Swept(p, live, comeFrom, us[i], us[i + 1]) {
      if i < |ts| - 1 {
        assert us[i] == ts[i] && us[i + 1] == ts[i + 1];
      }
    }
  }

  /** rebuild_memtags, given up after `rounds` sweeps; it has converged when a sweep made no
      progress. All that happens are the sweeps in ts. */
  method RebuildMemtags(proc: Proc, unsafeOpt: bool, rounds: nat) returns (converged: bool, ghost ts: seq<Tags>)
    requires proc.Shape() && Placed(proc.prog)
    requires CfgBuilt(proc.prog.ops, proc.prog.code, proc.live, proc.comeFrom)
    requires EntryOk(proc.prog, unsafeOpt, proc.comeFrom)
    modifies proc`memtag, proc`memout, proc`opTag
    ensures proc.Shape() && LoadsTagged(proc.prog, unsafeOpt, proc.live, proc.opTag)
    ensures converged ==> Solved(proc.prog, unsafeOpt, proc.live, proc.comeFrom, Tags(proc.memtag, proc.memout))
    ensures Sweeps(proc.prog, proc.live, proc.comeFrom, ts) && Unvisited(proc.prog, unsafeOpt, proc.live, ts[0])
    ensures Tags(proc.memtag, proc.memout) == ts[|ts| - 1]
    ensures converged <==> |ts| > 1 && ts[|ts| - 2] == ts[|ts| - 1]
    ensures |ts| <= rounds + 1 && (!converged ==> |ts| == rounds + 1)
  {
    ScanBlocks(proc, unsafeOpt);
    ghost var opTag := proc.opTag;
    var left := rounds;
    var progress := true;
    ghost var n := 0;
    ts := [Tags(proc.memtag, proc.memout)];
    while progress && left > 0
      invariant proc.Shape() && proc.opTag == opTag && n in {0, |proc.live|}
      invariant TagInv(proc.prog, unsafeOpt, proc.live, Tags(proc.memtag, proc.memout), n)
      invariant !progress ==> Solved(proc.prog, unsafeOpt, proc.live, proc.comeFrom, Tags(proc.memtag, proc.memout))
      invariant Sweeps(proc.prog, proc.live, proc.comeFrom, ts) && Unvisited(proc.prog, unsafeOpt, proc.live, ts[0])
      invariant Tags(proc.memtag, proc.memout) == ts[|ts| - 1] && |ts| == rounds + 1 - left
      invariant !progress <==> |ts| > 1 && ts[|ts| - 2] == ts[|ts| - 1]
    {
      progress := Sweep(proc, unsafeOpt, n);
      SweepsMore(proc.prog, proc.live, proc.comeFrom, ts, Tags(proc.memtag, proc.memout));
      ts := ts + [Tags(proc.memtag, proc.memout)];
      n := |proc.live|;
      left := left - 1;
    }
    converged := !progress;
  }
}
