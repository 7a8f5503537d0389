/** Which ops end up flagged to be stored in their slot after the jumpShuffle lambda
    (src/opt-ra.cpp) has emitted code that reloads some and recomputes others. */
module SpillFlags {
  import opened ShuffleState
  import opened ShuffleSpec

  /** A reload flags its op; recomputing a phi clears the flag again. */
  ghost function FlagsAfter(ops: seq<RaOp>, code: seq<OpId>, spill: set<OpId>): set<OpId> {
    if code == [] then spill
    else
      var n := |code| - 1;
      var before := FlagsAfter(ops, code[..n], spill);
      if Loads(ops, code[n]).Some? then before + {Loads(ops, code[n]).v}
      else if Clears(ops, code[n]).Some? then before - {Clears(ops, code[n]).v}
      else before
  }

  datatype Target = None | Some(v: OpId)

  function Loads(ops: seq<RaOp>, c: OpId): Target {
    if c < |ops| && ops[c].origin.Load? then Some(ops[c].origin.src) else None
  }

  function Clears(ops: seq<RaOp>, c: OpId): Target {
    if c < |ops| && ops[c].origin.Remat? && ops[c].origin.src < |ops| && ops[ops[c].origin.src].isPhi
    then Some(ops[c].origin.src)
    else None
  }

  lemma {:induction false} FlagsStable(ops: seq<RaOp>, ops': seq<RaOp>, code: seq<OpId>, spill: set<OpId>)
    requires ops <= ops' && forall i :: 0 <= i < |code| ==> code[i] < |ops|
    requires forall v :: 0 <= v < |ops| && ops[v].origin.Remat? ==> ops[v].origin.src < |ops|
    ensures FlagsAfter(ops', code, spill) == FlagsAfter(ops, code, spill)
  {
    if code != [] {
      FlagsStable(ops, ops', code[..|code| - 1], spill);
    }
  }

  lemma {:induction false} MovesFlagNothing(ops: seq<RaOp>, code: seq<OpId>, spill: set<OpId>)
    requires forall i :: 0 <= i < |code| && code[i] < |ops| ==> ops[code[i]].origin.Move?
    ensures FlagsAfter(ops, code, spill) == spill
  {
    if code != [] {
      MovesFlagNothing(ops, code[..|code| - 1], spill);
    }
  }

  lemma RestoreFlags(k: Goal, st: Regs, at: nat, op: RaOp, spill: set<OpId>)
    requires op.origin.Load? || op.origin.Remat?
    requires Base(k, st) && at < |st.t| && op.origin.src < |st.ops|
    ensures var before, v := FlagsAfter(st.ops, st.code, spill), op.origin.src;
            var next := RestoreTo(st, at, op);
            FlagsAfter(next.ops, next.code, spill) ==
              if op.origin.Load? then before + {v} else if st.ops[v].isPhi then before - {v} else before
  {
    var next := RestoreTo(st, at, op);
    forall v | 0 <= v < |st.ops| && st.ops[v].origin.Remat? ensures st.ops[v].origin.src < |st.ops| {
      assert Emitted(k.o, st.ops, v);
    }
    FlagsStable(st.ops, next.ops, st.code, spill);
    assert next.code[..|st.code|] == st.code;
  }

  /** v is reloaded at or after position i. */
  ghost predicate ReloadedFrom(ops: seq<RaOp>, code: seq<OpId>, v: OpId, i: nat) {
    exists j: nat :: i <= j < |code| && Loads(ops, code[j]) == Some(v)
  }

  ghost predicate ClearedAt(ops: seq<RaOp>, code: seq<OpId>, v: OpId, i: nat) {
    i < |code| && Clears(ops, code[i]) == Some(v)
  }

  /** An op that was flagged or is reloaded stays flagged exactly if every recomputation of it
      is followed by a reload; otherwise its slot is read but never written. */
  lemma {:induction false} FlagsExact(ops: seq<RaOp>, code: seq<OpId>, spill: set<OpId>, v: OpId)
    ensures v in FlagsAfter(ops, code, spill) <==>
              && (v in spill || ReloadedFrom(ops, code, v, 0))
              && forall i: nat :: ClearedAt(ops, code, v, i) ==> ReloadedFrom(ops, code, v, i)
  {
    if code != [] {
      var n := |code| - 1;
      var pre := code[..n];
      FlagsExact(ops, pre, spill, v);
      assert forall i: nat :: ClearedAt(ops, pre, v, i) <==> i < n && ClearedAt(ops, code, v, i);
      if Loads(ops, code[n]) == Some(v) {
        assert forall i: nat :: i <= n ==> ReloadedFrom(ops, code, v, i);
      } else {
        assert forall i: nat :: ReloadedFrom(ops, code, v, i) <==> ReloadedFrom(ops, pre, v, i);
        if Clears(ops, code[n]) == Some(v) {
          assert ClearedAt(ops, code, v, n) && !ReloadedFrom(ops, code, v, n);
        }
      }
    }
  }

  /** Just what the restores of the first t registers reload is reloaded by the code. */
  ghost predicate LoadsMatch(mid: Regs, root: seq<OpId>, st: Regs, t: nat)
    requires |mid.s| == |mid.t|
  {
    forall v :: ReloadedFrom(st.ops, st.code, v, 0) <==> Reloaded(mid, root, v, 0, t)
  }

  lemma MovesLoadNothing(k: Goal, st: Regs, root: seq<OpId>)
    requires Base(k, st) && NoReloads(st) && |st.s| == |st.t|
    ensures LoadsMatch(st, root, st, 0)
  {
  }

  lemma LoadsStep(mid: Regs, root: seq<OpId>, st: Regs, t: nat, op: RaOp)
    requires |mid.s| == |mid.t| == |st.s| == |st.t| && t < |mid.t| && mid.t == st.t && LoadsMatch(mid, root, st, t)
    requires forall i :: 0 <= i < |st.code| ==> st.code[i] < |st.ops|
    requires op.origin.Load? || op.origin.Remat?
    requires op.origin.Load? ==> op.origin.src == st.t[t]
    requires op.origin.Load? <==> Reloads(mid, root, t)
    ensures LoadsMatch(mid, root, RestoreTo(st, t, op), t + 1)
  {
    var next, n := RestoreTo(st, t, op), |st.code|;
    forall v ensures ReloadedFrom(next.ops, next.code, v, 0) <==> Reloaded(mid, root, v, 0, t + 1) {
      LoadsAppend(st, next, op, v);
      assert Reloaded(mid, root, v, 0, t + 1) <==> Reloaded(mid, root, v, 0, t) || (Reloads(mid, root, t) && mid.t[t] == v);
    }
  }

  lemma LoadsAppend(st: Regs, next: Regs, op: RaOp, v: OpId)
    requires next.ops == st.ops + [op] && next.code == st.code + [|st.ops|]
    requires forall i :: 0 <= i < |st.code| ==> st.code[i] < |st.ops|
    ensures ReloadedFrom(next.ops, next.code, v, 0) <==> ReloadedFrom(st.ops, st.code, v, 0) || op.origin == Load(v)
  {
    var n := |st.code|;
    if ReloadedFrom(st.ops, st.code, v, 0) {
      var j: nat :| j < n && Loads(st.ops, st.code[j]) == Some(v);
      assert Loads(next.ops, next.code[j]) == Some(v);
    }
    if op.origin == Load(v) {
      assert Loads(next.ops, next.code[n]) == Some(v);
    }
  }

  lemma LoadsSkip(mid: Regs, root: seq<OpId>, st: Regs, t: nat)
    requires |mid.s| == |mid.t| && t < |mid.t| && InPlace(mid, t) && LoadsMatch(mid, root, st, t)
    ensures LoadsMatch(mid, root, st, t + 1)
  {
    forall v ensures Reloaded(mid, root, v, 0, t + 1) <==> Reloaded(mid, root, v, 0, t) {
    }
  }
}
