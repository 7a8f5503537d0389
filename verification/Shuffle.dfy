/** The jumpShuffle lambda of Proc::allocRegs (src/opt-ra.cpp): resolve the parallel move on
    one edge with free moves, cycle breakers, reloads and recomputation. */
module Shuffle {
  import opened RenameMap
  import opened Words
  import opened ShuffleState
  import opened ShuffleSpec
  import opened SpillFlags

  datatype PhiAlt = PhiAlt(phi: OpId, src: nat, val: OpId)

  class EdgeShuffle {
    const sregs: array<OpId>      // the value in each register now
    const tregs: array<OpId>      // the value each register must end up with
    const root: seq<OpId>         // what each original op is after looking through degenerate phis
    ghost const head: seq<OpId>   // the block's code before the shuffle
    const jump: OpId              // the jump that ends it
    var ops: seq<RaOp>
    var code: seq<OpId>           // the code of the block that gets the shuffle, jump last
    var rename: seq<Entry>
    var spill: set<OpId>          // ops flagged to be stored in their slot
    ghost var st: Regs

    /** Copies of the registers out of the source block and into the target. */
    constructor (ops: seq<RaOp>, root: seq<OpId>, regsOut: seq<OpId>, regsIn: seq<OpId>, code: seq<OpId>, spill: set<OpId>)
      requires |regsOut| == |regsIn| && code != []
      ensures Shape() && fresh(sregs) && fresh(tregs)
      ensures st == Regs(ops, regsOut, regsIn, [], [])
      ensures this.root == root && this.spill == spill && head + [jump] == code
    {
      var n := |regsOut|;
      sregs := new OpId[n](i requires 0 <= i < n => regsOut[i]);
      tregs := new OpId[n](i requires 0 <= i < n => regsIn[i]);
      this.ops, this.root, this.code, this.spill := ops, root, code, spill;
      head, jump, rename := code[..|code| - 1], code[|code| - 1], [];
      st := Regs(ops, regsOut, regsIn, [], []);
      new;
      assert sregs[..] == regsOut;
      assert tregs[..] == regsIn;
    }

    /** The ghost view of all mutable parts. */
    ghost predicate Shape()
      reads this, sregs, tregs
    {
      && sregs != tregs && sregs.Length == tregs.Length
      && st == Regs(ops, sregs[..], tregs[..], st.code, rename)
      && code == head + st.code + [jump]
    }

    // ---- setup ------------------------------------------------------------------------

    /** Phis that have a register want their alternative for this edge in it. */
    method TakeAlts(alts: seq<PhiAlt>, b: nat)
      requires Shape()
      requires forall i :: 0 <= i < |alts| ==> alts[i].phi < |ops|
      modifies tregs, this`st
      ensures Shape() && st == old(st).(t := Wanted(ops, old(st.t), alts, b))
      ensures forall r: nat, i: nat :: r < |st.t| && LastFor(ops, alts, b, r, i) ==> st.t[r] == alts[i].val
      ensures forall r: nat :: r < |st.t| && Unserved(ops, alts, b, r) ==> st.t[r] == old(st.t[r])
    {
      for i := 0 to |alts|
        invariant tregs[..] == Wanted(ops, old(st.t), alts[..i], b) && st == old(st)
      {
        var s := alts[i];
        assert alts[..i + 1][..i] == alts[..i] && alts[..i + 1][i] == s;
        if s.src != b { continue; }
        if ops[s.phi].reg >= tregs.Length { continue; }
        tregs[ops[s.phi].reg] := s.val;
      }
      assert alts[..|alts|] == alts;
      WantedIs(ops, old(st.t), alts, b);
      st := st.(t := tregs[..]);
    }

    /** Throw away source registers that the target does not need. */
    method DropUnneeded()
      requires Shape()
      modifies sregs, this`st
      ensures Shape() && st == old(st).(s := Needed(old(st.s), st.t))
    {
      for s := 0 to sregs.Length
        invariant st == old(st)
        invariant forall r :: 0 <= r < sregs.Length ==>
          sregs[r] == if r < s && old(sregs[r]) !in tregs[..] then NoVal else old(sregs[r])
      {
        if sregs[s] == NoVal { continue; }
        var found := Finds(sregs[s]);
        if !found { sregs[s] := NoVal; }
      }
      assert sregs[..] == Needed(old(st.s), st.t);
      st := st.(s := sregs[..]);
    }

    method Finds(v: OpId) returns (found: bool)
      ensures found <==> v in tregs[..]
    {
      for t := 0 to tregs.Length
        invariant v !in tregs[..t]
      {
        assert tregs[..t + 1] == tregs[..t] + [tregs[t]];
        if tregs[t] != v { continue; }
        return true;
      }
      assert tregs[..tregs.Length] == tregs[..];
      return false;
    }

    // ---- moves ------------------------------------------------------------------------

    /** Insert an op before the jump that ends the block. */
    method Emit(op: RaOp) returns (rr: OpId)
      requires Shape()
      modifies this`ops, this`code, this`st
      ensures rr == |old(ops)|
      ensures Shape() && st == old(st).(ops := old(st.ops) + [op], code := old(st.code) + [rr])
    {
      rr := |ops|;
      ops := ops + [op];
      var back := code[|code| - 1];
      code := code[|code| - 1 := rr];
      code := code + [back];
      st := st.(ops := ops, code := st.code + [rr]);
    }

    method DoMove(at: nat, from: nat, to: nat)
      requires Shape() && at < tregs.Length && from < sregs.Length && to < sregs.Length && sregs[from] < |ops|
      modifies this`ops, this`code, this`rename, this`st, sregs, tregs
      ensures Shape() && st == MoveTo(old(st), at, from, to)
    {
      var v := sregs[from];
      var rr := Emit(ops[v].(origin := Move(v), reg := to, ins := [v], canRemat := false, isPhi := false));
      rename := rename + [Entry(v, rr)];
      tregs[at] := rr;
      sregs[to] := rr;
      sregs[from] := NoVal;
      st := st.(s := sregs[..], t := tregs[..], ren := rename);
    }

    /** A register whose value can be moved to t without overwriting, or the register count. */
    method FindSource(t: nat) returns (s: nat)
      requires Shape() && t < tregs.Length
      ensures s <= sregs.Length
      ensures s < sregs.Length ==> sregs[s] == tregs[t] && sregs[t] == NoVal
      ensures s == sregs.Length ==> forall i :: 0 <= i < sregs.Length && sregs[i] == tregs[t] ==> sregs[t] != NoVal
      ensures s == FirstSource(st, t, 0)
    {
      s := 0;
      while s < sregs.Length
        invariant s <= sregs.Length && FirstSource(st, t, 0) == FirstSource(st, t, s)
        invariant forall i :: 0 <= i < s && sregs[i] == tregs[t] ==> sregs[t] != NoVal
      {
        if sregs[s] == tregs[t] && sregs[t] == NoVal { return; }
        s := s + 1;
      }
    }

    /** Move the value wanted in t there if that overwrites nothing. */
    method FreeMove(t: nat) returns (moved: bool, ghost s: nat)
      requires Shape() && t < tregs.Length && forall i :: 0 <= i < sregs.Length && sregs[i] != NoVal ==> sregs[i] < |ops|
      modifies this`ops, this`code, this`rename, this`st, sregs, tregs
      ensures Shape() && st == FreeMoveAt(old(st), t)
      ensures !moved ==> st == old(st) && NoFreeMoveTo(old(st), t)
      ensures moved ==> CanMove(old(st), t, s, t) && old(st).s[s] < |old(ops)| && st == MoveTo(old(st), t, s, t) && st != old(st)
    {
      s := 0;
      if tregs[t] == NoVal { return false, 0; }
      if sregs[t] == tregs[t] { return false, 0; }
      var from := FindSource(t);
      moved, s := from < sregs.Length, from;
      if moved {
        OpsGrow(st, t, from, t);
        DoMove(t, from, t);
      }
    }

    method TryFreeMove(t: nat, ghost K: iset<Goal>, ghost k: Goal) returns (moved: bool)
      requires Shape() && t < tregs.Length && k in K && AllMoves(K, st)
      modifies this`ops, this`code, this`rename, this`st, sregs, tregs
      ensures Shape() && AllMoves(K, st)
      ensures moved ==> Left(k, st) < Left(k, old(st))
      ensures !moved ==> st == old(st) && NoFreeMoveTo(old(st), t)
      ensures st == FreeMoveAt(old(st), t) && (moved ==> st != old(st))
    {
      ghost var before := st;
      assert InMoves(k, before);
      ghost var s;
      moved, s := FreeMove(t);
      if moved {
        MoveStep(k, before, t, s, t);
        AllFreeStep(K, before, t, s);
      }
    }

    /** One pass over the registers that overwrites nothing: moves into registers that hold no
        value. */
    method FreeMoves(ghost K: iset<Goal>, ghost k: Goal) returns (done: bool)
      requires Shape() && k in K && AllMoves(K, st)
      modifies this`ops, this`code, this`rename, this`st, sregs, tregs
      ensures Shape() && AllMoves(K, st)
      ensures Left(k, st) <= Left(k, old(st))
      ensures !done ==> Left(k, st) < Left(k, old(st))
      ensures done ==> st == old(st) && NoFreeMove(st, |st.t|)
      ensures st == FreePass(old(st), |st.t|) && (!done ==> st != old(st))
    {
      done := true;
      ghost var st0 := st;
      for t := 0 to tregs.Length
        invariant Shape() && AllMoves(K, st)
        invariant Left(k, st) <= Left(k, old(st))
        invariant !done ==> Left(k, st) < Left(k, old(st))
        invariant done ==> st == st0 && NoFreeMove(st0, t)
        invariant st == FreePass(st0, t) && |st0.ops| <= |st.ops| && (!done ==> |st0.ops| < |st.ops|)
      {
        var moved := TryFreeMove(t, K, k);
        if moved { done := false; }
      }
    }

    /** A register of the right kind that is free now and wanted by nothing, or else t. */
    method FindSpare(t: nat, mask: set<nat>) returns (r: nat)
      requires Shape() && t < tregs.Length
      ensures r < tregs.Length && (r == t || (r in mask && sregs[r] == NoVal && tregs[r] == NoVal))
      ensures r == if FirstSpare(st, mask, 0) < |st.s| then FirstSpare(st, mask, 0) else t
    {
      r := 0;
      while r < sregs.Length
        invariant r <= sregs.Length && FirstSpare(st, mask, 0) == FirstSpare(st, mask, r)
      {
        if r in mask && sregs[r] == NoVal && tregs[r] == NoVal { return; }
        r := r + 1;
      }
      r := t;
    }

    /** A register whose value is wanted in t and where something else is wanted, or the
        register count. */
    method FindBlocker(t: nat) returns (s: nat)
      requires Shape() && t < tregs.Length
      ensures s <= sregs.Length
      ensures s < sregs.Length ==> sregs[s] == tregs[t] && tregs[s] != NoVal
      ensures s == sregs.Length ==> forall i :: 0 <= i < sregs.Length && sregs[i] == tregs[t] ==> tregs[i] == NoVal
      ensures s == FirstBlocker(st, t, 0)
    {
      s := 0;
      while s < sregs.Length
        invariant s <= sregs.Length && FirstBlocker(st, t, 0) == FirstBlocker(st, t, s)
        invariant forall i :: 0 <= i < s && sregs[i] == tregs[t] ==> tregs[i] == NoVal
      {
        if sregs[s] == tregs[t] && tregs[s] != NoVal { return; }
        s := s + 1;
      }
    }

    /** If the value wanted in t blocks another target, park it, or force it into place and go
        through memory for what it overwrites. */
    method Break(t: nat) returns (moved: bool, ghost s: nat, ghost r: nat)
      requires Shape() && t < tregs.Length && forall i :: 0 <= i < sregs.Length && sregs[i] != NoVal ==> sregs[i] < |ops|
      modifies this`ops, this`code, this`rename, this`st, sregs, tregs
      ensures Shape() && st == BreakAt(old(st), t)
      ensures !moved ==> st == old(st) && NoCycleAt(old(st), t)
      ensures moved ==> CanMove(old(st), t, s, r) && old(st).s[s] < |old(ops)| && old(st).t[s] != NoVal
      ensures moved ==> st == MoveTo(old(st), t, s, r) && st != old(st)
    {
      s, r := 0, 0;
      if tregs[t] == NoVal { return false, 0, 0; }
      if sregs[t] == tregs[t] { return false, 0, 0; }
      var from := FindBlocker(t);
      moved, s := from < sregs.Length, from;
      if moved {
        var to := FindSpare(t, ops[tregs[t]].mask);
        r := to;
        OpsGrow(st, t, from, to);
        DoMove(t, from, to);
      }
    }

    method TryBreak(t: nat, ghost K: iset<Goal>, ghost k: Goal) returns (moved: bool)
      requires Shape() && t < tregs.Length && k in K && AllMoves(K, st)
      modifies this`ops, this`code, this`rename, this`st, sregs, tregs
      ensures Shape() && AllMoves(K, st)
      ensures moved ==> Left(k, st) < Left(k, old(st))
      ensures !moved ==> st == old(st) && NoCycleAt(old(st), t)
      ensures st == BreakAt(old(st), t) && (moved ==> st != old(st))
    {
      ghost var before := st;
      assert InMoves(k, before);
      ghost var s, r;
      moved, s, r := Break(t);
      if moved {
        BlockerIsOriginal(k, before, t, s);
        MoveStep(k, before, t, s, r);
        AllBreakStep(K, before, t, s, r);
      }
    }

    /** The cycle breaker: at most one. */
    method BreakCycle(ghost K: iset<Goal>, ghost k: Goal) returns (done: bool)
      requires Shape() && k in K && AllMoves(K, st)
      modifies this`ops, this`code, this`rename, this`st, sregs, tregs
      ensures Shape() && AllMoves(K, st)
      ensures !done ==> Left(k, st) < Left(k, old(st))
      ensures done ==> st == old(st) && NoCycle(st, |st.t|)
      ensures st == BreakFrom(old(st), 0) && (!done ==> st != old(st))
    {
      ghost var st0 := st;
      for t := 0 to tregs.Length
        invariant Shape() && AllMoves(K, st) && st == st0
        invariant NoCycle(st0, t) && BreakFrom(st0, 0) == BreakFrom(st0, t)
      {
        var moved := TryBreak(t, K, k);
        if moved { return false; }
      }
      return true;
    }

    // ---- restores ---------------------------------------------------------------------

    /** Can the op be recomputed from registers that still hold its operands? */
    method CheckInputs(x: OpId) returns (ok: bool)
      requires Shape() && x < |ops| && |ops| <= NoVal
      ensures ok <==> InputsHeld(st, x)
    {
      ok := true;
      for j := 0 to |ops[x].ins|
        invariant ok && forall i :: 0 <= i < j ==> Held(st, ops[x].ins[i])
      {
        if Held(Regs(ops, sregs[..], tregs[..], [], []), ops[x].ins[j]) { continue; }
        return false;
      }
    }

    /** Choose how to get the value wanted in t: recompute it if possible, reload it
        otherwise. */
    method MakeRestore(t: nat, ghost K: iset<Goal>, ghost k: Goal) returns (op: RaOp)
      requires Shape() && t < tregs.Length && k in K && AllRestoring(K, st, t) && AllRoots(K, root)
      requires !InPlace(st, t)
      modifies this`spill
      ensures Shape() && AllRestoreOp(K, st, t, op)
      ensures op.origin.Load? <==> !Recomputable(st, root[st.t[t]], t)
      ensures spill == if op.origin.Load? then old(spill) + {st.t[t]}
                       else if ops[st.t[t]].isPhi then old(spill) - {st.t[t]} else old(spill)
    {
      assert Restoring(k, st, t) && RootsOk(k, root) && StandsFor(k, st, st.t[t], k.want[t]);
      var v := tregs[t];
      var x := root[v];
      var rop := ops[x];
      var held := CheckInputs(x);
      if rop.canRemat && t in rop.outMask && held {
        op := rop.(origin := Remat(v, x), reg := t);
        if ops[v].isPhi {
          spill := spill - {v};
        }
      } else {
        op := RaOp(Load(v), t, rop.mask, rop.outMask, false, [v], false);
        spill := spill + {v};
      }
      ChosenForAll(K, st, t, root, op);
    }

    /** Put the value wanted in t there. */
    method Restore(t: nat, ghost K: iset<Goal>, ghost k: Goal, ghost spill0: set<OpId>) returns (ghost op: RaOp)
      requires Shape() && t < tregs.Length && k in K && AllRestoring(K, st, t) && AllRoots(K, root)
      requires spill == FlagsAfter(st.ops, st.code, spill0)
      modifies this`ops, this`code, this`rename, this`st, this`spill, sregs
      ensures Shape() && AllRestoring(K, st, t + 1) && st.t == old(st.t)
      ensures spill == FlagsAfter(st.ops, st.code, spill0)
      ensures RestoreDone(old(st), st, old(spill), spill, root, t, op)
    {
      op := RaOp(Given, t, {}, {}, false, [], false);
      if tregs[t] == NoVal { AllSkip(K, st, t); return; }
      if sregs[t] == tregs[t] { AllSkip(K, st, t); return; }
      var rop := MakeRestore(t, K, k);
      op := rop;
      RestoreKept(K, k, st, t, rop, root, spill0);
      PutRestore(t, rop);
    }

    /** The same, followed from the registers where the moves ended. */
    method RestoreNext(t: nat, ghost K: iset<Goal>, ghost k: Goal, ghost spill0: set<OpId>, ghost mid: Regs)
      requires Shape() && t < tregs.Length && k in K && AllRestoring(K, st, t) && AllRoots(K, root)
      requires spill == FlagsAfter(st.ops, st.code, spill0)
      requires Follows(mid, st, t) && |root| <= |mid.ops| && spill == Flagged(mid, root, spill0, t) && LoadsMatch(mid, root, st, t)
      modifies this`ops, this`code, this`rename, this`st, this`spill, sregs
      ensures Shape() && AllRestoring(K, st, t + 1)
      ensures spill == FlagsAfter(st.ops, st.code, spill0)
      ensures Follows(mid, st, t + 1) && spill == Flagged(mid, root, spill0, t + 1) && LoadsMatch(mid, root, st, t + 1)
    {
      ghost var before, flags := st, spill;
      assert Restoring(k, before, t) && RootsOk(k, root);
      ghost var op := Restore(t, K, k, spill0);
      RestoreFollows(k, mid, before, st, flags, spill, root, t, op, spill0);
    }

    method PutRestore(t: nat, op: RaOp)
      requires Shape() && t < tregs.Length
      modifies this`ops, this`code, this`rename, this`st, sregs
      ensures Shape() && st == RestoreTo(old(st), t, op)
    {
      var rr := Emit(op);
      sregs[t] := tregs[t];
      rename := rename + [Entry(tregs[t], rr)];
      st := st.(s := sregs[..], ren := rename);
    }

    method RestoreAll(ghost K: iset<Goal>, ghost k: Goal)
      requires Shape() && k in K && AllRestoring(K, st, 0) && AllRoots(K, root)
      requires forall i :: 0 <= i < |st.code| ==> ops[st.code[i]].origin.Move?
      modifies this`ops, this`code, this`rename, this`st, this`spill, sregs
      ensures Shape() && AllRestoring(K, st, |st.t|) && spill == FlagsAfter(st.ops, st.code, old(spill))
      ensures |old(st).s| == |old(st).t| == |st.t| && LoadsMatch(old(st), root, st, |st.t|)
      ensures spill == Flagged(old(st), root, old(spill), |st.t|)
    {
      ghost var mid := st;
      assert Restoring(k, st, 0) && RootsOk(k, root);
      NothingRestored(k, st, root, spill);
      for t := 0 to tregs.Length
        invariant Shape() && AllRestoring(K, st, t) && st.t == old(st.t)
        invariant spill == FlagsAfter(st.ops, st.code, old(spill))
        invariant Follows(mid, st, t) && spill == Flagged(mid, root, old(spill), t) && LoadsMatch(mid, root, st, t)
      {
        RestoreNext(t, K, k, old(spill), mid);
      }
    }

    // ---- the whole shuffle ------------------------------------------------------------

    /** One round: free moves; if there were none, a cycle breaker. */
    method MoveRound(ghost K: iset<Goal>, ghost k: Goal) returns (done: bool)
      requires Shape() && k in K && AllMoves(K, st)
      modifies this`ops, this`code, this`rename, this`st, sregs, tregs
      ensures Shape() && AllMoves(K, st)
      ensures !done ==> Left(k, st) < Left(k, old(st))
      ensures done ==> Stuck(st)
      ensures st == Round(old(st)) && (done <==> st == old(st))
    {
      done := FreeMoves(K, k);
      if !done { return; }
      done := BreakCycle(K, k);
    }

    /** Move until nothing moves, breaking a cycle whenever there is one. */
    method MoveAll(ghost K: iset<Goal>, ghost k: Goal)
      requires Shape() && k in K && AllMoves(K, st)
      modifies this`ops, this`code, this`rename, this`st, sregs, tregs
      ensures Shape() && AllMoves(K, st) && Stuck(st) && st == MoveEnd(old(st))
    {
      var done := false;
      ghost var left := Left(k, st);
      ghost var n: nat := 2 * |st.t| + 1;
      ghost var end := MoveEnd(st);
      WorkBound(|k.o.val|, st.s, st.t);
      while !done
        invariant Shape() && AllMoves(K, st) && left == Left(k, st)
        invariant Rounds(st, n) == end && (!done ==> left < n) && (done ==> Round(st) == st)
        invariant done ==> Stuck(st)
        decreases if done then 0 else 1 + left
      {
        done := MoveRound(K, k);
        left := Left(k, st);
        if !done { n := n - 1; }
      }
    }

    /** Move what can be moved, then restore the rest. */
    method Resolve(ghost K: iset<Goal>, ghost k: Goal)
      requires Shape() && k in K && AllMoves(K, st) && AllRoots(K, root)
      modifies this`ops, this`code, this`rename, this`st, this`spill, sregs, tregs
      ensures Shape() && AllRestoring(K, st, |st.t|) && spill == FlagsAfter(st.ops, st.code, old(spill))
      ensures |old(st).s| == |old(st).t| == |st.t|
      ensures var mid := MoveEnd(old(st));
              && InMoves(k, mid) && Stuck(mid) && LoadsMatch(mid, root, st, |st.t|)
              && spill == Flagged(mid, root, old(spill), |st.t|)
    {
      MoveAll(K, k);
      AllStuck(K, st);
      assert InMoves(k, st);
      RestoreAll(K, k);
    }

    /** The alternatives of the target after renaming, whichever edge they belong to. */
    method RenameAlts(alts0: seq<PhiAlt>) returns (alts: seq<PhiAlt>)
      ensures |alts| == |alts0|
      ensures forall i :: 0 <= i < |alts| ==> alts[i] == alts0[i].(val := Chase(rename, alts0[i].val))
    {
      alts := alts0;
      for i := 0 to |alts|
        invariant |alts| == |alts0| && forall j :: i <= j < |alts| ==> alts[j] == alts0[j]
        invariant forall j :: 0 <= j < i ==> alts[j] == alts0[j].(val := Chase(rename, alts0[j].val))
      {
        for n := 0 to |rename|
          invariant |alts| == |alts0| && forall j :: i < j < |alts| ==> alts[j] == alts0[j]
          invariant forall j :: 0 <= j < i ==> alts[j] == alts0[j].(val := Chase(rename, alts0[j].val))
          invariant alts[i] == alts0[i].(val := Chase(rename[..n], alts0[i].val))
        {
          assert rename[..n + 1][..n] == rename[..n];
          if alts[i].val == rename[n].src {
            alts := alts[i := alts[i].(val := rename[n].dst)];
          }
        }
        assert rename[..|rename|] == rename;
      }
    }

    /** The whole shuffle for the edge out of b, for a whole family of values that registers
        and slots may hold, K: the one code that is emitted leaves, whichever of them are
        there, in the register of every phi what its alternative for this edge names, and in
        every other register that the target expects something in just that. The alternatives
        keep their values; those whose value was misplaced on this edge are renamed, also if
        they belong to another edge. Every value that the code reloads is flagged to be stored if and only if no phi
        is wanted in two registers in such a way that its flag is lost. */
    method Run(b: nat, alts0: seq<PhiAlt>, ghost K: iset<Goal>, ghost k: Goal) returns (alts: seq<PhiAlt>)
      requires Shape() && k in K && AllRoots(K, root)
      requires forall i :: 0 <= i < |alts0| ==> alts0[i].phi < |ops| && alts0[i].val < |ops|
      requires AllStart(K, st.(t := Wanted(ops, st.t, alts0, b)))
      modifies this`ops, this`code, this`rename, this`st, this`spill, sregs, tregs
      ensures Shape() && old(ops) <= ops
      ensures AllDelivered(K, st) && AllAltsKept(K, st, alts0, alts)
      ensures AllServed(K, st, old(ops), old(st).t, alts0, b)
      ensures spill == FlagsAfter(ops, st.code, old(spill))
      ensures |old(st).s| == |old(st).t|
      ensures var s0, want := old(st).s, Wanted(old(ops), old(st).t, alts0, b);
              var moved := MovedSet(|old(ops)|, MoveEnd(old(st).(s := Needed(s0, want), t := want)).t);
              (forall v :: ReloadedFrom(ops, st.code, v, 0) ==> v in spill) <==> KeepsFlags(old(ops), s0, want, root, moved)
      ensures var s0, want := old(st).s, Wanted(old(ops), old(st).t, alts0, b);
              var mid := MoveEnd(old(st).(s := Needed(s0, want), t := want));
              |mid.t| == |want| && spill == Flagged(mid, root, old(spill), |want|)
    {
      TakeAlts(alts0, b);
      AllStartMoves(K, st);
      ghost var ops0 := ops;
      ghost var given := st;
      assert Start(k, given);
      DropUnneeded();
      ghost var mid := MoveEnd(st);
      Resolve(K, k);
      FlagsKept(k, given, mid, root, st, old(spill), spill);
      AllDone(K, st);
      TargetsServed(K, st, ops0, old(st).t, alts0, b);
      assert Restoring(k, st, |st.t|);
      alts := RenameAlts(alts0);
      forall g | g in K ensures AltsKept(g, st, alts0, alts) {
        RenamesKeepAlts(g, st, alts0, alts);
      }
    }
  }

  lemma FlagsKept(k: Goal, given: Regs, mid: Regs, root: seq<OpId>, st: Regs, spill0: set<OpId>, spill: set<OpId>)
    requires Start(k, given) && RootsOk(k, root) && InMoves(k, mid) && Stuck(mid) && |st.t| == |mid.t|
    requires LoadsMatch(mid, root, st, |st.t|) && spill == Flagged(mid, root, spill0, |st.t|)
    ensures (forall v :: ReloadedFrom(st.ops, st.code, v, 0) ==> v in spill)
       <==> KeepsFlags(given.ops, given.s, given.t, root, MovedSet(|given.ops|, mid.t))
  {
    AllFlagged(mid, root, spill0);
    FlagsFromStart(k, mid, root);
  }

  lemma NothingRestored(k: Goal, st: Regs, root: seq<OpId>, spill: set<OpId>)
    requires Base(k, st) && |st.s| == |st.t| && forall i :: 0 <= i < |st.code| ==> st.ops[st.code[i]].origin.Move?
    ensures Follows(st, st, 0) && FlagsAfter(st.ops, st.code, spill) == spill && LoadsMatch(st, root, st, 0)
  {
    MovesFlagNothing(st.ops, st.code, spill);
    MovesLoadNothing(k, st, root);
    assert HeldBefore(st, 0) == st.s;
  }

  lemma RestoreKept(K: iset<Goal>, k: Goal, st: Regs, t: nat, op: RaOp, root: seq<OpId>, spill: set<OpId>)
    requires k in K && AllRestoring(K, st, t) && AllRoots(K, root) && |st.s| == |st.t| && t < |st.t| && !InPlace(st, t)
    requires AllRestoreOp(K, st, t, op)
    ensures AllRestoring(K, RestoreTo(st, t, op), t + 1)
    ensures st.t[t] < |root| && st.t[t] < |st.ops| && (op.origin == Load(st.t[t]) || op.origin.Remat?)
    ensures var before, v, next := FlagsAfter(st.ops, st.code, spill), st.t[t], RestoreTo(st, t, op);
            FlagsAfter(next.ops, next.code, spill) ==
              if op.origin.Load? then before + {v} else if st.ops[v].isPhi then before - {v} else before
  {
    assert Restoring(k, st, t) && RootsOk(k, root);
    assert StandsFor(k, st, st.t[t], k.want[t]);
    assert RestoreOp(k, st, t, op);
    AllRestoreStep(K, st, t, op);
    RestoreFlags(k, st, t, op, spill);
  }

  /** What a restore of register t does. */
  ghost predicate RestoreDone(st: Regs, st': Regs, spill: set<OpId>, spill': set<OpId>, root: seq<OpId>, t: nat, op: RaOp)
    requires |st.s| == |st.t|
  {
    t < |st.t| &&
    if InPlace(st, t) then st' == st && spill' == spill
    else
      && st' == RestoreTo(st, t, op) && st.t[t] < |root| && (op.origin == Load(st.t[t]) || op.origin.Remat?)
      && (op.origin.Load? <==> !Recomputable(st, root[st.t[t]], t))
      && spill' == if op.origin.Load? then spill + {st.t[t]} else if IsPhi(st.ops, st.t[t]) then spill - {st.t[t]} else spill
  }

  lemma RestoreFollows(k: Goal, mid: Regs, st: Regs, st': Regs, spill: set<OpId>, spill': set<OpId>, root: seq<OpId>,
                       t: nat, op: RaOp, spill0: set<OpId>)
    requires Base(k, st) && RootsOk(k, root) && |root| <= |mid.ops| && t < |mid.t| && |mid.s| == |mid.t|
    requires Follows(mid, st, t) && spill == Flagged(mid, root, spill0, t) && LoadsMatch(mid, root, st, t)
    requires RestoreDone(st, st', spill, spill', root, t, op)
    requires st.t[t] < |root| || InPlace(st, t)
    ensures Follows(mid, st', t + 1) && spill' == Flagged(mid, root, spill0, t + 1) && LoadsMatch(mid, root, st', t + 1)
  {
    FollowsStep(mid, st, t);
    if InPlace(st, t) {
      LoadsSkip(mid, root, st, t);
    } else {
      SameRecompute(k, mid, st, root[st.t[t]], t);
      LoadsStep(mid, root, st, t, op);
    }
  }

  /** How far the restores have come since nothing moved any more. */
  ghost predicate Follows(mid: Regs, st: Regs, t: nat) {
    |mid.s| == |mid.t| && mid.ops <= st.ops && st.t == mid.t && st.s == HeldBefore(mid, t)
  }

  lemma FollowsStep(mid: Regs, st: Regs, t: nat)
    requires Follows(mid, st, t) && t < |mid.t|
    ensures InPlace(mid, t) <==> InPlace(st, t)
    ensures HeldBefore(mid, t + 1) == if InPlace(mid, t) then st.s else st.s[t := st.t[t]]
  {
  }

  lemma SameRecompute(k: Goal, mid: Regs, st: Regs, x: OpId, t: nat)
    requires Follows(mid, st, t) && Base(k, st) && x < |k.o.val| <= |mid.ops|
    ensures Recomputable(st, x, t) <==> Recomputable(Before(mid, t), x, t)
  {
    forall j | 0 <= j < |st.ops[x].ins| ensures Held(st, st.ops[x].ins[j]) <==> Held(Before(mid, t), mid.ops[x].ins[j]) {
    }
  }

  /** The alternatives of the target keep their values, and exactly those whose value was
      misplaced get a new name. */
  ghost predicate AltsKept(k: Goal, st: Regs, alts0: seq<PhiAlt>, alts: seq<PhiAlt>) {
    Base(k, st) && |k.s0| == |k.want| && |alts| == |alts0|
    && forall i :: 0 <= i < |alts| ==> AltKept(k, st, alts0[i], alts[i])
  }

  ghost predicate AllAltsKept(K: iset<Goal>, st: Regs, alts0: seq<PhiAlt>, alts: seq<PhiAlt>) {
    forall k :: k in K ==> AltsKept(k, st, alts0, alts)
  }

  ghost predicate AltKept(k: Goal, st: Regs, s: PhiAlt, s': PhiAlt)
    requires Base(k, st) && |k.s0| == |k.want|
  {
    && s'.phi == s.phi && s'.src == s.src && s.val < |k.o.val| && s'.val < |st.ops|
    && ValueOf(k.o, st.ops, s'.val) == k.o.val[s.val]
    && (s'.val == s.val <==> !Misplaced(k, s.val))
  }

  lemma RenamesKeepAlts(k: Goal, st: Regs, alts0: seq<PhiAlt>, alts: seq<PhiAlt>)
    requires Restoring(k, st, |st.t|) && |alts| == |alts0|
    requires forall i :: 0 <= i < |alts0| ==> alts0[i].val < |k.o.val|
    requires forall i :: 0 <= i < |alts| ==> alts[i] == alts0[i].(val := Chase(st.ren, alts0[i].val))
    ensures AltsKept(k, st, alts0, alts)
  {
    forall i | 0 <= i < |alts| ensures AltKept(k, st, alts0[i], alts[i]) {
      ChasedAlternative(k, st, alts0[i].val);
    }
  }

  /** Alternatives of other edges are not safe: if edges 1 and 2 both bring value 0 to phi 1
      and the shuffle for edge 1 has to move it, the alternative of edge 2 is renamed too,
      to an op that only edge 1 executes. */
  lemma OtherEdgeRenamed(w: Word)
    ensures var op := RaOp(Given, 0, {0, 1}, {0, 1}, false, [], false);
            var ops := [op, op.(reg := 1, isPhi := true)];
            var alts := [PhiAlt(1, 1, 0), PhiAlt(1, 2, 0)];
            var want := Wanted(ops, [NoVal, 1], alts, 1);
            var k := Goal(Oracle([w, w], [w, w], (x: OpId, ins: seq<Word>) => w), want, [w, w], [0, NoVal], ops);
            && Start(k, Regs(ops, [0, NoVal], want, [], []))
            && alts[1].src != 1 && Misplaced(k, alts[1].val)
            && forall st: Regs, alts': seq<PhiAlt> :: AltsKept(k, st, alts, alts') ==> alts'[1].val != alts[1].val
  {
    var op := RaOp(Given, 0, {0, 1}, {0, 1}, false, [], false);
    var ops := [op, op.(reg := 1, isPhi := true)];
    var alts := [PhiAlt(1, 1, 0), PhiAlt(1, 2, 0)];
    assert alts[..1] == [alts[0]] && alts[..1][..0] == [];
    assert Wanted(ops, [NoVal, 1], alts[..1], 1) == [NoVal, 0];
    assert Wanted(ops, [NoVal, 1], alts, 1) == [NoVal, 0];
    var k := Goal(Oracle([w, w], [w, w], (x: OpId, ins: seq<Word>) => w), [NoVal, 0], [w, w], [0, NoVal], ops);
    assert k.want[1] == 0 && k.s0[1] != 0;
  }

  // ---- what the edge asks for ---------------------------------------------------------

  /** The alternative belongs to the edge from b, and its phi has register r. */
  predicate Brings(ops: seq<RaOp>, s: PhiAlt, b: nat, r: nat) {
    s.src == b && s.phi < |ops| && ops[s.phi].reg == r
  }

  /** No later alternative brings something to r. */
  predicate LastFor(ops: seq<RaOp>, alts: seq<PhiAlt>, b: nat, r: nat, i: nat) {
    i < |alts| && Brings(ops, alts[i], b, r) && forall j :: i < j < |alts| ==> !Brings(ops, alts[j], b, r)
  }

  predicate Unserved(ops: seq<RaOp>, alts: seq<PhiAlt>, b: nat, r: nat) {
    forall j :: 0 <= j < |alts| ==> !Brings(ops, alts[j], b, r)
  }

  /** The phis that the edge from b brings something to have different registers. */
  predicate RegsDiffer(ops: seq<RaOp>, alts: seq<PhiAlt>, b: nat) {
    forall i, j :: 0 <= i < j < |alts| && alts[i].src == b && alts[j].src == b && alts[i].phi < |ops| && alts[j].phi < |ops| ==>
      ops[alts[i].phi].reg != ops[alts[j].phi].reg
  }

  /** Register r holds the value that op v has. */
  ghost predicate Gets(k: Goal, st: Regs, r: nat, v: OpId) {
    Base(k, st) && r < |Now(k, st)| && v < |k.o.val| && Now(k, st)[r] == k.o.val[v]
  }

  /** Every register gets the last that this edge brings to it, or what the target expects
      there; phis in different registers all get theirs. */
  ghost predicate Served(k: Goal, st: Regs, ops0: seq<RaOp>, regsIn: seq<OpId>, alts: seq<PhiAlt>, b: nat) {
    && (forall r: nat, i: nat :: r < |regsIn| && LastFor(ops0, alts, b, r, i) ==> Gets(k, st, r, alts[i].val))
    && (forall r: nat :: r < |regsIn| && regsIn[r] != NoVal && Unserved(ops0, alts, b, r) ==> Gets(k, st, r, regsIn[r]))
    && (RegsDiffer(ops0, alts, b) ==>
          forall i: nat :: i < |alts| && alts[i].src == b && alts[i].phi < |ops0| && ops0[alts[i].phi].reg < |regsIn| ==>
            Gets(k, st, ops0[alts[i].phi].reg, alts[i].val))
  }

  ghost predicate AllServed(K: iset<Goal>, st: Regs, ops0: seq<RaOp>, regsIn: seq<OpId>, alts: seq<PhiAlt>, b: nat) {
    forall k :: k in K ==> Served(k, st, ops0, regsIn, alts, b)
  }

  lemma TargetsServed(K: iset<Goal>, st: Regs, ops0: seq<RaOp>, regsIn: seq<OpId>, alts: seq<PhiAlt>, b: nat)
    requires AllDelivered(K, st) && |ops0| <= NoVal && forall i :: 0 <= i < |alts| ==> alts[i].val < |ops0|
    requires forall k :: k in K ==> k.want == Wanted(ops0, regsIn, alts, b)
    ensures AllServed(K, st, ops0, regsIn, alts, b)
  {
    WantedIs(ops0, regsIn, alts, b);
    forall k | k in K ensures Served(k, st, ops0, regsIn, alts, b) {
      assert AllThere(k, st);
      forall r: nat | r < |regsIn| && k.want[r] != NoVal ensures Gets(k, st, r, k.want[r]) {
        assert Delivered(k, st, r);
      }
      if RegsDiffer(ops0, alts, b) {
        forall i: nat | i < |alts| && alts[i].src == b && alts[i].phi < |ops0| ensures LastFor(ops0, alts, b, ops0[alts[i].phi].reg, i) {
        }
      }
    }
  }

  /** What the targets are, register by register. */
  lemma {:induction false} WantedIs(ops: seq<RaOp>, t: seq<OpId>, alts: seq<PhiAlt>, b: nat)
    ensures forall r: nat, i: nat :: r < |t| && LastFor(ops, alts, b, r, i) ==> Wanted(ops, t, alts, b)[r] == alts[i].val
    ensures forall r: nat :: r < |t| && Unserved(ops, alts, b, r) ==> Wanted(ops, t, alts, b)[r] == t[r]
    decreases |alts|
  {
    if alts != [] {
      var n := |alts| - 1;
      WantedIs(ops, t, alts[..n], b);
      forall r: nat, i: nat | r < |t| && LastFor(ops, alts, b, r, i) ensures Wanted(ops, t, alts, b)[r] == alts[i].val {
        if i < n {
          assert LastFor(ops, alts[..n], b, r, i);
        }
      }
      forall r: nat | r < |t| && Unserved(ops, alts, b, r) ensures Wanted(ops, t, alts, b)[r] == t[r] {
        assert Unserved(ops, alts[..n], b, r);
      }
    }
  }

  /** The targets after the alternatives of edge b have been taken in order. */
  function Wanted(ops: seq<RaOp>, t: seq<OpId>, alts: seq<PhiAlt>, b: nat): (r: seq<OpId>)
    ensures |r| == |t|
  {
    if alts == [] then t
    else
      var s := alts[|alts| - 1];
      var r := Wanted(ops, t, alts[..|alts| - 1], b);
      if s.src == b && s.phi < |ops| && ops[s.phi].reg < |t| then r[ops[s.phi].reg := s.val] else r
  }
}
