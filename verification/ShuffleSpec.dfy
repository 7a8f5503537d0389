/** The moves of the jumpShuffle lambda (src/opt-ra.cpp) as functions of the registers it
    starts from, and which of the restores that follow reload and which recompute. */
module ShuffleSpec {
  import opened ShuffleState
  import opened Words

  // ---- moves --------------------------------------------------------------------------

  /** The first register from s on whose value can be moved to t without overwriting. */
  function FirstSource(st: Regs, t: nat, s: nat): (r: nat)
    requires t < |st.t| == |st.s| && s <= |st.s|
    ensures s <= r <= |st.s| && (r < |st.s| ==> st.s[r] == st.t[t] && st.s[t] == NoVal)
    decreases |st.s| - s
  {
    if s == |st.s| || (st.s[s] == st.t[t] && st.s[t] == NoVal) then s else FirstSource(st, t, s + 1)
  }

  function FreeMoveAt(st: Regs, t: nat): (r: Regs)
    requires t < |st.t| == |st.s|
    ensures |r.t| == |r.s| == |st.s|
  {
    if InPlace(st, t) then st
    else
      var s := FirstSource(st, t, 0);
      if s < |st.s| && st.s[s] < |st.ops| then MoveTo(st, t, s, t) else st
  }

  function FreePass(st: Regs, n: nat): (r: Regs)
    requires n <= |st.t| == |st.s|
    ensures |r.t| == |r.s| == |st.s|
  {
    if n == 0 then st else FreeMoveAt(FreePass(st, n - 1), n - 1)
  }

  /** The first register from s on whose value is wanted in t while something else is wanted
      where it is. */
  function FirstBlocker(st: Regs, t: nat, s: nat): (r: nat)
    requires t < |st.t| == |st.s| && s <= |st.s|
    ensures s <= r <= |st.s| && (r < |st.s| ==> st.s[r] == st.t[t] && st.t[r] != NoVal)
    decreases |st.s| - s
  {
    if s == |st.s| || (st.s[s] == st.t[t] && st.t[s] != NoVal) then s else FirstBlocker(st, t, s + 1)
  }

  /** The first register from r on that could hold the value and is free, now and after. */
  function FirstSpare(st: Regs, mask: set<nat>, r: nat): (q: nat)
    requires r <= |st.s| == |st.t|
    ensures r <= q <= |st.s|
    decreases |st.s| - r
  {
    if r == |st.s| || (r in mask && st.s[r] == NoVal && st.t[r] == NoVal) then r else FirstSpare(st, mask, r + 1)
  }

  function BreakAt(st: Regs, t: nat): (r: Regs)
    requires t < |st.t| == |st.s|
    ensures |r.t| == |r.s| == |st.s|
  {
    if InPlace(st, t) then st
    else
      var s := FirstBlocker(st, t, 0);
      if s < |st.s| && st.s[s] < |st.ops| then
        var q := FirstSpare(st, st.ops[st.t[t]].mask, 0);
        MoveTo(st, t, s, if q < |st.s| then q else t)
      else st
  }

  /** At most one cycle is broken. */
  function BreakFrom(st: Regs, t: nat): (r: Regs)
    requires t <= |st.t| == |st.s|
    ensures |r.t| == |r.s| == |st.s|
    decreases |st.t| - t
  {
    if t == |st.t| then st else if BreakAt(st, t) != st then BreakAt(st, t) else BreakFrom(st, t + 1)
  }

  function Round(st: Regs): (r: Regs)
    requires |st.t| == |st.s|
    ensures |r.t| == |r.s| == |st.s|
  {
    var f := FreePass(st, |st.t|);
    if f != st then f else BreakFrom(st, 0)
  }

  function Rounds(st: Regs, n: nat): (r: Regs)
    requires |st.t| == |st.s|
    ensures |r.t| == |r.s| == |st.s|
    decreases n
  {
    if n == 0 || Round(st) == st then st else Rounds(Round(st), n - 1)
  }

  /** Where the moves end: two rounds for each register, and one to see that nothing is left,
      are always enough. */
  function MoveEnd(st: Regs): (r: Regs)
    requires |st.t| == |st.s|
    ensures |r.t| == |r.s| == |st.s|
  {
    Rounds(st, 2 * |st.t| + 1)
  }

  lemma OpsGrow(st: Regs, at: nat, from: nat, to: nat)
    requires at < |st.t| && from < |st.s| && to < |st.s| && st.s[from] < |st.ops|
    ensures MoveTo(st, at, from, to) != st
  {
    assert |MoveTo(st, at, from, to).ops| == |st.ops| + 1;
  }

  // ---- restores -----------------------------------------------------------------------

  /** Can x be recomputed into register t? */
  predicate Recomputable(st: Regs, x: OpId, t: nat) {
    x < |st.ops| && st.ops[x].canRemat && t in st.ops[x].outMask && InputsHeld(st, x)
  }

  /** The registers when the restores have come to register n. */
  function HeldBefore(mid: Regs, n: nat): (r: seq<OpId>)
    requires |mid.s| == |mid.t|
    ensures |r| == |mid.s|
    ensures forall q :: 0 <= q < |r| ==> r[q] == if q < n && mid.t[q] != NoVal then mid.t[q] else mid.s[q]
  {
    seq(|mid.s|, q requires 0 <= q < |mid.s| => if q < n && mid.t[q] != NoVal then mid.t[q] else mid.s[q])
  }

  function Before(mid: Regs, n: nat): Regs
    requires |mid.s| == |mid.t|
  {
    mid.(s := HeldBefore(mid, n))
  }

  /** Register t is restored from the stack slot of its value. */
  predicate Reloads(mid: Regs, root: seq<OpId>, t: nat)
    requires |mid.s| == |mid.t|
  {
    t < |mid.t| && !InPlace(mid, t) && mid.t[t] < |root| && !Recomputable(Before(mid, t), root[mid.t[t]], t)
  }

  /** Register t is restored by computing its value again. */
  predicate Recomputes(mid: Regs, root: seq<OpId>, t: nat)
    requires |mid.s| == |mid.t|
  {
    t < |mid.t| && !InPlace(mid, t) && mid.t[t] < |root| && Recomputable(Before(mid, t), root[mid.t[t]], t)
  }

  predicate IsPhi(ops: seq<RaOp>, v: OpId) {
    v < |ops| && ops[v].isPhi
  }

  /** What is flagged to be stored after the first n registers. */
  function Flagged(mid: Regs, root: seq<OpId>, spill: set<OpId>, n: nat): set<OpId>
    requires n <= |mid.t| == |mid.s|
  {
    if n == 0 then spill
    else
      var before := Flagged(mid, root, spill, n - 1);
      if Reloads(mid, root, n - 1) then before + {mid.t[n - 1]}
      else if Recomputes(mid, root, n - 1) && IsPhi(mid.ops, mid.t[n - 1]) then before - {mid.t[n - 1]}
      else before
  }

  /** v is reloaded for one of the registers from m to n. */
  predicate Reloaded(mid: Regs, root: seq<OpId>, v: OpId, m: nat, n: nat)
    requires |mid.s| == |mid.t|
  {
    exists t :: m <= t < n && Reloads(mid, root, t) && mid.t[t] == v
  }

  /** Recomputing v for register t is the last that happens to the phi v. */
  predicate LastRecomputes(mid: Regs, root: seq<OpId>, v: OpId, t: nat, n: nat)
    requires |mid.s| == |mid.t|
  {
    t < n && Recomputes(mid, root, t) && mid.t[t] == v && IsPhi(mid.ops, v) && !Reloaded(mid, root, v, t, n)
  }

  lemma {:induction false} FlaggedExactly(mid: Regs, root: seq<OpId>, spill: set<OpId>, n: nat, v: OpId)
    requires n <= |mid.t| == |mid.s|
    ensures v in Flagged(mid, root, spill, n) <==>
              && (v in spill || Reloaded(mid, root, v, 0, n))
              && forall t: nat :: !LastRecomputes(mid, root, v, t, n)
  {
    if n > 0 {
      var m := n - 1;
      FlaggedExactly(mid, root, spill, m, v);
      assert forall k: nat :: Reloaded(mid, root, v, k, n) <==> Reloaded(mid, root, v, k, m) || (k <= m && Reloads(mid, root, m) && mid.t[m] == v);
      if Recomputes(mid, root, m) && IsPhi(mid.ops, v) && mid.t[m] == v {
        assert LastRecomputes(mid, root, v, m, n);
      } else if Reloads(mid, root, m) && mid.t[m] == v {
        assert forall t: nat :: t < n ==> Reloaded(mid, root, v, t, n);
      } else {
        assert forall t: nat :: LastRecomputes(mid, root, v, t, n) <==> LastRecomputes(mid, root, v, t, m);
      }
    }
  }

  /** The phi wanted in t1 and t2 is reloaded for t1 and recomputed for t2, and not reloaded
      after that. */
  predicate Unflags(mid: Regs, root: seq<OpId>, t1: nat, t2: nat)
    requires |mid.s| == |mid.t|
  {
    && t1 < t2 < |mid.t| && mid.t[t1] == mid.t[t2] && IsPhi(mid.ops, mid.t[t1])
    && Reloads(mid, root, t1) && Recomputes(mid, root, t2) && !Reloaded(mid, root, mid.t[t1], t2, |mid.t|)
  }

  /** Everything that is reloaded ends up flagged to be stored if and only if this never
      happens. */
  lemma AllFlagged(mid: Regs, root: seq<OpId>, spill: set<OpId>)
    requires |mid.s| == |mid.t|
    ensures (forall v :: Reloaded(mid, root, v, 0, |mid.t|) ==> v in Flagged(mid, root, spill, |mid.t|))
       <==> (forall t1: nat, t2: nat :: !Unflags(mid, root, t1, t2))
  {
    var n := |mid.t|;
    if t1: nat, t2: nat :| Unflags(mid, root, t1, t2) {
      var v := mid.t[t1];
      FlaggedExactly(mid, root, spill, n, v);
      assert Reloaded(mid, root, v, 0, n) && LastRecomputes(mid, root, v, t2, n);
    }
    forall v | Reloaded(mid, root, v, 0, n) && v !in Flagged(mid, root, spill, n)
      ensures exists t1: nat, t2: nat :: Unflags(mid, root, t1, t2)
    {
      FlaggedExactly(mid, root, spill, n, v);
      var t2: nat :| LastRecomputes(mid, root, v, t2, n);
      var t1 :| 0 <= t1 < n && Reloads(mid, root, t1) && mid.t[t1] == v;
      assert Unflags(mid, root, t1, t2);
    }
  }

  // ---- the same from the start ------------------------------------------------------------

  /** The registers that got their value by a move. */
  function MovedSet(n0: nat, t: seq<OpId>): (r: set<nat>) {
    set r | 0 <= r < |t| && Moved(n0, t, r)
  }

  /** Register t is restored: something is wanted there, which neither is there at the start,
      for this register alone, nor comes by a move. */
  predicate Restored(s0: seq<OpId>, want: seq<OpId>, moved: set<nat>, t: nat) {
    t < |want| && want[t] != NoVal && t !in moved && !Settled(s0, want, t)
  }

  /** When register t is restored, operand v is where it was put: it is wanted there, and has
      been restored before or is there all along. */
  predicate AvailableFor(ops: seq<RaOp>, s0: seq<OpId>, want: seq<OpId>, v: OpId, t: nat) {
    v < |ops| && ops[v].reg < |want| && want[ops[v].reg] == v && (ops[v].reg < t || Settled(s0, want, ops[v].reg))
  }

  predicate CanRecompute(ops: seq<RaOp>, s0: seq<OpId>, want: seq<OpId>, x: OpId, t: nat) {
    && x < |ops| && ops[x].canRemat && t in ops[x].outMask
    && forall j :: 0 <= j < |ops[x].ins| ==> AvailableFor(ops, s0, want, ops[x].ins[j], t)
  }

  /** A phi wanted in two registers that cannot be recomputed for the first, but for the
      second and all later ones that are restored. */
  predicate FlagLost(ops: seq<RaOp>, s0: seq<OpId>, want: seq<OpId>, root: seq<OpId>, moved: set<nat>, t1: nat, t2: nat)
    requires |want| == |s0|
  {
    && t1 < t2 < |want| && want[t1] == want[t2] && IsPhi(ops, want[t1]) && want[t1] < |root|
    && Restored(s0, want, moved, t1) && !CanRecompute(ops, s0, want, root[want[t1]], t1)
    && Restored(s0, want, moved, t2)
    && forall t :: t2 <= t < |want| && want[t] == want[t1] && Restored(s0, want, moved, t) ==>
         CanRecompute(ops, s0, want, root[want[t1]], t)
  }

  predicate KeepsFlags(ops: seq<RaOp>, s0: seq<OpId>, want: seq<OpId>, root: seq<OpId>, moved: set<nat>)
    requires |want| == |s0|
  {
    forall t1, t2 :: 0 <= t1 < t2 < |want| ==> !FlagLost(ops, s0, want, root, moved, t1, t2)
  }

  /** When nothing moves any more, an original name is held only where it was from the start
      and where alone it is wanted. */
  lemma HeldIsSettled(k: Goal, mid: Regs, q: nat)
    requires InMoves(k, mid) && Stuck(mid) && q < |mid.s| && mid.s[q] < |k.o.val|
    ensures mid.t[q] == mid.s[q] == k.want[q] && Settled(k.s0, k.want, q)
  {
    var v := mid.s[q];
    var r :| 0 <= r < |mid.t| && mid.t[r] == v;
    assert StandsFor(k, mid, v, k.want[r]);
    if mid.s[r] != v {
      StuckMeansFree(k, mid, r);
      assert false;
    }
    assert r == q;
    forall p | 0 <= p < |k.want| && k.want[p] == v ensures p == q {
      assert StandsFor(k, mid, mid.t[p], v) && MovedFrom(k, mid, p);
      if p != q && mid.s[p] != mid.t[p] {
        StuckMeansFree(k, mid, p);
      }
    }
  }

  lemma SettledIsHeld(k: Goal, mid: Regs, q: nat)
    requires InMoves(k, mid) && q < |mid.s| && Settled(k.s0, k.want, q)
    ensures mid.s[q] == mid.t[q] == k.want[q]
  {
    assert SettledStill(k, mid, q);
  }

  /** Which registers wait for a restore. */
  lemma WaitingIsRestored(k: Goal, mid: Regs, t: nat)
    requires InMoves(k, mid) && Stuck(mid) && t < |mid.t|
    ensures !InPlace(mid, t) <==> Restored(k.s0, k.want, MovedSet(|k.o.val|, mid.t), t)
    ensures !InPlace(mid, t) ==> mid.t[t] == k.want[t] < |k.o.val|
  {
    var moved := MovedSet(|k.o.val|, mid.t);
    assert (mid.t[t] == NoVal) == (k.want[t] == NoVal);
    if mid.t[t] != NoVal {
      assert StandsFor(k, mid, mid.t[t], k.want[t]);
      assert t in moved <==> mid.t[t] >= |k.o.val|;
      if !InPlace(mid, t) {
        StuckMeansFree(k, mid, t);
        if Settled(k.s0, k.want, t) {
          SettledIsHeld(k, mid, t);
        }
      } else if t !in moved {
        HeldIsSettled(k, mid, t);
      }
    }
  }

  lemma HeldIsAvailable(k: Goal, mid: Regs, v: OpId, t: nat)
    requires InMoves(k, mid) && Stuck(mid) && v < |k.o.val| && t <= |mid.t|
    ensures Held(Before(mid, t), v) <==> AvailableFor(k.ops0, k.s0, k.want, v, t)
  {
    var q := k.ops0[v].reg;
    assert mid.ops[v] == k.ops0[v];
    if q < |mid.s| {
      assert (mid.t[q] == NoVal) == (k.want[q] == NoVal);
      if mid.t[q] != NoVal {
        assert StandsFor(k, mid, mid.t[q], k.want[q]);
      }
      if mid.s[q] == v {
        HeldIsSettled(k, mid, q);
      }
      if Settled(k.s0, k.want, q) {
        SettledIsHeld(k, mid, q);
      }
      if k.want[q] == v {
        NotMovedHome(k, mid, q, v);
      }
    }
  }

  /** A value does not get to its own register by a move. */
  lemma NotMovedHome(k: Goal, mid: Regs, q: nat, v: OpId)
    requires InMoves(k, mid) && v < |k.o.val| && q < |mid.t| && k.want[q] == v && k.ops0[v].reg == q
    ensures mid.t[q] == v
  {
    assert StandsFor(k, mid, mid.t[q], v) && MovedFrom(k, mid, q);
  }

  lemma RecomputesFromStart(k: Goal, mid: Regs, x: OpId, t: nat)
    requires InMoves(k, mid) && Stuck(mid) && x < |k.o.val| && t < |mid.t|
    ensures Recomputable(Before(mid, t), x, t) <==> CanRecompute(k.ops0, k.s0, k.want, x, t)
  {
    assert mid.ops[x] == k.ops0[x];
    forall j | 0 <= j < |k.ops0[x].ins|
      ensures Held(Before(mid, t), k.ops0[x].ins[j]) <==> AvailableFor(k.ops0, k.s0, k.want, k.ops0[x].ins[j], t)
    {
      HeldIsAvailable(k, mid, k.ops0[x].ins[j], t);
    }
  }

  ghost predicate RestoreIs(ops: seq<RaOp>, s0: seq<OpId>, want: seq<OpId>, moved: set<nat>, mid: Regs, root: seq<OpId>, t: nat)
    requires |mid.s| == |mid.t| == |want| == |s0| && t < |mid.t|
  {
    var r := Restored(s0, want, moved, t);
    && (r ==> want[t] < |root| && want[t] < |ops| && mid.t[t] == want[t])
    && (Reloads(mid, root, t) <==> r && !CanRecompute(ops, s0, want, root[want[t]], t))
    && (Recomputes(mid, root, t) <==> r && CanRecompute(ops, s0, want, root[want[t]], t))
  }

  lemma RestoreFromStart(k: Goal, mid: Regs, root: seq<OpId>, t: nat)
    requires InMoves(k, mid) && Stuck(mid) && RootsOk(k, root) && t < |mid.t|
    ensures RestoreIs(k.ops0, k.s0, k.want, MovedSet(|k.o.val|, mid.t), mid, root, t)
  {
    WaitingIsRestored(k, mid, t);
    if !InPlace(mid, t) {
      RecomputesFromStart(k, mid, root[k.want[t]], t);
    }
  }

  lemma LostMatches(ops: seq<RaOp>, s0: seq<OpId>, want: seq<OpId>, moved: set<nat>, mid: Regs, root: seq<OpId>, t1: nat, t2: nat)
    requires |mid.s| == |mid.t| == |want| == |s0| && t1 < t2 < |mid.t| && ops <= mid.ops
    requires forall t :: 0 <= t < |want| ==> RestoreIs(ops, s0, want, moved, mid, root, t)
    ensures Unflags(mid, root, t1, t2) <==> FlagLost(ops, s0, want, root, moved, t1, t2)
  {
    assert RestoreIs(ops, s0, want, moved, mid, root, t1) && RestoreIs(ops, s0, want, moved, mid, root, t2);
    if Unflags(mid, root, t1, t2) {
      forall t | t2 <= t < |want| && want[t] == want[t1] && Restored(s0, want, moved, t)
        ensures CanRecompute(ops, s0, want, root[want[t1]], t)
      {
        assert RestoreIs(ops, s0, want, moved, mid, root, t);
      }
    }
    if FlagLost(ops, s0, want, root, moved, t1, t2) {
      forall t | t2 <= t < |mid.t| && mid.t[t] == mid.t[t1] ensures !Reloads(mid, root, t) {
        assert RestoreIs(ops, s0, want, moved, mid, root, t);
      }
    }
  }

  /** The condition in terms of what the shuffle starts from. */
  lemma FlagsFromStart(k: Goal, mid: Regs, root: seq<OpId>)
    requires InMoves(k, mid) && Stuck(mid) && RootsOk(k, root)
    ensures (forall t1: nat, t2: nat :: !Unflags(mid, root, t1, t2))
       <==> KeepsFlags(k.ops0, k.s0, k.want, root, MovedSet(|k.o.val|, mid.t))
  {
    var moved := MovedSet(|k.o.val|, mid.t);
    forall t | 0 <= t < |k.want| ensures RestoreIs(k.ops0, k.s0, k.want, moved, mid, root, t) {
      RestoreFromStart(k, mid, root, t);
    }
    forall t1: nat, t2: nat | t1 < t2 < |mid.t|
      ensures Unflags(mid, root, t1, t2) <==> FlagLost(k.ops0, k.s0, k.want, root, moved, t1, t2)
    {
      LostMatches(k.ops0, k.s0, k.want, moved, mid, root, t1, t2);
    }
  }

  /** Moves bring a value to one register at most, and only if it started elsewhere. */
  lemma MovedAtMostOnce(k: Goal, mid: Regs, q: nat, r: nat)
    requires InMoves(k, mid) && q in MovedSet(|k.o.val|, mid.t) && r in MovedSet(|k.o.val|, mid.t)
    ensures k.want[q] in k.s0 && k.s0[q] != k.want[q]
    ensures k.want[q] == k.want[r] ==> q == r
  {
    assert MovedFrom(k, mid, q);
  }

  /** If no phi is wanted in two registers, no flag is lost. */
  lemma OneRegisterEach(ops: seq<RaOp>, s0: seq<OpId>, want: seq<OpId>, root: seq<OpId>, moved: set<nat>)
    requires |want| == |s0|
    requires forall q, r :: 0 <= q < r < |want| && want[q] == want[r] ==> !IsPhi(ops, want[q])
    ensures KeepsFlags(ops, s0, want, root, moved)
  {
  }

  // ---- an input that loses a flag -----------------------------------------------------------

  function LosingOps(): (r: seq<RaOp>)
    ensures |r| == 3
  {
    var op := RaOp(Given, 1, {0, 1, 2}, {0, 1, 2}, false, [], false);
    [op, op.(reg := 3, canRemat := true, ins := [0]), op.(reg := 0, isPhi := true)]
  }

  function LosingStart(): (r: Regs)
    ensures |r.s| == |r.t| == 3
  {
    Regs(LosingOps(), [NoVal, NoVal, NoVal], [2, 0, 2], [], [])
  }

  const LOSING_ROOT: seq<OpId> := [0, 1, 1]

  function Losing(w: Word): Goal {
    Goal(Oracle([w, w, w], [w, w, w], (x: OpId, ins: seq<Word>) => w), [2, 0, 2], [w, w, w], [NoVal, NoVal, NoVal], LosingOps())
  }

  lemma LosingRestores()
    ensures var st := LosingStart();
            && !Recomputable(Before(st, 0), 1, 0) && !Recomputable(Before(st, 1), 0, 1) && Recomputable(Before(st, 2), 1, 2)
  {
    var st := LosingStart();
    assert st.ops[1].ins[0] == 0 && st.ops[0].reg == 1;
    assert HeldBefore(st, 0)[1] == NoVal && HeldBefore(st, 2)[1] == 0;
    assert !Held(Before(st, 0), st.ops[1].ins[0]);
  }

  /** Flags can be lost: registers 0 and 2 want phi 2, which looks through to op 1, and
      register 1 wants that op's operand 0. For register 0 the phi is reloaded, since the
      operand is nowhere; once that is back in register 1, the phi is recomputed for register
      2 and no longer flagged to be stored in the slot it was reloaded from. */
  lemma FlagIsLost(w: Word)
    ensures var st := LosingStart();
            && Start(Losing(w), st) && RootsOk(Losing(w), LOSING_ROOT) && MoveEnd(st.(s := Needed(st.s, st.t))) == st
            && Reloads(st, LOSING_ROOT, 0) && Reloads(st, LOSING_ROOT, 1) && Recomputes(st, LOSING_ROOT, 2)
            && 2 !in Flagged(st, LOSING_ROOT, {}, 3)
            && !KeepsFlags(st.ops, st.s, st.t, LOSING_ROOT, MovedSet(3, st.t))
  {
    var st := LosingStart();
    LosingStarts(w);
    LosingFlags();
    LosingCondition();
    assert Needed(st.s, st.t) == st.s;
    NothingMoves(st);
  }

  lemma LosingStarts(w: Word)
    ensures Start(Losing(w), LosingStart()) && RootsOk(Losing(w), LOSING_ROOT)
  {
    var k, ops := Losing(w), LosingOps();
    assert Values(k.o, ops[1].ins) == [w];
  }

  lemma LosingFlags()
    ensures var st := LosingStart();
            && Reloads(st, LOSING_ROOT, 0) && Reloads(st, LOSING_ROOT, 1) && Recomputes(st, LOSING_ROOT, 2)
            && 2 !in Flagged(st, LOSING_ROOT, {}, 3)
  {
    var st := LosingStart();
    LosingRestores();
    assert !InPlace(st, 0) && !InPlace(st, 1) && !InPlace(st, 2);
    assert IsPhi(st.ops, 2);
  }

  lemma LosingCondition()
    ensures var st := LosingStart(); FlagLost(st.ops, st.s, st.t, LOSING_ROOT, MovedSet(3, st.t), 0, 2)
  {
    var st := LosingStart();
    assert st.ops[1].ins[0] == 0 && st.ops[0].reg == 1;
    assert AvailableFor(st.ops, st.s, st.t, 0, 2) && !AvailableFor(st.ops, st.s, st.t, st.ops[1].ins[0], 0);
  }

  lemma NothingMoves(st: Regs)
    requires |st.s| == |st.t| && forall r :: 0 <= r < |st.s| ==> st.s[r] == NoVal
    ensures MoveEnd(st) == st
  {
    StillPass(st, |st.t|);
    StillBreak(st, 0);
  }

  lemma {:induction false} StillPass(st: Regs, n: nat)
    requires n <= |st.t| == |st.s| && forall r :: 0 <= r < |st.s| ==> st.s[r] == NoVal
    ensures FreePass(st, n) == st
  {
    if n > 0 {
      StillPass(st, n - 1);
    }
  }

  lemma {:induction false} StillBreak(st: Regs, t: nat)
    requires t <= |st.t| == |st.s| && forall r :: 0 <= r < |st.s| ==> st.s[r] == NoVal
    ensures BreakFrom(st, t) == st
    decreases |st.t| - t
  {
    if t < |st.t| {
      StillBreak(st, t + 1);
    }
  }
}
