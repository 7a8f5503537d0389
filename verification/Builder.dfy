/** The builder interface of Proc (src/bjit.h): labels, jumps and ops on the entries of env
    produce strict SSA that does what a machine with mutable env slots does. */
module Builder {
  import opened Digraph
  import opened Words
  import opened Ir
  import opened Ssa
  import opened Liveness
  import PhiElim

  // ---- what the front end asks for ----------------------------------------------------------

  /** A call of the builder. `pre` says what the front end has made of env since the call
      before: which entries it kept, copied, overwrote or dropped. A jump or return looks at
      an entry of env as it was, kept or not. */
  datatype Instr =
    | Emit(pre: seq<nat>, opcode: Opcode, imm: Word, slots: seq<nat>)
    | Goto(pre: seq<nat>, l: BlockId)
    | Branch(pre: seq<nat>, slot: nat, l0: BlockId, l1: BlockId)
    | Return(pre: seq<nat>, slot: nat)
  {
    predicate Ends() { !Emit? }
  }

  const Jz: Opcode := Cond(0)
  const Ret: Opcode := Exit(0)

  predicate Within(pre: seq<nat>, n: nat) {
    forall k :: 0 <= k < |pre| ==> pre[k] < n
  }

  function Pick<T>(env: seq<T>, pre: seq<nat>): (r: seq<T>)
    requires Within(pre, |env|)
    ensures |r| == |pre| && forall k :: 0 <= k < |pre| ==> r[k] == env[pre[k]]
  {
    seq(|pre|, k requires 0 <= k < |pre| => env[pre[k]])
  }

  /** An op that the front end may emit: neither a phi nor the end of a block. */
  predicate Emittable(c: Opcode) {
    !c.Phi? && !c.Cond? && !c.Jmp? && !c.Exit?
  }

  /** What an op does to the world, and its result. */
  function OpResult(sem: Semantics, c: Opcode, imm: Word, args: seq<Word>, world: World): (Word, World) {
    if c.Effect? then sem.effect(c, imm, args, world)
    else if c.Load? then (sem.load(c, imm, args, world), world)
    else (Eval(sem, c, imm, args), world)
  }

  // ---- the machine with mutable slots ---------------------------------------------------------

  datatype Machine = Machine(slots: seq<Word>, world: World)

  predicate CanStep(i: Instr, n: nat) {
    && Within(i.pre, n)
    && match i
       case Emit(pre, c, _, slots) => Within(slots, |pre|) && Emittable(c)
       case Goto(_, _) => true
       case Branch(_, s, _, _) => s < n
       case Return(_, s) => s < n
  }

  function StepMachine(sem: Semantics, i: Instr, m: Machine): Machine
    requires CanStep(i, |m.slots|)
  {
    var e := Pick(m.slots, i.pre);
    if i.Emit? then
      var (w, world) := OpResult(sem, i.opcode, i.imm, Pick(e, i.slots), m.world);
      Machine(if i.opcode.HasOutput() then e + [w] else e, world)
    else Machine(e, m.world)
  }

  // ---- the program and what it was built from ---------------------------------------------------

  /** Per block: its phis, the calls made in it, and env before the first call and after each. */
  datatype Plan = Plan(args: seq<seq<OpId>>, body: seq<seq<Instr>>, envs: seq<seq<seq<OpId>>>)

  ghost predicate PhiAt(p: Program, pl: Plan, b: BlockId, k: nat)
    requires b < |p.code| && b < |pl.args| && k < |pl.args[b]| && k < |p.code[b]|
  {
    var v := pl.args[b][k];
    && p.code[b][k] == v && v < |p.ops|
    && p.ops[v].opcode == Phi && p.ops[v].ins == [] && p.ops[v].block == b && p.ops[v].pos == k && p.ops[v].phiIndex == k
  }

  /** The op that a call stands for. */
  predicate OpOk(i: Instr, op: Op, v: OpId, env: seq<OpId>)
    requires CanStep(i, |env|)
  {
    var e := Pick(env, i.pre);
    match i
    case Emit(_, c, imm, slots) => op.opcode == c && op.imm == imm && op.ins == Pick(e, slots)
    case Goto(_, l) => op.opcode == Jmp && op.label0 == l && op.ins == []
    case Branch(_, s, l0, l1) => op.opcode == Jz && op.label0 == l0 && op.label1 == l1 && op.ins == [env[s]]
    case Return(_, s) => op.opcode == Ret && op.ins == [env[s]]
  }

  /** The op that a call has appended. */
  ghost predicate InstrAt(p: Program, pl: Plan, b: BlockId, k: nat)
    requires b < |p.code| && b < |pl.args| && b < |pl.body| && b < |pl.envs|
    requires k < |pl.body[b]| && |pl.args[b]| + k < |p.code[b]| && k + 1 < |pl.envs[b]|
  {
    var v, i, e, e' := p.code[b][|pl.args[b]| + k], pl.body[b][k], pl.envs[b][k], pl.envs[b][k + 1];
    && v < |p.ops| && p.ops[v].block == b && p.ops[v].pos == |pl.args[b]| + k
    && CanStep(i, |e|) && (i.Ends() ==> k == |pl.body[b]| - 1)
    && OpOk(i, p.ops[v], v, e) && e' == EnvNext(i, v, e) && JumpAlts(p, pl, b, i, e)
  }

  function EnvNext(i: Instr, v: OpId, e: seq<OpId>): seq<OpId>
    requires CanStep(i, |e|)
  {
    if i.Emit? && i.opcode.HasOutput() then Pick(e, i.pre) + [v] else Pick(e, i.pre)
  }

  ghost predicate JumpAlts(p: Program, pl: Plan, b: BlockId, i: Instr, e: seq<OpId>)
    requires CanStep(i, |e|)
  {
    && (i.Goto? ==> EdgeAlts(p, pl, b, i.l, Pick(e, i.pre)))
    && (i.Branch? ==> EdgeAlts(p, pl, b, i.l0, Pick(e, i.pre)) && EdgeAlts(p, pl, b, i.l1, Pick(e, i.pre)))
  }

  /** Every phi of l takes its env entry on the edge from a. */
  ghost predicate EdgeAlts(p: Program, pl: Plan, a: BlockId, l: BlockId, e: seq<OpId>) {
    && l < |p.alts| && l < |pl.args| && |e| == |pl.args[l]|
    && (forall i :: 0 <= i < |e| ==> PhiAlt(pl.args[l][i], a, e[i]) in p.alts[l] && PhiSource(p.alts[l], pl.args[l][i], a) == e[i])
    && forall s :: s in p.alts[l] && s.src == a ==> s.val in e
  }

  /** An env entry of block b is defined in b before position n. */
  ghost predicate DefinedHere(p: Program, b: BlockId, n: nat, x: OpId)
    requires b < |p.code|
  {
    && x < |p.ops| && p.ops[x].HasOutput() && p.ops[x].block == b && p.ops[x].pos < n
    && p.ops[x].pos < |p.code[b]| && p.code[b][p.ops[x].pos] == x
  }

  ghost predicate EnvDefined(p: Program, pl: Plan, b: BlockId, k: nat)
    requires b < |p.code| && b < |pl.args| && b < |pl.envs| && k < |pl.envs[b]|
  {
    forall x :: x in pl.envs[b][k] ==> DefinedHere(p, b, |pl.args[b]| + k, x)
  }

  ghost predicate Sized(p: Program, pl: Plan, b: BlockId) {
    && b < |p.code| && b < |pl.args| && b < |pl.body| && b < |pl.envs|
    && |p.code[b]| == |pl.args[b]| + |pl.body[b]| && |pl.envs[b]| == |pl.body[b]| + 1
  }

  ghost predicate BlockBuilt(p: Program, pl: Plan, b: BlockId) {
    && Sized(p, pl, b) && pl.envs[b][0] == pl.args[b]
    && (forall k: nat :: k < |pl.args[b]| ==> PhiAt(p, pl, b, k))
    && (forall k: nat :: k < |pl.body[b]| ==> InstrAt(p, pl, b, k))
    && forall k: nat :: k < |pl.envs[b]| ==> EnvDefined(p, pl, b, k)
  }

  predicate Ended(pl: Plan, b: BlockId) {
    b < |pl.body| && pl.body[b] != [] && pl.body[b][|pl.body[b]| - 1].Ends()
  }

  ghost predicate NoAltsFrom(p: Program, b: BlockId) {
    forall l, s :: 0 <= l < |p.alts| && s in p.alts[l] ==> s.src != b
  }

  ghost predicate SourcesExist(p: Program) {
    forall l, s :: 0 <= l < |p.alts| && s in p.alts[l] ==> s.src < |p.code|
  }

  /** Alternatives bring existing ops to phis of their block. */
  ghost predicate AltsNamed(alts: seq<seq<PhiAlt>>, args: seq<seq<OpId>>, n: nat) {
    |alts| == |args| && forall l :: 0 <= l < |alts| ==> Named(alts[l], args[l], n)
  }

  ghost predicate Named(s: seq<PhiAlt>, phis: seq<OpId>, n: nat) {
    forall k :: 0 <= k < |s| ==> s[k].phi in phis && s[k].val < n
  }

  ghost predicate Built(p: Program, pl: Plan) {
    && |p.code| == |p.alts| == |pl.args| == |pl.body| == |pl.envs| && |p.ops| <= NoVal
    && 0 < |p.code| && pl.args[0] == [] && SourcesExist(p) && AltsNamed(p.alts, pl.args, |p.ops|)
    && (forall b: BlockId :: b < |p.code| ==> BlockBuilt(p, pl, b))
    && forall b: BlockId :: b < |p.code| && !Ended(pl, b) ==> NoAltsFrom(p, b)
  }

  // ---- adding an op ------------------------------------------------------------------------------

  /** The call i appends op to block b; alternatives may be added as well. */
  ghost predicate Appended(p: Program, pl: Plan, q: Program, ql: Plan, b: BlockId, i: Instr, op: Op) {
    && Built(p, pl) && Sized(p, pl, b) && !Ended(pl, b) && |p.ops| < NoVal
    && var v, e := |p.ops|, pl.envs[b][|pl.body[b]|];
       && CanStep(i, |e|)
       && q.ops == p.ops + [op] && op.block == b && op.pos == |p.code[b]|
       && q.code == p.code[b := p.code[b] + [v]] && |q.alts| == |p.alts|
       && ql.args == pl.args && ql.body == pl.body[b := pl.body[b] + [i]]
       && ql.envs == pl.envs[b := pl.envs[b] + [EnvNext(i, v, e)]]
  }

  /** Alternatives are only added, and only for edges from b. */
  ghost predicate Extends(alts0: seq<seq<PhiAlt>>, alts: seq<seq<PhiAlt>>, b: BlockId) {
    |alts| == |alts0| && forall l :: 0 <= l < |alts0| ==> ExtendsAt(alts0[l], alts[l], b)
  }

  ghost predicate ExtendsAt(s: seq<PhiAlt>, t: seq<PhiAlt>, b: BlockId) {
    s <= t && forall k :: |s| <= k < |t| ==> t[k].src == b
  }

  lemma OldStays(p: Program, pl: Plan, q: Program, ql: Plan, b: BlockId, i: Instr, op: Op, c: BlockId)
    requires Appended(p, pl, q, ql, b, i, op) && c < |p.code|
    requires Extends(p.alts, q.alts, b)
    ensures Sized(p, pl, c) && Sized(q, ql, c) && |p.code[c]| <= |q.code[c]| && ql.args[c] == pl.args[c]
    ensures pl.body[c] <= ql.body[c] && pl.envs[c] <= ql.envs[c]
    ensures forall k: nat :: k < |pl.args[c]| ==> PhiAt(q, ql, c, k)
    ensures forall k: nat :: k < |pl.body[c]| ==> InstrAt(q, ql, c, k)
    ensures forall k: nat :: k < |pl.envs[c]| ==> EnvDefined(q, ql, c, k)
  {
    assert BlockBuilt(p, pl, c);
    forall k: nat | k < |pl.args[c]| ensures PhiAt(q, ql, c, k) {
      assert PhiAt(p, pl, c, k);
    }
    forall k: nat | k < |pl.envs[c]| ensures EnvDefined(q, ql, c, k) {
      assert EnvDefined(p, pl, c, k);
    }
    forall k: nat | k < |pl.body[c]| ensures InstrAt(q, ql, c, k) {
      InstrStays(p, pl, q, ql, b, i, op, c, k);
    }
  }

  lemma InstrStays(p: Program, pl: Plan, q: Program, ql: Plan, b: BlockId, i: Instr, op: Op, c: BlockId, k: nat)
    requires Appended(p, pl, q, ql, b, i, op) && c < |p.code| && k < |pl.body[c]|
    requires Extends(p.alts, q.alts, b)
    ensures k < |ql.body[c]| && |ql.args[c]| + k < |q.code[c]| && k + 1 < |ql.envs[c]| && InstrAt(q, ql, c, k)
  {
    assert BlockBuilt(p, pl, c) && InstrAt(p, pl, c, k);
    JumpStays(p, pl, q, ql, b, c, pl.body[c][k], pl.envs[c][k]);
  }

  lemma JumpStays(p: Program, pl: Plan, q: Program, ql: Plan, b: BlockId, c: BlockId, i: Instr, e: seq<OpId>)
    requires CanStep(i, |e|) && JumpAlts(p, pl, c, i, e) && Extends(p.alts, q.alts, b) && ql.args == pl.args && (i.Ends() ==> c != b)
    ensures JumpAlts(q, ql, c, i, e)
  {
    if i.Goto? {
      assert ExtendsAt(p.alts[i.l], q.alts[i.l], b);
      EdgeAltsStay(p, q, pl, ql, b, c, i.l, Pick(e, i.pre));
    } else if i.Branch? {
      assert ExtendsAt(p.alts[i.l0], q.alts[i.l0], b) && ExtendsAt(p.alts[i.l1], q.alts[i.l1], b);
      EdgeAltsStay(p, q, pl, ql, b, c, i.l0, Pick(e, i.pre));
      EdgeAltsStay(p, q, pl, ql, b, c, i.l1, Pick(e, i.pre));
    }
  }

  lemma EdgeAltsStay(p: Program, q: Program, pl: Plan, ql: Plan, b: BlockId, a: BlockId, l: BlockId, e: seq<OpId>)
    requires EdgeAlts(p, pl, a, l, e) && a != b && ql.args == pl.args && |q.alts| == |p.alts|
    requires ExtendsAt(p.alts[l], q.alts[l], b)
    ensures EdgeAlts(q, ql, a, l, e)
  {
    forall i | 0 <= i < |e|
      ensures PhiAlt(ql.args[l][i], a, e[i]) in q.alts[l] && PhiSource(q.alts[l], ql.args[l][i], a) == e[i]
    {
      SourceAppend(p.alts[l], q.alts[l], pl.args[l][i], a);
    }
  }

  /** Alternatives of other edges do not change where a phi gets its value. */
  lemma {:induction false} SourceAppend(s: seq<PhiAlt>, t: seq<PhiAlt>, phi: OpId, a: BlockId)
    requires s <= t && exists k :: 0 <= k < |s| && s[k].phi == phi && s[k].src == a
    ensures PhiSource(t, phi, a) == PhiSource(s, phi, a)
  {
    if !(s[0].phi == phi && s[0].src == a) {
      SourceAppend(s[1..], t[1..], phi, a);
    }
  }

  /** The new op itself. */
  lemma NewEnv(p: Program, pl: Plan, q: Program, ql: Plan, b: BlockId, i: Instr, op: Op)
    requires Appended(p, pl, q, ql, b, i, op)
    requires i.Emit? ==> op.opcode == i.opcode
    ensures Sized(q, ql, b) && EnvDefined(q, ql, b, |pl.body[b]| + 1)
  {
    assert BlockBuilt(p, pl, b) && EnvDefined(p, pl, b, |pl.body[b]|);
    var e, e' := pl.envs[b][|pl.body[b]|], ql.envs[b][|pl.body[b]| + 1];
    forall x | x in e' ensures DefinedHere(q, b, |ql.args[b]| + |pl.body[b]| + 1, x) {
      if x in Pick(e, i.pre) {
        assert x in e;
      } else {
        assert i.Emit? && i.opcode.HasOutput() && x == |p.ops|;
      }
    }
  }

  lemma BlockAfter(p: Program, pl: Plan, q: Program, ql: Plan, b: BlockId, i: Instr, op: Op, c: BlockId)
    requires Appended(p, pl, q, ql, b, i, op) && Sized(q, ql, b) && InstrAt(q, ql, b, |pl.body[b]|)
    requires Extends(p.alts, q.alts, b) && c < |p.code|
    ensures BlockBuilt(q, ql, c)
  {
    OldStays(p, pl, q, ql, b, i, op, c);
    assert BlockBuilt(p, pl, c);
    if c == b {
      NewEnv(p, pl, q, ql, b, i, op);
    }
  }

  /** One call, put together. */
  lemma Extended(p: Program, pl: Plan, q: Program, ql: Plan, b: BlockId, i: Instr, op: Op, e: seq<OpId>)
    requires Built(p, pl) && Sized(p, pl, b) && !Ended(pl, b) && |p.ops| < NoVal && e == pl.envs[b][|pl.body[b]|]
    requires CanStep(i, |e|) && OpOk(i, op, |p.ops|, e) && op.block == b && op.pos == |p.code[b]|
    requires Extends(p.alts, q.alts, b) && (i.Ends() || q.alts == p.alts) && AltsNamed(q.alts, pl.args, |p.ops|)
    requires q.ops == p.ops + [op] && q.code == p.code[b := p.code[b] + [|p.ops|]]
    requires ql == Plan(pl.args, pl.body[b := pl.body[b] + [i]], pl.envs[b := pl.envs[b] + [EnvNext(i, |p.ops|, e)]])
    requires JumpAlts(p.(alts := q.alts), pl, b, i, e)
    ensures Built(q, ql) && Sized(q, ql, b)
  {
    assert BlockBuilt(p, pl, b);
    assert Appended(p, pl, q, ql, b, i, op);
    assert JumpAlts(q, ql, b, i, e) by {
      if i.Goto? {
        assert EdgeAlts(p.(alts := q.alts), pl, b, i.l, Pick(e, i.pre));
      }
    }
    assert InstrAt(q, ql, b, |pl.body[b]|);
    AppendKeeps(p, pl, q, ql, b, i, op);
  }

  /** Appending an op for a call keeps everything that has been built. */
  lemma AppendKeeps(p: Program, pl: Plan, q: Program, ql: Plan, b: BlockId, i: Instr, op: Op)
    requires Appended(p, pl, q, ql, b, i, op) && Sized(q, ql, b) && InstrAt(q, ql, b, |pl.body[b]|)
    requires Extends(p.alts, q.alts, b) && AltsNamed(q.alts, pl.args, |p.ops|)
    requires i.Ends() || q.alts == p.alts
    ensures Built(q, ql)
  {
    forall c: BlockId | c < |q.code| ensures BlockBuilt(q, ql, c) {
      BlockAfter(p, pl, q, ql, b, i, op, c);
    }
    AltsAfter(p, pl, q, ql, b, i, op);
    NamedStay(q.alts, ql.args, |p.ops|, |q.ops|);
  }

  lemma NamedStay(alts: seq<seq<PhiAlt>>, args: seq<seq<OpId>>, n: nat, m: nat)
    requires AltsNamed(alts, args, n) && n <= m
    ensures AltsNamed(alts, args, m)
  {
    forall l | 0 <= l < |alts| ensures Named(alts[l], args[l], m) {
      assert Named(alts[l], args[l], n);
    }
  }

  lemma AltsAfter(p: Program, pl: Plan, q: Program, ql: Plan, b: BlockId, i: Instr, op: Op)
    requires Appended(p, pl, q, ql, b, i, op)
    requires Extends(p.alts, q.alts, b)
    requires i.Ends() || q.alts == p.alts
    ensures SourcesExist(q) && forall c: BlockId :: c < |q.code| && !Ended(ql, c) ==> NoAltsFrom(q, c)
  {
    forall l, s | 0 <= l < |q.alts| && s in q.alts[l] ensures s in p.alts[l] || (s.src == b && i.Ends()) {
      var k :| 0 <= k < |q.alts[l]| && q.alts[l][k] == s;
      assert ExtendsAt(p.alts[l], q.alts[l], b);
      if k < |p.alts[l]| {
        assert s == p.alts[l][k];
      }
    }
    forall c: BlockId | c < |q.code| && !Ended(ql, c) ensures NoAltsFrom(q, c) {
      assert !Ended(pl, c) && NoAltsFrom(p, c);
    }
  }

  // ---- alternatives ------------------------------------------------------------------------------

  /** t extends s by alternatives that bring e[i] to phi[i] from b, the first n at least. */
  ghost predicate Fed(s: seq<PhiAlt>, t: seq<PhiAlt>, phi: seq<OpId>, b: BlockId, e: seq<OpId>, n: nat) {
    && s <= t && |phi| == |e| && n <= |e|
    && (forall k :: |s| <= k < |t| ==> exists i :: 0 <= i < |e| && t[k] == PhiAlt(phi[i], b, e[i]))
    && forall i :: 0 <= i < n ==> PhiAlt(phi[i], b, e[i]) in t
  }

  lemma FedMore(s: seq<PhiAlt>, t: seq<PhiAlt>, phi: seq<OpId>, b: BlockId, e: seq<OpId>, n: nat, i: nat)
    requires Fed(s, t, phi, b, e, n) && i < |e| && (i < n || i == n)
    ensures Fed(s, t + [PhiAlt(phi[i], b, e[i])], phi, b, e, if i == n then n + 1 else n)
  {
    var u := t + [PhiAlt(phi[i], b, e[i])];
    assert u[|t|] == PhiAlt(phi[i], b, e[i]);
    forall k | |s| <= k < |u| ensures exists j :: 0 <= j < |e| && u[k] == PhiAlt(phi[j], b, e[j]) {
      if k < |t| {
        assert u[k] == t[k];
      }
    }
  }

  lemma FedFinds(s: seq<PhiAlt>, t: seq<PhiAlt>, phi: seq<OpId>, b: BlockId, e: seq<OpId>, i: nat)
    requires Fed(s, t, phi, b, e, |e|) && i < |e|
    requires forall x, y :: 0 <= x < y < |phi| ==> phi[x] != phi[y]
    requires forall a :: a in s ==> a.src != b
    ensures PhiSource(t, phi[i], b) == e[i]
  {
    var k0 :| 0 <= k0 < |t| && t[k0] == PhiAlt(phi[i], b, e[i]);
    var r := PhiSource(t, phi[i], b);
    assert PhiAlt(phi[i], b, r) in t;
    var k :| 0 <= k < |t| && t[k] == PhiAlt(phi[i], b, r);
    assert forall m :: 0 <= m < |s| ==> t[m] == s[m] && s[m] in s;
    var j :| 0 <= j < |e| && t[k] == PhiAlt(phi[j], b, e[j]);
  }

  /** Feeding env entries to the phis of a block names existing ops. */
  lemma FedNamed(p: Program, pl: Plan, b: BlockId, l: BlockId, t: seq<PhiAlt>, e: seq<OpId>, pre: seq<nat>)
    requires Built(p, pl) && Sized(p, pl, b) && l < |p.alts| && e == pl.envs[b][|pl.body[b]|]
    requires Within(pre, |e|) && Fed(p.alts[l], t, pl.args[l], b, Pick(e, pre), |pre|)
    ensures Named(t, pl.args[l], |p.ops|)
  {
    assert BlockBuilt(p, pl, b) && EnvDefined(p, pl, b, |pl.body[b]|) && Named(p.alts[l], pl.args[l], |p.ops|);
    forall k | 0 <= k < |t| ensures t[k].phi in pl.args[l] && t[k].val < |p.ops| {
      if k < |p.alts[l]| {
        assert t[k] == p.alts[l][k];
      } else {
        var i :| 0 <= i < |pre| && t[k] == PhiAlt(pl.args[l][i], b, Pick(e, pre)[i]);
        assert e[pre[i]] in e;
      }
    }
  }

  lemma FedIsEdge(p: Program, pl: Plan, q: Program, b: BlockId, l: BlockId, e: seq<OpId>)
    requires l < |p.alts| && l < |q.alts| && l < |pl.args| && Fed(p.alts[l], q.alts[l], pl.args[l], b, e, |e|)
    requires forall x, y :: 0 <= x < y < |pl.args[l]| ==> pl.args[l][x] != pl.args[l][y]
    requires NoAltsFrom(p, b)
    ensures EdgeAlts(q, pl, b, l, e)
  {
    forall i | 0 <= i < |e| ensures PhiSource(q.alts[l], pl.args[l][i], b) == e[i] {
      FedFinds(p.alts[l], q.alts[l], pl.args[l], b, e, i);
    }
    forall s | s in q.alts[l] && s.src == b ensures s.val in e {
      var k :| 0 <= k < |q.alts[l]| && q.alts[l][k] == s;
      assert forall m :: 0 <= m < |p.alts[l]| ==> p.alts[l][m] in p.alts[l];
    }
  }

  lemma ArgsDistinct(p: Program, pl: Plan, l: BlockId)
    requires Built(p, pl) && l < |p.code|
    ensures forall x, y :: 0 <= x < y < |pl.args[l]| ==> pl.args[l][x] != pl.args[l][y]
  {
    assert BlockBuilt(p, pl, l);
    forall x: nat, y: nat | x < y < |pl.args[l]| ensures pl.args[l][x] != pl.args[l][y] {
      assert PhiAt(p, pl, l, x) && PhiAt(p, pl, l, y);
    }
  }

  // ---- the builder -----------------------------------------------------------------------------

  class Builder {
    var prog: Program
    var args: seq<seq<OpId>>
    var emitted: seq<bool>
    var env: seq<OpId>
    var current: BlockId
    ghost var plan: Plan

    ghost predicate Valid()
      reads this
    {
      && Built(prog, plan) && plan.args == args && |emitted| == |prog.code|
      && Sized(prog, plan, current) && env == plan.envs[current][|plan.body[current]|]
      && emitted[current] && forall l :: 0 <= l < |emitted| && !emitted[l] ==> plan.body[l] == []
    }

    /** A program with one empty block. */
    constructor ()
      ensures Valid() && prog == Program([], [[]], [[]]) && plan == Plan([[]], [[]], [[[]]]) && current == 0
    {
      prog, args, emitted, env, current := Program([], [[]], [[]]), [[]], [true], [], 0;
      plan := Plan([[]], [[]], [[[]]]);
    }

    // ---- labels -------------------------------------------------------------------------------

    /** A block with one phi per env entry. */
    method NewLabel(pre: seq<nat>) returns (l: BlockId)
      requires Valid() && Within(pre, |env|) && |prog.ops| + |pre| <= NoVal
      modifies this
      ensures Valid() && l == |old(prog.code)| && current == old(current)
      ensures |args| == l + 1 && args == old(args) + [args[l]] && |args[l]| == |pre|
      ensures plan.body == old(plan.body) + [[]]
      ensures emitted == old(emitted) + [false] && env == old(env) && |prog.ops| == |old(prog.ops)| + |pre|
      ensures forall k :: 0 <= k < |pre| ==>
                args[l][k] < |prog.ops| && prog.ops[args[l][k]].opcode.Phi? && prog.ops[args[l][k]].phiIndex == k
    {
      l := |prog.code|;
      var phis: seq<OpId> := [];
      var ops := prog.ops;
      for i := 0 to |pre|
        invariant |phis| == i && |ops| == |prog.ops| + i && prog.ops <= ops
        invariant forall k :: 0 <= k < i ==> phis[k] == |prog.ops| + k && ops[phis[k]] == NewPhi(l, k)
      {
        phis := phis + [|ops|];
        ops := ops + [NewPhi(l, i)];
      }
      ghost var p0, pl0 := prog, plan;
      prog := Program(ops, prog.code + [phis], prog.alts + [[]]);
      args, emitted := args + [phis], emitted + [false];
      plan := Plan(args, plan.body + [[]], plan.envs + [[phis]]);
      LabelKeeps(p0, pl0, prog, plan, phis);
    }

    /** Code goes on at a label; env becomes its phis. */
    method EmitLabel(l: BlockId)
      requires Valid() && l < |prog.code| && !emitted[l]
      modifies this
      ensures Valid() && prog == old(prog) && plan == old(plan) && args == old(args)
      ensures current == l && env == args[l] && emitted == old(emitted)[l := true]
    {
      emitted := emitted[l := true];
      current := l;
      env := args[l];
      assert BlockBuilt(prog, plan, l);
    }

    // ---- ops ----------------------------------------------------------------------------------

    method AddOp(i: Instr, op: Op, alts: seq<seq<PhiAlt>>)
      requires Valid() && !Ended(plan, current) && |prog.ops| < NoVal && CanStep(i, |env|)
      requires op.block == current && op.pos == |prog.code[current]|
      requires |alts| == |prog.alts| && (i.Ends() || alts == prog.alts)
      requires Extends(prog.alts, alts, current) && AltsNamed(alts, args, |prog.ops|)
      requires OpOk(i, op, |prog.ops|, env)
      requires JumpAlts(prog.(alts := alts), plan, current, i, env)
      modifies this`prog, this`env, this`plan
      ensures Valid() && current == old(current) && prog.ops == old(prog.ops) + [op] && prog.alts == alts
      ensures plan.args == old(plan.args) && plan.body == old(plan.body)[current := old(plan.body[current]) + [i]]
      ensures env == Pick(old(env), i.pre) + if i.Emit? && i.opcode.HasOutput() then [|old(prog.ops)|] else []
    {
      var v := |prog.ops|;
      var next := Program(prog.ops + [op], prog.code[current := prog.code[current] + [v]], alts);
      ghost var nextPlan := Plan(args, plan.body[current := plan.body[current] + [i]],
                                 plan.envs[current := plan.envs[current] + [EnvNext(i, v, env)]]);
      Extended(prog, plan, next, nextPlan, current, i, op, env);
      env := Pick(env, i.pre);
      if i.Emit? && i.opcode.HasOutput() { env := env + [v]; }
      prog, plan := next, nextPlan;
    }

    /** An op on env entries; its result becomes the last entry. */
    method EmitOp(pre: seq<nat>, opcode: Opcode, imm: Word, slots: seq<nat>)
      requires Valid() && !Ended(plan, current) && |prog.ops| < NoVal && CanStep(Instr.Emit(pre, opcode, imm, slots), |env|)
      modifies this
      ensures Valid() && current == old(current) && plan.args == old(plan.args) && emitted == old(emitted)
      ensures plan.body == old(plan.body)[current := old(plan.body[current]) + [Instr.Emit(pre, opcode, imm, slots)]]
      ensures args == old(args) && |prog.ops| == |old(prog.ops)| + 1 && |env| == |pre| + if opcode.HasOutput() then 1 else 0
    {
      AddOp(Instr.Emit(pre, opcode, imm, slots),
            Op(opcode, Pick(Pick(env, pre), slots), imm, NoVal, NoVal, current, |prog.code[current]|, 0), prog.alts);
    }

    method Return(pre: seq<nat>, slot: nat)
      requires Valid() && !Ended(plan, current) && |prog.ops| < NoVal && CanStep(Instr.Return(pre, slot), |env|)
      modifies this
      ensures Valid() && current == old(current) && plan.args == old(plan.args) && emitted == old(emitted)
      ensures plan.body == old(plan.body)[current := old(plan.body[current]) + [Instr.Return(pre, slot)]]
      ensures args == old(args) && |prog.ops| == |old(prog.ops)| + 1
    {
      AddOp(Instr.Return(pre, slot),
            Op(Ret, [env[slot]], 0, NoVal, NoVal, current, |prog.code[current]|, 0), prog.alts);
    }

    // ---- jumps --------------------------------------------------------------------------------

    /** A jump; every phi of the label gets its env entry as the alternative for this block. */
    method Jmp(pre: seq<nat>, l: BlockId)
      requires Valid() && !Ended(plan, current) && |prog.ops| < NoVal && Within(pre, |env|)
      requires l < |args| && |pre| == |args[l]|
      modifies this
      ensures Valid() && current == old(current) && plan.args == old(plan.args) && emitted == old(emitted)
      ensures plan.body == old(plan.body)[current := old(plan.body[current]) + [Instr.Goto(pre, l)]]
      ensures args == old(args) && |prog.ops| == |old(prog.ops)| + 1
    {
      var e := Pick(env, pre);
      var alts := prog.alts;
      for a := 0 to |e|
        invariant |alts| == |prog.alts| && Fed(prog.alts[l], alts[l], args[l], current, e, a)
        invariant forall k :: 0 <= k < |alts| && k != l ==> alts[k] == prog.alts[k]
        modifies {}
      {
        FedMore(prog.alts[l], alts[l], args[l], current, e, a, a);
        alts := alts[l := alts[l] + [PhiAlt(args[l][a], current, e[a])]];
      }
      FedExtends(prog.alts[l], alts[l], args[l], current, e, |e|);
      ArgsDistinct(prog, plan, l);
      FedIsEdge(prog, plan, prog.(alts := alts), current, l, e);
      FedNamed(prog, plan, current, l, alts[l], env, pre);
      AddOp(Instr.Goto(pre, l), Op(Opcode.Jmp, [], 0, l, NoVal, current, |prog.code[current]|, 0), alts);
    }

    /** A conditional jump; both labels get their alternatives in turn. */
    method BranchZero(pre: seq<nat>, slot: nat, l0: BlockId, l1: BlockId)
      requires Valid() && !Ended(plan, current) && |prog.ops| < NoVal && CanStep(Instr.Branch(pre, slot, l0, l1), |env|)
      requires l0 < |args| && l1 < |args| && |pre| == |args[l0]| == |args[l1]|
      modifies this
      ensures Valid() && current == old(current) && plan.args == old(plan.args) && emitted == old(emitted)
      ensures plan.body == old(plan.body)[current := old(plan.body[current]) + [Instr.Branch(pre, slot, l0, l1)]]
      ensures args == old(args) && |prog.ops| == |old(prog.ops)| + 1
    {
      var e := Pick(env, pre);
      var alts := AddBoth(prog.alts, l0, l1, args[l0], args[l1], current, e);
      ArgsDistinct(prog, plan, l0);
      ArgsDistinct(prog, plan, l1);
      FedIsEdge(prog, plan, prog.(alts := alts), current, l0, e);
      FedIsEdge(prog, plan, prog.(alts := alts), current, l1, e);
      FedNamed(prog, plan, current, l0, alts[l0], env, pre);
      FedNamed(prog, plan, current, l1, alts[l1], env, pre);
      AddOp(Instr.Branch(pre, slot, l0, l1), Op(Jz, [env[slot]], 0, l0, l1, current, |prog.code[current]|, 0), alts);
    }
  }

  method AddBoth(alts0: seq<seq<PhiAlt>>, l0: BlockId, l1: BlockId, phi0: seq<OpId>, phi1: seq<OpId>, b: BlockId, e: seq<OpId>)
    returns (alts: seq<seq<PhiAlt>>)
    requires l0 < |alts0| && l1 < |alts0| && |e| == |phi0| == |phi1| && (l0 == l1 ==> phi0 == phi1)
    ensures Extends(alts0, alts, b)
    ensures Fed(alts0[l0], alts[l0], phi0, b, e, |e|) && Fed(alts0[l1], alts[l1], phi1, b, e, |e|)
    ensures forall k :: 0 <= k < |alts| && k != l0 && k != l1 ==> alts[k] == alts0[k]
  {
    alts := alts0;
    for a := 0 to |e|
      invariant |alts| == |alts0| && Fed(alts0[l0], alts[l0], phi0, b, e, a) && Fed(alts0[l1], alts[l1], phi1, b, e, a)
      invariant forall k :: 0 <= k < |alts| && k != l0 && k != l1 ==> alts[k] == alts0[k]
    {
      FedMore(alts0[l0], alts[l0], phi0, b, e, a, a);
      alts := alts[l0 := alts[l0] + [PhiAlt(phi0[a], b, e[a])]];
      if l1 == l0 {
        FedAgain(alts0[l1], alts[l1], phi1, b, e, a);
      } else {
        FedMore(alts0[l1], alts[l1], phi1, b, e, a, a);
      }
      alts := alts[l1 := alts[l1] + [PhiAlt(phi1[a], b, e[a])]];
    }
    FedExtends(alts0[l0], alts[l0], phi0, b, e, |e|);
    FedExtends(alts0[l1], alts[l1], phi1, b, e, |e|);
  }

  lemma FedExtends(s: seq<PhiAlt>, t: seq<PhiAlt>, phi: seq<OpId>, b: BlockId, e: seq<OpId>, n: nat)
    requires Fed(s, t, phi, b, e, n)
    ensures ExtendsAt(s, t, b)
  {
  }

  /** If both labels are the same, each alternative is added twice. */
  lemma FedAgain(s: seq<PhiAlt>, t: seq<PhiAlt>, phi: seq<OpId>, b: BlockId, e: seq<OpId>, i: nat)
    requires i < |e| && Fed(s, t, phi, b, e, i + 1)
    ensures Fed(s, t + [PhiAlt(phi[i], b, e[i])], phi, b, e, i + 1)
  {
    FedMore(s, t, phi, b, e, i + 1, i);
  }

  function NewPhi(l: BlockId, k: nat): Op { Op(Phi, [], 0, NoVal, NoVal, l, k, k) }

  lemma LabelKeeps(p: Program, pl: Plan, q: Program, ql: Plan, phis: seq<OpId>)
    requires Built(p, pl) && p.ops <= q.ops && |q.ops| == |p.ops| + |phis| <= NoVal
    requires q.code == p.code + [phis] && q.alts == p.alts + [[]]
    requires ql == Plan(pl.args + [phis], pl.body + [[]], pl.envs + [[phis]])
    requires forall k :: 0 <= k < |phis| ==> phis[k] == |p.ops| + k && q.ops[phis[k]] == NewPhi(|p.code|, k)
    ensures Built(q, ql)
  {
    forall b: BlockId | b < |q.code| ensures BlockBuilt(q, ql, b) {
      if b < |p.code| {
        assert BlockBuilt(p, pl, b);
        forall k: nat | k < |pl.args[b]| ensures PhiAt(q, ql, b, k) {
          assert PhiAt(p, pl, b, k);
        }
        forall k: nat | k < |pl.envs[b]| ensures EnvDefined(q, ql, b, k) {
          assert EnvDefined(p, pl, b, k);
        }
        forall k: nat | k < |pl.body[b]| ensures InstrAt(q, ql, b, k) {
          assert InstrAt(p, pl, b, k);
        }
      }
    }
    NamedStay(p.alts, pl.args, |p.ops|, |q.ops|);
    forall b: BlockId | b < |q.code| && !Ended(ql, b) ensures NoAltsFrom(q, b) {
      if b < |p.code| {
        assert !Ended(pl, b) && NoAltsFrom(p, b);
      } else {
        NoSourceYet(p, pl, b);
      }
    }
  }

  /** Nothing comes from a block that does not exist yet. */
  lemma NoSourceYet(p: Program, pl: Plan, b: BlockId)
    requires Built(p, pl) && b >= |p.code|
    ensures NoAltsFrom(p, b)
  {
  }

  // ---- the result is strict SSA -------------------------------------------------------------------

  /** Every block that can be reached has been ended. */
  ghost predicate Complete(p: Program, pl: Plan) {
    Built(p, pl) && |p.code| < NoVal && forall b: BlockId :: LiveBlock(p.ops, p.code, b) ==> Ended(pl, b)
  }

  lemma LastInstr(p: Program, pl: Plan, b: BlockId)
    requires Built(p, pl) && Ended(pl, b)
    ensures Sized(p, pl, b) && InstrAt(p, pl, b, |pl.body[b]| - 1) && EndsOk(p.ops, p.code, b)
    ensures forall t :: t in Succ(p.ops, p.code, b) ==>
              t < |p.code| && EdgeAlts(p, pl, b, t, pl.envs[b][|pl.body[b]|])
  {
    assert BlockBuilt(p, pl, b);
    assert InstrAt(p, pl, b, |pl.body[b]| - 1);
  }

  lemma BuiltCfg(p: Program, pl: Plan)
    requires Complete(p, pl)
    ensures CfgOk(p.ops, p.code)
  {
    forall b | LiveBlock(p.ops, p.code, b) ensures EndsOk(p.ops, p.code, b) {
      assert Ended(pl, b);
      LastInstr(p, pl, b);
    }
  }

  lemma CodeAt(p: Program, pl: Plan, b: BlockId, j: nat)
    requires Built(p, pl) && b < |p.code| && j < |p.code[b]|
    ensures Sized(p, pl, b)
    ensures if j < |pl.args[b]| then PhiAt(p, pl, b, j) else InstrAt(p, pl, b, j - |pl.args[b]|)
  {
    assert BlockBuilt(p, pl, b);
    if j < |pl.args[b]| {
      assert PhiAt(p, pl, b, j);
    } else {
      assert InstrAt(p, pl, b, j - |pl.args[b]|);
    }
  }

  ghost predicate InputsHere(p: Program, b: BlockId, j: nat) {
    && b < |p.code| && j < |p.code[b]| && p.code[b][j] < |p.ops|
    && forall k :: 0 <= k < |p.ops[p.code[b][j]].ins| ==> DefinedHere(p, b, j, p.ops[p.code[b][j]].ins[k])
  }

  /** The operands of a built op were env entries. */
  lemma OperandsHere(p: Program, pl: Plan, b: BlockId, k: nat)
    requires Built(p, pl) && Sized(p, pl, b) && k < |pl.body[b]|
    ensures InstrAt(p, pl, b, k) && InputsHere(p, b, |pl.args[b]| + k)
  {
    assert BlockBuilt(p, pl, b) && InstrAt(p, pl, b, k) && EnvDefined(p, pl, b, k);
    var e, i := pl.envs[b][k], pl.body[b][k];
    var e1 := Pick(e, i.pre);
    forall m | 0 <= m < |e| ensures DefinedHere(p, b, |pl.args[b]| + k, e[m]) {
      assert e[m] in e;
    }
    forall m | 0 <= m < |e1| ensures DefinedHere(p, b, |pl.args[b]| + k, e1[m]) {
      assert e1[m] in e;
    }
  }

  lemma OpKind(i: Instr, op: Op, v: OpId, e: seq<OpId>)
    requires CanStep(i, |e|) && OpOk(i, op, v, e)
    ensures (op.IsTerminator() <==> i.Ends()) && !op.opcode.Phi?
  {
  }

  lemma BuiltPlacedAt(p: Program, pl: Plan, b: BlockId, j: nat)
    requires Built(p, pl) && Ended(pl, b) && b < |p.code| && j < |p.code[b]|
    ensures PlacedAt(p, b, j)
  {
    CodeAt(p, pl, b, j);
    LastInstr(p, pl, b);
    if j >= |pl.args[b]| {
      var k := j - |pl.args[b]|;
      OperandsHere(p, pl, b, k);
      OpKind(pl.body[b][k], p.ops[p.code[b][j]], p.code[b][j], pl.envs[b][k]);
    } else {
      assert p.ops[p.code[b][j]].opcode == Phi;
    }
  }

  lemma BuiltPlaced(p: Program, pl: Plan)
    requires Complete(p, pl)
    ensures Placed(p)
  {
    BuiltCfg(p, pl);
    forall b: BlockId, j: nat | LiveBlock(p.ops, p.code, b) && b < |p.code| && j < |p.code[b]| ensures PlacedAt(p, b, j) {
      assert Ended(pl, b);
      BuiltPlacedAt(p, pl, b, j);
    }
  }

  /** What is defined in a block dominates the rest of it. */
  lemma HereDominates(p: Program, b: BlockId, n: nat, x: OpId, z: Point)
    requires b < |p.code| && LiveBlock(p.ops, p.code, b) && DefinedHere(p, b, n, x) && z == Point(b, n + 1)
    ensures UseOk(p, z, x) && DefPoint(p.ops, x) != z
    ensures UseOk(p, Point(b, n), x)
  {
    SameBlockDominates(p.ops, p.code, b, DefPoint(p.ops, x).i, n + 1);
    SameBlockDominates(p.ops, p.code, b, DefPoint(p.ops, x).i, n);
  }

  /** The builder's program is strict SSA, with phis first and every alternative defined at
      its source. */
  lemma BuiltStrict(p: Program, pl: Plan)
    requires Complete(p, pl)
    ensures StrictSsa(p) && PhisFirst(p) && AltsStrict(p)
  {
    BuiltPlaced(p, pl);
    forall b: BlockId, j: nat | LiveBlock(p.ops, p.code, b) && b < |p.code| && j < |p.code[b]| ensures InputsOk(p, b, j) {
      BuiltInputs(p, pl, b, j);
    }
    forall a: BlockId, b: BlockId, v: OpId |
      LiveBlock(p.ops, p.code, a) && a < |p.code| && b in Succ(p.ops, p.code, a) && b < |p.alts| && IsPhiOf(p, b, v)
      ensures EdgeOk(p, a, b, v)
    {
      BuiltEdge(p, pl, a, b, v);
    }
    forall b, i, j | 0 <= b < |p.code| && 0 <= i < j < |p.code[b]| && p.code[b][i] < |p.ops| && p.code[b][j] < |p.ops|
      && p.ops[p.code[b][j]].opcode.Phi?
      ensures p.ops[p.code[b][i]].opcode.Phi?
    {
      CodeAt(p, pl, b, i);
      CodeAt(p, pl, b, j);
    }
    forall a: BlockId, b: BlockId, k: nat |
      LiveBlock(p.ops, p.code, a) && a < |p.code| && b in Succ(p.ops, p.code, a) && b < |p.alts|
      && k < |p.alts[b]| && p.alts[b][k].src == a
      ensures UseOk(p, Point(a, |p.code[a]|), p.alts[b][k].val)
    {
      EndEnv(p, pl, a, b);
      assert p.alts[b][k] in p.alts[b];
    }
  }

  lemma BuiltInputs(p: Program, pl: Plan, b: BlockId, j: nat)
    requires Complete(p, pl) && LiveBlock(p.ops, p.code, b) && b < |p.code| && j < |p.code[b]|
    ensures InputsOk(p, b, j)
  {
    CodeAt(p, pl, b, j);
    if j >= |pl.args[b]| {
      OperandsHere(p, pl, b, j - |pl.args[b]|);
      forall x | x in p.ops[p.code[b][j]].ins ensures InputOk(p, Point(b, j + 1), x) {
        HereDominates(p, b, j, x, Point(b, j + 1));
      }
    }
  }

  /** At the end of a block env holds what the alternatives of the edges out of it name. */
  lemma EndEnv(p: Program, pl: Plan, a: BlockId, b: BlockId)
    requires Complete(p, pl) && LiveBlock(p.ops, p.code, a) && b in Succ(p.ops, p.code, a)
    ensures a < |p.code| && Sized(p, pl, a) && b < |p.code| && EdgeAlts(p, pl, a, b, pl.envs[a][|pl.body[a]|])
    ensures forall x :: x in pl.envs[a][|pl.body[a]|] ==> UseOk(p, Point(a, |p.code[a]|), x)
  {
    assert Ended(pl, a);
    LastInstr(p, pl, a);
    assert BlockBuilt(p, pl, a) && EnvDefined(p, pl, a, |pl.body[a]|);
    forall x | x in pl.envs[a][|pl.body[a]|] ensures UseOk(p, Point(a, |p.code[a]|), x) {
      HereDominates(p, a, |p.code[a]|, x, Point(a, |p.code[a]| + 1));
    }
  }

  lemma BuiltEdge(p: Program, pl: Plan, a: BlockId, b: BlockId, v: OpId)
    requires Complete(p, pl) && LiveBlock(p.ops, p.code, a) && b in Succ(p.ops, p.code, a) && IsPhiOf(p, b, v)
    ensures a < |p.code| && b < |p.alts| && EdgeOk(p, a, b, v)
  {
    EndEnv(p, pl, a, b);
    var j :| 0 <= j < |p.code[b]| && p.code[b][j] == v;
    CodeAt(p, pl, b, j);
    var e := pl.envs[a][|pl.body[a]|];
    assert pl.args[b][j] == v && e[j] in e;
    assert PhiAlt(pl.args[b][j], a, e[j]) in p.alts[b];
  }

  /** Phi elimination finds the slots it needs: in every block the alternatives name phis of
      the block, and different phis have different slots. */
  lemma BuiltSlots(p: Program, pl: Plan, b: BlockId)
    requires Built(p, pl) && b < |p.code|
    ensures PhiElim.SlotsOk(p.ops, p.alts[b], |pl.args[b]|)
  {
    assert BlockBuilt(p, pl, b) && Named(p.alts[b], pl.args[b], |p.ops|);
    forall k | 0 <= k < |p.alts[b]| ensures OwnSlot(p, pl, b, p.alts[b][k].phi) {
      var i :| 0 <= i < |pl.args[b]| && pl.args[b][i] == p.alts[b][k].phi;
      assert PhiAt(p, pl, b, i);
    }
  }

  /** The slot of a phi is the place it has among the phis of its block. */
  ghost predicate OwnSlot(p: Program, pl: Plan, b: BlockId, v: OpId)
    requires b < |pl.args|
  {
    v < |p.ops| && p.ops[v].phiIndex < |pl.args[b]| && pl.args[b][p.ops[v].phiIndex] == v
  }

  // ---- the result does what the machine does ------------------------------------------------------

  /** env as the builder had it after the call at point z. */
  ghost function EnvAt(p: Program, pl: Plan, z: Point): seq<OpId>
    requires Sized(p, pl, z.b) && z.i <= |p.code[z.b]|
  {
    if z.i <= |pl.args[z.b]| then pl.envs[z.b][0] else pl.envs[z.b][z.i - |pl.args[z.b]|]
  }

  lemma PointSized(p: Program, pl: Plan, r: seq<Point>)
    requires Complete(p, pl) && IsRun(Points(p), r)
    ensures var z := r[|r| - 1];
            && LiveBlock(p.ops, p.code, z.b) && Sized(p, pl, z.b) && z.i <= |p.code[z.b]| && BlockBuilt(p, pl, z.b)
  {
    BuiltCfg(p, pl);
    PointLive(p.ops, p.code, r);
    assert BlockBuilt(p, pl, r[|r| - 1].b);
  }

  /** Entering a block: env entries and phis correspond one to one. */
  lemma EntryCounts(p: Program, pl: Plan, r: seq<Point>)
    requires Complete(p, pl) && IsRun(Points(p), r) && |r| > 1 && r[|r| - 1].i == 0
    ensures var x, z := r[|r| - 2], r[|r| - 1];
            && LiveBlock(p.ops, p.code, x.b) && Sized(p, pl, x.b) && x.i == |p.code[x.b]| && Sized(p, pl, z.b)
            && EdgeAlts(p, pl, x.b, z.b, EnvAt(p, pl, x)) && BlockBuilt(p, pl, z.b)
  {
    var n := |r| - 1;
    assert (r[n - 1], r[n - 1 + 1]) in Points(p).edges;
    assert IsRun(Points(p), r[..n]);
    PointSized(p, pl, r[..n]);
    PointSized(p, pl, r);
    EndEnv(p, pl, r[n - 1].b, r[n].b);
    assert Ended(pl, r[n - 1].b);
  }

  /** The machine at one more point: it sees the calls and not the phis. */
  ghost function MachineAt(pl: Plan, sem: Semantics, z: Point, m: Machine): Machine
    requires z.b < |pl.args| && z.b < |pl.body| && z.i <= |pl.args[z.b]| + |pl.body[z.b]|
  {
    if z.i <= |pl.args[z.b]| then m
    else
      var i := pl.body[z.b][z.i - |pl.args[z.b]| - 1];
      if CanStep(i, |m.slots|) then StepMachine(sem, i, m) else m
  }

  /** There are as many slots as env entries. */
  lemma CountsAgree(p: Program, pl: Plan, sem: Semantics, r: seq<Point>, m: Machine)
    requires Complete(p, pl) && IsRun(Points(p), r) && |r| > 1
    requires Sized(p, pl, r[|r| - 2].b) && r[|r| - 2].i <= |p.code[r[|r| - 2].b]| && |m.slots| == |EnvAt(p, pl, r[|r| - 2])|
    ensures Sized(p, pl, r[|r| - 1].b) && r[|r| - 1].i <= |p.code[r[|r| - 1].b]|
    ensures |MachineAt(pl, sem, r[|r| - 1], m).slots| == |EnvAt(p, pl, r[|r| - 1])|
    ensures r[|r| - 1].i > |pl.args[r[|r| - 1].b]| ==> CanStep(pl.body[r[|r| - 1].b][r[|r| - 1].i - |pl.args[r[|r| - 1].b]| - 1], |m.slots|)
  {
    PointSized(p, pl, r);
    var z := r[|r| - 1];
    if z.i == 0 {
      EntryCounts(p, pl, r);
    } else {
      SameBlock(p, r);
      if z.i > |pl.args[z.b]| {
        CallAt(p, pl, z.b, z.i - |pl.args[z.b]| - 1);
      }
    }
  }

  /** The machine along a run of the program. */
  ghost function RunMachine(p: Program, pl: Plan, sem: Semantics, m0: Machine, r: seq<Point>): (m: Machine)
    requires Complete(p, pl) && IsRun(Points(p), r) && m0.slots == []
    ensures Sized(p, pl, r[|r| - 1].b) && r[|r| - 1].i <= |p.code[r[|r| - 1].b]|
    ensures |m.slots| == |EnvAt(p, pl, r[|r| - 1])|
    decreases |r|
  {
    PointSized(p, pl, r);
    if |r| == 1 then m0
    else
      assert IsRun(Points(p), r[..|r| - 1]);
      var m := RunMachine(p, pl, sem, m0, r[..|r| - 1]);
      CountsAgree(p, pl, sem, r, m);
      MachineAt(pl, sem, r[|r| - 1], m)
  }

  lemma SameBlock(p: Program, r: seq<Point>)
    requires IsRun(Points(p), r) && |r| > 1 && r[|r| - 1].i > 0
    ensures r[|r| - 2] == Point(r[|r| - 1].b, r[|r| - 1].i - 1)
  {
    var n := |r| - 1;
    assert (r[n - 1], r[n - 1 + 1]) in Points(p).edges;
  }

  ghost predicate Alike(p: Program, e: seq<OpId>, s: State, m: Machine) {
    && s.world == m.world && |m.slots| == |e|
    && forall i :: 0 <= i < |e| ==> e[i] < |s.env| && s.env[e[i]] == m.slots[i]
  }

  /** On every run the program has the machine's effects, and env names, for each slot, the
      value that is in it. */
  lemma {:induction false} Simulates(p: Program, pl: Plan, sem: Semantics, st: State, m0: Machine, r: seq<Point>)
    requires Complete(p, pl) && Placed(p) && IsRun(Points(p), r) && |st.env| == |p.ops|
    requires m0.slots == [] && m0.world == st.world
    ensures Sized(p, pl, r[|r| - 1].b) && r[|r| - 1].i <= |p.code[r[|r| - 1].b]|
    ensures Alike(p, EnvAt(p, pl, r[|r| - 1]), Exec(p, sem, st, r), RunMachine(p, pl, sem, m0, r))
    decreases |r|
  {
    PointSized(p, pl, r);
    var z := r[|r| - 1];
    if |r| > 1 {
      assert IsRun(Points(p), r[..|r| - 1]);
      Simulates(p, pl, sem, st, m0, r[..|r| - 1]);
      StepSimulates(p, pl, sem, m0, r, Exec(p, sem, st, r[..|r| - 1]));
    }
  }

  lemma StepSimulates(p: Program, pl: Plan, sem: Semantics, m0: Machine, r: seq<Point>, s: State)
    requires Complete(p, pl) && Placed(p) && IsRun(Points(p), r) && |r| > 1 && IsRun(Points(p), r[..|r| - 1])
    requires |s.env| == |p.ops| && m0.slots == []
    requires Sized(p, pl, r[|r| - 2].b) && r[|r| - 2].i <= |p.code[r[|r| - 2].b]|
    requires Alike(p, EnvAt(p, pl, r[|r| - 2]), s, RunMachine(p, pl, sem, m0, r[..|r| - 1]))
    ensures Sized(p, pl, r[|r| - 1].b) && r[|r| - 1].i <= |p.code[r[|r| - 1].b]|
    ensures Alike(p, EnvAt(p, pl, r[|r| - 1]), StepAt(p, sem, r, s), RunMachine(p, pl, sem, m0, r))
  {
    PointSized(p, pl, r);
    var z, m := r[|r| - 1], RunMachine(p, pl, sem, m0, r[..|r| - 1]);
    if z.i == 0 {
      EntryCounts(p, pl, r);
      EntrySimulates(p, pl, r[|r| - 2].b, z.b, EnvAt(p, pl, r[|r| - 2]), s, m);
    } else {
      OpSimulates(p, pl, sem, m0, r, s, m);
    }
  }

  lemma OpSimulates(p: Program, pl: Plan, sem: Semantics, m0: Machine, r: seq<Point>, s: State, m: Machine)
    requires Complete(p, pl) && Placed(p) && IsRun(Points(p), r) && |r| > 1 && IsRun(Points(p), r[..|r| - 1])
    requires |s.env| == |p.ops| && m0.slots == [] && m == RunMachine(p, pl, sem, m0, r[..|r| - 1]) && r[|r| - 1].i > 0
    requires Sized(p, pl, r[|r| - 2].b) && r[|r| - 2].i <= |p.code[r[|r| - 2].b]| && Alike(p, EnvAt(p, pl, r[|r| - 2]), s, m)
    ensures Sized(p, pl, r[|r| - 1].b) && r[|r| - 1].i <= |p.code[r[|r| - 1].b]|
    ensures Alike(p, EnvAt(p, pl, r[|r| - 1]), StepAt(p, sem, r, s), RunMachine(p, pl, sem, m0, r))
  {
    var z := r[|r| - 1];
    SameBlock(p, r);
    OpStep(p, sem, r, s);
    CountsAgree(p, pl, sem, r, m);
    OpAlike(p, pl, sem, z.b, z.i, s, m, StepAt(p, sem, r, s), RunMachine(p, pl, sem, m0, r));
  }

  lemma OpAlike(p: Program, pl: Plan, sem: Semantics, b: BlockId, i: nat, s: State, m: Machine, s': State, m': Machine)
    requires Built(p, pl) && Sized(p, pl, b) && 0 < i <= |p.code[b]| && |s.env| == |p.ops| && PlacedAt(p, b, i - 1)
    requires Alike(p, EnvAt(p, pl, Point(b, i - 1)), s, m)
    requires var v := p.code[b][i - 1]; s' == Apply(sem, p.ops[v].opcode, p.ops[v].imm, Args(s.env, p.ops[v].ins), v, s)
    requires i <= |pl.args[b]| ==> m' == m
    requires i > |pl.args[b]| ==> CanStep(pl.body[b][i - |pl.args[b]| - 1], |m.slots|) && m' == StepMachine(sem, pl.body[b][i - |pl.args[b]| - 1], m)
    ensures Alike(p, EnvAt(p, pl, Point(b, i)), s', m')
  {
    if i > |pl.args[b]| {
      CallAt(p, pl, b, i - |pl.args[b]| - 1);
      CallSimulates(p, pl, sem, b, i - |pl.args[b]| - 1, s, m);
    } else {
      PhiDoesNothing(p, pl, sem, b, i - 1, s);
    }
  }

  lemma CallAt(p: Program, pl: Plan, b: BlockId, k: nat)
    requires Built(p, pl) && Sized(p, pl, b) && k < |pl.body[b]|
    ensures InstrAt(p, pl, b, k)
  {
    assert BlockBuilt(p, pl, b);
  }

  lemma PhiDoesNothing(p: Program, pl: Plan, sem: Semantics, b: BlockId, j: nat, s: State)
    requires Built(p, pl) && Sized(p, pl, b) && j < |pl.args[b]| && |s.env| == |p.ops|
    ensures j < |p.code[b]| && p.code[b][j] < |p.ops| && p.ops[p.code[b][j]].ins == []
    ensures var v := p.code[b][j]; Apply(sem, p.ops[v].opcode, p.ops[v].imm, Args(s.env, p.ops[v].ins), v, s) == s
  {
    CodeAt(p, pl, b, j);
  }

  lemma OpStep(p: Program, sem: Semantics, r: seq<Point>, s: State)
    requires Placed(p) && IsRun(Points(p), r) && |s.env| == |p.ops| && r[|r| - 1].i > 0
    ensures var z := r[|r| - 1];
            && z.b < |p.code| && z.i - 1 < |p.code[z.b]| && PlacedAt(p, z.b, z.i - 1)
            && var v := p.code[z.b][z.i - 1];
               StepAt(p, sem, r, s) == Apply(sem, p.ops[v].opcode, p.ops[v].imm, Args(s.env, p.ops[v].ins), v, s)
  {
    PointLive(p.ops, p.code, r);
  }

  lemma EntrySimulates(p: Program, pl: Plan, a: BlockId, b: BlockId, e: seq<OpId>, s: State, m: Machine)
    requires Built(p, pl) && BlockBuilt(p, pl, b) && EdgeAlts(p, pl, a, b, e) && Alike(p, e, s, m) && |s.env| == |p.ops|
    ensures Alike(p, pl.envs[b][0], s.(env := TakePhis(p, a, b, s.env)), m)
  {
    var phis := pl.envs[b][0];
    forall i | 0 <= i < |phis| ensures phis[i] < |s.env| && TakePhis(p, a, b, s.env)[phis[i]] == m.slots[i] {
      assert PhiAt(p, pl, b, i);
      assert IsPhiOf(p, b, phis[i]);
    }
  }

  /** One op does what one call means. */
  lemma CallSimulates(p: Program, pl: Plan, sem: Semantics, b: BlockId, k: nat, s: State, m: Machine)
    requires Built(p, pl) && Sized(p, pl, b) && k < |pl.body[b]| && InstrAt(p, pl, b, k) && |s.env| == |p.ops|
    requires Alike(p, pl.envs[b][k], s, m)
    ensures var v := p.code[b][|pl.args[b]| + k];
            && (forall j :: 0 <= j < |p.ops[v].ins| ==> p.ops[v].ins[j] < |s.env|)
            && Alike(p, pl.envs[b][k + 1], Apply(sem, p.ops[v].opcode, p.ops[v].imm, Args(s.env, p.ops[v].ins), v, s),
                     StepMachine(sem, pl.body[b][k], m))
  {
    OperandsHere(p, pl, b, k);
    assert BlockBuilt(p, pl, b) && EnvDefined(p, pl, b, k);
    var v, i, e := p.code[b][|pl.args[b]| + k], pl.body[b][k], pl.envs[b][k];
    var e1 := Pick(e, i.pre);
    forall j | 0 <= j < |e1| ensures e1[j] < |s.env| && e1[j] != v && s.env[e1[j]] == Pick(m.slots, i.pre)[j] {
      assert e1[j] in e && DefinedHere(p, b, |pl.args[b]| + k, e1[j]);
    }
    if i.Emit? {
      assert Args(s.env, p.ops[v].ins) == Pick(Pick(m.slots, i.pre), i.slots);
      ResultAgrees(sem, i.opcode, i.imm, Args(s.env, p.ops[v].ins), v, s);
    }
  }

  lemma ResultAgrees(sem: Semantics, c: Opcode, imm: Word, args: seq<Word>, v: OpId, s: State)
    requires v < |s.env| && Emittable(c)
    ensures var r, (w, world) := Apply(sem, c, imm, args, v, s), OpResult(sem, c, imm, args, s.world);
            r.world == world && (c.HasOutput() ==> r.env[v] == w)
  {
  }

  ghost predicate SeesSlot(op: Op, i: Instr, env: seq<Word>, slots: seq<Word>)
    requires i.Branch? || i.Return?
  {
    |op.ins| == 1 && op.ins[0] < |env| && i.slot < |slots| && env[op.ins[0]] == slots[i.slot]
  }

  /** A conditional jump or a return looks at the slot that the front end named. */
  lemma JumpSeesSlot(p: Program, pl: Plan, sem: Semantics, st: State, m0: Machine, r: seq<Point>, k: nat)
    requires Complete(p, pl) && Placed(p) && IsRun(Points(p), r) && |st.env| == |p.ops|
    requires m0.slots == [] && m0.world == st.world
    requires Sized(p, pl, r[|r| - 1].b) && k < |pl.body[r[|r| - 1].b]| && r[|r| - 1].i == |pl.args[r[|r| - 1].b]| + k
    requires pl.body[r[|r| - 1].b][k].Branch? || pl.body[r[|r| - 1].b][k].Return?
    ensures var b, i, m := r[|r| - 1].b, pl.body[r[|r| - 1].b][k], RunMachine(p, pl, sem, m0, r);
            && p.code[b][|pl.args[b]| + k] < |p.ops|
            && SeesSlot(p.ops[p.code[b][|pl.args[b]| + k]], i, Exec(p, sem, st, r).env, m.slots)
  {
    Simulates(p, pl, sem, st, m0, r);
    EnvBefore(p, pl, r[|r| - 1], k);
    SlotSeen(p, pl, r[|r| - 1].b, k, Exec(p, sem, st, r), RunMachine(p, pl, sem, m0, r));
  }

  lemma EnvBefore(p: Program, pl: Plan, z: Point, k: nat)
    requires Built(p, pl) && Sized(p, pl, z.b) && k < |pl.body[z.b]| && z.i == |pl.args[z.b]| + k
    ensures z.i <= |p.code[z.b]| && EnvAt(p, pl, z) == pl.envs[z.b][k]
  {
    assert BlockBuilt(p, pl, z.b);
  }

  lemma SlotSeen(p: Program, pl: Plan, b: BlockId, k: nat, s: State, m: Machine)
    requires Built(p, pl) && Sized(p, pl, b) && k < |pl.body[b]| && (pl.body[b][k].Branch? || pl.body[b][k].Return?)
    requires |s.env| == |p.ops| && Alike(p, pl.envs[b][k], s, m)
    ensures p.code[b][|pl.args[b]| + k] < |p.ops|
    ensures SeesSlot(p.ops[p.code[b][|pl.args[b]| + k]], pl.body[b][k], s.env, m.slots)
  {
    CallAt(p, pl, b, k);
  }
}
