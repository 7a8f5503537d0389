/** The intermediate representation: src/ir-ops.h, src/bjit-impl.h and the state of Proc. */
module Ir {
  import opened Digraph
  import opened Words

  type OpId = nat
  type BlockId = nat

  /** Both an absent operand and an absent block. */
  const NoVal: nat := 0xffff

  /** Opcodes grouped by the flags the passes look at; `tag` tells members of a group apart. */
  datatype Opcode =
    | Bin(f: IntOp)                     // iadd isub imul iand ior ixor
    | BinI(f: IntOp)                    // the same with an immediate second operand
    | Div(tag: nat)                     // idiv imod udiv umod: SIDEFX and CSE
    | Pure(tag: nat)                    // every other op whose only flag is CSE
    | Load(tag: nat)                    // CSE and MEM
    | Effect(tag: nat, out: bool)       // stores, passing, calls, alloc, fence
    | Arg(tag: nat)                     // iarg farg darg
    | Rename
    | Reload
    | Phi
    | Cond(tag: nat)                    // jilt .. jineI, all below jmp
    | Jmp
    | Exit(tag: nat)                    // returns and tail calls
    | Nop
  {
    predicate HasOutput() {
      match this
      case Effect(_, out) => out
      case Cond(_) => false
      case Jmp => false
      case Exit(_) => false
      case Nop => false
      case _ => true
    }
  }

  datatype Op = Op(
    opcode: Opcode,
    ins: seq<OpId>,
    imm: Word,          // sign-extended immediate, offset or constant
    label0: BlockId,
    label1: BlockId,
    block: BlockId,     // block in which the op lives
    pos: nat,           // position in that block
    phiIndex: nat)      // for a phi, its slot among the block's arguments
  {
    predicate HasOutput() { opcode.HasOutput() }

    /** No output or flagged SIDEFX. */
    predicate HasSideFX() {
      !HasOutput() || opcode.Effect? || opcode.Div?
    }

    predicate CanCSE() {
      opcode.Bin? || opcode.BinI? || opcode.Div? || opcode.Pure? || opcode.Load?
    }

    predicate HasMemTag() { opcode.Load? }

    /** opcode <= jmp */
    predicate IsJump() { opcode.Cond? || opcode.Jmp? }

    predicate IsTerminator() { IsJump() || opcode.Exit? }
  }

  datatype PhiAlt = PhiAlt(phi: OpId, src: BlockId, val: OpId)

  datatype Program = Program(
    ops: seq<Op>,
    code: seq<seq<OpId>>,        // per block
    alts: seq<seq<PhiAlt>>)      // per block

  /** Targets of a block's last op, in label order; empty for an exit. */
  function Succ(ops: seq<Op>, code: seq<seq<OpId>>, b: BlockId): seq<BlockId> {
    if b < |code| && code[b] != [] && code[b][|code[b]| - 1] < |ops| then
      var op := ops[code[b][|code[b]| - 1]];
      if op.opcode.Jmp? then [op.label0]
      else if op.opcode.Cond? then [op.label0, op.label1]
      else []
    else []
  }

  ghost function BlockGraph(ops: seq<Op>, code: seq<seq<OpId>>): Graph<BlockId> {
    Graph(iset{0}, iset a: BlockId, b: BlockId | b in Succ(ops, code, a) :: (a, b))
  }

  ghost predicate LiveBlock(ops: seq<Op>, code: seq<seq<OpId>>, b: BlockId) {
    Reachable(BlockGraph(ops, code), b)
  }

  /** A block that ends in a jump with valid labels or in an exit. */
  predicate EndsOk(ops: seq<Op>, code: seq<seq<OpId>>, b: BlockId) {
    && b < |code| && code[b] != []
    && code[b][|code[b]| - 1] < |ops|
    && ops[code[b][|code[b]| - 1]].IsTerminator()
    && forall s :: s in Succ(ops, code, b) ==> s < |code|
  }

  /** What the front end must have emitted for the control flow to make sense: nothing is
      asked of blocks that cannot be reached. */
  ghost predicate CfgOk(ops: seq<Op>, code: seq<seq<OpId>>) {
    && 0 < |code| < NoVal
    && forall b :: LiveBlock(ops, code, b) ==> EndsOk(ops, code, b)
  }

  /** The compiler state that the passes share and update in place. */
  class Proc {
    var prog: Program
    var liveFlag: seq<bool>
    var live: seq<BlockId>
    var comeFrom: seq<seq<BlockId>>
    var dom: seq<seq<BlockId>>
    var idom: seq<BlockId>
    var pdom: seq<BlockId>
    var livein: seq<seq<OpId>>
    var nUse: seq<nat>
    var memtag: seq<OpId>     // memory version into each block
    var memout: seq<OpId>     // memory version out of each block
    var opTag: seq<OpId>      // memory version of each load

    constructor (p: Program)
      requires |p.alts| == |p.code|
      ensures prog == p && Shape() && live == []
      ensures forall b :: 0 <= b < |liveFlag| ==> !liveFlag[b]
    {
      var n := |p.code|;
      prog, live := p, [];
      liveFlag := seq(n, _ => false);
      comeFrom, dom, livein := seq(n, _ => []), seq(n, _ => []), seq(n, _ => []);
      idom, pdom := seq(n, _ => 0), seq(n, _ => 0);
      nUse, opTag := seq(|p.ops|, _ => 0), seq(|p.ops|, _ => NoVal);
      memtag, memout := seq(n, _ => NoVal), seq(n, _ => NoVal);
    }

    /** One entry per block in every per-block vector, one per op in the use counts. */
    ghost predicate Shape()
      reads this
    {
      var n := |prog.code|;
      && |prog.alts| == |liveFlag| == |comeFrom| == |dom| == |idom| == |pdom| == |livein| == |memtag| == |memout| == n
      && |nUse| == |opTag| == |prog.ops|
    }
  }
}
