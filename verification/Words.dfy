/** 64-bit machine words: numbers below 2^64 with wrap-around arithmetic and bitwise ops, and
    the algebra that rewriting integer code rests on. */
module Words {
  const TwoTo31: int := 0x8000_0000
  const TwoTo32: int := 0x1_0000_0000
  const TwoTo64: int := 0x1_0000_0000_0000_0000

  type Word = w: nat | w < TwoTo64 witness 0

  datatype IntOp = Add | Sub | Mul | And | Or | Xor

  function Pow2(k: nat): (n: nat)
    ensures n > 0
  {
    if k == 0 then 1 else 2 * Pow2(k - 1)
  }

  lemma {:induction false} PowSum(a: nat, b: nat)
    ensures Pow2(a + b) == Pow2(a) * Pow2(b)
  {
    if b > 0 {
      PowSum(a, b - 1);
    }
  }

  lemma PowersKnown()
    ensures Pow2(31) == TwoTo31 && Pow2(64) == TwoTo64
  {
    assert Pow2(16) == 0x1_0000;
    PowSum(16, 15);
    PowSum(16, 16);
    PowSum(32, 32);
    assert Pow2(15) == 0x8000;
  }

  function BitOf(f: IntOp, x: bool, y: bool): bool {
    match f
    case Or => x || y
    case Xor => x != y
    case _ => x && y
  }

  /** A bitwise operation on the low n bits. */
  function Bitwise(f: IntOp, x: nat, y: nat, n: nat): (r: nat)
    ensures r < Pow2(n)
  {
    if n == 0 then 0
    else 2 * Bitwise(f, x / 2, y / 2, n - 1) + if BitOf(f, x % 2 == 1, y % 2 == 1) then 1 else 0
  }

  function Bits64(f: IntOp, x: nat, y: nat): Word {
    PowersKnown();
    Bitwise(f, x, y, 64)
  }

  /** iadd isub imul iand ior ixor */
  function IntEval(f: IntOp, a: Word, b: Word): Word {
    match f
    case Add => (a + b) % TwoTo64
    case Sub => (a - b) % TwoTo64
    case Mul => (a * b) % TwoTo64
    case _ => Bits64(f, a, b)
  }

  // ---- commutative and associative ------------------------------------------------------

  lemma {:induction false} BitsCommute(f: IntOp, x: nat, y: nat, n: nat)
    ensures Bitwise(f, x, y, n) == Bitwise(f, y, x, n)
  {
    if n > 0 {
      BitsCommute(f, x / 2, y / 2, n - 1);
    }
  }

  lemma {:induction false} BitsAssociate(f: IntOp, x: nat, y: nat, z: nat, n: nat)
    ensures Bitwise(f, Bitwise(f, x, y, n), z, n) == Bitwise(f, x, Bitwise(f, y, z, n), n)
  {
    if n > 0 {
      BitsAssociate(f, x / 2, y / 2, z / 2, n - 1);
    }
  }

  lemma ModMultiple(k: int, r: int)
    ensures (k * TwoTo64 + r) % TwoTo64 == r % TwoTo64
  {
  }

  /** Reducing a factor does not change a product modulo 2^64. */
  lemma ModFactor(x: nat, c: nat)
    ensures ((x % TwoTo64) * c) % TwoTo64 == (x * c) % TwoTo64
  {
    var q, r := x / TwoTo64, x % TwoTo64;
    assert x * c == (q * c) * TwoTo64 + r * c;
    ModMultiple(q * c, r * c);
  }

  lemma MulAssociates(a: Word, b: Word, c: Word)
    ensures IntEval(Mul, IntEval(Mul, a, b), c) == IntEval(Mul, a, IntEval(Mul, b, c))
  {
    ModFactor(a * b, c);
    ModFactor(b * c, a);
    assert (a * b) * c == (b * c) * a;
    assert a * ((b * c) % TwoTo64) == ((b * c) % TwoTo64) * a;
  }

  lemma Commutes(f: IntOp, a: Word, b: Word)
    requires f != Sub
    ensures IntEval(f, a, b) == IntEval(f, b, a)
  {
    BitsCommute(f, a, b, 64);
  }

  lemma Associates(f: IntOp, a: Word, b: Word, c: Word)
    requires f != Sub
    ensures IntEval(f, IntEval(f, a, b), c) == IntEval(f, a, IntEval(f, b, c))
  {
    if f == Mul {
      MulAssociates(a, b, c);
    } else if f == Add {
      LinearLeft(Add, Add, a, b, c);
      LinearRight(Add, Add, a, b, c);
    } else {
      BitsAssociate(f, a, b, c, 64);
    }
  }

  // ---- sums and differences ---------------------------------------------------------------

  predicate Linear(f: IntOp) { f == Add || f == Sub }

  function Plus(f: IntOp, x: int, y: int): int {
    if f == Add then x + y else x - y
  }

  function Wrap(x: int): Word { x % TwoTo64 }

  lemma WrapLeft(f: IntOp, x: int, y: int)
    ensures Wrap(Plus(f, Wrap(x), y)) == Wrap(Plus(f, x, y))
  {
    ModMultiple(-(x / TwoTo64), Plus(f, x, y));
  }

  lemma WrapRight(f: IntOp, x: int, y: int)
    ensures Wrap(Plus(f, x, Wrap(y))) == Wrap(Plus(f, x, y))
  {
    ModMultiple(if f == Add then -(y / TwoTo64) else y / TwoTo64, Plus(f, x, y));
  }

  lemma LinearIs(f: IntOp, a: Word, b: Word)
    requires Linear(f)
    ensures IntEval(f, a, b) == Wrap(Plus(f, a, b))
  {
  }

  lemma LinearLeft(f: IntOp, g: IntOp, a: Word, b: Word, c: Word)
    requires Linear(f) && Linear(g)
    ensures IntEval(f, IntEval(g, a, b), c) == Wrap(Plus(f, Plus(g, a, b), c))
  {
    LinearIs(g, a, b);
    LinearIs(f, IntEval(g, a, b), c);
    WrapLeft(f, Plus(g, a, b), c);
  }

  lemma LinearRight(f: IntOp, g: IntOp, a: Word, b: Word, c: Word)
    requires Linear(f) && Linear(g)
    ensures IntEval(f, a, IntEval(g, b, c)) == Wrap(Plus(f, a, Plus(g, b, c)))
  {
    LinearIs(g, b, c);
    LinearIs(f, a, IntEval(g, b, c));
    WrapRight(f, a, Plus(g, b, c));
  }

  lemma LinearBoth(f: IntOp, g: IntOp, h: IntOp, a: Word, b: Word, c: Word, d: Word)
    requires Linear(f) && Linear(g) && Linear(h)
    ensures IntEval(f, IntEval(g, a, b), IntEval(h, c, d)) == Wrap(Plus(f, Plus(g, a, b), Plus(h, c, d)))
  {
    LinearIs(g, a, b);
    LinearRight(f, h, IntEval(g, a, b), c, d);
    WrapLeft(f, Plus(g, a, b), Plus(h, c, d));
  }

  // ---- laws -----------------------------------------------------------------------------

  type Arith = (IntOp, Word, Word) -> Word

  ghost predicate CommuteLaw(ev: Arith, f: IntOp) {
    forall a: Word, b: Word :: ev(f, a, b) == ev(f, b, a)
  }

  ghost predicate SlideLaw(ev: Arith, f: IntOp, g: IntOp) {
    forall a: Word, b: Word, c: Word :: ev(f, ev(g, a, b), c) == ev(g, ev(f, a, c), b)
  }

  ghost predicate TurnLaw(ev: Arith, f: IntOp, g: IntOp) {
    forall a: Word, b: Word, c: Word :: ev(f, ev(g, a, b), c) == ev(f, ev(g, c, b), a)
  }

  /** (a g b) f (c g d) == (a g' c) f' (b g' d) */
  ghost predicate CrossLaw(ev: Arith, f: IntOp, g: IntOp, f': IntOp, g': IntOp) {
    forall a: Word, b: Word, c: Word, d: Word :: CrossesAt(ev, f, g, f', g', a, b, c, d)
  }

  ghost predicate CrossesAt(ev: Arith, f: IntOp, g: IntOp, f': IntOp, g': IntOp, a: Word, b: Word, c: Word, d: Word) {
    ev(f, ev(g, a, b), ev(g, c, d)) == ev(f', ev(g', a, c), ev(g', b, d))
  }

  /** (a + b) - c == (b - c) + a */
  ghost predicate FlipLaw(ev: Arith) {
    forall a: Word, b: Word, c: Word :: ev(Sub, ev(Add, a, b), c) == ev(Add, ev(Sub, b, c), a)
  }

  /** (a - b) - c == a - (c + b) */
  ghost predicate FoldLaw(ev: Arith) {
    forall a: Word, b: Word, c: Word :: ev(Sub, ev(Sub, a, b), c) == ev(Sub, a, ev(Add, c, b))
  }

  /** a - (a - b) == b - (a - a) */
  ghost predicate TailLaw(ev: Arith) {
    forall a: Word, b: Word :: ev(Sub, a, ev(Sub, a, b)) == ev(Sub, b, ev(Sub, a, a))
  }

  predicate Slides(f: IntOp, g: IntOp) {
    (f == g && f != Sub) || ((f == Add || f == Sub) && (g == Add || g == Sub))
  }

  predicate Turns(f: IntOp, g: IntOp) {
    (f == g && f != Sub) || (f == Add && g == Sub)
  }

  predicate Crosses(f: IntOp, g: IntOp, f': IntOp, g': IntOp) {
    (f != Sub && f == g == f' == g') || (f == Add && g == Sub && f' == Sub && g' == Add)
  }

  lemma CommuteTrue(f: IntOp)
    requires f != Sub
    ensures CommuteLaw(IntEval, f)
  {
    forall a: Word, b: Word ensures IntEval(f, a, b) == IntEval(f, b, a) {
      Commutes(f, a, b);
    }
  }

  lemma SlideTrue(f: IntOp, g: IntOp)
    requires Slides(f, g)
    ensures SlideLaw(IntEval, f, g)
  {
    forall a: Word, b: Word, c: Word ensures IntEval(f, IntEval(g, a, b), c) == IntEval(g, IntEval(f, a, c), b) {
      if f == g && f != Sub {
        Associates(f, a, b, c);
        Commutes(f, b, c);
        Associates(f, a, c, b);
      } else {
        LinearLeft(f, g, a, b, c);
        LinearLeft(g, f, a, c, b);
      }
    }
  }

  lemma TurnTrue(f: IntOp, g: IntOp)
    requires Turns(f, g)
    ensures TurnLaw(IntEval, f, g)
  {
    forall a: Word, b: Word, c: Word ensures IntEval(f, IntEval(g, a, b), c) == IntEval(f, IntEval(g, c, b), a) {
      if f == g {
        Associates(f, a, b, c);
        Commutes(f, b, c);
        Commutes(f, a, IntEval(f, c, b));
      } else {
        LinearLeft(Add, Sub, a, b, c);
        LinearLeft(Add, Sub, c, b, a);
      }
    }
  }

  lemma CrossTrue(f: IntOp, g: IntOp, f': IntOp, g': IntOp)
    requires Crosses(f, g, f', g')
    ensures CrossLaw(IntEval, f, g, f', g')
  {
    forall a: Word, b: Word, c: Word, d: Word
      ensures CrossesAt(IntEval, f, g, f', g', a, b, c, d)
    {
      if f == g {
        Associates(f, a, b, IntEval(f, c, d));
        Associates(f, b, c, d);
        Commutes(f, b, c);
        Associates(f, c, b, d);
        Associates(f, a, c, IntEval(f, b, d));
      } else {
        LinearBoth(Add, Sub, Sub, a, b, c, d);
        LinearBoth(Sub, Add, Add, a, c, b, d);
      }
    }
  }

  lemma SubLaws()
    ensures FlipLaw(IntEval) && FoldLaw(IntEval) && TailLaw(IntEval)
  {
    forall a: Word, b: Word, c: Word ensures IntEval(Sub, IntEval(Add, a, b), c) == IntEval(Add, IntEval(Sub, b, c), a) {
      LinearLeft(Sub, Add, a, b, c);
      LinearLeft(Add, Sub, b, c, a);
    }
    forall a: Word, b: Word, c: Word ensures IntEval(Sub, IntEval(Sub, a, b), c) == IntEval(Sub, a, IntEval(Add, c, b)) {
      LinearLeft(Sub, Sub, a, b, c);
      LinearRight(Sub, Add, a, c, b);
    }
    forall a: Word, b: Word ensures IntEval(Sub, a, IntEval(Sub, a, b)) == IntEval(Sub, b, IntEval(Sub, a, a)) {
      LinearRight(Sub, Sub, a, a, b);
      LinearRight(Sub, Sub, b, a, a);
    }
  }

  // ---- terms that cancel ------------------------------------------------------------------

  /** A term shared by both operands of p0 g p1 f q0 h q1: the one at place i of the first and
      j of the second. */
  datatype Cancel = Cancel(f: IntOp, g: IntOp, h: IntOp, i: nat, j: nat)

  predicate Cancels(c: Cancel) {
    && c.i < 2 && c.j < 2
    && ((c.f == Add && c.g == Sub && c.h == Add && c.i == 1)
        || (c.f == Add && c.g == Add && c.h == Sub && c.j == 1)
        || (c.f == Sub && c.g == Add && c.h == Add))
  }

  function Side<T>(i: nat, a: T, b: T): T { if i == 0 then a else b }

  ghost predicate CancelLaw(ev: Arith, c: Cancel) {
    forall p0: Word, p1: Word, q0: Word, q1: Word :: Side(c.i, p0, p1) == Side(c.j, q0, q1) ==>
      ev(c.f, ev(c.g, p0, p1), ev(c.h, q0, q1)) == ev(c.f, Side(c.i, p1, p0), Side(c.j, q1, q0))
  }

  lemma CancelTrue(c: Cancel)
    requires Cancels(c)
    ensures CancelLaw(IntEval, c)
  {
    forall p0: Word, p1: Word, q0: Word, q1: Word | Side(c.i, p0, p1) == Side(c.j, q0, q1)
      ensures IntEval(c.f, IntEval(c.g, p0, p1), IntEval(c.h, q0, q1)) == IntEval(c.f, Side(c.i, p1, p0), Side(c.j, q1, q0))
    {
      LinearBoth(c.f, c.g, c.h, p0, p1, q0, q1);
      LinearIs(c.f, Side(c.i, p1, p0), Side(c.j, q1, q0));
    }
  }

}
