/** The probe sequence of HashTable (src/hash.h): triangular numbers times an odd second hash,
    with the widths of the integers involved. */
module Probing {
  import opened Lists
  import opened Words

  type Hash = Word

  /** (j + j*j) / 2 on 32-bit unsigned numbers. */
  function Step(j: nat): nat {
    ((j + j * j) % TwoTo32) / 2
  }

  /** The upper half of the hash, made odd. */
  function SecondHash(h: Hash): nat {
    var m := h / TwoTo32;
    if m % 2 == 0 then m + 1 else m
  }

  /** The slot that is tried after j others; arithmetic is on 64-bit unsigned numbers and the
      table size n is a power of two. */
  function Probe(h: Hash, j: nat, n: nat): (slot: nat)
    requires n > 0
    ensures slot < n
  {
    MaskBound((h + SecondHash(h) * Step(j)) % TwoTo64, n - 1, 64);
    SlotAt(h, SecondHash(h), Step(j), n)
  }

  function SlotAt(h: nat, m: nat, step: nat, n: nat): nat
    requires n > 0
  {
    Masked(h + m * step, n)
  }

  function Masked(x: nat, n: nat): nat
    requires n > 0
  {
    Bitwise(And, x % TwoTo64, n - 1, 64)
  }

  // ---- divisibility by powers of two ----------------------------------------------------

  ghost predicate Multiple(x: int, k: nat)
    decreases k
  {
    k == 0 || (x % 2 == 0 && Multiple(x / 2, k - 1))
  }

  lemma {:induction false} MultipleOf(q: int, k: nat)
    ensures Multiple(q * Pow2(k), k)
  {
    if k > 0 {
      assert q * Pow2(k) == 2 * (q * Pow2(k - 1));
      MultipleOf(q, k - 1);
    }
  }

  lemma {:induction false} MultipleSum(x: int, y: int, k: nat)
    requires Multiple(x, k) && Multiple(y, k)
    ensures Multiple(x + y, k)
    decreases k
  {
    if k > 0 {
      MultipleSum(x / 2, y / 2, k - 1);
    }
  }

  lemma {:induction false} MultipleOfLess(x: int, k: nat, m: nat)
    requires Multiple(x, m) && k <= m
    ensures Multiple(x, k)
    decreases k
  {
    if k > 0 {
      MultipleOfLess(x / 2, k - 1, m - 1);
    }
  }

  lemma {:induction false} SmallIsNoMultiple(x: int, k: nat)
    requires 0 < x < Pow2(k)
    ensures !Multiple(x, k)
  {
    if k > 0 && x % 2 == 0 {
      SmallIsNoMultiple(x / 2, k - 1);
    }
  }

  lemma Halves(a: int, b: int)
    requires a % 2 == 1
    ensures (a * b) % 2 == b % 2
    ensures b % 2 == 0 ==> (a * b) / 2 == a * (b / 2)
  {
    var e, c := a / 2, b / 2;
    var p, q := e * b, a * c;
    assert a * b == (2 * e + 1) * b == 2 * p + b;
    if b % 2 == 0 {
      assert a * b == a * (2 * c) == 2 * q;
    }
  }

  /** An odd factor does not matter. */
  lemma {:induction false} OddFactor(a: int, b: int, k: nat)
    requires a % 2 == 1 && Multiple(a * b, k)
    ensures Multiple(b, k)
    decreases k
  {
    if k > 0 {
      Halves(a, b);
      OddFactor(a, b / 2, k - 1);
    }
  }

  lemma MaskStep(x: nat, n: nat, w: nat)
    requires n > 0 && w > 0
    ensures Bitwise(And, x, n + n - 1, w) == 2 * Bitwise(And, x / 2, n - 1, w - 1) + x % 2
  {
  }

  lemma MaskedHalves(x: nat, y: nat, n: nat, w: nat)
    requires n > 0 && w > 0 && Bitwise(And, x, n + n - 1, w) == Bitwise(And, y, n + n - 1, w)
    ensures x % 2 == y % 2 && Bitwise(And, x / 2, n - 1, w - 1) == Bitwise(And, y / 2, n - 1, w - 1)
  {
    MaskStep(x, n, w);
    MaskStep(y, n, w);
    SplitBit(Bitwise(And, x / 2, n - 1, w - 1), x % 2, Bitwise(And, y / 2, n - 1, w - 1), y % 2);
  }

  lemma SplitBit(a: int, p: int, b: int, q: int)
    requires 0 <= p <= 1 && 0 <= q <= 1 && 2 * a + p == 2 * b + q
    ensures a == b && p == q
  {
  }

  /** Numbers that agree under the mask 2^k - 1 differ by a multiple of 2^k. */
  lemma {:induction false} SameMasked(x: nat, y: nat, k: nat, w: nat)
    requires k <= w && Bitwise(And, x, Pow2(k) - 1, w) == Bitwise(And, y, Pow2(k) - 1, w)
    ensures Multiple(x - y, k)
    decreases k
  {
    if k > 0 {
      MaskedHalves(x, y, Pow2(k - 1), w);
      SameMasked(x / 2, y / 2, k - 1, w - 1);
      HalfDifference(x, y);
    }
  }

  lemma {:induction false} MaskBound(x: nat, y: nat, w: nat)
    ensures Bitwise(And, x, y, w) <= y
  {
    if w > 0 {
      MaskBound(x / 2, y / 2, w - 1);
    }
  }

  lemma HalfDifference(x: nat, y: nat)
    requires x % 2 == y % 2
    ensures (x - y) % 2 == 0 && (x - y) / 2 == x / 2 - y / 2
  {
  }

  // ---- the permutation -------------------------------------------------------------------

  /** Wrapping a 64-bit sum does not change it modulo a smaller power of two. */
  lemma WrapIrrelevant(x: nat, k: nat)
    requires k <= 64
    ensures Multiple(x - x % TwoTo64, k)
  {
    PowersKnown();
    assert x - x % TwoTo64 == (x / TwoTo64) * Pow2(64);
    MultipleOf(x / TwoTo64, 64);
    MultipleOfLess(x - x % TwoTo64, k, 64);
  }

  function Triangular(j: nat): nat {
    if j == 0 then 0 else Triangular(j - 1) + j
  }

  lemma {:induction false} TriangularClosed(j: nat)
    ensures 2 * Triangular(j) == j + j * j
  {
    if j > 0 {
      TriangularClosed(j - 1);
    }
  }

  /** Wrapping j + j*j to 32 bits changes its half by a multiple of 2^31 only. */
  lemma StepIsTriangular(j: nat, k: nat)
    requires k <= 31
    ensures Multiple(Triangular(j) - Step(j), k)
  {
    PowersKnown();
    TriangularClosed(j);
    var q := (j + j * j) / TwoTo32;
    HalfWrapped(j + j * j, Triangular(j));
    MultipleOf(q, 31);
    MultipleOfLess(Triangular(j) - Step(j), k, 31);
  }

  lemma HalfWrapped(x: nat, half: nat)
    requires x == 2 * half
    ensures half - (x % TwoTo32) / 2 == (x / TwoTo32) * TwoTo31
  {
  }

  lemma MultipleNegated(x: int, y: int, k: nat)
    requires Multiple(x - y, k)
    ensures Multiple(y - x, k)
  {
    OddFactor(-1, y - x, k);
  }

  lemma TriangularProduct(i: nat, j: nat)
    ensures (j - i) * (i + j + 1) == 2 * (Triangular(j) - Triangular(i))
  {
    TriangularClosed(i);
    TriangularClosed(j);
    var p, q, r := i * i, j * j, i * j;
    assert (j - i) * (i + j + 1) == j * (i + j + 1) - i * (i + j + 1);
    assert j * (i + j + 1) == r + q + j;
    assert i * (i + j + 1) == p + r + i;
  }

  lemma OddSum(i: int, j: int)
    ensures ((j - i) + (i + j + 1)) % 2 == 1
  {
  }

  lemma TwiceDistinct(i: nat, j: nat, k: nat)
    requires i < j < Pow2(k)
    ensures !Multiple(2 * (Triangular(j) - Triangular(i)), k + 1)
  {
    TriangularProduct(i, j);
    OddSum(i, j);
    assert Pow2(k + 1) == 2 * Pow2(k);
    NoDouble(j - i, i + j + 1, 2 * (Triangular(j) - Triangular(i)), k);
  }

  lemma TriangularDistinct(i: nat, j: nat, k: nat)
    requires i < j < Pow2(k)
    ensures !Multiple(Triangular(j) - Triangular(i), k)
  {
    TwiceDistinct(i, j, k);
    if Multiple(Triangular(j) - Triangular(i), k) {
      Doubled(Triangular(j) - Triangular(i), k);
    }
  }

  lemma Doubled(d: int, k: nat)
    requires Multiple(d, k)
    ensures Multiple(2 * d, k + 1)
  {
  }

  /** Of two numbers of different parity below 2^(k+1), the product is no multiple of it. */
  lemma NoDouble(a: int, b: int, ab: int, k: nat)
    requires ab == a * b && (a + b) % 2 == 1 && 0 < a < Pow2(k + 1) && 0 < b < Pow2(k + 1)
    ensures !Multiple(ab, k + 1)
  {
    SmallIsNoMultiple(a, k + 1);
    SmallIsNoMultiple(b, k + 1);
    if Multiple(ab, k + 1) {
      if a % 2 == 1 {
        OddFactor(a, b, k + 1);
      } else {
        assert b * a == ab;
        OddFactor(b, a, k + 1);
      }
    }
  }

  /** Sums that are equal after wrapping and reduction differ by a multiple of the size. */
  lemma EqualProbes(x: nat, y: nat, k: nat)
    requires k <= 31 && Masked(x, Pow2(k)) == Masked(y, Pow2(k))
    ensures Multiple(x - y, k)
  {
    var x', y' := x % TwoTo64, y % TwoTo64;
    SameMasked(x', y', k, 64);
    WrapIrrelevant(x, k);
    WrapIrrelevant(y, k);
    MultipleNegated(y, y', k);
    MultipleSum(x' - y', x - x', k);
    MultipleSum(x - y', y' - y, k);
  }

  lemma Distribute(m: int, a: int, b: int)
    ensures m * b - m * a == m * (b - a)
  {
  }

  lemma OddScale(x: nat, y: nat, m: nat, d: int, k: nat)
    requires k <= 31 && m % 2 == 1 && !Multiple(d, k) && x - y == m * d
    ensures Masked(x, Pow2(k)) != Masked(y, Pow2(k))
  {
    if Masked(x, Pow2(k)) == Masked(y, Pow2(k)) {
      EqualProbes(x, y, k);
      OddFactor(m, d, k);
    }
  }

  lemma SumsDiffer(h: nat, m: nat, a: nat, b: nat, k: nat)
    requires k <= 31 && m % 2 == 1 && !Multiple(b - a, k)
    ensures SlotAt(h, m, b, Pow2(k)) != SlotAt(h, m, a, Pow2(k))
  {
    Distribute(m, a, b);
    var d, p, q := b - a, m * a, m * b;
    OddScale(h + q, h + p, m, d, k);
  }

  lemma SecondHashOdd(h: Hash)
    ensures SecondHash(h) % 2 == 1
  {
  }

  /** No slot is tried twice. */
  lemma ProbeInjective(h: Hash, i: nat, j: nat, k: nat)
    requires k <= 31 && i < j < Pow2(k)
    ensures Probe(h, i, Pow2(k)) != Probe(h, j, Pow2(k))
  {
    StepsDiffer(i, j, k);
    SecondHashOdd(h);
    SumsDiffer(h, SecondHash(h), Step(i), Step(j), k);
  }

  lemma StepsDiffer(i: nat, j: nat, k: nat)
    requires k <= 31 && i < j < Pow2(k)
    ensures !Multiple(Step(j) - Step(i), k)
  {
    if Multiple(Step(j) - Step(i), k) {
      StepIsTriangular(i, k);
      StepIsTriangular(j, k);
      TriangularDistinct(i, j, k);
      Chain(Triangular(i), Step(i), Step(j), Triangular(j), k);
    }
  }

  lemma Chain(s: int, a: int, b: int, t: int, k: nat)
    requires Multiple(s - a, k) && Multiple(b - a, k) && Multiple(t - b, k)
    ensures Multiple(t - s, k)
  {
    MultipleNegated(s, a, k);
    MultipleSum(t - b, b - a, k);
    MultipleSum(t - a, a - s, k);
  }

  /** For every table size up to 2^31 and every hash, the probes are a permutation of the
      slots: each slot is tried exactly once. */
  lemma ProbePermutes(h: Hash, k: nat, slot: nat) returns (at: nat)
    requires k <= 31 && slot < Pow2(k)
    ensures at < Pow2(k) && Probe(h, at, Pow2(k)) == slot
    ensures forall j :: 0 <= j < Pow2(k) && Probe(h, j, Pow2(k)) == slot ==> j == at
  {
    var n := Pow2(k);
    var s: seq<int> := seq(n, j requires 0 <= j => Probe(h, j, n));
    forall i, j | 0 <= i < j < |s| ensures s[i] != s[j] {
      ProbeInjective(h, i, j, k);
    }
    NoDupSize(s);
    SubsetSize(SetOf(s), Range(n));
    assert slot in SetOf(s);
    at :| 0 <= at < n && s[at] == slot;
    assert forall j :: 0 <= j < n && Probe(h, j, n) == slot ==> s[j] == slot;
  }
}
