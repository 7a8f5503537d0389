/** The language of expressions that the parser of the front end (front/front-parse.cpp)
    reads, with any parentheses, and the proof that each is read as its tree. */
module Grammar {
  import opened ParseState

  /** An expression as written. */
  datatype Syntax =
    | Plain(a: Atom)
    | Signed(u: UnOp, x: Syntax)
    | Binary(op: BinOp, l: Syntax, r: Syntax)
    | Subscript(x: Syntax, i: Syntax)
    | Apply(f: Syntax, args: seq<Syntax>)
    | Grouped(x: Syntax)

  /** How loosely an expression binds; -1 if nothing can come between its parts. */
  function Rank(s: Syntax): int {
    match s
    case Signed(_, _) => UNARY
    case Binary(op, _, _) => Prec(op)
    case _ => -1
  }

  /** Operators associate to the left, signs apply to signs and to what binds tighter, and
      calls have arguments. */
  predicate Good(s: Syntax) {
    match s
    case Plain(_) => true
    case Signed(u, x) => (u == Pos || u == Neg) && Good(x) && Rank(x) <= UNARY
    case Binary(op, l, r) => Good(l) && Good(r) && Rank(l) <= Prec(op) && Rank(r) < Prec(op)
    case Subscript(x, i) => Good(x) && Good(i) && Rank(x) < UNARY
    case Apply(f, args) => Good(f) && Rank(f) < UNARY && args != [] && forall i :: 0 <= i < |args| ==> Good(args[i])
    case Grouped(x) => Good(x)
  }

  function Tree(s: Syntax): Expr {
    match s
    case Plain(a) => Leaf(a)
    case Signed(u, x) => Node(Un(u), [Tree(x)])
    case Binary(op, l, r) => Node(Bin(op), [Tree(l), Tree(r)])
    case Subscript(x, i) => Node(Index, [Tree(x), Tree(i)])
    case Apply(f, args) => Node(Call(|args|), [Tree(f)] + ArgTrees(s, |args|))
    case Grouped(x) => Tree(x)
  }

  function ArgTrees(s: Syntax, n: nat): (r: seq<Expr>)
    requires s.Apply? && n <= |s.args|
    ensures |r| == n
    decreases s, n
  {
    if n == 0 then [] else ArgTrees(s, n - 1) + [Tree(s.args[n - 1])]
  }

  function Sign(u: UnOp): Token {
    match u
    case Pos => Op(Add)
    case Neg => Op(Sub)
    case LogNot => Bang
    case BitNot => Tilde
  }

  function Tokens(s: Syntax): (r: seq<Token>)
    decreases s, 0
  {
    match s
    case Plain(a) => [Word(a)]
    case Signed(u, x) => [Sign(u)] + Tokens(x)
    case Binary(op, l, r) => Tokens(l) + [Op(op)] + Tokens(r)
    case Subscript(x, i) => Tokens(x) + [OIndex] + Tokens(i) + [CIndex]
    case Apply(f, args) => Tokens(f) + [OParen] + ArgTokens(s, |args|) + [CParen]
    case Grouped(x) => [OParen] + Tokens(x) + [CParen]
  }

  /** The first n arguments with commas between them. */
  function ArgTokens(s: Syntax, n: nat): seq<Token>
    requires s.Apply? && n <= |s.args|
    decreases s, 0, n
  {
    if n == 0 then []
    else if n == 1 then Tokens(s.args[0])
    else ArgTokens(s, n - 1) + [Comma] + Tokens(s.args[n - 1])
  }

  // ---- reading an expression --------------------------------------------------------------

  /** Nothing that waits binds as tightly as p. */
  predicate Open(ds: seq<Deferred>, p: int) {
    p <= UNARY || ds == [] || (Precede(Last(ds)).Some? && Precede(Last(ds)).value > p)
  }

  function After(v: View, e: Expr): View {
    View(WantInfix, v.defer, v.frags + [e], v.errors)
  }

  /** The expression is on the stack as far as any reduction that is loose enough can tell. */
  ghost predicate Reads(v: View, r: Outcome, e: Expr, rank: int) {
    && r.Going? && r.v.mode == WantInfix && r.v.errors == v.errors
    && (rank < UNARY ==> r.v == After(v, e))
    && forall p: nat :: p >= rank ==> ReduceTo(r.v, p) == ReduceTo(After(v, e), p)
  }

  /** A well-formed expression is read as its tree, without errors, in any context where
      nothing that waits binds tighter. */
  lemma {:induction false} Parses(v: View, s: Syntax)
    requires v.mode == WantExpr && Good(s) && Open(v.defer, Rank(s))
    ensures Reads(v, Run(v, Tokens(s)), Tree(s), Rank(s))
    decreases s, 1, 0
  {
    match s
    case Plain(a) => RunOne(v, Word(a));
    case Signed(u, x) => ParsesSigned(v, u, x);
    case Binary(op, l, r) => ParsesBinary(v, op, l, r);
    case Subscript(x, i) => ParsesSubscript(v, x, i);
    case Apply(f, args) => ParsesApply(v, s);
    case Grouped(x) => ParsesGrouped(v, x);
  }

  lemma ParsesSigned(v: View, u: UnOp, x: Syntax)
    requires v.mode == WantExpr && Good(Signed(u, x))
    ensures Reads(v, Run(v, Tokens(Signed(u, x))), Tree(Signed(u, x)), UNARY)
    decreases x, 2, 0
  {
    var w, e := Push(v, Un(u)), Tree(Signed(u, x));
    RunSplit(v, [Sign(u)], Tokens(x));
    RunOne(v, Sign(u));
    Parses(w, x);
    var r := Run(w, Tokens(x));
    forall p: nat ensures ReduceTo(r.v, p) == ReduceTo(After(v, e), p) {
      assert ReduceTo(r.v, p) == ReduceTo(After(w, Tree(x)), p);
      PopOne(v, Un(u), [Tree(x)], p);
    }
  }

  /** Reducing one operator whose operands are on the stack. */
  lemma PopOne(v: View, d: Deferred, kids: seq<Expr>, p: nat)
    requires Precede(d).Some? && Precede(d).value <= p && Arity(d) == Some(|kids|) && !d.Define? && kids != []
    ensures ReduceTo(View(WantInfix, v.defer + [d], v.frags + kids, v.errors), p) == ReduceTo(After(v, Node(d, kids)), p)
  {
    var w := View(WantInfix, v.defer + [d], v.frags + kids, v.errors);
    assert w.frags[..|v.frags|] == v.frags && w.frags[|v.frags|..] == kids && Init(w.defer) == v.defer;
    assert w.(defer := Init(w.defer), frags := Fragment(w.frags, d).value) == After(v, Node(d, kids));
  }

  lemma ParsesBinary(v: View, op: BinOp, l: Syntax, r: Syntax)
    requires v.mode == WantExpr && Good(Binary(op, l, r)) && Open(v.defer, Prec(op))
    ensures Reads(v, Run(v, Tokens(Binary(op, l, r))), Tree(Binary(op, l, r)), Prec(op))
    decreases Binary(op, l, r), 0, 1
  {
    var e, w := Tree(Binary(op, l, r)), Push(After(v, Tree(l)), Bin(op));
    ParsesLeft(v, op, l);
    RunSplit(v, Tokens(l) + [Op(op)], Tokens(r));
    assert Open(w.defer, Rank(r)) && w.mode == WantExpr;
    Parses(w, r);
    var b := Run(w, Tokens(r));
    forall p: nat | p >= Prec(op) ensures ReduceTo(b.v, p) == ReduceTo(After(v, e), p) {
      assert ReduceTo(b.v, p) == ReduceTo(After(w, Tree(r)), p);
      PopBinary(v, op, Tree(l), Tree(r), p);
    }
  }

  lemma PopBinary(v: View, op: BinOp, a: Expr, b: Expr, p: nat)
    requires p >= Prec(op)
    ensures ReduceTo(After(Push(After(v, a), Bin(op)), b), p) == ReduceTo(After(v, Node(Bin(op), [a, b])), p)
  {
    assert v.frags + [a] + [b] == v.frags + [a, b];
    PopOne(v, Bin(op), [a, b], p);
  }

  /** The left operand is reduced by the operator. */
  lemma ParsesLeft(v: View, op: BinOp, l: Syntax)
    requires v.mode == WantExpr && Good(l) && Rank(l) <= Prec(op) && Open(v.defer, Prec(op))
    ensures Run(v, Tokens(l) + [Op(op)]) == Going(Push(After(v, Tree(l)), Bin(op)))
    decreases l, 2, 0
  {
    Parses(v, l);
    var a := Run(v, Tokens(l));
    assert ReduceTo(a.v, Prec(op)) == ReduceTo(After(v, Tree(l)), Prec(op)) == Going(After(v, Tree(l)));
    RunOne(a.v, Op(op));
    RunSplit(v, Tokens(l), [Op(op)]);
  }

  /** An expression in brackets is reduced completely by what closes them. */
  lemma ParsesInside(v: View, d: Deferred, x: Syntax)
    requires v.mode == WantExpr && Good(x) && v.defer != [] && Last(v.defer) == d && Precede(d) == Some(FLOW)
    ensures var r := Run(v, Tokens(x)); r.Going? && r.v.mode == WantInfix && ReduceTo(r.v, COMMA) == Going(After(v, Tree(x)))
    decreases x, 2, 0
  {
    Parses(v, x);
    assert ReduceTo(After(v, Tree(x)), COMMA) == Going(After(v, Tree(x)));
  }

  lemma ParsesGrouped(v: View, x: Syntax)
    requires v.mode == WantExpr && Good(x)
    ensures Run(v, Tokens(Grouped(x))) == Going(After(v, Tree(x)))
    decreases Grouped(x), 0, 0
  {
    var w := Push(v, Paren);
    ParsesInside(w, Paren, x);
    RunOne(v, OParen);
    RunSplit(v, [OParen], Tokens(x));
    RunSplit(v, [OParen] + Tokens(x), [CParen]);
    var r := Run(w, Tokens(x));
    RunOne(r.v, CParen);
    assert Init(v.defer + [Paren]) == v.defer;
  }

  /** Two parts, each followed by one token. */
  lemma RunParts(v: View, a: seq<Token>, t: Token, b: seq<Token>, u: Token, w: View)
    requires Run(v, a).Going? && Step(Run(v, a).v, t) == Going(w) && Run(w, b).Going?
    ensures Run(v, a + [t] + b + [u]) == Step(Run(w, b).v, u)
  {
    RunOne(Run(v, a).v, t);
    RunSplit(v, a, [t]);
    RunSplit(v, a + [t], b);
    RunSplit(v, a + [t] + b, [u]);
    RunOne(Run(w, b).v, u);
  }

  lemma ParsesSubscript(v: View, x: Syntax, i: Syntax)
    requires v.mode == WantExpr && Good(Subscript(x, i))
    ensures Run(v, Tokens(Subscript(x, i))) == Going(After(v, Tree(Subscript(x, i))))
    decreases Subscript(x, i), 0, 0
  {
    Parses(v, x);
    var w := Push(After(v, Tree(x)), Index);
    ParsesInside(w, Index, i);
    RunParts(v, Tokens(x), OIndex, Tokens(i), CIndex, w);
    EndsIndex(v, Run(w, Tokens(i)).v, Tree(x), Tree(i));
  }

  lemma EndsIndex(v: View, r: View, x: Expr, i: Expr)
    requires r.mode == WantInfix && ReduceTo(r, COMMA) == Going(After(Push(After(v, x), Index), i))
    ensures Step(r, CIndex) == Going(After(v, Node(Index, [x, i])))
  {
    var z := After(Push(After(v, x), Index), i);
    assert Step(r, CIndex) == CloseIndex(z) == Complete(z, Index);
    assert z.frags == v.frags + [x, i];
    Completes(v, Index, Index, [x, i]);
  }

  lemma Completes(v: View, top: Deferred, d: Deferred, kids: seq<Expr>)
    requires Arity(d) == Some(|kids|) && !d.Define?
    ensures Complete(View(WantInfix, v.defer + [top], v.frags + kids, v.errors), d) == Going(After(v, Node(d, kids)))
  {
    var frags := v.frags + kids;
    assert frags[..|v.frags|] == v.frags && frags[|v.frags|..] == kids;
    assert Init(v.defer + [top]) == v.defer;
  }

  /** Where the parser is within the arguments of s. */
  function AtArg(v: View, s: Syntax, n: nat): View
    requires s.Apply? && n <= |s.args|
  {
    View(WantExpr, v.defer + [Call(n)], v.frags + [Tree(s.f)] + ArgTrees(s, n), v.errors)
  }

  /** After n arguments. */
  lemma {:induction false} ParsesArgs(v: View, s: Syntax, n: nat)
    requires s.Apply? && Good(s) && 0 < n <= |s.args|
    ensures var r := Run(AtArg(v, s, 0), ArgTokens(s, n));
            && r.Going? && r.v.mode == WantInfix
            && ReduceTo(r.v, COMMA) == Going(After(AtArg(v, s, n - 1), Tree(s.args[n - 1])))
    decreases s, 0, n
  {
    var w, x := AtArg(v, s, n - 1), s.args[n - 1];
    ParsesInside(w, Call(n - 1), x);
    if n > 1 {
      var before := ArgTokens(s, n - 1);
      ParsesArgs(v, s, n - 1);
      var r := Run(AtArg(v, s, 0), before);
      EndsArg(v, s, n - 1, r.v);
      RunOne(r.v, Comma);
      RunSplit(AtArg(v, s, 0), before, [Comma]);
      RunSplit(AtArg(v, s, 0), before + [Comma], Tokens(x));
    }
  }

  /** The n-th argument is complete. */
  lemma EndsArg(v: View, s: Syntax, n: nat, r: View)
    requires s.Apply? && 0 < n <= |s.args| && r.mode == WantInfix
    requires ReduceTo(r, COMMA) == Going(After(AtArg(v, s, n - 1), Tree(s.args[n - 1])))
    ensures Step(r, Comma) == Going(AtArg(v, s, n))
    ensures Step(r, CParen) == Going(After(v, Node(Call(n), [Tree(s.f)] + ArgTrees(s, n))))
  {
    var z := After(AtArg(v, s, n - 1), Tree(s.args[n - 1]));
    var kids := [Tree(s.f)] + ArgTrees(s, n);
    assert Init(z.defer) == v.defer;
    assert z.frags == v.frags + [Tree(s.f)] + ArgTrees(s, n) == v.frags + kids;
    Completes(v, Call(n - 1), Call(n), kids);
    assert CloseParen(z) == Complete(z, Call(n));
  }

  lemma ParsesApply(v: View, s: Syntax)
    requires v.mode == WantExpr && s.Apply? && Good(s)
    ensures Run(v, Tokens(s)) == Going(After(v, Tree(s)))
    decreases s, 0, |s.args| + 1
  {
    var n, f, w := |s.args|, s.f, AtArg(v, s, 0);
    Parses(v, f);
    ParsesArgs(v, s, n);
    assert Push(After(v, Tree(f)), Call(0)) == w;
    RunParts(v, Tokens(f), OParen, ArgTokens(s, n), CParen, w);
    EndsArg(v, s, n, Run(w, ArgTokens(s, n)).v);
  }

  // ---- which operator binds tighter ---------------------------------------------------------

  /** The classes of binary operators, from tight to loose. */
  const CLASSES: seq<set<BinOp>> := [
    {Mul, Div, Mod}, {Add, Sub}, {ShiftL, ShiftR},
    {Less, LessEq, Greater, GreaterEq}, {Eq, NotEq},
    {BitAnd}, {BitXor}, {BitOr}, {LogAnd}, {LogOr}
  ]

  lemma EveryOpHasClass(op: BinOp) returns (i: nat)
    ensures i < |CLASSES| && op in CLASSES[i] && forall j :: 0 <= j < |CLASSES| && op in CLASSES[j] ==> j == i
  {
    i := Prec(op) - 1;
  }

  lemma ClassIsPrec(op: BinOp, i: nat)
    requires i < |CLASSES| && op in CLASSES[i]
    ensures Prec(op) == i + 1
  {
  }

  /** A complete expression is read without errors as e: that is what is left when everything
      around it closes. */
  ghost predicate ReadAs(ts: seq<Token>, e: Expr) {
    var r := Run(START, ts);
    r.Going? && ReduceTo(r.v, FLOW - 1) == Going(View(WantInfix, [], [e], 0))
  }

  /** An atom, a signed operand, a subscript, a call, or anything in parentheses. */
  predicate Operand(s: Syntax) {
    Good(s) && !s.Binary?
  }

  lemma ReadsWhole(s: Syntax)
    requires Good(s)
    ensures ReadAs(Tokens(s), Tree(s))
  {
    Parses(START, s);
    var p: nat := FLOW - 1;
    assert After(START, Tree(s)).frags == [Tree(s)];
    assert ReduceTo(Run(START, Tokens(s)).v, p) == ReduceTo(After(START, Tree(s)), p);
  }

  /** Operands may stand on either side of any operator. */
  lemma GoodBinary(op: BinOp, l: Syntax, r: Syntax)
    requires (Operand(l) || (Good(l) && Rank(l) <= Prec(op))) && (Operand(r) || (Good(r) && Rank(r) < Prec(op)))
    ensures Good(Binary(op, l, r)) && Rank(Binary(op, l, r)) == Prec(op)
  {
  }

  lemma TokensOfBinary(op: BinOp, l: Syntax, r: Syntax)
    ensures Tokens(Binary(op, l, r)) == Tokens(l) + [Op(op)] + Tokens(r)
    ensures Tree(Binary(op, l, r)) == Node(Bin(op), [Tree(l), Tree(r)])
  {
  }

  lemma Nested(a: seq<Token>, b: seq<Token>, c: seq<Token>, s: seq<Token>, t: seq<Token>)
    ensures a + s + (b + t + c) == a + s + b + t + c
  {
  }

  lemma GroupsRight(x: Syntax, y: Syntax, z: Syntax, loose: BinOp, tight: BinOp)
    requires Operand(x) && Operand(y) && Operand(z) && Prec(tight) < Prec(loose)
    ensures ReadAs(Tokens(x) + [Op(loose)] + Tokens(y) + [Op(tight)] + Tokens(z),
                   Node(Bin(loose), [Tree(x), Node(Bin(tight), [Tree(y), Tree(z)])]))
  {
    var r := Binary(tight, y, z);
    GoodBinary(tight, y, z);
    GoodBinary(loose, x, r);
    TokensOfBinary(tight, y, z);
    TokensOfBinary(loose, x, r);
    Nested(Tokens(x), Tokens(y), Tokens(z), [Op(loose)], [Op(tight)]);
    ReadsWhole(Binary(loose, x, r));
  }

  lemma GroupsLeft(x: Syntax, y: Syntax, z: Syntax, first: BinOp, second: BinOp)
    requires Operand(x) && Operand(y) && Operand(z) && Prec(first) <= Prec(second)
    ensures ReadAs(Tokens(x) + [Op(first)] + Tokens(y) + [Op(second)] + Tokens(z),
                   Node(Bin(second), [Node(Bin(first), [Tree(x), Tree(y)]), Tree(z)]))
  {
    var l := Binary(first, x, y);
    GoodBinary(first, x, y);
    GoodBinary(second, l, z);
    TokensOfBinary(first, x, y);
    TokensOfBinary(second, l, z);
    ReadsWhole(Binary(second, l, z));
  }

  /** After an operator of a looser class, the tighter one takes the operand between them. */
  lemma TighterTakesRight(x: Syntax, y: Syntax, z: Syntax, loose: BinOp, tight: BinOp, i: nat, j: nat)
    requires Operand(x) && Operand(y) && Operand(z)
    requires i < j < |CLASSES| && tight in CLASSES[i] && loose in CLASSES[j]
    ensures ReadAs(Tokens(x) + [Op(loose)] + Tokens(y) + [Op(tight)] + Tokens(z),
                   Node(Bin(loose), [Tree(x), Node(Bin(tight), [Tree(y), Tree(z)])]))
  {
    ClassIsPrec(tight, i);
    ClassIsPrec(loose, j);
    GroupsRight(x, y, z, loose, tight);
  }

  /** Before an operator of a looser class, or of the same one, the first takes the operand. */
  lemma FirstTakesLeft(x: Syntax, y: Syntax, z: Syntax, first: BinOp, second: BinOp, i: nat, j: nat)
    requires Operand(x) && Operand(y) && Operand(z)
    requires i <= j < |CLASSES| && first in CLASSES[i] && second in CLASSES[j]
    ensures ReadAs(Tokens(x) + [Op(first)] + Tokens(y) + [Op(second)] + Tokens(z),
                   Node(Bin(second), [Node(Bin(first), [Tree(x), Tree(y)]), Tree(z)]))
  {
    ClassIsPrec(first, i);
    ClassIsPrec(second, j);
    GroupsLeft(x, y, z, first, second);
  }

  /** Signs: plus and minus in front of an operand; the negations wait for what comes next. */
  lemma SignsRead(x: Syntax, a: Atom)
    requires Operand(x)
    ensures ReadAs([Op(Add)] + Tokens(x), Node(Un(Pos), [Tree(x)])) && ReadAs([Op(Sub)] + Tokens(x), Node(Un(Neg), [Tree(x)]))
    ensures Run(START, [Bang, Word(a)]) == Going(View(WantInfix, [Un(LogNot)], [Leaf(a)], 0))
    ensures Run(START, [Tilde, Word(a)]) == Going(View(WantInfix, [Un(BitNot)], [Leaf(a)], 0))
  {
    ReadsWhole(Signed(Pos, x));
    ReadsWhole(Signed(Neg, x));
    NegationWaits(Bang, LogNot, a);
    NegationWaits(Tilde, BitNot, a);
  }

  lemma NegationWaits(t: Token, u: UnOp, a: Atom)
    requires (t == Bang && u == LogNot) || (t == Tilde && u == BitNot)
    ensures Run(START, [t, Word(a)]) == Going(View(WantInfix, [Un(u)], [Leaf(a)], 0))
  {
    var v := View(WantExpr, [Un(u)], [], 0);
    assert [] + [Un(u)] == v.defer && [] + [Leaf(a)] == [Leaf(a)] && [t, Word(a)][1..] == [Word(a)];
    RunOne(v, Word(a));
  }

  /** Brackets: parentheses leave no trace, an index has two parts, a call has all of its
      arguments. */
  lemma BracketsRead(f: Atom, x: Syntax, y: Syntax)
    requires Good(x) && Good(y)
    ensures ReadAs([OParen] + Tokens(x) + [CParen], Tree(x))
    ensures ReadAs([Word(f), OIndex] + Tokens(x) + [CIndex], Node(Index, [Leaf(f), Tree(x)]))
    ensures ReadAs([Word(f), OParen] + Tokens(x) + [CParen], Node(Call(1), [Leaf(f), Tree(x)]))
    ensures ReadAs([Word(f), OParen] + Tokens(x) + [Comma] + Tokens(y) + [CParen], Node(Call(2), [Leaf(f), Tree(x), Tree(y)]))
  {
    ReadsWhole(Grouped(x));
    IndexRead(f, x);
    CallRead(f, x);
    CallOfTwoRead(f, x, y);
  }

  lemma ReadsSpelled(s: Syntax, ts: seq<Token>, e: Expr)
    requires Good(s) && Tokens(s) == ts && Tree(s) == e
    ensures ReadAs(ts, e)
  {
    ReadsWhole(s);
  }

  lemma IndexRead(f: Atom, x: Syntax)
    requires Good(x)
    ensures ReadAs([Word(f), OIndex] + Tokens(x) + [CIndex], Node(Index, [Leaf(f), Tree(x)]))
  {
    assert [Word(f)] + [OIndex] == [Word(f), OIndex];
    ReadsSpelled(Subscript(Plain(f), x), [Word(f), OIndex] + Tokens(x) + [CIndex], Node(Index, [Leaf(f), Tree(x)]));
  }

  lemma CallRead(f: Atom, x: Syntax)
    requires Good(x)
    ensures ReadAs([Word(f), OParen] + Tokens(x) + [CParen], Node(Call(1), [Leaf(f), Tree(x)]))
  {
    var s := Apply(Plain(f), [x]);
    assert ArgTrees(s, 1) == [Tree(x)] && [Leaf(f)] + [Tree(x)] == [Leaf(f), Tree(x)];
    assert ArgTokens(s, 1) == Tokens(x) && [Word(f)] + [OParen] == [Word(f), OParen];
    ReadsSpelled(s, [Word(f), OParen] + Tokens(x) + [CParen], Node(Call(1), [Leaf(f), Tree(x)]));
  }

  lemma CallOfTwoRead(f: Atom, x: Syntax, y: Syntax)
    requires Good(x) && Good(y)
    ensures ReadAs([Word(f), OParen] + Tokens(x) + [Comma] + Tokens(y) + [CParen], Node(Call(2), [Leaf(f), Tree(x), Tree(y)]))
  {
    var s := Apply(Plain(f), [x, y]);
    assert ArgTrees(s, 1) == [Tree(x)] && ArgTrees(s, 2) == [Tree(x), Tree(y)];
    assert [Leaf(f)] + [Tree(x), Tree(y)] == [Leaf(f), Tree(x), Tree(y)];
    assert ArgTokens(s, 2) == Tokens(x) + [Comma] + Tokens(y) && [Word(f)] + [OParen] == [Word(f), OParen];
    Around([Word(f), OParen], Tokens(x), [Comma], Tokens(y), [CParen]);
    ReadsSpelled(s, [Word(f), OParen] + Tokens(x) + [Comma] + Tokens(y) + [CParen], Node(Call(2), [Leaf(f), Tree(x), Tree(y)]));
  }

  lemma Around(a: seq<Token>, b: seq<Token>, c: seq<Token>, d: seq<Token>, e: seq<Token>)
    ensures a + (b + c + d) + e == a + b + c + d + e
  {
  }

  /** An assignment is looser than everything: its right side is the whole expression. */
  lemma AssignTakesAll(d: Deferred, target: Atom, s: Syntax)
    requires Good(s) && (d == Assign || (d == Define && target.Symbol?))
    ensures var r := Run(View(WantExpr, [d], [Leaf(target)], 0), Tokens(s));
            r.Going? && ReduceTo(r.v, FLOW - 1) == Going(View(WantInfix, [], [Node(d, [Leaf(target), Tree(s)])], 0))
  {
    var v := View(WantExpr, [d], [Leaf(target)], 0);
    Parses(v, s);
    var w, e, p: nat := After(v, Tree(s)), Node(d, [Leaf(target), Tree(s)]), FLOW - 1;
    assert ReduceTo(Run(v, Tokens(s)).v, p) == ReduceTo(w, p);
    assert w.frags == [Leaf(target), Tree(s)] && Init(w.defer) == [];
    AssignFragment(d, w.frags);
    assert w.(defer := Init(w.defer), frags := [e]) == View(WantInfix, [], [e], 0);
    assert ReduceTo(w, p) == ReduceTo(View(WantInfix, [], [e], 0), p);
  }

  lemma AssignFragment(d: Deferred, kids: seq<Expr>)
    requires |kids| == 2 && (d == Assign || (d == Define && kids[0].Leaf? && kids[0].a.Symbol?))
    ensures Fragment(kids, d) == Some([Node(d, kids)])
  {
    assert kids[..0] == [] && kids[0..] == kids && [] + [Node(d, kids)] == [Node(d, kids)];
  }
}
