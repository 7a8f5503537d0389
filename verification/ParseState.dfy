/** The state of the shift-reduce expression parser of the front end (front/front-parse.cpp)
    and what it does with one token, as functions. */
module ParseState {

  datatype BinOp =
    | Mul | Div | Mod | Add | Sub | ShiftL | ShiftR
    | Less | LessEq | Greater | GreaterEq | Eq | NotEq
    | BitAnd | BitXor | BitOr | LogAnd | LogOr

  datatype UnOp = Pos | Neg | LogNot | BitNot

  datatype Atom = Const(text: string) | Symbol(text: string)

  /** What the lexer yields within an expression. Stray stands for keywords and punctuation
      that neither start an expression nor continue one. */
  datatype Token =
    | Word(a: Atom) | Op(op: BinOp) | Bang | Tilde
    | OParen | CParen | OIndex | CIndex | Comma | Stray

  /** What waits on the defer stack: operators, brackets and statements not yet complete. */
  datatype Deferred =
    | Bin(op: BinOp) | Un(u: UnOp) | Paren | Index | Call(nArgs: nat)
    | Assign | Define
    | If | IfBody | Else | While | WhileBody | Return | Block(n: nat)

  /** Syntax trees: a node is a token with the fragments that its constructor took. */
  datatype Expr = Leaf(a: Atom) | Node(d: Deferred, kids: seq<Expr>)

  datatype Option<T> = None | Some(value: T)

  // ---- precedence -------------------------------------------------------------------------

  const UNARY: nat := 0
  const LOG_OR: nat := 10
  const ASSIGN: nat := 11
  const COMMA: nat := 12
  const FLOW: nat := 13

  function Prec(op: BinOp): (p: nat)
    ensures UNARY < p <= LOG_OR
  {
    match op
    case Mul | Div | Mod => 1
    case Add | Sub => 2
    case ShiftL | ShiftR => 3
    case Less | LessEq | Greater | GreaterEq => 4
    case Eq | NotEq => 5
    case BitAnd => 6
    case BitXor => 7
    case BitOr => 8
    case LogAnd => 9
    case LogOr => 10
  }

  /** The two negations have no entry: asking for their precedence fails an assertion. */
  function Precede(d: Deferred): Option<nat> {
    match d
    case Bin(op) => Some(Prec(op))
    case Un(u) => if u == Pos || u == Neg then Some(UNARY) else None
    case Assign | Define => Some(ASSIGN)
    case _ => Some(FLOW)
  }

  // ---- fragments --------------------------------------------------------------------------

  /** How many fragments the constructor for a token takes; none for tokens without one. */
  function Arity(d: Deferred): Option<nat> {
    match d
    case Bin(_) | Index | Assign | Define | IfBody | WhileBody => Some(2)
    case Un(_) | Return => Some(1)
    case Else => Some(3)
    case Call(n) => Some(n + 1)
    case Block(n) => Some(n)
    case Paren | If | While => None
  }

  /** The fragments after the constructor for d has taken its own and left the result; none
      if an assertion fails or the stack runs out. */
  function Fragment(frags: seq<Expr>, d: Deferred): Option<seq<Expr>> {
    if Arity(d).None? || |frags| < Arity(d).value then None
    else
      var n := |frags| - Arity(d).value;
      if d.Define? && !(frags[n].Leaf? && frags[n].a.Symbol?) then None
      else Some(frags[..n] + [Node(d, frags[n..])])
  }

  // ---- one token --------------------------------------------------------------------------

  datatype Mode = WantExpr | WantInfix

  datatype View = View(mode: Mode, defer: seq<Deferred>, frags: seq<Expr>, errors: nat)

  /** Closed: the condition of a statement is over and the statement parser takes over.
      Crash: an assertion fails, or the top of an empty stack is read. */
  datatype Outcome = Going(v: View) | Closed(v: View) | Crash

  function Last<T>(s: seq<T>): T
    requires s != []
  {
    s[|s| - 1]
  }

  function Init<T>(s: seq<T>): seq<T>
    requires s != []
  {
    s[..|s| - 1]
  }

  /** Reduce everything at precedence p or tighter. */
  function ReduceTo(v: View, p: nat): (r: Outcome)
    ensures !r.Closed?
    decreases |v.defer|
  {
    if v.defer == [] then Going(v)
    else
      var d := Last(v.defer);
      if Precede(d).None? then Crash
      else if Precede(d).value > p then Going(v)
      else
        match Fragment(v.frags, d)
        case None => Crash
        case Some(frags) => ReduceTo(v.(defer := Init(v.defer), frags := frags), p)
  }

  function Push(v: View, d: Deferred): View {
    v.(defer := v.defer + [d], mode := WantExpr)
  }

  function Fail(v: View): Outcome {
    Going(v.(errors := v.errors + 1))
  }

  /** Make the top of the defer stack, as d, a fragment. */
  function Complete(v: View, d: Deferred): Outcome
    requires v.defer != []
  {
    match Fragment(v.frags, d)
    case None => Crash
    case Some(frags) => Going(v.(defer := Init(v.defer), frags := frags))
  }

  function ExprStep(v: View, t: Token): Outcome {
    if t == CParen && v.defer == [] then Crash
    else if t == CParen && Last(v.defer) == Call(0) then
      match ReduceTo(v, FLOW)
      case Going(w) => Going(w.(mode := WantInfix))
      case _ => Crash
    else
      match t
      case OParen => Going(Push(v, Paren))
      case Op(Add) => Going(Push(v, Un(Pos)))
      case Op(Sub) => Going(Push(v, Un(Neg)))
      case Bang => Going(Push(v, Un(LogNot)))
      case Tilde => Going(Push(v, Un(BitNot)))
      case Word(a) => Going(v.(frags := v.frags + [Leaf(a)], mode := WantInfix))
      case _ => Fail(v)
  }

  /** After everything inside it has been reduced: a closing parenthesis. */
  function CloseParen(v: View): Outcome {
    if v.defer == [] then Fail(v)
    else
      match Last(v.defer)
      case Paren => Going(v.(defer := Init(v.defer)))
      case Call(n) => Complete(v, Call(n + 1))
      case If => Closed(v.(defer := Init(v.defer) + [IfBody]))
      case While => Closed(v.(defer := Init(v.defer) + [WhileBody]))
      case _ => Fail(v)
  }

  function CloseIndex(v: View): Outcome {
    if v.defer == [] || Last(v.defer) != Index then Fail(v) else Complete(v, Index)
  }

  function NextArg(v: View): Outcome {
    if v.defer == [] then Crash
    else
      match Last(v.defer)
      case Call(n) => Going(v.(defer := Init(v.defer) + [Call(n + 1)], mode := WantExpr))
      case _ => Fail(v)
  }

  function InfixStep(v: View, t: Token): Outcome {
    match t
    case OParen => Going(Push(v, Call(0)))
    case OIndex => Going(Push(v, Index))
    case CParen =>
      (match ReduceTo(v, FLOW - 1)
       case Going(w) => CloseParen(w)
       case _ => Crash)
    case CIndex =>
      (match ReduceTo(v, FLOW - 1)
       case Going(w) => CloseIndex(w)
       case _ => Crash)
    case Comma =>
      (match ReduceTo(v, COMMA)
       case Going(w) => NextArg(w)
       case _ => Crash)
    case Op(op) =>
      (match ReduceTo(v, Prec(op))
       case Going(w) => Going(Push(w, Bin(op)))
       case _ => Crash)
    case _ => Fail(v)
  }

  function Step(v: View, t: Token): Outcome {
    if v.mode == WantExpr then ExprStep(v, t) else InfixStep(v, t)
  }

  /** Feed tokens until they are used up, or the expression is over. */
  function Run(v: View, ts: seq<Token>): Outcome
    decreases |ts|
  {
    if ts == [] then Going(v)
    else
      match Step(v, ts[0])
      case Going(w) => Run(w, ts[1..])
      case other => other
  }

  function Then(r: Outcome, ts: seq<Token>): Outcome {
    if r.Going? then Run(r.v, ts) else r
  }

  lemma {:induction false} RunSplit(v: View, a: seq<Token>, b: seq<Token>)
    ensures Run(v, a + b) == Then(Run(v, a), b)
    decreases |a|
  {
    if a == [] {
      assert a + b == b;
    } else {
      assert (a + b)[1..] == a[1..] + b;
      if Step(v, a[0]).Going? {
        RunSplit(Step(v, a[0]).v, a[1..], b);
      }
    }
  }

  lemma RunOne(v: View, t: Token)
    ensures Run(v, [t]) == Step(v, t)
  {
    assert [t][1..] == [];
  }

  // ---- conservation -----------------------------------------------------------------------

  /** How many fragments a deferred token has under it. */
  function Held(d: Deferred): nat {
    match d
    case Bin(_) | Index | Assign | Define | IfBody | WhileBody => 1
    case Call(n) => n + 1
    case Block(n) => n
    case Else => 2
    case _ => 0
  }

  function HeldAll(ds: seq<Deferred>): nat {
    if ds == [] then 0 else HeldAll(Init(ds)) + Held(Last(ds))
  }

  /** The fragments are just those that deferred tokens hold, and a definition holds a
      symbol. */
  predicate Fits(ds: seq<Deferred>, frags: seq<Expr>) {
    && |frags| == HeldAll(ds)
    && (ds != [] ==>
         && Fits(Init(ds), frags[..HeldAll(Init(ds))])
         && (Last(ds).Define? ==> frags[HeldAll(Init(ds))].Leaf? && frags[HeldAll(Init(ds))].a.Symbol?))
  }

  /** Every fragment is held by a deferred token or is the expression just read. */
  predicate Balanced(v: View) {
    if v.mode == WantExpr then Fits(v.defer, v.frags) else v.frags != [] && Fits(v.defer, Init(v.frags))
  }

  /** A reduction at p reaches no negation. */
  predicate Reducible(ds: seq<Deferred>, p: nat) {
    ds == [] || (Precede(Last(ds)).Some? && (Precede(Last(ds)).value > p || Reducible(Init(ds), p)))
  }

  /** What a reduction at p leaves. */
  function Rest(ds: seq<Deferred>, p: nat): (r: seq<Deferred>)
    ensures r <= ds
  {
    if ds == [] || Precede(Last(ds)).None? || Precede(Last(ds)).value > p then ds else Rest(Init(ds), p)
  }

  ghost predicate Reduced(v: View, w: View, p: nat) {
    Balanced(w) && w.mode == v.mode && w.errors == v.errors && w.defer == Rest(v.defer, p)
  }

  /** A reduction up to commas fails only at a negation, never for want of fragments. */
  lemma {:induction false} ReduceBalanced(v: View, p: nat)
    requires Balanced(v) && v.mode == WantInfix && p < FLOW
    ensures ReduceTo(v, p).Going? <==> Reducible(v.defer, p)
    ensures ReduceTo(v, p).Going? ==> Reduced(v, ReduceTo(v, p).v, p)
    decreases |v.defer|
  {
    if v.defer != [] {
      var d := Last(v.defer);
      if Precede(d).Some? && Precede(d).value <= p {
        FragmentFits(v, d);
        ReduceBalanced(v.(defer := Init(v.defer), frags := Fragment(v.frags, d).value), p);
      }
    }
  }

  lemma FitsInit(ds: seq<Deferred>, frags: seq<Expr>)
    requires Fits(ds, frags) && ds != []
    ensures var n := HeldAll(Init(ds)); |frags| == n + Held(Last(ds)) && Fits(Init(ds), frags[..n])
    ensures Last(ds).Define? ==> frags[HeldAll(Init(ds))].Leaf? && frags[HeldAll(Init(ds))].a.Symbol?
  {
  }

  lemma FitsPush(ds: seq<Deferred>, frags: seq<Expr>, d: Deferred, more: seq<Expr>)
    requires Fits(ds, frags) && |more| == Held(d) && !d.Define?
    ensures Fits(ds + [d], frags + more)
  {
    assert Init(ds + [d]) == ds && (frags + more)[..|frags|] == frags;
  }

  lemma FragmentFits(v: View, d: Deferred)
    requires Balanced(v) && v.mode == WantInfix && v.defer != [] && d == Last(v.defer)
    requires Precede(d).Some? && Precede(d).value < FLOW
    ensures Fragment(v.frags, d).Some?
    ensures Balanced(v.(defer := Init(v.defer), frags := Fragment(v.frags, d).value))
  {
    var n := HeldAll(Init(v.defer));
    FitsInit(v.defer, Init(v.frags));
    CutFits(Init(v.defer), v.frags, n, d);
  }

  lemma CutFits(ds: seq<Deferred>, frags: seq<Expr>, n: nat, d: Deferred)
    requires frags != [] && n <= |frags| - 1 && Fits(ds, Init(frags)[..n])
    ensures Init(frags)[..n] == frags[..n]
    ensures Init(frags[..n] + [Node(d, frags[n..])]) == frags[..n]
    ensures Fits(ds, Init(frags[..n] + [Node(d, frags[n..])]))
  {
    assert Init(frags)[..n] == frags[..n];
    assert Init(frags[..n] + [Node(d, frags[n..])]) == frags[..n];
  }

  /** The end of a call without arguments. */
  predicate EndsEmptyCall(v: View, t: Token) {
    v.mode == WantExpr && t == CParen && v.defer != [] && Last(v.defer) == Call(0)
  }

  /** The inputs on which the parser fails: a closing parenthesis with nothing open, a comma
      with nothing around it, and a negation, as soon as it would be reduced. */
  predicate Crashes(v: View, t: Token) {
    if v.mode == WantExpr then t == CParen && v.defer == []
    else
      match t
      case CParen | CIndex => !Reducible(v.defer, FLOW - 1)
      case Comma => !Reducible(v.defer, COMMA) || Rest(v.defer, COMMA) == []
      case Op(op) => !Reducible(v.defer, Prec(op))
      case _ => false
  }

  ghost predicate StaysBalanced(r: Outcome) {
    match r
    case Going(w) => Balanced(w)
    case Closed(w) => Fits(w.defer, w.frags)
    case Crash => false
  }

  /** Whatever the token, also after errors, except for calls without arguments: the parser
      fails in exactly these cases, and otherwise no fragment is lost or made up. */
  lemma StepBalanced(v: View, t: Token)
    requires Balanced(v) && !EndsEmptyCall(v, t)
    ensures Step(v, t) == Crash <==> Crashes(v, t)
    ensures Step(v, t) != Crash ==> StaysBalanced(Step(v, t))
  {
    if v.mode == WantExpr {
      ExprBalanced(v, t);
    } else if t == CParen || t == CIndex || t == Comma {
      ReduceBalanced(v, FLOW - 1);
      if Reducible(v.defer, FLOW - 1) {
        var w := ReduceTo(v, FLOW - 1).v;
        CloseBalanced(w);
      }
    } else if t.Op? {
      ReduceBalanced(v, Prec(t.op));
      if Reducible(v.defer, Prec(t.op)) {
        PushBalanced(ReduceTo(v, Prec(t.op)).v, Bin(t.op));
      }
    } else if t == OParen {
      PushBalanced(v, Call(0));
    } else if t == OIndex {
      PushBalanced(v, Index);
    }
  }

  lemma PushBalanced(v: View, d: Deferred)
    requires Balanced(v) && !d.Define?
    requires Held(d) == if v.mode == WantInfix then 1 else 0
    ensures Balanced(Push(v, d))
  {
    if v.mode == WantInfix {
      FitsPush(v.defer, Init(v.frags), d, [Last(v.frags)]);
      assert Init(v.frags) + [Last(v.frags)] == v.frags;
    } else {
      FitsPush(v.defer, v.frags, d, []);
      assert v.frags + [] == v.frags;
    }
  }

  lemma ExprBalanced(v: View, t: Token)
    requires Balanced(v) && v.mode == WantExpr && !EndsEmptyCall(v, t)
    ensures Step(v, t) == Crash <==> Crashes(v, t)
    ensures Step(v, t) != Crash ==> StaysBalanced(Step(v, t))
  {
    if t.Word? {
      assert Init(v.frags + [Leaf(t.a)]) == v.frags;
    } else if t == OParen {
      PushBalanced(v, Paren);
    } else if t == Bang {
      PushBalanced(v, Un(LogNot));
    } else if t == Tilde {
      PushBalanced(v, Un(BitNot));
    } else if t == Op(Add) {
      PushBalanced(v, Un(Pos));
    } else if t == Op(Sub) {
      PushBalanced(v, Un(Neg));
    }
  }

  /** What the top of the stack holds is split off, whatever takes its place. */
  lemma TopFits(w: View)
    requires Balanced(w) && w.mode == WantInfix && w.defer != []
    ensures var n := HeldAll(Init(w.defer));
            && |w.frags| == n + Held(Last(w.defer)) + 1 && Fits(Init(w.defer), w.frags[..n])
            && forall d :: Init(w.frags[..n] + [Node(d, w.frags[n..])]) == w.frags[..n]
  {
    var n := HeldAll(Init(w.defer));
    FitsInit(w.defer, Init(w.frags));
    assert Init(w.frags)[..n] == w.frags[..n];
  }

  lemma CloseBalanced(w: View)
    requires Balanced(w) && w.mode == WantInfix
    ensures StaysBalanced(CloseIndex(w)) && StaysBalanced(CloseParen(w))
    ensures NextArg(w) == Crash <==> w.defer == []
    ensures w.defer != [] ==> StaysBalanced(NextArg(w))
  {
    if w.defer != [] {
      if Last(w.defer).Call? {
        CallBalanced(w);
      } else if Last(w.defer) == Index {
        TopFits(w);
      } else {
        ParenBalanced(w);
      }
    }
  }

  lemma ParenBalanced(w: View)
    requires Balanced(w) && w.mode == WantInfix && w.defer != [] && !Last(w.defer).Call?
    ensures StaysBalanced(CloseParen(w))
  {
    TopFits(w);
    if Last(w.defer) == If || Last(w.defer) == While {
      ConditionBalanced(Init(w.defer), w.frags, if Last(w.defer) == If then IfBody else WhileBody);
    } else if Last(w.defer) == Paren {
      assert w.frags[..|w.frags| - 1] == Init(w.frags);
    }
  }

  lemma CallBalanced(w: View)
    requires Balanced(w) && w.mode == WantInfix && w.defer != [] && Last(w.defer).Call?
    ensures StaysBalanced(CloseParen(w)) && StaysBalanced(NextArg(w))
  {
    var n, next := HeldAll(Init(w.defer)), Call(Last(w.defer).nArgs + 1);
    TopFits(w);
    FitsPush(Init(w.defer), w.frags[..n], next, w.frags[n..]);
    assert w.frags == w.frags[..n] + w.frags[n..];
  }

  lemma ConditionBalanced(ds: seq<Deferred>, frags: seq<Expr>, body: Deferred)
    requires |frags| == HeldAll(ds) + 1 && Fits(ds, frags[..HeldAll(ds)])
    requires body == IfBody || body == WhileBody
    ensures Fits(ds + [body], frags)
  {
    var n := HeldAll(ds);
    FitsPush(ds, frags[..n], body, frags[n..]);
    assert frags == frags[..n] + frags[n..];
  }

  /** Some call without arguments ends in the run. */
  predicate EmptyCallEnds(v: View, ts: seq<Token>)
    decreases |ts|
  {
    ts != [] && (EndsEmptyCall(v, ts[0]) || (Step(v, ts[0]).Going? && EmptyCallEnds(Step(v, ts[0]).v, ts[1..])))
  }

  /** After some of the tokens the next one is among the inputs on which the parser fails. */
  ghost predicate CrashesAlong(v: View, ts: seq<Token>) {
    exists i :: 0 <= i < |ts| && CrashesAt(v, ts, i)
  }

  predicate CrashesAt(v: View, ts: seq<Token>, i: nat)
    requires i < |ts|
  {
    var r := Run(v, ts[..i]);
    r.Going? && Crashes(r.v, ts[i])
  }

  /** The same for any number of tokens: the parser fails just if it comes to such an input. */
  lemma {:induction false} RunBalanced(v: View, ts: seq<Token>)
    requires Balanced(v) && !EmptyCallEnds(v, ts)
    ensures Run(v, ts) == Crash <==> CrashesAlong(v, ts)
    ensures Run(v, ts) != Crash ==> StaysBalanced(Run(v, ts))
    decreases |ts|
  {
    if ts != [] {
      StepBalanced(v, ts[0]);
      assert Run(v, ts[..0]) == Going(v);
      CrashesLater(v, ts);
      if Step(v, ts[0]).Going? {
        RunBalanced(Step(v, ts[0]).v, ts[1..]);
      } else if Step(v, ts[0]) == Crash {
        assert CrashesAt(v, ts, 0);
      }
    }
  }

  lemma CrashesLater(v: View, ts: seq<Token>)
    requires ts != []
    ensures CrashesAlong(v, ts) <==>
              Crashes(v, ts[0]) || (Step(v, ts[0]).Going? && CrashesAlong(Step(v, ts[0]).v, ts[1..]))
  {
    var r := Step(v, ts[0]);
    assert Run(v, ts[..0]) == Going(v);
    forall i: nat | 0 < i < |ts| ensures CrashesAt(v, ts, i) <==> r.Going? && CrashesAt(r.v, ts[1..], i - 1) {
      assert ts[..i][1..] == ts[1..][..i - 1];
    }
    if CrashesAlong(v, ts) {
      var i: nat :| i < |ts| && CrashesAt(v, ts, i);
      assert i > 0 ==> CrashesAt(r.v, ts[1..], i - 1);
    }
    if Crashes(v, ts[0]) {
      assert CrashesAt(v, ts, 0);
    } else if r.Going? && CrashesAlong(r.v, ts[1..]) {
      var i: nat :| i < |ts[1..]| && CrashesAt(r.v, ts[1..], i);
      assert CrashesAt(v, ts, i + 1);
    }
  }

  const START: View := View(WantExpr, [], [], 0)

  /** A negation fails at the next operator, whichever it is: !x + y cannot be read. */
  lemma NegationFails(a: Atom, op: BinOp)
    ensures Run(START, [Bang, Word(a), Op(op)]) == Crash && Run(START, [Tilde, Word(a), Op(op)]) == Crash
  {
    FailsAfter(Bang, LogNot, a, op);
    FailsAfter(Tilde, BitNot, a, op);
  }

  lemma FailsAfter(t: Token, u: UnOp, a: Atom, op: BinOp)
    requires (t == Bang && u == LogNot) || (t == Tilde && u == BitNot)
    ensures Run(START, [t, Word(a), Op(op)]) == Crash
  {
    var ts, v, w := [t, Word(a), Op(op)], View(WantExpr, [Un(u)], [], 0), View(WantInfix, [Un(u)], [Leaf(a)], 0);
    assert [] + [Un(u)] == v.defer && [] + [Leaf(a)] == w.frags;
    assert ts[1..] == [Word(a), Op(op)] && ts[1..][1..] == [Op(op)];
    assert Step(START, t) == Going(v) && Step(v, Word(a)) == Going(w);
    assert Run(START, ts) == Run(v, ts[1..]) == Run(w, [Op(op)]);
    RunOne(w, Op(op));
  }

  /** So does a comma outside of all brackets: x, y. */
  lemma CommaFails(a: Atom)
    ensures Run(START, [Word(a), Comma]) == Crash
  {
    var v := View(WantInfix, [], [Leaf(a)], 0);
    assert [Word(a), Comma][1..] == [Comma] && [] + [Leaf(a)] == v.frags;
    RunOne(v, Comma);
  }

  /** A reduction at the precedence of brackets stops at nothing. */
  lemma {:induction false} FlowReducesAll(v: View)
    ensures ReduceTo(v, FLOW).Going? ==> ReduceTo(v, FLOW).v.defer == []
    decreases |v.defer|
  {
    if v.defer != [] {
      var d := Last(v.defer);
      if Precede(d).Some? && Fragment(v.frags, d).Some? {
        FlowReducesAll(v.(defer := Init(v.defer), frags := Fragment(v.frags, d).value));
      }
    }
  }

  /** The state that the end of a call without arguments should lead to. */
  function AfterEmptyCall(v: View): View
    requires Balanced(v) && EndsEmptyCall(v, CParen)
  {
    var n := |v.frags| - 1;
    View(WantInfix, Init(v.defer), v.frags[..n] + [Node(Call(0), v.frags[n..])], v.errors)
  }

  /** It does if and only if nothing is open around the call: everything that waits, brackets
      included, is reduced with it. */
  lemma EmptyCallExact(v: View)
    requires Balanced(v) && EndsEmptyCall(v, CParen)
    ensures Step(v, CParen) == Going(AfterEmptyCall(v)) <==> Init(v.defer) == []
  {
    FlowReducesAll(v);
    assert Fragment(v.frags, Call(0)) == Some(AfterEmptyCall(v).frags);
    var w := v.(defer := Init(v.defer), frags := AfterEmptyCall(v).frags);
    assert ReduceTo(v, FLOW) == ReduceTo(w, FLOW);
  }

  /** Inside parentheses or a condition the call makes the parser fail. */
  lemma EmptyCallInside(v: View, i: nat)
    requires EndsEmptyCall(v, CParen) && i < |v.defer| && Arity(v.defer[i]).None?
    ensures Step(v, CParen) == Crash
  {
    BracketFails(v, i);
  }

  lemma {:induction false} BracketFails(v: View, i: nat)
    requires i < |v.defer| && Arity(v.defer[i]).None?
    ensures ReduceTo(v, FLOW) == Crash
    decreases |v.defer|
  {
    var d := Last(v.defer);
    if Precede(d).Some? && Fragment(v.frags, d).Some? {
      BracketFails(v.(defer := Init(v.defer), frags := Fragment(v.frags, d).value), i);
    }
  }

  /** Elsewhere it can regroup what is around it: after x op f() the sum is complete, whatever
      operator follows, so that 1 + f() * 2 is read as (1 + f()) * 2. */
  lemma EmptyCallRegroups(op: BinOp, x: Expr, f: Expr, errors: nat)
    ensures Step(View(WantExpr, [Bin(op), Call(0)], [x, f], errors), CParen)
         == Going(View(WantInfix, [], [Node(Bin(op), [x, Node(Call(0), [f])])], errors))
  {
    var v, call := View(WantExpr, [Bin(op), Call(0)], [x, f], errors), Node(Call(0), [f]);
    var w := View(WantExpr, [Bin(op)], [x, call], errors);
    assert v.frags[..1] == [x] && v.frags[1..] == [f] && Init(v.defer) == w.defer;
    assert [x] + [call] == w.frags && [] + [Node(Bin(op), w.frags)] == [Node(Bin(op), w.frags)];
    assert Fragment(v.frags, Call(0)) == Some(w.frags);
    assert v.(defer := Init(v.defer), frags := w.frags) == w;
    assert w.frags[..0] == [] && w.frags[0..] == w.frags && Init(w.defer) == [];
    assert Fragment(w.frags, Bin(op)) == Some([Node(Bin(op), [x, call])]);
    var z := View(WantExpr, [], [Node(Bin(op), [x, call])], errors);
    assert w.(defer := Init(w.defer), frags := z.frags) == z;
    assert ReduceTo(v, FLOW) == ReduceTo(w, FLOW) == ReduceTo(z, FLOW) == Going(z);
  }
}
