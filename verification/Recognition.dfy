/** What the parser of the front end (front/front-parse.cpp) accepts: the converse of reading
    well-formed expressions. */
module Recognition {
  import opened ParseState
  import opened Grammar

  /** One thing that the parser is in the middle of. */
  datatype Frame =
    | InGroup
    | InIndex(x: Syntax)
    | InCall(f: Syntax, args: seq<Syntax>)
    | AfterSign(u: UnOp)
    | AfterOp(op: BinOp, l: Syntax)

  function Shape(f: Frame): Deferred {
    match f
    case InGroup => Paren
    case InIndex(_) => Index
    case InCall(_, args) => Call(|args|)
    case AfterSign(u) => Un(u)
    case AfterOp(op, _) => Bin(op)
  }

  /** The fragments that are ready for it. */
  function Parts(f: Frame): seq<Expr> {
    match f
    case InIndex(x) => [Tree(x)]
    case InCall(g, args) => [Tree(g)] + ArgTrees(Apply(g, args), |args|)
    case AfterOp(_, l) => [Tree(l)]
    case _ => []
  }

  /** The tokens that led there. */
  function Lead(f: Frame): seq<Token> {
    match f
    case InGroup => [OParen]
    case InIndex(x) => Tokens(x) + [OIndex]
    case InCall(g, args) => Tokens(g) + [OParen] + if args == [] then [] else ArgTokens(Apply(g, args), |args|) + [Comma]
    case AfterSign(u) => [Sign(u)]
    case AfterOp(op, l) => Tokens(l) + [Op(op)]
  }

  function Shapes(fs: seq<Frame>): (r: seq<Deferred>)
    ensures |r| == |fs|
  {
    if fs == [] then [] else Shapes(Init(fs)) + [Shape(Last(fs))]
  }

  function PartsAll(fs: seq<Frame>): seq<Expr> {
    if fs == [] then [] else PartsAll(Init(fs)) + Parts(Last(fs))
  }

  function LeadAll(fs: seq<Frame>): seq<Token> {
    if fs == [] then [] else LeadAll(Init(fs)) + Lead(Last(fs))
  }

  predicate GoodFrame(f: Frame) {
    match f
    case InIndex(x) => Good(x) && Rank(x) < UNARY
    case InCall(g, args) => Good(g) && Rank(g) < UNARY && forall i :: 0 <= i < |args| ==> Good(args[i])
    case AfterOp(op, l) => Good(l) && Rank(l) <= Prec(op)
    case _ => true
  }

  function FrameRank(f: Frame): int {
    match f
    case AfterOp(op, _) => Prec(op)
    case AfterSign(_) => UNARY
    case _ => -1
  }

  /** Something of rank r may follow. */
  predicate Room(fs: seq<Frame>, r: int) {
    fs == [] ||
    match Last(fs)
    case AfterOp(op, _) => r < Prec(op)
    case AfterSign(_) => r <= UNARY
    case _ => true
  }

  predicate GoodFrames(fs: seq<Frame>) {
    fs == [] || (GoodFrames(Init(fs)) && GoodFrame(Last(fs)) && Room(Init(fs), FrameRank(Last(fs))))
  }

  /** The stacks as the tokens so far explain them: frames, and the expression just read. */
  predicate Expecting(v: View, fs: seq<Frame>) {
    v.mode == WantExpr && GoodFrames(fs) && v.defer == Shapes(fs) && v.frags == PartsAll(fs)
  }

  predicate Holding(v: View, fs: seq<Frame>, s: Syntax) {
    && v.mode == WantInfix && GoodFrames(fs) && v.defer == Shapes(fs) && v.frags == PartsAll(fs) + [Tree(s)]
    && Good(s) && Room(fs, Rank(s))
  }

  // ---- reductions -------------------------------------------------------------------------

  lemma FramesPush(fs: seq<Frame>, f: Frame)
    ensures Shapes(fs + [f]) == Shapes(fs) + [Shape(f)]
    ensures PartsAll(fs + [f]) == PartsAll(fs) + Parts(f)
    ensures LeadAll(fs + [f]) == LeadAll(fs) + Lead(f)
    ensures GoodFrames(fs) && GoodFrame(f) && Room(fs, FrameRank(f)) ==> GoodFrames(fs + [f])
  {
    assert Init(fs + [f]) == fs;
  }

  /** An operator or sign and its operands. */
  function Join(f: Frame, s: Syntax): Syntax
    requires f.AfterOp? || f.AfterSign?
  {
    if f.AfterOp? then Binary(f.op, f.l, s) else Signed(f.u, s)
  }

  lemma Assoc<T>(a: seq<T>, b: seq<T>, c: seq<T>)
    ensures a + b + c == a + (b + c)
  {
  }

  lemma JoinTokens(fs: seq<Frame>, s: Syntax)
    requires fs != [] && (Last(fs).AfterOp? || Last(fs).AfterSign?)
    ensures LeadAll(Init(fs)) + Tokens(Join(Last(fs), s)) == LeadAll(fs) + Tokens(s)
  {
    assert Lead(Last(fs)) + Tokens(s) == Tokens(Join(Last(fs), s));
    Assoc(LeadAll(Init(fs)), Lead(Last(fs)), Tokens(s));
  }

  lemma JoinTree(f: Frame, s: Syntax)
    requires f.AfterOp? || f.AfterSign?
    ensures Tree(Join(f, s)) == Node(Shape(f), Parts(f) + [Tree(s)])
    ensures Arity(Shape(f)) == Some(|Parts(f)| + 1)
  {
  }

  lemma JoinHolds(v: View, fs: seq<Frame>, s: Syntax)
    requires Holding(v, fs, s) && fs != [] && (Last(fs).AfterOp? || Last(fs).AfterSign?) && Precede(Shape(Last(fs))).Some?
    ensures v.defer != [] && Last(v.defer) == Shape(Last(fs))
    ensures var frags := Fragment(v.frags, Last(v.defer));
            frags.Some? && Holding(v.(defer := Init(v.defer), frags := frags.value), Init(fs), Join(Last(fs), s))
  {
    var f := Last(fs);
    var front, kids := PartsAll(Init(fs)), Parts(f) + [Tree(s)];
    JoinTree(f, s);
    assert Init(v.defer) == Shapes(Init(fs));
    assert v.frags == front + kids;
    assert v.frags[..|front|] == front && v.frags[|front|..] == kids;
    assert Fragment(v.frags, Shape(f)) == Some(front + [Node(Shape(f), kids)]);
  }

  /** Why a reduction at p has stopped. */
  predicate Stopped(fs: seq<Frame>, p: nat) {
    fs == [] || (Precede(Shape(Last(fs))).Some? && Precede(Shape(Last(fs))).value > p)
  }

  /** A reduction joins what was read to the frames it takes, and leaves the tokens alone. */
  lemma {:induction false} ReduceJoins(v: View, fs: seq<Frame>, s: Syntax, p: nat) returns (gs: seq<Frame>, t: Syntax)
    requires Holding(v, fs, s) && Rank(s) <= p < FLOW && ReduceTo(v, p).Going?
    ensures Holding(ReduceTo(v, p).v, gs, t) && Rank(t) <= p && Stopped(gs, p)
    ensures LeadAll(gs) + Tokens(t) == LeadAll(fs) + Tokens(s)
    ensures ReduceTo(v, p).v.errors == v.errors
    decreases |fs|
  {
    gs, t := fs, s;
    if fs != [] && Precede(Shape(Last(fs))).Some? && Precede(Shape(Last(fs))).value <= p {
      JoinHolds(v, fs, s);
      JoinTokens(fs, s);
      var w := v.(defer := Init(v.defer), frags := Fragment(v.frags, Last(v.defer)).value);
      gs, t := ReduceJoins(w, Init(fs), Join(Last(fs), s), p);
    } else if fs != [] {
      assert Last(v.defer) == Shape(Last(fs));
    }
  }

  // ---- one token --------------------------------------------------------------------------

  datatype Progress = Progress(fs: seq<Frame>, read: Option<Syntax>)

  /** The tokens ts so far and the state are two views of the same progress. */
  predicate Tracked(v: View, z: Progress, ts: seq<Token>) {
    match z.read
    case None => Expecting(v, z.fs) && LeadAll(z.fs) == ts
    case Some(s) => Holding(v, z.fs, s) && Rank(s) < UNARY && LeadAll(z.fs) + Tokens(s) == ts
  }

  lemma Pushes(v: View, w: View, fs: seq<Frame>, f: Frame, ts: seq<Token>)
    requires GoodFrames(fs) && GoodFrame(f) && Room(fs, FrameRank(f))
    requires w.mode == WantExpr && w.defer == Shapes(fs) + [Shape(f)] && w.frags == PartsAll(fs) + Parts(f)
    requires ts == LeadAll(fs) + Lead(f)
    ensures Tracked(w, Progress(fs + [f], None), ts)
  {
    FramesPush(fs, f);
  }

  /** What a token opens where an expression is expected. */
  function Opens(t: Token): Frame {
    match t
    case OParen => InGroup
    case Bang => AfterSign(LogNot)
    case Tilde => AfterSign(BitNot)
    case Op(Add) => AfterSign(Pos)
    case _ => AfterSign(Neg)
  }

  lemma ExprTracks(v: View, z: Progress, ts: seq<Token>, t: Token) returns (z': Progress)
    requires Tracked(v, z, ts) && v.mode == WantExpr && !EndsEmptyCall(v, t)
    requires Step(v, t).Going? && Step(v, t).v.errors == v.errors
    ensures Tracked(Step(v, t).v, z', ts + [t])
  {
    if t.Word? {
      z' := Progress(z.fs, Some(Plain(t.a)));
    } else {
      var f := Opens(t);
      assert Step(v, t).v == Push(v, Shape(f)) && Lead(f) == [t] && Parts(f) == [];
      Pushes(v, Step(v, t).v, z.fs, f, ts + [t]);
      z' := Progress(z.fs + [f], None);
    }
  }

  lemma OpensTrack(v: View, z: Progress, ts: seq<Token>, t: Token) returns (z': Progress)
    requires Tracked(v, z, ts) && z.read.Some? && (t == OParen || t == OIndex)
    ensures Step(v, t).Going? && Tracked(Step(v, t).v, z', ts + [t])
  {
    var s := z.read.value;
    var f := if t == OParen then InCall(s, []) else InIndex(s);
    Pushes(v, Step(v, t).v, z.fs, f, ts + [t]);
    z' := Progress(z.fs + [f], None);
  }

  lemma OpTracks(v: View, z: Progress, ts: seq<Token>, op: BinOp) returns (z': Progress)
    requires Tracked(v, z, ts) && z.read.Some? && Step(v, Op(op)).Going?
    ensures Tracked(Step(v, Op(op)).v, z', ts + [Op(op)])
  {
    var gs, s := ReduceJoins(v, z.fs, z.read.value, Prec(op));
    Pushes(v, Step(v, Op(op)).v, gs, AfterOp(op, s), ts + [Op(op)]);
    z' := Progress(gs + [AfterOp(op, s)], None);
  }

  /** One more argument. */
  lemma ArgMore(a: Syntax, b: Syntax, s: Syntax)
    requires a.Apply? && b.Apply? && b.f == a.f && b.args == a.args + [s]
    ensures var n := |a.args|;
            && ArgTrees(b, n + 1) == ArgTrees(a, n) + [Tree(s)]
            && ArgTokens(b, n + 1) == if n == 0 then Tokens(s) else ArgTokens(a, n) + [Comma] + Tokens(s)
  {
    var n := |a.args|;
    SameArgs(a, b, n);
    assert b.args[n] == s;
  }

  lemma CallParts(a: Syntax, b: Syntax, s: Syntax)
    requires a.Apply? && b.Apply? && b.f == a.f && b.args == a.args + [s]
    ensures Parts(InCall(a.f, a.args)) + [Tree(s)] == [Tree(b.f)] + ArgTrees(b, |b.args|)
  {
    ArgMore(a, b, s);
    Assoc([Tree(a.f)], ArgTrees(a, |a.args|), [Tree(s)]);
  }

  lemma CallLead(a: Syntax, b: Syntax, s: Syntax)
    requires a.Apply? && b.Apply? && b.f == a.f && b.args == a.args + [s]
    ensures Lead(InCall(a.f, a.args)) + Tokens(s) == Tokens(b.f) + [OParen] + ArgTokens(b, |b.args|)
  {
    ArgMore(a, b, s);
    var front := Tokens(a.f) + [OParen];
    if a.args == [] {
      assert front + [] == front;
    } else {
      Assoc(front, ArgTokens(a, |a.args|) + [Comma], Tokens(s));
    }
  }

  lemma {:induction false} SameArgs(a: Syntax, b: Syntax, n: nat)
    requires a.Apply? && b.Apply? && n <= |a.args| && a.args <= b.args
    ensures ArgTrees(a, n) == ArgTrees(b, n) && ArgTokens(a, n) == ArgTokens(b, n)
    decreases n
  {
    if n > 0 {
      SameArgs(a, b, n - 1);
    }
  }

  /** The top of the stacks. */
  lemma TopFrame(w: View, fs: seq<Frame>, s: Syntax)
    requires Holding(w, fs, s) && fs != []
    ensures w.defer != [] && Last(w.defer) == Shape(Last(fs)) && Init(w.defer) == Shapes(Init(fs))
    ensures w.frags == PartsAll(Init(fs)) + (Parts(Last(fs)) + [Tree(s)])
    ensures LeadAll(fs) + Tokens(s) == LeadAll(Init(fs)) + (Lead(Last(fs)) + Tokens(s))
  {
    assert Init(w.defer) == Shapes(Init(fs));
    Assoc(PartsAll(Init(fs)), Parts(Last(fs)), [Tree(s)]);
    Assoc(LeadAll(Init(fs)), Lead(Last(fs)), Tokens(s));
  }

  lemma CompleteTakes(w: View, front: seq<Expr>, kids: seq<Expr>, d: Deferred)
    requires w.defer != [] && w.frags == front + kids && Arity(d) == Some(|kids|) && !d.Define?
    ensures Complete(w, d) == Going(w.(defer := Init(w.defer), frags := front + [Node(d, kids)]))
  {
    assert w.frags[..|front|] == front && w.frags[|front|..] == kids;
  }

  /** What closing or going on with a call does to the stacks. */
  lemma CallSteps(w: View, front: seq<Expr>, a: Syntax, b: Syntax, s: Syntax)
    requires a.Apply? && b.Apply? && b.f == a.f && b.args == a.args + [s]
    requires w.defer != [] && Last(w.defer) == Call(|a.args|) && w.frags == front + (Parts(InCall(a.f, a.args)) + [Tree(s)])
    ensures CloseParen(w) == Going(w.(defer := Init(w.defer), frags := front + [Tree(b)]))
    ensures NextArg(w) == Going(w.(defer := Init(w.defer) + [Call(|b.args|)], mode := WantExpr))
    ensures w.frags == front + Parts(InCall(b.f, b.args))
  {
    var kids := Parts(InCall(a.f, a.args)) + [Tree(s)];
    CallParts(a, b, s);
    assert Tree(b) == Node(Call(|b.args|), kids);
    CompleteTakes(w, front, kids, Call(|b.args|));
  }

  lemma CallTokens(lead: seq<Token>, a: Syntax, b: Syntax, s: Syntax)
    requires a.Apply? && b.Apply? && b.f == a.f && b.args == a.args + [s]
    ensures lead + (Lead(InCall(a.f, a.args)) + Tokens(s)) + [CParen] == lead + Tokens(b)
    ensures lead + (Lead(InCall(a.f, a.args)) + Tokens(s)) + [Comma] == lead + Lead(InCall(b.f, b.args))
  {
    CallLead(a, b, s);
    var inner := Lead(InCall(a.f, a.args)) + Tokens(s);
    assert inner + [CParen] == Tokens(b) && inner + [Comma] == Lead(InCall(b.f, b.args));
    Assoc(lead, inner, [CParen]);
    Assoc(lead, inner, [Comma]);
  }

  lemma CallCloses(w: View, fs: seq<Frame>, s: Syntax, a: Syntax, b: Syntax) returns (z: Progress)
    requires a.Apply? && Holding(w, fs, s) && fs != [] && Last(fs) == InCall(a.f, a.args)
    requires b == Apply(a.f, a.args + [s])
    ensures CloseParen(w).Going? && Tracked(CloseParen(w).v, z, LeadAll(fs) + Tokens(s) + [CParen])
  {
    TopFrame(w, fs, s);
    CallSteps(w, PartsAll(Init(fs)), a, b, s);
    CallTokens(LeadAll(Init(fs)), a, b, s);
    z := Progress(Init(fs), Some(b));
  }

  lemma GroupCloses(w: View, fs: seq<Frame>, s: Syntax) returns (z: Progress)
    requires Holding(w, fs, s) && fs != [] && Last(fs) == InGroup
    ensures CloseParen(w).Going? && Tracked(CloseParen(w).v, z, LeadAll(fs) + Tokens(s) + [CParen])
  {
    TopFrame(w, fs, s);
    var lead, inner := LeadAll(Init(fs)), [OParen] + Tokens(s);
    assert lead + inner + [CParen] == lead + (inner + [CParen]);
    z := Progress(Init(fs), Some(Grouped(s)));
  }

  lemma IndexCloses(w: View, fs: seq<Frame>, s: Syntax) returns (z: Progress)
    requires Holding(w, fs, s) && fs != [] && Last(fs).InIndex?
    ensures CloseIndex(w).Going? && Tracked(CloseIndex(w).v, z, LeadAll(fs) + Tokens(s) + [CIndex])
  {
    var f := Last(fs);
    TopFrame(w, fs, s);
    assert Parts(f) + [Tree(s)] == [Tree(f.x), Tree(s)];
    CompleteTakes(w, PartsAll(Init(fs)), [Tree(f.x), Tree(s)], Index);
    var lead, inner := LeadAll(Init(fs)), Lead(f) + Tokens(s);
    assert inner + [CIndex] == Tokens(Subscript(f.x, s));
    assert lead + inner + [CIndex] == lead + (inner + [CIndex]);
    z := Progress(Init(fs), Some(Subscript(f.x, s)));
  }

  lemma ArgEnds(w: View, fs: seq<Frame>, s: Syntax, a: Syntax, b: Syntax) returns (z: Progress)
    requires a.Apply? && Holding(w, fs, s) && fs != [] && Last(fs) == InCall(a.f, a.args)
    requires b == Apply(a.f, a.args + [s])
    ensures NextArg(w).Going? && Tracked(NextArg(w).v, z, LeadAll(fs) + Tokens(s) + [Comma])
  {
    var g := InCall(b.f, b.args);
    TopFrame(w, fs, s);
    CallSteps(w, PartsAll(Init(fs)), a, b, s);
    CallTokens(LeadAll(Init(fs)), a, b, s);
    Pushes(w, NextArg(w).v, Init(fs), g, LeadAll(Init(fs)) + Lead(g));
    z := Progress(Init(fs) + [g], None);
  }

  lemma IndexTracks(v: View, z: Progress, ts: seq<Token>) returns (z': Progress)
    requires Tracked(v, z, ts) && z.read.Some? && Step(v, CIndex).Going? && Step(v, CIndex).v.errors == v.errors
    ensures Tracked(Step(v, CIndex).v, z', ts + [CIndex])
  {
    var gs, s := ReduceJoins(v, z.fs, z.read.value, COMMA);
    var w := ReduceTo(v, COMMA).v;
    if gs != [] {
      TopFrame(w, gs, s);
    }
    z' := IndexCloses(w, gs, s);
  }

  lemma CommaTracks(v: View, z: Progress, ts: seq<Token>) returns (z': Progress)
    requires Tracked(v, z, ts) && z.read.Some? && Step(v, Comma).Going? && Step(v, Comma).v.errors == v.errors
    ensures Tracked(Step(v, Comma).v, z', ts + [Comma])
  {
    var gs, s := ReduceJoins(v, z.fs, z.read.value, COMMA);
    var w := ReduceTo(v, COMMA).v;
    if gs != [] {
      TopFrame(w, gs, s);
    }
    var f := Last(gs);
    z' := ArgEnds(w, gs, s, Apply(f.f, f.args), Apply(f.f, f.args + [s]));
  }

  /** A parenthesis closes without an error only what one opened. */
  lemma ClosedKind(w: View, fs: seq<Frame>, s: Syntax)
    requires Holding(w, fs, s) && CloseParen(w).Going? && CloseParen(w).v.errors == w.errors
    ensures fs != [] && (Last(fs) == InGroup || Last(fs).InCall?)
  {
    if fs != [] {
      TopFrame(w, fs, s);
    }
  }

  lemma ParenTracks(v: View, z: Progress, ts: seq<Token>) returns (z': Progress)
    requires Tracked(v, z, ts) && z.read.Some? && Step(v, CParen).Going? && Step(v, CParen).v.errors == v.errors
    ensures Tracked(Step(v, CParen).v, z', ts + [CParen])
  {
    var gs, s := ReduceJoins(v, z.fs, z.read.value, COMMA);
    var w := ReduceTo(v, COMMA).v;
    assert Step(v, CParen) == CloseParen(w);
    ClosedKind(w, gs, s);
    if Last(gs) == InGroup {
      z' := GroupCloses(w, gs, s);
    } else {
      var f := Last(gs);
      z' := CallCloses(w, gs, s, Apply(f.f, f.args), Apply(f.f, f.args + [s]));
    }
  }

  // ---- any number of tokens ---------------------------------------------------------------

  /** No parenthesis is closed where it is opened. */
  predicate NoEmptyCall(ts: seq<Token>) {
    forall i :: 0 <= i < |ts| - 1 && ts[i] == OParen ==> ts[i + 1] != CParen
  }

  lemma StepTracks(v: View, z: Progress, ts: seq<Token>, t: Token) returns (z': Progress)
    requires Tracked(v, z, ts) && Step(v, t).Going? && Step(v, t).v.errors == v.errors
    requires NoEmptyCall(ts + [t])
    ensures Tracked(Step(v, t).v, z', ts + [t])
  {
    if z.read.None? {
      if EndsEmptyCall(v, t) {
        EmptyCallShows(v, z, ts, t);
      }
      z' := ExprTracks(v, z, ts, t);
    } else if t == OParen || t == OIndex {
      z' := OpensTrack(v, z, ts, t);
    } else if t.Op? {
      z' := OpTracks(v, z, ts, t.op);
    } else if t == CIndex {
      z' := IndexTracks(v, z, ts);
    } else if t == Comma {
      z' := CommaTracks(v, z, ts);
    } else {
      z' := ParenTracks(v, z, ts);
    }
  }

  /** A call without arguments shows in the tokens. */
  lemma EmptyCallShows(v: View, z: Progress, ts: seq<Token>, t: Token)
    requires Tracked(v, z, ts) && EndsEmptyCall(v, t)
    ensures !NoEmptyCall(ts + [t])
  {
    var f := Last(z.fs);
    assert Shape(f) == Call(0);
    assert f.InCall? && f.args == [];
    assert Lead(f) == Tokens(f.f) + [OParen];
    assert ts == LeadAll(Init(z.fs)) + Lead(f);
    var all, n := ts + [t], |ts| - 1;
    assert all[n] == ts[n] == OParen && all[n + 1] == CParen;
  }

  lemma ErrorsStay(v: View, t: Token)
    requires Step(v, t).Going?
    ensures Step(v, t).v.errors >= v.errors
  {
    ReduceErrors(v, FLOW);
    ReduceErrors(v, COMMA);
    if t.Op? {
      ReduceErrors(v, Prec(t.op));
    }
  }

  lemma {:induction false} ReduceErrors(v: View, p: nat)
    ensures ReduceTo(v, p).Going? ==> ReduceTo(v, p).v.errors == v.errors
    decreases |v.defer|
  {
    if v.defer != [] {
      var d := Last(v.defer);
      if Precede(d).Some? && Precede(d).value <= p && Fragment(v.frags, d).Some? {
        ReduceErrors(v.(defer := Init(v.defer), frags := Fragment(v.frags, d).value), p);
      }
    }
  }

  /** As long as there was no error, the tokens are explained by what is on the stacks. */
  lemma {:induction false} RunTracks(ts: seq<Token>) returns (z: Progress)
    requires NoEmptyCall(ts) && Run(START, ts).Going? && Run(START, ts).v.errors == 0
    ensures Tracked(Run(START, ts).v, z, ts)
    decreases |ts|
  {
    if ts == [] {
      z := Progress([], None);
    } else {
      var pre, t := Init(ts), Last(ts);
      assert ts == pre + [t];
      RunSplit(START, pre, [t]);
      RunOne(Run(START, pre).v, t);
      ErrorsStay(Run(START, pre).v, t);
      assert NoEmptyCall(pre) by {
        assert forall i :: 0 <= i < |pre| ==> pre[i] == ts[i];
      }
      z := RunTracks(pre);
      z := StepTracks(Run(START, pre).v, z, pre, t);
    }
  }

  /** The tokens are read without error, and all that is open can be closed. */
  predicate Accepts(ts: seq<Token>) {
    var r := Run(START, ts);
    && r.Going? && r.v.errors == 0 && r.v.mode == WantInfix
    && ReduceTo(r.v, ASSIGN).Going? && ReduceTo(r.v, ASSIGN).v.defer == []
  }

  /** Apart from calls without arguments, what the parser accepts is exactly what the grammar
      describes. */
  lemma AcceptsExactly(ts: seq<Token>)
    requires NoEmptyCall(ts)
    ensures Accepts(ts) <==> exists s :: Good(s) && Tokens(s) == ts
  {
    if Accepts(ts) {
      var s := AcceptsOnly(ts);
      assert Good(s) && Tokens(s) == ts;
    }
    if s :| Good(s) && Tokens(s) == ts {
      Parses(START, s);
      var p: nat := ASSIGN;
      assert ReduceTo(Run(START, ts).v, p) == ReduceTo(After(START, Tree(s)), p);
    }
  }

  lemma AcceptsOnly(ts: seq<Token>) returns (s: Syntax)
    requires NoEmptyCall(ts) && Accepts(ts)
    ensures Good(s) && Tokens(s) == ts
  {
    var v := Run(START, ts).v;
    var z := RunTracks(ts);
    var gs, t := ReduceJoins(v, z.fs, z.read.value, ASSIGN);
    assert |Shapes(gs)| == |gs| == 0;
    s := t;
  }
}
