/** Printing syntax trees with no more parentheses than necessary, and reading them back. */
module Printing {
  import opened ParseState
  import opened Grammar

  /** The trees of expressions: signs, operators, subscripts and calls with arguments. */
  predicate IsExpr(e: Expr) {
    match e
    case Leaf(_) => true
    case Node(d, kids) =>
      && (forall i :: 0 <= i < |kids| ==> IsExpr(kids[i]))
      && (d.Bin? || d.Index? || d.Call? || (d.Un? && (d.u == Pos || d.u == Neg)))
      && Arity(d) == Some(|kids|) && d != Call(0)
  }

  /** The expression without parentheses around it. */
  function Bare(e: Expr): Syntax
    requires IsExpr(e)
    decreases e, 0
  {
    match e
    case Leaf(a) => Plain(a)
    case Node(d, kids) =>
      if d.Bin? then Binary(d.op, Fit(kids[0], Prec(d.op)), Fit(kids[1], Prec(d.op) - 1))
      else if d.Un? then Signed(d.u, Fit(kids[0], UNARY))
      else if d.Index? then Subscript(Fit(kids[0], -1), Fit(kids[1], LOG_OR))
      else Apply(Fit(kids[0], -1), seq(|kids| - 1, i requires 0 <= i < |kids| - 1 => Fit(kids[i + 1], LOG_OR)))
  }

  /** The expression where only ranks up to k may stand. */
  function Fit(e: Expr, k: int): Syntax
    requires IsExpr(e)
    decreases e, 1
  {
    var s := Bare(e);
    if Rank(s) <= k then s else Grouped(s)
  }

  function Print(e: Expr): seq<Token>
    requires IsExpr(e)
  {
    Tokens(Bare(e))
  }

  ghost predicate Prints(e: Expr)
    requires IsExpr(e)
  {
    Good(Bare(e)) && Tree(Bare(e)) == e && Rank(Bare(e)) <= LOG_OR
  }

  lemma {:induction false} BareGood(e: Expr)
    requires IsExpr(e)
    ensures Prints(e)
  {
    if e.Node? {
      var kids := e.kids;
      forall i | 0 <= i < |kids| ensures Prints(kids[i]) {
        BareGood(kids[i]);
      }
      if e.d.Call? {
        BareCall(e);
      } else {
        FitGood(kids[0], if e.d.Bin? then Prec(e.d.op) else if e.d.Un? then UNARY else -1);
        if |kids| == 2 {
          FitGood(kids[1], if e.d.Bin? then Prec(e.d.op) - 1 else LOG_OR);
          assert kids == [kids[0], kids[1]];
        } else {
          assert kids == [kids[0]];
        }
      }
    }
  }

  lemma FitGood(e: Expr, k: int)
    requires IsExpr(e) && Prints(e) && -1 <= k
    ensures Good(Fit(e, k)) && Tree(Fit(e, k)) == e && Rank(Fit(e, k)) <= k
  {
  }

  lemma BareCall(e: Expr)
    requires IsExpr(e) && e.Node? && e.d.Call? && forall i :: 0 <= i < |e.kids| ==> Prints(e.kids[i])
    ensures Prints(e)
  {
    var s, kids := Bare(e), e.kids;
    FitGood(kids[0], -1);
    forall i | 0 <= i < |s.args| ensures Good(s.args[i]) && Tree(s.args[i]) == kids[i + 1] {
      FitGood(kids[i + 1], LOG_OR);
    }
    CallTrees(s, kids, |kids| - 1);
    assert kids == [kids[0]] + kids[1..];
  }

  lemma {:induction false} CallTrees(s: Syntax, kids: seq<Expr>, n: nat)
    requires s.Apply? && |s.args| == |kids| - 1 && n <= |s.args|
    requires forall i :: 0 <= i < |s.args| ==> Tree(s.args[i]) == kids[i + 1]
    ensures ArgTrees(s, n) == kids[1..n + 1]
  {
    if n > 0 {
      CallTrees(s, kids, n - 1);
      assert kids[1..n + 1] == kids[1..n] + [kids[n]];
    }
  }

  /** Printing and parsing gives the tree back, in any context whose top is a bracket, a
      statement or an assignment, or in none: when everything inside that context is reduced,
      it is the one new fragment. */
  lemma RoundTrip(e: Expr, v: View, p: nat)
    requires IsExpr(e) && v.mode == WantExpr && LOG_OR <= p
    requires v.defer == [] || (Precede(Last(v.defer)).Some? && Precede(Last(v.defer)).value > p)
    ensures var r := Run(v, Print(e));
            r.Going? && r.v.mode == WantInfix && ReduceTo(r.v, p) == Going(After(v, e))
  {
    BareGood(e);
    Parses(v, Bare(e));
    assert ReduceTo(After(v, e), p) == Going(After(v, e));
  }

  /** Parentheses do not matter: however an expression is written, and whatever spelling has
      the same tokens, one tree is read. */
  lemma Unambiguous(a: Syntax, b: Syntax)
    requires Good(a) && Good(b) && Tokens(a) == Tokens(b)
    ensures Tree(a) == Tree(b)
  {
    var v := View(WantExpr, [], [], 0);
    Parses(v, a);
    Parses(v, b);
    var r := Run(v, Tokens(a));
    var p: nat := LOG_OR;
    assert ReduceTo(r.v, p) == ReduceTo(After(v, Tree(a)), p) == Going(After(v, Tree(a)));
    assert ReduceTo(r.v, p) == ReduceTo(After(v, Tree(b)), p) == Going(After(v, Tree(b)));
    assert After(v, Tree(a)).frags == [Tree(a)] && After(v, Tree(b)).frags == [Tree(b)];
  }

  lemma {:induction false} TreeIsExpr(s: Syntax)
    requires Good(s)
    ensures IsExpr(Tree(s)) && Rank(Bare(Tree(s))) <= LOG_OR
  {
    match s
    case Plain(_) =>
    case Signed(_, x) => TreeIsExpr(x);
    case Binary(_, l, r) => TreeIsExpr(l); TreeIsExpr(r);
    case Subscript(x, i) => TreeIsExpr(x); TreeIsExpr(i);
    case Grouped(x) => TreeIsExpr(x);
    case Apply(f, args) =>
      TreeIsExpr(f);
      forall i | 0 <= i < |args| ensures IsExpr(Tree(args[i])) {
        TreeIsExpr(args[i]);
      }
      TreesAt(s, |args|);
  }

  lemma {:induction false} TreesAt(s: Syntax, n: nat)
    requires s.Apply? && n <= |s.args|
    ensures forall i :: 0 <= i < n ==> ArgTrees(s, n)[i] == Tree(s.args[i])
  {
    if n > 0 {
      TreesAt(s, n - 1);
    }
  }

  // ---- minimality -------------------------------------------------------------------------

  /** The printed tree is no longer than s, not even with parentheses around it if s has some. */
  ghost predicate Shorter(s: Syntax) {
    && IsExpr(Tree(s))
    && if s.Grouped? then |Print(Tree(s))| + 2 <= |Tokens(s)|
       else |Print(Tree(s))| <= |Tokens(s)| && Rank(Bare(Tree(s))) == Rank(s)
  }

  lemma FitShorter(s: Syntax, k: int)
    requires Shorter(s) && Rank(s) <= k
    ensures |Tokens(Fit(Tree(s), k))| <= |Tokens(s)|
  {
  }

  /** No way of writing an expression that is read as the same tree is shorter than what is
      printed. */
  lemma {:induction false} PrintIsShortest(s: Syntax)
    requires Good(s)
    ensures Shorter(s)
    decreases s, 1, 0
  {
    TreeIsExpr(s);
    match s
    case Plain(_) =>
    case Signed(u, x) =>
      PrintIsShortest(x);
      FitShorter(x, UNARY);
    case Binary(op, l, r) =>
      PrintIsShortest(l);
      FitShorter(l, Prec(op));
      PrintIsShortest(r);
      FitShorter(r, Prec(op) - 1);
    case Subscript(x, i) =>
      PrintIsShortest(x);
      FitShorter(x, -1);
      PrintIsShortest(i);
      FitShorter(i, LOG_OR);
    case Grouped(x) => PrintIsShortest(x);
    case Apply(f, args) =>
      PrintIsShortest(f);
      FitShorter(f, -1);
      TreesAt(s, |args|);
      ShortestArgs(s, |args|);
  }

  lemma {:induction false} ShortestArgs(s: Syntax, n: nat)
    requires s.Apply? && Good(s) && n <= |s.args| && IsExpr(Tree(s))
    ensures Bare(Tree(s)).Apply? && |Bare(Tree(s)).args| == |s.args|
    ensures |ArgTokens(Bare(Tree(s)), n)| <= |ArgTokens(s, n)|
    decreases s, 0, n
  {
    if n > 0 {
      TreesAt(s, |s.args|);
      PrintIsShortest(s.args[n - 1]);
      FitShorter(s.args[n - 1], LOG_OR);
      assert Bare(Tree(s)).args[n - 1] == Fit(Tree(s.args[n - 1]), LOG_OR);
      ShortestArgs(s, n - 1);
    }
  }
}
