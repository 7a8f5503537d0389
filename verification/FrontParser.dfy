/** The expression part of the parser of the front end (front/front-parse.cpp): two stacks,
    changed in place, and the functions that one token at a time is passed to. */
module FrontParser {
  import opened ParseState

  /** Whether the expression goes on, is over, or the program has stopped. */
  datatype Status = Reading | Over | Failed

  class Parser {
    var state: Mode
    var defer: seq<Deferred>
    var frags: seq<Expr>
    var nErrors: nat

    constructor (state: Mode, defer: seq<Deferred>, frags: seq<Expr>)
      ensures Now() == View(state, defer, frags, 0)
    {
      this.state, this.defer, this.frags, nErrors := state, defer, frags, 0;
    }

    function Now(): View
      reads this
    {
      View(state, defer, frags, nErrors)
    }

    predicate Is(r: Status, o: Outcome)
      reads this
    {
      match o
      case Going(v) => r == Reading && Now() == v
      case Closed(v) => r == Over && Now() == v
      case Crash => r == Failed
    }

    /** Push the fragment for a token, which pops those it is made of. */
    method MakeFragment(d: Deferred) returns (ok: bool)
      modifies this`frags
      ensures ok <==> Fragment(old(frags), d).Some?
      ensures ok ==> frags == Fragment(old(frags), d).value
    {
      if Arity(d).None? { return false; }
      var n, kids := Arity(d).value, [];
      for i := 0 to n
        invariant i <= |old(frags)|
        invariant frags == old(frags)[..|old(frags)| - i] && kids == old(frags)[|old(frags)| - i..]
      {
        if frags == [] { return false; }
        kids := [frags[|frags| - 1]] + kids;
        frags := frags[..|frags| - 1];
      }
      if d.Define? && !(kids[0].Leaf? && kids[0].a.Symbol?) { return false; }
      frags := frags + [Node(d, kids)];
      return true;
    }

    /** Make the top of the defer stack, as d, a fragment. */
    method MakeTop(d: Deferred) returns (r: Status)
      requires defer != []
      modifies this`frags, this`defer
      ensures Is(r, Complete(old(Now()), d))
    {
      var ok := MakeFragment(d);
      if !ok { return Failed; }
      defer := defer[..|defer| - 1];
      return Reading;
    }

    /** Reduce everything at precedence p or tighter. */
    method Reduce(p: nat) returns (ok: bool)
      modifies this`frags, this`defer
      ensures Is(if ok then Reading else Failed, ReduceTo(old(Now()), p))
    {
      while defer != []
        invariant state == old(state) && nErrors == old(nErrors)
        invariant ReduceTo(Now(), p) == ReduceTo(old(Now()), p)
        decreases |defer|
      {
        var t := defer[|defer| - 1];
        if Precede(t).None? { return false; }
        if Precede(t).value > p { return true; }
        var made := MakeFragment(t);
        if !made { return false; }
        defer := defer[..|defer| - 1];
      }
      return true;
    }

    method ErrorAt() returns (r: Status)
      modifies this`nErrors
      ensures Is(r, Fail(old(Now())))
    {
      nErrors := nErrors + 1;
      return Reading;
    }

    method Defer(d: Deferred) returns (r: Status)
      modifies this`defer, this`state
      ensures Is(r, Going(Push(old(Now()), d)))
    {
      defer := defer + [d];
      state := WantExpr;
      return Reading;
    }

    /** Where an expression is expected. */
    method PsExpr(t: Token) returns (r: Status)
      modifies this
      ensures Is(r, ExprStep(old(Now()), t))
    {
      if t == CParen {
        if defer == [] { return Failed; }
        if defer[|defer| - 1] == Call(0) {
          var ok := Reduce(FLOW);
          state := WantInfix;
          return if ok then Reading else Failed;
        }
      }
      match t
      case OParen => r := Defer(Paren);
      case Op(Add) => r := Defer(Un(Pos));
      case Op(Sub) => r := Defer(Un(Neg));
      case Bang => r := Defer(Un(LogNot));
      case Tilde => r := Defer(Un(BitNot));
      case Word(a) =>
        frags := frags + [Leaf(a)];
        state := WantInfix;
        r := Reading;
      case _ => r := ErrorAt();
    }

    /** After an operand. */
    method PsInfix(t: Token) returns (r: Status)
      modifies this
      ensures Is(r, InfixStep(old(Now()), t))
    {
      match t
      case OParen => r := Defer(Call(0));
      case OIndex => r := Defer(Index);
      case CParen =>
        var ok := Reduce(FLOW - 1);
        if !ok { return Failed; }
        r := EndParen();
      case CIndex =>
        var ok := Reduce(FLOW - 1);
        if !ok { return Failed; }
        if defer == [] || defer[|defer| - 1] != Index {
          r := ErrorAt();
        } else {
          r := MakeTop(Index);
        }
      case Comma =>
        var ok := Reduce(COMMA);
        if !ok { return Failed; }
        if defer == [] { return Failed; }
        var top := defer[|defer| - 1];
        if top.Call? {
          defer := defer[..|defer| - 1] + [Call(top.nArgs + 1)];
          state := WantExpr;
          r := Reading;
        } else {
          r := ErrorAt();
        }
      case Op(op) =>
        var ok := Reduce(Prec(op));
        if !ok { return Failed; }
        r := Defer(Bin(op));
      case _ => r := ErrorAt();
    }

    method EndParen() returns (r: Status)
      modifies this
      ensures Is(r, CloseParen(old(Now())))
    {
      if defer == [] {
        r := ErrorAt();
        return;
      }
      var top := defer[|defer| - 1];
      match top
      case Paren =>
        defer := defer[..|defer| - 1];
        r := Reading;
      case Call(n) =>
        r := MakeTop(Call(n + 1));
      case If =>
        defer := defer[..|defer| - 1] + [IfBody];
        r := Over;
      case While =>
        defer := defer[..|defer| - 1] + [WhileBody];
        r := Over;
      case _ => r := ErrorAt();
    }

    /** Pass on tokens until they are used up or the expression is over. */
    method Parse(ts: seq<Token>) returns (r: Status)
      modifies this
      ensures Is(r, Run(old(Now()), ts))
    {
      for i := 0 to |ts|
        invariant Run(old(Now()), ts) == Run(Now(), ts[i..])
      {
        if state == WantExpr {
          r := PsExpr(ts[i]);
        } else {
          r := PsInfix(ts[i]);
        }
        assert ts[i..][1..] == ts[i + 1..];
        if r != Reading { return; }
      }
      return Reading;
    }
  }
}
