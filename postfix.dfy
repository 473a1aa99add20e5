/**
 * The postfix pixel-expression language that the filters hand to the host's `Expr` evaluator,
 * evaluated over exact reals, and an expression tree that compiles to it.
 *
 * Tokens are read left to right against a stack. `x` and `y` push the two input samples, a
 * number pushes itself, a binary operator pops two values and pushes one, `abs` replaces the
 * top value, and `c a b ?` pops three values and pushes `a` when `c` is positive, else `b`.
 * Comparisons push 1 or 0. A division by zero gives Undefined (the NaN or infinity the host
 * would compute); arithmetic on Undefined stays Undefined and a comparison with it is false.
 */
module Postfix {
  import opened Wrappers

  datatype BinOp = Plus | Minus | Times | Over | Less | Greater | AtMost

  datatype Token = X | Y | Const(c: real) | Op(op: BinOp) | Abs | Cond

  type Program = seq<Token>

  datatype Value = Num(v: real) | Undefined

  /** An expression tree; `Compile` writes it out in postfix order. */
  datatype Expr =
    | VarX
    | VarY
    | Lit(c: real)
    | Bin(op: BinOp, l: Expr, r: Expr)
    | AbsOf(e: Expr)
    | Select(cond: Expr, t: Expr, f: Expr)

  function Apply(op: BinOp, a: Value, b: Value): Value {
    if !(a.Num? && b.Num?) then
      if op.Less? || op.Greater? || op.AtMost? then Num(0.0) else Undefined
    else
      match op
      case Plus => Num(a.v + b.v)
      case Minus => Num(a.v - b.v)
      case Times => Num(a.v * b.v)
      case Over => if b.v == 0.0 then Undefined else Num(a.v / b.v)
      case Less => Num(if a.v < b.v then 1.0 else 0.0)
      case Greater => Num(if a.v > b.v then 1.0 else 0.0)
      case AtMost => Num(if a.v <= b.v then 1.0 else 0.0)
  }

  function Magnitude(a: Value): Value {
    if a.Undefined? then Undefined else Num(if a.v < 0.0 then -a.v else a.v)
  }

  /** The condition of `?`: a positive number. */
  predicate Holds(c: Value) {
    c.Num? && c.v > 0.0
  }

  /** The value of an expression tree at the samples x and y. */
  function Denote(e: Expr, x: real, y: real): Value {
    match e
    case VarX => Num(x)
    case VarY => Num(y)
    case Lit(c) => Num(c)
    case Bin(op, l, r) => Apply(op, Denote(l, x, y), Denote(r, x, y))
    case AbsOf(a) => Magnitude(Denote(a, x, y))
    case Select(c, t, f) => if Holds(Denote(c, x, y)) then Denote(t, x, y) else Denote(f, x, y)
  }

  function Compile(e: Expr): Program {
    match e
    case VarX => [X]
    case VarY => [Y]
    case Lit(c) => [Const(c)]
    case Bin(op, l, r) => Compile(l) + Compile(r) + [Op(op)]
    case AbsOf(a) => Compile(a) + [Abs]
    case Select(c, t, f) => Compile(c) + Compile(t) + Compile(f) + [Cond]
  }

  /** One token against the stack (top at the end); None when the stack is too short. */
  function Step(t: Token, st: seq<Value>, x: real, y: real): Option<seq<Value>> {
    match t
    case X => Some(st + [Num(x)])
    case Y => Some(st + [Num(y)])
    case Const(c) => Some(st + [Num(c)])
    case Op(op) =>
      if |st| < 2 then None
      else Some(st[..|st| - 2] + [Apply(op, st[|st| - 2], st[|st| - 1])])
    case Abs =>
      if |st| < 1 then None
      else Some(st[..|st| - 1] + [Magnitude(st[|st| - 1])])
    case Cond =>
      if |st| < 3 then None
      else
        var c, a, b := st[|st| - 3], st[|st| - 2], st[|st| - 1];
        Some(st[..|st| - 3] + [if Holds(c) then a else b])
  }

  function Run(p: Program, st: seq<Value>, x: real, y: real): Option<seq<Value>>
    decreases |p|
  {
    if p == [] then Some(st)
    else
      match Step(p[0], st, x, y)
      case None => None
      case Some(st') => Run(p[1..], st', x, y)
  }

  /** The result of a whole program: the single value left on the stack. */
  function Eval(p: Program, x: real, y: real): Option<Value> {
    match Run(p, [], x, y)
    case Some(st) => if |st| == 1 then Some(st[0]) else None
    case None => None
  }

  /** Running two programs one after the other is running their concatenation. */
  lemma {:induction false} RunAppend(p: Program, q: Program, st: seq<Value>, x: real, y: real)
    ensures Run(p + q, st, x, y) ==
            match Run(p, st, x, y)
            case None => None
            case Some(s) => Run(q, s, x, y)
  {
    if p == [] {
      assert p + q == q;
    } else {
      assert (p + q)[0] == p[0] && (p + q)[1..] == p[1..] + q;
      match Step(p[0], st, x, y)
      case None =>
      case Some(st') => RunAppend(p[1..], q, st', x, y);
    }
  }

  /** One token followed by a program. */
  lemma RunCons(t: Token, rest: Program, st: seq<Value>, x: real, y: real)
    ensures Run([t] + rest, st, x, y) ==
            match Step(t, st, x, y)
            case None => None
            case Some(s) => Run(rest, s, x, y)
  {
    assert ([t] + rest)[0] == t && ([t] + rest)[1..] == rest;
  }

  /** A compiled expression pushes exactly its value and leaves the rest of the stack alone. */
  lemma {:induction false} CompileCorrect(e: Expr, rest: Program, st: seq<Value>, x: real, y: real)
    ensures Run(Compile(e) + rest, st, x, y) == Run(rest, st + [Denote(e, x, y)], x, y)
    decreases e, 1
  {
    match e
    case VarX => RunCons(X, rest, st, x, y);
    case VarY => RunCons(Y, rest, st, x, y);
    case Lit(c) => RunCons(Const(c), rest, st, x, y);
    case Bin(op, l, r) => CompileBinCorrect(op, l, r, rest, st, x, y);
    case AbsOf(a) => CompileAbsCorrect(a, rest, st, x, y);
    case Select(c, t, f) => CompileSelectCorrect(c, t, f, rest, st, x, y);
  }

  lemma {:induction false} CompileBinCorrect(op: BinOp, l: Expr, r: Expr, rest: Program, st: seq<Value>, x: real, y: real)
    ensures Run(Compile(Bin(op, l, r)) + rest, st, x, y) == Run(rest, st + [Denote(Bin(op, l, r), x, y)], x, y)
    decreases Bin(op, l, r), 0
  {
    var dl, dr := Denote(l, x, y), Denote(r, x, y);
    var s := st + [dl] + [dr];
    calc {
      Run(Compile(Bin(op, l, r)) + rest, st, x, y);
      { assert Compile(Bin(op, l, r)) + rest == Compile(l) + (Compile(r) + ([Op(op)] + rest)); }
      Run(Compile(l) + (Compile(r) + ([Op(op)] + rest)), st, x, y);
      { CompileCorrect(l, Compile(r) + ([Op(op)] + rest), st, x, y); }
      Run(Compile(r) + ([Op(op)] + rest), st + [dl], x, y);
      { CompileCorrect(r, [Op(op)] + rest, st + [dl], x, y); }
      Run([Op(op)] + rest, s, x, y);
      { assert s[..|s| - 2] == st && s[|s| - 2] == dl && s[|s| - 1] == dr;
        RunCons(Op(op), rest, s, x, y); }
      Run(rest, st + [Apply(op, dl, dr)], x, y);
    }
  }

  lemma {:induction false} CompileAbsCorrect(a: Expr, rest: Program, st: seq<Value>, x: real, y: real)
    ensures Run(Compile(AbsOf(a)) + rest, st, x, y) == Run(rest, st + [Denote(AbsOf(a), x, y)], x, y)
    decreases AbsOf(a), 0
  {
    var s := st + [Denote(a, x, y)];
    calc {
      Run(Compile(AbsOf(a)) + rest, st, x, y);
      { assert Compile(AbsOf(a)) + rest == Compile(a) + ([Abs] + rest); }
      Run(Compile(a) + ([Abs] + rest), st, x, y);
      { CompileCorrect(a, [Abs] + rest, st, x, y); }
      Run([Abs] + rest, s, x, y);
      { assert s[..|s| - 1] == st && s[|s| - 1] == Denote(a, x, y);
        RunCons(Abs, rest, s, x, y); }
      Run(rest, st + [Magnitude(Denote(a, x, y))], x, y);
    }
  }

  lemma {:induction false} CompileSelectCorrect(c: Expr, t: Expr, f: Expr, rest: Program, st: seq<Value>, x: real, y: real)
    ensures Run(Compile(Select(c, t, f)) + rest, st, x, y) == Run(rest, st + [Denote(Select(c, t, f), x, y)], x, y)
    decreases Select(c, t, f), 0
  {
    var dc, dt, df := Denote(c, x, y), Denote(t, x, y), Denote(f, x, y);
    var pc, pt, pf := Compile(c), Compile(t), Compile(f);
    var tail := [Cond] + rest;
    assert Compile(Select(c, t, f)) + rest == pc + (pt + (pf + tail)) by {
      Regroup(pc, pt, pf, [Cond], rest);
    }
    CompileCorrect(c, pt + (pf + tail), st, x, y);
    CompileCorrect(t, pf + tail, st + [dc], x, y);
    CompileCorrect(f, tail, st + [dc] + [dt], x, y);
    CondTop(rest, st, dc, dt, df, x, y);
  }

  lemma Regroup(a: Program, b: Program, c: Program, d: Program, e: Program)
    ensures a + b + c + d + e == a + (b + (c + (d + e)))
  {
  }

  /** `?` on a stack whose top three values are the condition and the two branches. */
  lemma CondTop(rest: Program, st: seq<Value>, dc: Value, dt: Value, df: Value, x: real, y: real)
    ensures Run([Cond] + rest, st + [dc] + [dt] + [df], x, y) == Run(rest, st + [if Holds(dc) then dt else df], x, y)
  {
    var s := st + [dc] + [dt] + [df];
    assert s[..|s| - 3] == st && s[|s| - 3] == dc && s[|s| - 2] == dt && s[|s| - 1] == df;
    RunCons(Cond, rest, s, x, y);
  }

  /** Evaluating a compiled tree gives the tree's value. */
  lemma EvalCompile(e: Expr, x: real, y: real)
    ensures Eval(Compile(e), x, y) == Some(Denote(e, x, y))
  {
    CompileCorrect(e, [], [], x, y);
    assert Compile(e) + [] == Compile(e);
    assert [] + [Denote(e, x, y)] == [Denote(e, x, y)];
  }
}
