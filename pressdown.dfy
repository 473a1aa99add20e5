/**
 * The pressdown filters `stpresso`, `spresso` and `stpresso_mc`: how their thresholds are derived
 * from the user's limit and bias, the three per-pixel expressions they hand to `Expr` (soft ratio,
 * clamp-blend and backshift), and what those expressions compute. In every expression `x` is the
 * source sample and `y` the filtered (or, for backshift, the original) sample.
 */
module Pressdown {
  import opened Wrappers
  import opened Postfix
  import opened Depth
  import opened Rounding

  function AbsR(v: real): real {
    if v < 0.0 then -v else v
  }

  // ---------------------------------------------------------------------------------------------
  // The three expressions, token by token as the source concatenates them, and as trees.

  /** `x y - abs` */
  function Dist(): Expr {
    AbsOf(Bin(Minus, VarX, VarY))
  }

  /** `x y - abs LIM1 < x x ONE x y - x y - abs / * - ?` */
  function SoftRatioProgram(lim1: real, one: real): Program {
    [X, Y, Op(Minus), Abs, Const(lim1), Op(Less), X, X, Const(one),
     X, Y, Op(Minus), X, Y, Op(Minus), Abs, Op(Over), Op(Times), Op(Minus), Cond]
  }

  function SoftRatioTree(lim1: real, one: real): Expr {
    Select(Bin(Less, Dist(), Lit(lim1)),
           VarX,
           Bin(Minus, VarX, Bin(Times, Lit(one), Bin(Over, Bin(Minus, VarX, VarY), Dist()))))
  }

  /** The test that leaves a pixel alone: `< scale(1)` in stpresso, `<= scale(0)` in spresso. */
  datatype Gate = Below | NoMoreThan

  function GateOp(g: Gate): BinOp {
    match g
    case Below => Less
    case NoMoreThan => AtMost
  }

  /**
   * `x y - abs GATE </<= x x LIM1 + y < x LIM2 + x LIM1 - y > x LIM2 - x HUNDRED BIAS - * y BIAS * +
   * HUNDRED / ? ? ?`
   */
  function ClampProgram(g: Gate, gate: real, lim1: real, lim2: real, hundred: real, bias: real): Program {
    [X, Y, Op(Minus), Abs, Const(gate), Op(GateOp(g)), X,
     X, Const(lim1), Op(Plus), Y, Op(Less), X, Const(lim2), Op(Plus),
     X, Const(lim1), Op(Minus), Y, Op(Greater), X, Const(lim2), Op(Minus),
     X, Const(hundred), Const(bias), Op(Minus), Op(Times), Y, Const(bias), Op(Times), Op(Plus),
     Const(hundred), Op(Over), Cond, Cond, Cond]
  }

  function BlendTree(hundred: real, bias: real): Expr {
    Bin(Over,
        Bin(Plus, Bin(Times, VarX, Bin(Minus, Lit(hundred), Lit(bias))), Bin(Times, VarY, Lit(bias))),
        Lit(hundred))
  }

  /** `x LIM1 - y > x LIM2 - <blend> ?` */
  function InnerTree(lim1: real, lim2: real, hundred: real, bias: real): Expr {
    Select(Bin(Greater, Bin(Minus, VarX, Lit(lim1)), VarY), Bin(Minus, VarX, Lit(lim2)), BlendTree(hundred, bias))
  }

  /** `x LIM1 + y < x LIM2 + <inner> ?` */
  function MiddleTree(lim1: real, lim2: real, hundred: real, bias: real): Expr {
    Select(Bin(Less, Bin(Plus, VarX, Lit(lim1)), VarY), Bin(Plus, VarX, Lit(lim2)), InnerTree(lim1, lim2, hundred, bias))
  }

  function ClampTree(g: Gate, gate: real, lim1: real, lim2: real, hundred: real, bias: real): Expr {
    Select(Bin(GateOp(g), Dist(), Lit(gate)), VarX, MiddleTree(lim1, lim2, hundred, bias))
  }

  /** `x BK + y < x BK + x BK - y > x BK - y ? ?` */
  function BackshiftProgram(bk: real): Program {
    [X, Const(bk), Op(Plus), Y, Op(Less), X, Const(bk), Op(Plus),
     X, Const(bk), Op(Minus), Y, Op(Greater), X, Const(bk), Op(Minus), Y, Cond, Cond]
  }

  function BackshiftTree(bk: real): Expr {
    Select(Bin(Less, Bin(Plus, VarX, Lit(bk)), VarY),
           Bin(Plus, VarX, Lit(bk)),
           Select(Bin(Greater, Bin(Minus, VarX, Lit(bk)), VarY), Bin(Minus, VarX, Lit(bk)), VarY))
  }

  lemma LeavesCompile()
    ensures Compile(VarX) == [X] && Compile(VarY) == [Y]
  {
  }

  lemma DistCompiles()
    ensures Compile(Bin(Minus, VarX, VarY)) == [X, Y, Op(Minus)]
    ensures Compile(Dist()) == [X, Y, Op(Minus), Abs]
  {
    assert Compile(Dist()) == Compile(Bin(Minus, VarX, VarY)) + [Abs];
  }

  /** `x y - x y - abs /` */
  lemma RatioCompiles()
    ensures Compile(Bin(Over, Bin(Minus, VarX, VarY), Dist())) == [X, Y, Op(Minus), X, Y, Op(Minus), Abs, Op(Over)]
  {
    DistCompiles();
  }

  /** `x ONE <ratio> * -` */
  lemma StepCompiles(lim1: real, one: real)
    ensures Compile(SoftRatioTree(lim1, one).f)
            == [X, Const(one), X, Y, Op(Minus), X, Y, Op(Minus), Abs, Op(Over), Op(Times), Op(Minus)]
  {
    RatioCompiles();
    var q := [X, Y, Op(Minus), X, Y, Op(Minus), Abs, Op(Over)];
    assert Compile(Lit(one)) == [Const(one)];
    var m := Compile(Bin(Times, Lit(one), Bin(Over, Bin(Minus, VarX, VarY), Dist())));
    assert m == [Const(one)] + q + [Op(Times)];
    assert Compile(SoftRatioTree(lim1, one).f) == [X] + m + [Op(Minus)];
  }

  /** `x y - abs LIM1 <` */
  lemma TestCompiles(lim1: real)
    ensures Compile(Bin(Less, Dist(), Lit(lim1))) == [X, Y, Op(Minus), Abs, Const(lim1), Op(Less)]
  {
    DistCompiles();
    assert Compile(Lit(lim1)) == [Const(lim1)];
  }

  /** The soft-ratio program is its test, `x`, its step and `?`. */
  lemma SoftRatioJoin(lim1: real, one: real, c: Program, f: Program)
    requires c == [X, Y, Op(Minus), Abs, Const(lim1), Op(Less)]
    requires f == [X, Const(one), X, Y, Op(Minus), X, Y, Op(Minus), Abs, Op(Over), Op(Times), Op(Minus)]
    ensures c + [X] + f + [Cond] == SoftRatioProgram(lim1, one)
  {
  }

  lemma SoftRatioCompiles(lim1: real, one: real)
    ensures SoftRatioProgram(lim1, one) == Compile(SoftRatioTree(lim1, one))
  {
    var tree := SoftRatioTree(lim1, one);
    TestCompiles(lim1);
    StepCompiles(lim1, one);
    assert Compile(tree) == Compile(tree.cond) + Compile(tree.t) + Compile(tree.f) + [Cond];
    assert Compile(tree.t) == [X];
    SoftRatioJoin(lim1, one, Compile(tree.cond), Compile(tree.f));
  }

  lemma OffsetCompiles(op: BinOp, v: real)
    ensures Compile(Bin(op, VarX, Lit(v))) == [X, Const(v), Op(op)]
  {
    assert Compile(Lit(v)) == [Const(v)];
  }

  lemma BlendCompiles(hundred: real, bias: real)
    ensures Compile(BlendTree(hundred, bias)) ==
            [X, Const(hundred), Const(bias), Op(Minus), Op(Times), Y, Const(bias), Op(Times), Op(Plus),
             Const(hundred), Op(Over)]
  {
    LeavesCompile();
    assert Compile(Lit(hundred)) == [Const(hundred)];
    assert Compile(Lit(bias)) == [Const(bias)];
    var w := Compile(Bin(Minus, Lit(hundred), Lit(bias)));
    assert w == [Const(hundred), Const(bias), Op(Minus)];
    var a := Compile(Bin(Times, VarX, Bin(Minus, Lit(hundred), Lit(bias))));
    assert a == [X] + w + [Op(Times)];
    var b := Compile(Bin(Times, VarY, Lit(bias)));
    assert b == [Y, Const(bias), Op(Times)];
    var s := Compile(BlendTree(hundred, bias).l);
    assert s == a + b + [Op(Plus)];
    assert Compile(BlendTree(hundred, bias)) == s + [Const(hundred), Op(Over)];
  }

  lemma InnerCompiles(lim1: real, lim2: real, hundred: real, bias: real)
    ensures Compile(InnerTree(lim1, lim2, hundred, bias)) ==
            [X, Const(lim1), Op(Minus), Y, Op(Greater), X, Const(lim2), Op(Minus)]
            + Compile(BlendTree(hundred, bias)) + [Cond]
  {
    LeavesCompile();
    OffsetCompiles(Minus, lim1);
    OffsetCompiles(Minus, lim2);
    var c := Compile(Bin(Greater, Bin(Minus, VarX, Lit(lim1)), VarY));
    assert c == [X, Const(lim1), Op(Minus)] + [Y] + [Op(Greater)];
  }

  lemma MiddleCompiles(lim1: real, lim2: real, hundred: real, bias: real)
    ensures Compile(MiddleTree(lim1, lim2, hundred, bias)) ==
            [X, Const(lim1), Op(Plus), Y, Op(Less), X, Const(lim2), Op(Plus)]
            + Compile(InnerTree(lim1, lim2, hundred, bias)) + [Cond]
  {
    LeavesCompile();
    OffsetCompiles(Plus, lim1);
    OffsetCompiles(Plus, lim2);
    var c := Compile(Bin(Less, Bin(Plus, VarX, Lit(lim1)), VarY));
    assert c == [X, Const(lim1), Op(Plus)] + [Y] + [Op(Less)];
  }

  lemma GateCompiles(g: Gate, gate: real)
    ensures Compile(Bin(GateOp(g), Dist(), Lit(gate))) == [X, Y, Op(Minus), Abs, Const(gate), Op(GateOp(g))]
  {
    DistCompiles();
    assert Compile(Lit(gate)) == [Const(gate)];
  }

  /** The clamp program is its gate, `x`, the middle selection and `?`. */
  lemma ClampJoin(g: Gate, gate: real, lim1: real, lim2: real, hundred: real, bias: real,
                  c: Program, b: Program, inner: Program, middle: Program)
    requires c == [X, Y, Op(Minus), Abs, Const(gate), Op(GateOp(g))]
    requires b == [X, Const(hundred), Const(bias), Op(Minus), Op(Times), Y, Const(bias), Op(Times), Op(Plus),
                   Const(hundred), Op(Over)]
    requires inner == [X, Const(lim1), Op(Minus), Y, Op(Greater), X, Const(lim2), Op(Minus)] + b + [Cond]
    requires middle == [X, Const(lim1), Op(Plus), Y, Op(Less), X, Const(lim2), Op(Plus)] + inner + [Cond]
    ensures c + [X] + middle + [Cond] == ClampProgram(g, gate, lim1, lim2, hundred, bias)
  {
  }

  lemma ClampCompiles(g: Gate, gate: real, lim1: real, lim2: real, hundred: real, bias: real)
    ensures ClampProgram(g, gate, lim1, lim2, hundred, bias) == Compile(ClampTree(g, gate, lim1, lim2, hundred, bias))
  {
    var tree := ClampTree(g, gate, lim1, lim2, hundred, bias);
    LeavesCompile();
    GateCompiles(g, gate);
    BlendCompiles(hundred, bias);
    InnerCompiles(lim1, lim2, hundred, bias);
    MiddleCompiles(lim1, lim2, hundred, bias);
    assert Compile(tree) == Compile(tree.cond) + Compile(tree.t) + Compile(tree.f) + [Cond];
    ClampJoin(g, gate, lim1, lim2, hundred, bias, Compile(tree.cond), Compile(BlendTree(hundred, bias)),
              Compile(InnerTree(lim1, lim2, hundred, bias)), Compile(tree.f));
  }

  lemma BackshiftCompiles(bk: real)
    ensures BackshiftProgram(bk) == Compile(BackshiftTree(bk))
  {
    LeavesCompile();
    var tree := BackshiftTree(bk);
    OffsetCompiles(Plus, bk);
    OffsetCompiles(Minus, bk);
    var c2 := Compile(tree.cond);
    assert c2 == [X, Const(bk), Op(Plus)] + [Y] + [Op(Less)];
    var c3 := Compile(tree.f.cond);
    assert c3 == [X, Const(bk), Op(Minus)] + [Y] + [Op(Greater)];
    var inner := Compile(tree.f);
    assert inner == c3 + [X, Const(bk), Op(Minus)] + [Y] + [Cond];
    assert Compile(tree) == c2 + [X, Const(bk), Op(Plus)] + inner + [Cond];
  }

  // ---------------------------------------------------------------------------------------------
  // What the expressions compute.

  /**
   * Soft ratio: a pixel whose distance to the filtered one is under `lim1` is kept; any other
   * pixel moves by `one` towards the filtered value. When `x == y` is not caught by the first
   * test the expression divides by zero.
   */
  function SoftRatio(lim1: real, one: real, x: real, y: real): Value {
    if AbsR(x - y) < lim1 then Num(x)
    else if x == y then Undefined
    else if x > y then Num(x - one)
    else Num(x + one)
  }

  predicate Gated(g: Gate, gate: real, x: real, y: real) {
    match g
    case Below => AbsR(x - y) < gate
    case NoMoreThan => AbsR(x - y) <= gate
  }

  /**
   * Clamp-blend: a gated pixel is kept; a pixel whose filtered value lies more than `lim1` above
   * (below) it is raised (lowered) by exactly `lim2`; any other pixel moves the fraction
   * `bias / hundred` of the way towards the filtered value.
   */
  function ClampBlend(g: Gate, gate: real, lim1: real, lim2: real, hundred: real, bias: real, x: real, y: real): Value {
    if Gated(g, gate, x, y) then Num(x)
    else if Above(lim1, x, y) then Num(x + lim2)
    else if Under(lim1, x, y) then Num(x - lim2)
    else if hundred == 0.0 then Undefined
    else Num(Lerp(bias / hundred, x, y))
  }

  /** `y` lies more than `lim` above `x`. */
  predicate Above(lim: real, x: real, y: real) {
    y > x + lim
  }

  /** `y` lies more than `lim` below `x`. */
  predicate Under(lim: real, x: real, y: real) {
    y < x - lim
  }

  /** The point the fraction `w` of the way from `x` to `y`. */
  function Lerp(w: real, x: real, y: real): real {
    x + (y - x) * w
  }

  /** Backshift: `y` held inside the band `[x - bk, x + bk]` (checked from the top first). */
  function Backshift(bk: real, x: real, y: real): real {
    if Above(bk, x, y) then x + bk
    else if Under(bk, x, y) then x - bk
    else y
  }

  lemma BlendAlgebra(x: real, y: real, hundred: real, bias: real)
    requires hundred != 0.0
    ensures (x * (hundred - bias) + y * bias) / hundred == x + (y - x) * (bias / hundred)
  {
    var w := bias / hundred;
    assert bias == w * hundred;
    assert x * (hundred - bias) + y * bias == (x + (y - x) * w) * hundred;
  }

  lemma UnitRatio(d: real)
    requires d != 0.0
    ensures d / AbsR(d) == (if d > 0.0 then 1.0 else -1.0)
  {
  }

  lemma DistDenotes(x: real, y: real)
    ensures Denote(Bin(Minus, VarX, VarY), x, y) == Num(x - y)
    ensures Denote(Dist(), x, y) == Num(AbsR(x - y))
  {
  }

  lemma SoftRatioMeaning(lim1: real, one: real, x: real, y: real)
    ensures Eval(SoftRatioProgram(lim1, one), x, y) == Some(SoftRatio(lim1, one, x, y))
  {
    var tree := SoftRatioTree(lim1, one);
    SoftRatioCompiles(lim1, one);
    EvalCompile(tree, x, y);
    SoftRatioDenotes(lim1, one, x, y);
  }

  /** The step `x - one * ((x - y) / |x - y|)`: one step towards `y`, undefined when `x == y`. */
  lemma StepDenotes(lim1: real, one: real, x: real, y: real)
    ensures Denote(SoftRatioTree(lim1, one).f, x, y)
            == if x == y then Undefined else if x > y then Num(x - one) else Num(x + one)
  {
    var tree := SoftRatioTree(lim1, one);
    DistDenotes(x, y);
    var ratio := Bin(Over, Bin(Minus, VarX, VarY), Dist());
    if x == y {
      assert Denote(ratio, x, y) == Undefined;
    } else {
      UnitRatio(x - y);
      var u := if x > y then 1.0 else -1.0;
      assert Denote(ratio, x, y) == Num(u);
      assert Denote(Bin(Times, Lit(one), ratio), x, y) == Num(one * u);
      assert Denote(tree.f, x, y) == Num(x - one * u);
    }
  }

  lemma SoftRatioDenotes(lim1: real, one: real, x: real, y: real)
    ensures Denote(SoftRatioTree(lim1, one), x, y) == SoftRatio(lim1, one, x, y)
  {
    var tree := SoftRatioTree(lim1, one);
    DistDenotes(x, y);
    assert Denote(tree.cond, x, y) == Num(if AbsR(x - y) < lim1 then 1.0 else 0.0);
    StepDenotes(lim1, one, x, y);
  }

  /** The blend tree computes the weighted sum over the divisor. */
  lemma BlendSum(hundred: real, bias: real, x: real, y: real)
    ensures Denote(BlendTree(hundred, bias).l, x, y) == Num(x * (hundred - bias) + y * bias)
  {
    var d := hundred - bias;
    var weighted := Bin(Times, VarX, Bin(Minus, Lit(hundred), Lit(bias)));
    var scaled := Bin(Times, VarY, Lit(bias));
    assert BlendTree(hundred, bias).l == Bin(Plus, weighted, scaled);
    assert Denote(Bin(Minus, Lit(hundred), Lit(bias)), x, y) == Num(d);
    var p, q := x * d, y * bias;
    assert Denote(weighted, x, y) == Num(p);
    assert Denote(scaled, x, y) == Num(q);
    assert Denote(Bin(Plus, weighted, scaled), x, y) == Apply(Plus, Num(p), Num(q));
  }

  lemma BlendDenotes(hundred: real, bias: real, x: real, y: real)
    ensures Denote(BlendTree(hundred, bias), x, y) ==
            if hundred == 0.0 then Undefined else Num(Lerp(bias / hundred, x, y))
  {
    var sum := x * (hundred - bias) + y * bias;
    BlendSum(hundred, bias, x, y);
    assert Denote(BlendTree(hundred, bias), x, y) == if hundred == 0.0 then Undefined else Num(sum / hundred);
    if hundred != 0.0 {
      BlendAlgebra(x, y, hundred, bias);
    }
  }

  lemma GateDenotes(g: Gate, gate: real, x: real, y: real)
    ensures Holds(Denote(Bin(GateOp(g), Dist(), Lit(gate)), x, y)) == Gated(g, gate, x, y)
  {
    DistDenotes(x, y);
  }

  lemma ClampMeaning(g: Gate, gate: real, lim1: real, lim2: real, hundred: real, bias: real, x: real, y: real)
    ensures Eval(ClampProgram(g, gate, lim1, lim2, hundred, bias), x, y)
            == Some(ClampBlend(g, gate, lim1, lim2, hundred, bias, x, y))
  {
    var tree := ClampTree(g, gate, lim1, lim2, hundred, bias);
    ClampCompiles(g, gate, lim1, lim2, hundred, bias);
    EvalCompile(tree, x, y);
    ClampTreeDenotes(g, gate, lim1, lim2, hundred, bias, x, y);
  }

  lemma ClampTreeDenotes(g: Gate, gate: real, lim1: real, lim2: real, hundred: real, bias: real, x: real, y: real)
    ensures Denote(ClampTree(g, gate, lim1, lim2, hundred, bias), x, y)
            == ClampBlend(g, gate, lim1, lim2, hundred, bias, x, y)
  {
    var tree := ClampTree(g, gate, lim1, lim2, hundred, bias);
    var blend := Denote(BlendTree(hundred, bias), x, y);
    BlendDenotes(hundred, bias, x, y);
    assert Denote(Bin(Minus, VarX, Lit(lim1)), x, y) == Num(x - lim1);
    assert Denote(Bin(Plus, VarX, Lit(lim1)), x, y) == Num(x + lim1);
    assert Denote(Bin(Minus, VarX, Lit(lim2)), x, y) == Num(x - lim2);
    assert Denote(Bin(Plus, VarX, Lit(lim2)), x, y) == Num(x + lim2);
    assert Denote(InnerTree(lim1, lim2, hundred, bias).cond, x, y) == Num(if x - lim1 > y then 1.0 else 0.0);
    assert Denote(MiddleTree(lim1, lim2, hundred, bias).cond, x, y) == Num(if x + lim1 < y then 1.0 else 0.0);
    var inner := Denote(InnerTree(lim1, lim2, hundred, bias), x, y);
    assert inner == if y < x - lim1 then Num(x - lim2) else blend;
    var middle := Denote(MiddleTree(lim1, lim2, hundred, bias), x, y);
    assert middle == if y > x + lim1 then Num(x + lim2) else inner;
    GateDenotes(g, gate, x, y);
    assert Denote(tree, x, y) == if Gated(g, gate, x, y) then Num(x) else middle;
  }

  lemma BackshiftMeaning(bk: real, x: real, y: real)
    ensures Eval(BackshiftProgram(bk), x, y) == Some(Num(Backshift(bk, x, y)))
  {
    var tree := BackshiftTree(bk);
    BackshiftCompiles(bk);
    EvalCompile(tree, x, y);
    assert Denote(Bin(Plus, VarX, Lit(bk)), x, y) == Num(x + bk);
    assert Denote(Bin(Minus, VarX, Lit(bk)), x, y) == Num(x - bk);
    assert Holds(Denote(tree.cond, x, y)) == (y > x + bk);
    assert Holds(Denote(tree.f.cond, x, y)) == (y < x - bk);
  }

  // ---------------------------------------------------------------------------------------------
  // Thresholds derived from the user's parameters.

  /**
   * `lim1`: with `sel > 0` the rounded `limit * 100 / bias - 1`, otherwise the rounded `100 / bias`,
   * moved to the clip's depth. `sel` is the parameter whose sign picks the form (`limit` itself, or
   * in spresso's chroma the luma `limit`).
   */
  function Lim1(sel: real, limit: real, bias: real, depth: int): real
    requires bias != 0.0
  {
    var n := if sel > 0.0 then RoundHalfEven(limit * 100.0 / bias - 1.0) else RoundHalfEven(100.0 / bias);
    Scale(n as real, depth)
  }

  /** `lim2`: one step when `sel < 0`, otherwise `limit`, moved to the clip's depth. */
  function Lim2(sel: real, limit: real, depth: int): real {
    Scale(if sel < 0.0 then 1.0 else limit, depth)
  }

  /** With a positive limit, `lim1` is `limit * 100 / bias - 1` to within half a step. */
  lemma Lim1Positive(limit: real, bias: real, depth: int)
    requires bias != 0.0 && limit > 0.0
    ensures Scale(limit * 100.0 / bias - 1.5, depth) <= Lim1(limit, limit, bias, depth)
                                                  <= Scale(limit * 100.0 / bias - 0.5, depth)
  {
    var q := limit * 100.0 / bias - 1.0;
    var n := RoundHalfEven(q) as real;
    ScaleLinear(q - 0.5, n, depth, 8);
    ScaleLinear(n, q + 0.5, depth, 8);
  }

  /**
   * With a limit of zero or below, `lim1` is positive exactly when `0 < bias < 200`: a soft-ratio
   * expression then never divides by zero. It is then a whole number of steps, so at least one.
   */
  lemma Lim1SoftPositive(sel: real, limit: real, bias: real, depth: int)
    requires bias != 0.0 && sel <= 0.0
    ensures Lim1(sel, limit, bias, depth) > 0.0 <==> 0.0 < bias < 200.0
    ensures 0.0 < bias < 200.0 ==> Lim1(sel, limit, bias, depth) >= Scale(1.0, depth)
  {
    var q := 100.0 / bias;
    var n := RoundHalfEven(q);
    FactorPositive(depth - 8);
    if 0.0 < bias < 200.0 {
      assert q * bias == 100.0;
      assert q > 0.5;
      assert n >= 1;
      PositiveProduct(n as real, Factor(depth - 8));
      if n > 1 {
        ScaleLinear(1.0, n as real, depth, 8);
      }
    } else {
      assert q * bias == 100.0;
      assert q <= 0.5;
      assert n <= 0;
      NonPositiveProduct(n as real, Factor(depth - 8));
    }
  }

  lemma NonPositiveProduct(p: real, q: real)
    requires p <= 0.0 && q > 0.0
    ensures p * q <= 0.0
  {
  }

  /** The default limit 3 with bias 24 gives `lim1 = 12` and `lim2 = 3` steps at any depth from 8 up. */
  lemma DefaultThresholds(depth: int)
    requires depth >= 8
    ensures Lim1(3.0, 3.0, 24.0, depth) == (12 * Pow2(depth - 8)) as real
    ensures Lim2(3.0, 3.0, depth) == (3 * Pow2(depth - 8)) as real
  {
    assert 3.0 * 100.0 / 24.0 - 1.0 == 11.5;
    assert RoundHalfEven(11.5) == 12;
    ScaleUp(12, depth, 8);
    ScaleUp(3, depth, 8);
  }

  // ---------------------------------------------------------------------------------------------
  // The expressions stpresso and spresso build.

  /** What stpresso hands to `Expr`: the spatial expression, and the temporal and backshift ones when enabled. */
  datatype StpressoPlan = StpressoPlan(spatial: Program, temporal: Option<Program>, backshift: Option<Program>)

  /**
   * stpresso (and stpresso_mc, whose derivation is the same). Both `lim1` and `tlim1` divide by
   * their bias, so either bias being zero raises ZeroDivisionError. The temporal expression takes
   * its thresholds from tlimit/tbias but blends with `bias`, and the sign of `limit` picks its form.
   */
  function Stpresso(depth: int, limit: real, bias: real, tthr: real, tlimit: real, tbias: real, back: real)
    : (r: Result<StpressoPlan>)
    ensures r.Err? <==> bias == 0.0 || tbias == 0.0
    ensures r.Err? ==> r.error == ZeroDivisionError
    ensures r.Ok? ==> (r.value.temporal.Some? <==> tthr != 0.0) && (r.value.backshift.Some? <==> back != 0.0)
  {
    if bias == 0.0 || tbias == 0.0 then Err(ZeroDivisionError)
    else
      var lim1, lim2 := Lim1(limit, limit, bias, depth), Lim2(limit, limit, depth);
      var tlim1, tlim2 := Lim1(tlimit, tlimit, tbias, depth), Lim2(tlimit, tlimit, depth);
      var one, hundred := Scale(1.0, depth), Scale(100.0, depth);
      var spatial := if limit < 0.0 then SoftRatioProgram(lim1, one)
                     else ClampProgram(Below, one, lim1, lim2, hundred, bias);
      var temporal := if limit < 0.0 then SoftRatioProgram(tlim1, one)
                      else ClampProgram(Below, one, tlim1, tlim2, hundred, bias);
      Ok(StpressoPlan(spatial,
                      if tthr != 0.0 then Some(temporal) else None,
                      if back != 0.0 then Some(BackshiftProgram(Scale(back, depth))) else None))
  }

  lemma StpressoSpatial(depth: int, limit: real, bias: real, tthr: real, tlimit: real, tbias: real, back: real, x: real, y: real)
    requires bias != 0.0 && tbias != 0.0
    ensures Eval(Stpresso(depth, limit, bias, tthr, tlimit, tbias, back).value.spatial, x, y) == Some(
              if limit < 0.0 then SoftRatio(Lim1(limit, limit, bias, depth), Scale(1.0, depth), x, y)
              else ClampBlend(Below, Scale(1.0, depth), Lim1(limit, limit, bias, depth), Lim2(limit, limit, depth),
                              Scale(100.0, depth), bias, x, y))
  {
    if limit < 0.0 {
      SoftRatioMeaning(Lim1(limit, limit, bias, depth), Scale(1.0, depth), x, y);
    } else {
      ClampMeaning(Below, Scale(1.0, depth), Lim1(limit, limit, bias, depth), Lim2(limit, limit, depth),
                   Scale(100.0, depth), bias, x, y);
    }
  }

  lemma StpressoTemporal(depth: int, limit: real, bias: real, tthr: real, tlimit: real, tbias: real, back: real, x: real, y: real)
    requires bias != 0.0 && tbias != 0.0 && tthr != 0.0
    ensures Eval(Stpresso(depth, limit, bias, tthr, tlimit, tbias, back).value.temporal.value, x, y) == Some(
              if limit < 0.0 then SoftRatio(Lim1(tlimit, tlimit, tbias, depth), Scale(1.0, depth), x, y)
              else ClampBlend(Below, Scale(1.0, depth), Lim1(tlimit, tlimit, tbias, depth), Lim2(tlimit, tlimit, depth),
                              Scale(100.0, depth), bias, x, y))
  {
    if limit < 0.0 {
      SoftRatioMeaning(Lim1(tlimit, tlimit, tbias, depth), Scale(1.0, depth), x, y);
    } else {
      ClampMeaning(Below, Scale(1.0, depth), Lim1(tlimit, tlimit, tbias, depth), Lim2(tlimit, tlimit, depth),
                   Scale(100.0, depth), bias, x, y);
    }
  }

  lemma StpressoBackshift(depth: int, limit: real, bias: real, tthr: real, tlimit: real, tbias: real, back: real, x: real, y: real)
    requires bias != 0.0 && tbias != 0.0 && back != 0.0
    ensures Eval(Stpresso(depth, limit, bias, tthr, tlimit, tbias, back).value.backshift.value, x, y)
            == Some(Num(Backshift(Scale(back, depth), x, y)))
  {
    BackshiftMeaning(Scale(back, depth), x, y);
  }

  /** What spresso hands to `Expr`: the luma expression, and the chroma one unless chroma is copied. */
  datatype SpressoPlan = SpressoPlan(luma: Program, chroma: Option<Program>)

  /**
   * spresso. Its gate keeps only pixels equal to the filtered value (`<= scale(0)`). The chroma
   * thresholds are derived with the luma `limit` choosing the form and as `lim2c`, while the sign
   * of `limit_c` picks the chroma expression's form. Both biases are divided by, even when chroma
   * is copied.
   */
  function Spresso(depth: int, limit: real, bias: real, limitC: real, biasC: real, rgModeC: int)
    : (r: Result<SpressoPlan>)
    ensures r.Err? <==> bias == 0.0 || biasC == 0.0
    ensures r.Err? ==> r.error == ZeroDivisionError
    ensures r.Ok? ==> (r.value.chroma.Some? <==> rgModeC != 0)
  {
    if bias == 0.0 || biasC == 0.0 then Err(ZeroDivisionError)
    else
      var lim1, lim2 := Lim1(limit, limit, bias, depth), Lim2(limit, limit, depth);
      var lim1c, lim2c := Lim1(limit, limitC, biasC, depth), Lim2(limit, limit, depth);
      var zero, one, hundred := Scale(0.0, depth), Scale(1.0, depth), Scale(100.0, depth);
      var luma := if limit < 0.0 then SoftRatioProgram(lim1, one)
                  else ClampProgram(NoMoreThan, zero, lim1, lim2, hundred, bias);
      var chroma := if limitC < 0.0 then SoftRatioProgram(lim1c, one)
                    else ClampProgram(NoMoreThan, zero, lim1c, lim2c, hundred, biasC);
      Ok(SpressoPlan(luma, if rgModeC != 0 then Some(chroma) else None))
  }

  lemma SpressoLuma(depth: int, limit: real, bias: real, limitC: real, biasC: real, rgModeC: int, x: real, y: real)
    requires bias != 0.0 && biasC != 0.0
    ensures Eval(Spresso(depth, limit, bias, limitC, biasC, rgModeC).value.luma, x, y) == Some(
              if limit < 0.0 then SoftRatio(Lim1(limit, limit, bias, depth), Scale(1.0, depth), x, y)
              else ClampBlend(NoMoreThan, Scale(0.0, depth), Lim1(limit, limit, bias, depth), Lim2(limit, limit, depth),
                              Scale(100.0, depth), bias, x, y))
  {
    if limit < 0.0 {
      SoftRatioMeaning(Lim1(limit, limit, bias, depth), Scale(1.0, depth), x, y);
    } else {
      ClampMeaning(NoMoreThan, Scale(0.0, depth), Lim1(limit, limit, bias, depth), Lim2(limit, limit, depth),
                   Scale(100.0, depth), bias, x, y);
    }
  }

  lemma SpressoChroma(depth: int, limit: real, bias: real, limitC: real, biasC: real, rgModeC: int, x: real, y: real)
    requires bias != 0.0 && biasC != 0.0 && rgModeC != 0
    ensures Eval(Spresso(depth, limit, bias, limitC, biasC, rgModeC).value.chroma.value, x, y) == Some(
              if limitC < 0.0 then SoftRatio(Lim1(limit, limitC, biasC, depth), Scale(1.0, depth), x, y)
              else ClampBlend(NoMoreThan, Scale(0.0, depth), Lim1(limit, limitC, biasC, depth), Lim2(limit, limit, depth),
                              Scale(100.0, depth), biasC, x, y))
  {
    if limitC < 0.0 {
      SoftRatioMeaning(Lim1(limit, limitC, biasC, depth), Scale(1.0, depth), x, y);
    } else {
      ClampMeaning(NoMoreThan, Scale(0.0, depth), Lim1(limit, limitC, biasC, depth), Lim2(limit, limit, depth),
                   Scale(100.0, depth), biasC, x, y);
    }
  }

  // ---------------------------------------------------------------------------------------------
  // Properties of the three expressions.

  predicate Between(v: real, a: real, b: real) {
    (a <= v <= b) || (b <= v <= a)
  }

  function Max0(v: real): real {
    if v < 0.0 then 0.0 else v
  }

  function Min(a: real, b: real): real {
    if a < b then a else b
  }

  /**
   * Once the distance reaches `lim1` (and `lim1` is at least one step), soft ratio moves the pixel
   * exactly one step towards the filtered value; otherwise it keeps it.
   */
  lemma SoftRatioStep(lim1: real, one: real, x: real, y: real)
    requires 0.0 < one <= lim1
    ensures SoftRatio(lim1, one, x, y).Num?
    ensures AbsR(x - y) < lim1 ==> SoftRatio(lim1, one, x, y) == Num(x)
    ensures AbsR(x - y) >= lim1 ==>
              var v := SoftRatio(lim1, one, x, y).v;
              AbsR(v - y) == AbsR(x - y) - one && Between(v, x, y)
  {
  }

  /**
   * stpresso with a negative limit and `0 < bias < 200`: a pixel within `lim1` of the filtered one
   * is kept, and any other moves exactly `scale(1)` towards it without passing it.
   */
  lemma StpressoSoftRatioStep(depth: int, limit: real, bias: real, tthr: real, tlimit: real, tbias: real, back: real, x: real, y: real)
    requires limit < 0.0 && 0.0 < bias < 200.0 && tbias != 0.0
    ensures var e := Eval(Stpresso(depth, limit, bias, tthr, tlimit, tbias, back).value.spatial, x, y);
            var lim1 := Lim1(limit, limit, bias, depth);
            e.Some? && e.value.Num? &&
            (AbsR(x - y) < lim1 ==> e.value.v == x) &&
            (AbsR(x - y) >= lim1 ==> AbsR(e.value.v - y) == AbsR(x - y) - Scale(1.0, depth) && Between(e.value.v, x, y))
  {
    StpressoSpatial(depth, limit, bias, tthr, tlimit, tbias, back, x, y);
    Lim1SoftPositive(limit, limit, bias, depth);
    FactorPositive(depth - 8);
    SoftRatioStep(Lim1(limit, limit, bias, depth), Scale(1.0, depth), x, y);
  }

  /** With a positive `lim1` the soft-ratio expression always yields a number. */
  lemma SoftRatioDefined(lim1: real, one: real, x: real, y: real)
    requires lim1 > 0.0
    ensures SoftRatio(lim1, one, x, y).Num?
  {
  }

  /**
   * Backshift with a non-negative band moves the pixel `x` towards `y` by `bk`, or onto `y` when it
   * is closer than that.
   */
  lemma BackshiftPull(bk: real, x: real, y: real)
    requires bk >= 0.0
    ensures Between(Backshift(bk, x, y), x, y)
    ensures AbsR(Backshift(bk, x, y) - y) == Max0(AbsR(x - y) - bk)
    ensures AbsR(Backshift(bk, x, y) - x) == Min(bk, AbsR(x - y))
  {
  }

  lemma Fraction(lim1: real, lim2: real, hundred: real, bias: real)
    requires hundred > 0.0 && 0.0 < bias <= hundred && lim1 * bias <= lim2 * hundred
    ensures 0.0 < bias / hundred <= 1.0
    ensures lim1 * (bias / hundred) <= lim2
  {
    var w := bias / hundred;
    assert w * hundred == bias;
    assert lim1 * w * hundred <= lim2 * hundred;
    if lim1 * w > lim2 {
      PositiveProduct(lim1 * w - lim2, hundred);
      assert false;
    }
  }

  lemma ShrinkDistance(d: real, w: real, l: real)
    requires 0.0 < w <= 1.0 && AbsR(d) <= l
    ensures AbsR(d * w) <= l * w
    ensures Between(d * w, 0.0, d)
  {
    if d >= 0.0 {
      assert d * w <= l * w;
      assert d * w <= d * 1.0;
    } else {
      assert -d * w <= l * w;
      assert d * 1.0 <= d * w;
    }
  }

  /**
   * Clamp-blend never moves a pixel by more than `lim2` once the blend fraction keeps `lim1`
   * within `lim2`, and its blend moves the pixel part of the way towards the filtered value.
   */
  lemma ClampBlendBound(g: Gate, gate: real, lim1: real, lim2: real, hundred: real, bias: real, x: real, y: real)
    requires hundred > 0.0 && 0.0 < bias <= hundred && lim2 >= 0.0 && lim1 * bias <= lim2 * hundred
    ensures ClampBlend(g, gate, lim1, lim2, hundred, bias, x, y).Num?
    ensures AbsR(ClampBlend(g, gate, lim1, lim2, hundred, bias, x, y).v - x) <= lim2
    ensures !Gated(g, gate, x, y) && x - lim1 <= y <= x + lim1 ==>
              Between(ClampBlend(g, gate, lim1, lim2, hundred, bias, x, y).v, x, y)
  {
    var r := ClampBlend(g, gate, lim1, lim2, hundred, bias, x, y);
    if Gated(g, gate, x, y) {
      assert r == Num(x);
    } else if Above(lim1, x, y) {
      assert r == Num(x + lim2);
    } else if Under(lim1, x, y) {
      assert r == Num(x - lim2);
    } else {
      var w := bias / hundred;
      Fraction(lim1, lim2, hundred, bias);
      ShrinkDistance(y - x, w, lim1);
      var m := (y - x) * w;
      assert r == Num(x + m);
      assert Between(x + m, x, y) by { assert Between(m, 0.0, y - x); }
    }
  }

  lemma RoundedBias(limit: real, bias: real, n: int)
    requires limit > 0.0 && bias > 0.0 && n as real <= limit * 100.0 / bias - 0.5
    ensures n as real * bias <= 100.0 * limit
  {
    var q := limit * 100.0 / bias;
    assert q * bias == 100.0 * limit;
    assert n as real * bias <= (q - 0.5) * bias;
  }

  lemma StpressoFraction(limit: real, bias: real, depth: int)
    requires limit > 0.0 && 0.0 < bias <= 100.0 && depth >= 8
    ensures Lim1(limit, limit, bias, depth) * bias <= Lim2(limit, limit, depth) * Scale(100.0, depth)
    ensures Scale(100.0, depth) >= 100.0 && Lim2(limit, limit, depth) >= 0.0
  {
    var n := RoundHalfEven(limit * 100.0 / bias - 1.0);
    var s := Factor(depth - 8);
    FactorPositive(depth - 8);
    RoundedBias(limit, bias, n);
    var a := n as real * bias;
    assert Lim1(limit, limit, bias, depth) * bias == a * s;
    assert Lim2(limit, limit, depth) * Scale(100.0, depth) == (100.0 * limit) * s * s;
    assert a * s <= (100.0 * limit) * s;
    assert (100.0 * limit) * s <= (100.0 * limit) * s * s;
  }

  lemma DerivedClampBound(limit: real, bias: real, depth: int, x: real, y: real)
    requires limit > 0.0 && 0.0 < bias <= 100.0 && depth >= 8
    ensures var v := ClampBlend(Below, Scale(1.0, depth), Lim1(limit, limit, bias, depth), Lim2(limit, limit, depth),
                                Scale(100.0, depth), bias, x, y);
            v.Num? && AbsR(v.v - x) <= Scale(limit, depth)
  {
    StpressoFraction(limit, bias, depth);
    ClampBlendBound(Below, Scale(1.0, depth), Lim1(limit, limit, bias, depth), Lim2(limit, limit, depth),
                    Scale(100.0, depth), bias, x, y);
  }

  /**
   * With a positive limit, a bias in (0, 100] and a depth of 8 or more, stpresso's spatial
   * expression never changes a pixel by more than `scale(limit)`.
   */
  lemma StpressoSpatialBound(depth: int, limit: real, bias: real, tthr: real, tlimit: real, tbias: real, back: real, x: real, y: real)
    requires limit > 0.0 && 0.0 < bias <= 100.0 && depth >= 8 && tbias != 0.0
    ensures var e := Eval(Stpresso(depth, limit, bias, tthr, tlimit, tbias, back).value.spatial, x, y);
            e.Some? && e.value.Num? && AbsR(e.value.v - x) <= Scale(limit, depth)
  {
    DerivedClampBound(limit, bias, depth, x, y);
    StpressoSpatial(depth, limit, bias, tthr, tlimit, tbias, back, x, y);
  }

  // ---------------------------------------------------------------------------------------------
  // Behaviour across bit depths.

  /** A value multiplied by a positive factor; Undefined stays Undefined. */
  function Magnify(k: real, v: Value): Value {
    if v.Num? then Num(k * v.v) else Undefined
  }

  /** The result of an 8-bit expression moved to `depth`. */
  function Rescale(e: Option<Value>, depth: int): Option<Value> {
    if e.Some? && e.value.Num? then Some(Num(Scale(e.value.v, depth))) else e
  }

  lemma MulOrder(k: real, a: real, b: real)
    requires k > 0.0
    ensures k * a < k * b <==> a < b
    ensures k * a <= k * b <==> a <= b
    ensures k * a == k * b <==> a == b
  {
    if a < b {
      PositiveProduct(k, b - a);
    } else if b < a {
      PositiveProduct(k, a - b);
    }
  }

  lemma MulAbs(k: real, d: real)
    requires k > 0.0
    ensures AbsR(k * d) == k * AbsR(d)
  {
    MulOrder(k, d, 0.0);
  }

  /** Multiplying by k distributes over a sum and a difference. */
  lemma Distribute(k: real, a: real, b: real)
    ensures k * a - k * b == k * (a - b) && k * a + k * b == k * (a + b)
  {
  }

  /** The soft-ratio rule on values related to x, y, lim1, one by every comparison it makes. */
  lemma SoftRatioRelated(k: real, lim1: real, one: real, x: real, y: real, l: real, o: real, xk: real, yk: real)
    requires (AbsR(xk - yk) < l) == (AbsR(x - y) < lim1)
    requires (xk == yk) == (x == y) && (xk > yk) == (x > y)
    requires xk == k * x && xk - o == k * (x - one) && xk + o == k * (x + one)
    ensures SoftRatio(l, o, xk, yk) == Magnify(k, SoftRatio(lim1, one, x, y))
  {
  }

  /** Scaling keeps the comparison of a distance with a threshold. */
  lemma DistanceScaled(k: real, lim: real, x: real, y: real)
    requires k > 0.0
    ensures (AbsR(k * x - k * y) < k * lim) == (AbsR(x - y) < lim)
  {
    var d := x - y;
    assert k * x - k * y == k * d;
    MulAbs(k, d);
    MulOrder(k, AbsR(d), lim);
  }

  lemma SoftRatioEquivariant(k: real, lim1: real, one: real, x: real, y: real)
    requires k > 0.0
    ensures SoftRatio(k * lim1, k * one, k * x, k * y) == Magnify(k, SoftRatio(lim1, one, x, y))
  {
    DistanceScaled(k, lim1, x, y);
    MulOrder(k, y, x);
    Distribute(k, x, one);
    SoftRatioRelated(k, lim1, one, x, y, k * lim1, k * one, k * x, k * y);
  }

  lemma BackshiftRelated(k: real, bk: real, x: real, y: real, b: real, xk: real, yk: real)
    requires Above(b, xk, yk) == Above(bk, x, y) && Under(b, xk, yk) == Under(bk, x, y)
    requires xk + b == k * (x + bk) && xk - b == k * (x - bk) && yk == k * y
    ensures Backshift(b, xk, yk) == k * Backshift(bk, x, y)
  {
  }

  lemma BackshiftEquivariant(k: real, bk: real, x: real, y: real)
    requires k > 0.0
    ensures Backshift(k * bk, k * x, k * y) == k * Backshift(bk, x, y)
  {
    BandEquivariant(k, bk, x, y);
    BackshiftRelated(k, bk, x, y, k * bk, k * x, k * y);
  }

  lemma GatedEquivariant(k: real, g: Gate, gate: real, x: real, y: real)
    requires k > 0.0
    ensures Gated(g, k * gate, k * x, k * y) == Gated(g, gate, x, y)
  {
    DistanceScaled(k, gate, x, y);
  }

  lemma BandEquivariant(k: real, lim: real, x: real, y: real)
    requires k > 0.0
    ensures Above(k * lim, k * x, k * y) == Above(lim, x, y)
    ensures Under(k * lim, k * x, k * y) == Under(lim, x, y)
    ensures k * x + k * lim == k * (x + lim) && k * x - k * lim == k * (x - lim)
  {
    Distribute(k, x, lim);
    assert Above(k * lim, k * x, k * y) == Above(lim, x, y) by {
      Distribute(k, x, lim);
      MulOrder(k, x + lim, y);
    }
    assert Under(k * lim, k * x, k * y) == Under(lim, x, y) by {
      Distribute(k, x, lim);
      MulOrder(k, y, x - lim);
    }
  }

  lemma LerpEquivariant(k: real, w: real, x: real, y: real)
    ensures Lerp(w, k * x, k * y) == k * Lerp(w, x, y)
  {
  }

  lemma ClampRelated(k: real, g: Gate, gate: real, lim1: real, lim2: real, hundred: real, bias: real, x: real, y: real,
                     gk: real, l1: real, l2: real, xk: real, yk: real)
    requires Gated(g, gk, xk, yk) == Gated(g, gate, x, y)
    requires Above(l1, xk, yk) == Above(lim1, x, y) && Under(l1, xk, yk) == Under(lim1, x, y)
    requires xk == k * x && xk + l2 == k * (x + lim2) && xk - l2 == k * (x - lim2)
    requires hundred != 0.0 ==> Lerp(bias / hundred, xk, yk) == k * Lerp(bias / hundred, x, y)
    ensures ClampBlend(g, gk, l1, l2, hundred, bias, xk, yk) == Magnify(k, ClampBlend(g, gate, lim1, lim2, hundred, bias, x, y))
  {
  }

  /** Every comparison clamp-blend makes comes out the same on scaled values. */
  lemma ClampFacts(k: real, g: Gate, gate: real, lim1: real, lim2: real, hundred: real, bias: real, x: real, y: real)
    requires k > 0.0
    ensures Gated(g, k * gate, k * x, k * y) == Gated(g, gate, x, y)
    ensures Above(k * lim1, k * x, k * y) == Above(lim1, x, y) && Under(k * lim1, k * x, k * y) == Under(lim1, x, y)
    ensures k * x + k * lim2 == k * (x + lim2) && k * x - k * lim2 == k * (x - lim2)
    ensures hundred != 0.0 ==> Lerp(bias / hundred, k * x, k * y) == k * Lerp(bias / hundred, x, y)
  {
    GatedEquivariant(k, g, gate, x, y);
    BandEquivariant(k, lim1, x, y);
    BandEquivariant(k, lim2, x, y);
    if hundred != 0.0 {
      LerpEquivariant(k, bias / hundred, x, y);
    }
  }

  /** With a fixed blend divisor, scaling the pixels and thresholds scales the clamp-blend result. */
  lemma ClampEquivariant(k: real, g: Gate, gate: real, lim1: real, lim2: real, hundred: real, bias: real, x: real, y: real)
    requires k > 0.0
    ensures ClampBlend(g, k * gate, k * lim1, k * lim2, hundred, bias, k * x, k * y)
            == Magnify(k, ClampBlend(g, gate, lim1, lim2, hundred, bias, x, y))
  {
    ClampFacts(k, g, gate, lim1, lim2, hundred, bias, x, y);
    ClampRelated(k, g, gate, lim1, lim2, hundred, bias, x, y, k * gate, k * lim1, k * lim2, k * x, k * y);
  }

  /** Thresholds at any depth are the 8-bit ones moved to that depth. */
  lemma ThresholdsAcrossDepths(sel: real, limit: real, bias: real, depth: int)
    requires bias != 0.0
    ensures Lim1(sel, limit, bias, depth) == Factor(depth - 8) * Lim1(sel, limit, bias, 8)
    ensures Lim2(sel, limit, depth) == Factor(depth - 8) * Lim2(sel, limit, 8)
    ensures Scale(1.0, depth) == Factor(depth - 8) * Scale(1.0, 8)
  {
  }

  lemma RescaleMagnify(v: Value, depth: int)
    ensures Rescale(Some(v), depth) == Some(Magnify(Factor(depth - 8), v))
  {
    if v.Num? {
      var e: Option<Value> := Some(v);
      assert e.Some? && e.value.Num?;
      assert Rescale(e, depth) == Some(Num(Scale(v.v, depth)));
      assert Scale(v.v, depth) == Factor(depth - 8) * v.v;
      assert Magnify(Factor(depth - 8), v) == Num(Factor(depth - 8) * v.v);
    }
  }

  lemma ScaledBy(v: real, depth: int)
    ensures Scale(v, depth) == Factor(depth - 8) * v
  {
  }

  lemma SoftRatioSubst(k: real, l8: real, o8: real, x: real, y: real, ld: real, od: real, xd: real, yd: real)
    requires k > 0.0 && ld == k * l8 && od == k * o8 && xd == k * x && yd == k * y
    ensures SoftRatio(ld, od, xd, yd) == Magnify(k, SoftRatio(l8, o8, x, y))
  {
    SoftRatioEquivariant(k, l8, o8, x, y);
  }

  lemma SoftRatioAtDepth(limit: real, bias: real, depth: int, x: real, y: real)
    requires bias != 0.0
    ensures SoftRatio(Lim1(limit, limit, bias, depth), Scale(1.0, depth), Scale(x, depth), Scale(y, depth))
            == Magnify(Factor(depth - 8), SoftRatio(Lim1(limit, limit, bias, 8), Scale(1.0, 8), x, y))
  {
    var k := Factor(depth - 8);
    var l8, ld := Lim1(limit, limit, bias, 8), Lim1(limit, limit, bias, depth);
    var o8, od := Scale(1.0, 8), Scale(1.0, depth);
    assert k > 0.0 by { FactorPositive(depth - 8); }
    assert ld == k * l8 && od == k * o8 by { ThresholdsAcrossDepths(limit, limit, bias, depth); }
    assert Scale(x, depth) == k * x && Scale(y, depth) == k * y by { ScaledBy(x, depth); ScaledBy(y, depth); }
    SoftRatioSubst(k, l8, o8, x, y, ld, od, Scale(x, depth), Scale(y, depth));
  }

  /** stpresso's soft-ratio form does the same at every depth: the 8-bit result, moved to that depth. */
  lemma StpressoSoftRatioAcrossDepths(depth: int, limit: real, bias: real, tthr: real, tlimit: real, tbias: real, back: real, x: real, y: real)
    requires limit < 0.0 && bias != 0.0 && tbias != 0.0
    ensures Eval(Stpresso(depth, limit, bias, tthr, tlimit, tbias, back).value.spatial, Scale(x, depth), Scale(y, depth))
            == Rescale(Eval(Stpresso(8, limit, bias, tthr, tlimit, tbias, back).value.spatial, x, y), depth)
  {
    StpressoSpatial(depth, limit, bias, tthr, tlimit, tbias, back, Scale(x, depth), Scale(y, depth));
    StpressoSpatial(8, limit, bias, tthr, tlimit, tbias, back, x, y);
    SoftRatioAtDepth(limit, bias, depth, x, y);
    RescaleMagnify(SoftRatio(Lim1(limit, limit, bias, 8), Scale(1.0, 8), x, y), depth);
  }

  lemma BackshiftSubst(k: real, b8: real, x: real, y: real, bd: real, xd: real, yd: real)
    requires k > 0.0 && bd == k * b8 && xd == k * x && yd == k * y
    ensures Backshift(bd, xd, yd) == k * Backshift(b8, x, y)
  {
    BackshiftEquivariant(k, b8, x, y);
  }

  lemma BackshiftAtDepth(back: real, depth: int, x: real, y: real)
    ensures Backshift(Scale(back, depth), Scale(x, depth), Scale(y, depth))
            == Factor(depth - 8) * Backshift(Scale(back, 8), x, y)
  {
    var k := Factor(depth - 8);
    assert k > 0.0 by { FactorPositive(depth - 8); }
    assert Scale(back, 8) == back by { Depth8(); }
    assert Scale(back, depth) == k * back && Scale(x, depth) == k * x && Scale(y, depth) == k * y by {
      ScaledBy(back, depth);
      ScaledBy(x, depth);
      ScaledBy(y, depth);
    }
    BackshiftSubst(k, Scale(back, 8), x, y, Scale(back, depth), Scale(x, depth), Scale(y, depth));
  }

  /** stpresso's backshift does the same at every depth. */
  lemma StpressoBackshiftAcrossDepths(depth: int, limit: real, bias: real, tthr: real, tlimit: real, tbias: real, back: real, x: real, y: real)
    requires bias != 0.0 && tbias != 0.0 && back != 0.0
    ensures Eval(Stpresso(depth, limit, bias, tthr, tlimit, tbias, back).value.backshift.value, Scale(x, depth), Scale(y, depth))
            == Rescale(Eval(Stpresso(8, limit, bias, tthr, tlimit, tbias, back).value.backshift.value, x, y), depth)
  {
    var r8 := Backshift(Scale(back, 8), x, y);
    var rd := Backshift(Scale(back, depth), Scale(x, depth), Scale(y, depth));
    assert rd == Factor(depth - 8) * r8 by { BackshiftAtDepth(back, depth, x, y); }
    assert Rescale(Some(Num(r8)), depth) == Some(Num(rd)) by {
      ScaledBy(r8, depth);
    }
    StpressoBackshift(depth, limit, bias, tthr, tlimit, tbias, back, Scale(x, depth), Scale(y, depth));
    StpressoBackshift(8, limit, bias, tthr, tlimit, tbias, back, x, y);
  }

  // ---------------------------------------------------------------------------------------------
  // Worked examples at 8 bits.

  lemma Depth8()
    ensures Factor(0) == 1.0
    ensures forall v: real {:trigger Scale(v, 8)} :: Scale(v, 8) == v
  {
  }

  /** limit 3, bias 24: a filtered value 72 above the pixel is clamped to three steps. */
  lemma ClampExample()
    ensures Eval(Stpresso(8, 3.0, 24.0, 12.0, 3.0, 49.0, 1.0).value.spatial, 128.0, 200.0) == Some(Num(131.0))
  {
    Depth8();
    DefaultThresholds(8);
    StpressoSpatial(8, 3.0, 24.0, 12.0, 3.0, 49.0, 1.0, 128.0, 200.0);
  }

  /** limit -2, bias 24: `lim1` is 4, so a distance of 3 is kept and a distance of 10 moves one step. */
  lemma SoftRatioExamples()
    ensures Eval(Stpresso(8, -2.0, 24.0, 12.0, 3.0, 49.0, 1.0).value.spatial, 100.0, 103.0) == Some(Num(100.0))
    ensures Eval(Stpresso(8, -2.0, 24.0, 12.0, 3.0, 49.0, 1.0).value.spatial, 100.0, 110.0) == Some(Num(101.0))
  {
    Depth8();
    assert RoundHalfEven(100.0 / 24.0) == 4;
    StpressoSpatial(8, -2.0, 24.0, 12.0, 3.0, 49.0, 1.0, 100.0, 103.0);
    StpressoSpatial(8, -2.0, 24.0, 12.0, 3.0, 49.0, 1.0, 100.0, 110.0);
  }

  /** back 1: a processed 132 over an original 128 is shifted back to 131. */
  lemma BackshiftExample()
    ensures Eval(Stpresso(8, 3.0, 24.0, 12.0, 3.0, 49.0, 1.0).value.backshift.value, 132.0, 128.0) == Some(Num(131.0))
  {
    Depth8();
    StpressoBackshift(8, 3.0, 24.0, 12.0, 3.0, 49.0, 1.0, 132.0, 128.0);
  }

  // ---------------------------------------------------------------------------------------------
  // The blend divisor. Every threshold is moved to the clip's depth, but the blend divides by
  // scale(100) while `bias` stays a plain percentage, so the blend weight is bias / (100 * 2^(d-8)):
  // at 16 bits a bias of 24 blends 0.09375 % of the way instead of 24 %.

  lemma Depth16()
    ensures Factor(8) == 256.0
    ensures Lim1(3.0, 3.0, 24.0, 16) == 3072.0 && Lim2(3.0, 3.0, 16) == 768.0
    ensures Scale(1.0, 16) == 256.0 && Scale(100.0, 16) == 25600.0
  {
    FactorOfNat(8);
    assert Pow2(8) == 256;
    DefaultThresholds(16);
  }

  /** As written: the same picture at 8 and at 16 bits is blended by different fractions. */
  lemma BlendWeightShrinksWithDepth()
    ensures Eval(Stpresso(8, 3.0, 24.0, 0.0, 3.0, 49.0, 0.0).value.spatial, 128.0, 134.0) == Some(Num(129.44))
    ensures Eval(Stpresso(16, 3.0, 24.0, 0.0, 3.0, 49.0, 0.0).value.spatial, 32768.0, 34304.0) == Some(Num(32769.44))
    ensures Scale(128.0, 16) == 32768.0 && Scale(134.0, 16) == 34304.0 && Scale(129.44, 16) == 33136.64
  {
    assert ClampBlend(Below, 1.0, 12.0, 3.0, 100.0, 24.0, 128.0, 134.0) == Num(129.44);
    assert Eval(Stpresso(8, 3.0, 24.0, 0.0, 3.0, 49.0, 0.0).value.spatial, 128.0, 134.0) == Some(Num(129.44)) by {
      Depth8();
      DefaultThresholds(8);
      StpressoSpatial(8, 3.0, 24.0, 0.0, 3.0, 49.0, 0.0, 128.0, 134.0);
    }
    assert ClampBlend(Below, 256.0, 3072.0, 768.0, 25600.0, 24.0, 32768.0, 34304.0) == Num(32769.44);
    assert Eval(Stpresso(16, 3.0, 24.0, 0.0, 3.0, 49.0, 0.0).value.spatial, 32768.0, 34304.0) == Some(Num(32769.44)) by {
      Depth16();
      StpressoSpatial(16, 3.0, 24.0, 0.0, 3.0, 49.0, 0.0, 32768.0, 34304.0);
    }
    Depth16();
  }

  /** The clamp-blend expression with the blend divisor left at 100, as the 8-bit original has it. */
  function IntendedClamp(depth: int, limit: real, bias: real): Program
    requires bias != 0.0
  {
    ClampProgram(Below, Scale(1.0, depth), Lim1(limit, limit, bias, depth), Lim2(limit, limit, depth), 100.0, bias)
  }

  lemma IntendedClampMeaning(depth: int, limit: real, bias: real, x: real, y: real)
    requires bias != 0.0
    ensures Eval(IntendedClamp(depth, limit, bias), x, y)
            == Some(ClampBlend(Below, Scale(1.0, depth), Lim1(limit, limit, bias, depth), Lim2(limit, limit, depth), 100.0, bias, x, y))
  {
    ClampMeaning(Below, Scale(1.0, depth), Lim1(limit, limit, bias, depth), Lim2(limit, limit, depth), 100.0, bias, x, y);
  }

  /** At 8 bits the intended expression is the one stpresso builds. */
  lemma IntendedClampAt8(limit: real, bias: real, tthr: real, tlimit: real, tbias: real, back: real)
    requires limit >= 0.0 && bias != 0.0 && tbias != 0.0
    ensures IntendedClamp(8, limit, bias) == Stpresso(8, limit, bias, tthr, tlimit, tbias, back).value.spatial
  {
    Depth8();
  }

  lemma ClampSubst(k: real, g: Gate, gate: real, l1: real, l2: real, bias: real, x: real, y: real,
                   gated: real, l1d: real, l2d: real, xd: real, yd: real)
    requires k > 0.0 && gated == k * gate && l1d == k * l1 && l2d == k * l2 && xd == k * x && yd == k * y
    ensures ClampBlend(g, gated, l1d, l2d, 100.0, bias, xd, yd) == Magnify(k, ClampBlend(g, gate, l1, l2, 100.0, bias, x, y))
  {
    ClampEquivariant(k, g, gate, l1, l2, 100.0, bias, x, y);
  }

  /** Every constant and pixel value of the intended expression moves by the same factor. */
  lemma IntendedFactors(depth: int, limit: real, bias: real, x: real, y: real)
    requires bias != 0.0
    ensures Factor(depth - 8) > 0.0
    ensures Lim1(limit, limit, bias, depth) == Factor(depth - 8) * Lim1(limit, limit, bias, 8)
    ensures Lim2(limit, limit, depth) == Factor(depth - 8) * Lim2(limit, limit, 8)
    ensures Scale(1.0, depth) == Factor(depth - 8) * Scale(1.0, 8)
    ensures Scale(x, depth) == Factor(depth - 8) * x && Scale(y, depth) == Factor(depth - 8) * y
  {
    FactorPositive(depth - 8);
    ThresholdsAcrossDepths(limit, limit, bias, depth);
    ScaledBy(x, depth);
    ScaledBy(y, depth);
  }

  /** The intended expression does the same at every depth: the 8-bit result, moved to that depth. */
  lemma IntendedClampScales(depth: int, limit: real, bias: real, x: real, y: real)
    requires bias != 0.0
    ensures ClampBlend(Below, Scale(1.0, depth), Lim1(limit, limit, bias, depth), Lim2(limit, limit, depth), 100.0, bias,
                       Scale(x, depth), Scale(y, depth))
            == Magnify(Factor(depth - 8), ClampBlend(Below, Scale(1.0, 8), Lim1(limit, limit, bias, 8), Lim2(limit, limit, 8),
                                                      100.0, bias, x, y))
  {
    var k := Factor(depth - 8);
    var l1, l1d := Lim1(limit, limit, bias, 8), Lim1(limit, limit, bias, depth);
    var l2, l2d := Lim2(limit, limit, 8), Lim2(limit, limit, depth);
    var o, od := Scale(1.0, 8), Scale(1.0, depth);
    IntendedFactors(depth, limit, bias, x, y);
    ClampSubst(k, Below, o, l1, l2, bias, x, y, od, l1d, l2d, Scale(x, depth), Scale(y, depth));
  }

  /** The intended expression does the same at every depth: the 8-bit result, moved to that depth. */
  lemma IntendedClampAcrossDepths(depth: int, limit: real, bias: real, x: real, y: real)
    requires bias != 0.0
    ensures Eval(IntendedClamp(depth, limit, bias), Scale(x, depth), Scale(y, depth))
            == Rescale(Eval(IntendedClamp(8, limit, bias), x, y), depth)
  {
    IntendedClampMeaning(depth, limit, bias, Scale(x, depth), Scale(y, depth));
    IntendedClampMeaning(8, limit, bias, x, y);
    IntendedClampScales(depth, limit, bias, x, y);
    RescaleMagnify(ClampBlend(Below, Scale(1.0, 8), Lim1(limit, limit, bias, 8), Lim2(limit, limit, 8), 100.0, bias, x, y), depth);
  }

  lemma IntendedFraction(limit: real, bias: real, depth: int)
    requires limit > 0.0 && 0.0 < bias <= 100.0
    ensures Lim1(limit, limit, bias, depth) * bias <= Lim2(limit, limit, depth) * 100.0
    ensures Lim2(limit, limit, depth) >= 0.0
  {
    var n := RoundHalfEven(limit * 100.0 / bias - 1.0);
    var s := Factor(depth - 8);
    FactorPositive(depth - 8);
    RoundedBias(limit, bias, n);
    var a := n as real * bias;
    assert Lim1(limit, limit, bias, depth) * bias == a * s;
    assert Lim2(limit, limit, depth) * 100.0 == (100.0 * limit) * s;
    assert a * s <= (100.0 * limit) * s;
  }

  lemma IntendedBlendBound(depth: int, limit: real, bias: real, x: real, y: real)
    requires limit > 0.0 && 0.0 < bias <= 100.0
    ensures var v := ClampBlend(Below, Scale(1.0, depth), Lim1(limit, limit, bias, depth), Lim2(limit, limit, depth), 100.0, bias, x, y);
            v.Num? && AbsR(v.v - x) <= Scale(limit, depth)
  {
    IntendedFraction(limit, bias, depth);
    ClampBlendBound(Below, Scale(1.0, depth), Lim1(limit, limit, bias, depth), Lim2(limit, limit, depth), 100.0, bias, x, y);
  }

  /** The intended expression keeps the promise "never more than `limit`" at every depth. */
  lemma IntendedClampBound(depth: int, limit: real, bias: real, x: real, y: real)
    requires limit > 0.0 && 0.0 < bias <= 100.0
    ensures var e := Eval(IntendedClamp(depth, limit, bias), x, y);
            e.Some? && e.value.Num? && AbsR(e.value.v - x) <= Scale(limit, depth)
  {
    IntendedBlendBound(depth, limit, bias, x, y);
    IntendedClampMeaning(depth, limit, bias, x, y);
  }

  /** The 16-bit picture of the example above, blended as at 8 bits. */
  lemma IntendedClampExample()
    ensures Eval(IntendedClamp(16, 3.0, 24.0), 32768.0, 34304.0) == Some(Num(33136.64))
  {
    Depth16();
    assert ClampBlend(Below, 256.0, 3072.0, 768.0, 100.0, 24.0, 32768.0, 34304.0) == Num(33136.64);
    IntendedClampMeaning(16, 3.0, 24.0, 32768.0, 34304.0);
  }

  // ---------------------------------------------------------------------------------------------
  // spresso's chroma thresholds. The luma `limit` picks the form of `lim1c` and is used as `lim2c`,
  // while the sign of `limit_c` picks the chroma expression. With a positive `limit` and a negative
  // `limit_c`, `lim1c` is negative and the soft-ratio expression divides by zero wherever the
  // chroma equals its filtered value.

  lemma NegativeRound(q: real)
    requires q < -1.0
    ensures RoundHalfEven(q) <= -1
  {
  }

  /** As written: a negative `limit_c` under a positive `limit` makes unchanged chroma pixels undefined. */
  lemma SpressoChromaDividesByZero(depth: int, limit: real, bias: real, limitC: real, biasC: real, rgModeC: int, x: real)
    requires limit > 0.0 && limitC < 0.0 && bias != 0.0 && biasC > 0.0 && rgModeC != 0
    ensures Eval(Spresso(depth, limit, bias, limitC, biasC, rgModeC).value.chroma.value, x, x) == Some(Undefined)
  {
    var q := limitC * 100.0 / biasC;
    assert q < 0.0 by {
      assert q * biasC == limitC * 100.0;
      if q >= 0.0 {
        NonNegativeProduct(q, biasC);
      }
    }
    var n := RoundHalfEven(q - 1.0);
    NegativeRound(q - 1.0);
    FactorPositive(depth - 8);
    NonPositiveProduct(n as real, Factor(depth - 8));
    assert Lim1(limit, limitC, biasC, depth) <= 0.0 && Lim1(limit, limitC, biasC, depth) != 0.0 by {
      PositiveProduct(-(n as real), Factor(depth - 8));
    }
    SpressoChroma(depth, limit, bias, limitC, biasC, rgModeC, x, x);
  }

  lemma NonNegativeProduct(p: real, q: real)
    requires p >= 0.0 && q > 0.0
    ensures p * q >= 0.0
  {
  }

  /** The chroma expression with `limit_c` in every place the luma `limit` stands for it. */
  function IntendedSpressoChroma(depth: int, limitC: real, biasC: real): Program
    requires biasC != 0.0
  {
    var lim1c, lim2c := Lim1(limitC, limitC, biasC, depth), Lim2(limitC, limitC, depth);
    if limitC < 0.0 then SoftRatioProgram(lim1c, Scale(1.0, depth))
    else ClampProgram(NoMoreThan, Scale(0.0, depth), lim1c, lim2c, Scale(100.0, depth), biasC)
  }

  /** With a negative `limit_c` and a bias under 200 the intended chroma expression is defined everywhere. */
  lemma IntendedChromaDefined(depth: int, limitC: real, biasC: real, x: real, y: real)
    requires limitC < 0.0 && 0.0 < biasC < 200.0
    ensures var e := Eval(IntendedSpressoChroma(depth, limitC, biasC), x, y);
            e.Some? && e.value.Num?
  {
    Lim1SoftPositive(limitC, limitC, biasC, depth);
    IntendedChromaMeaning(depth, limitC, biasC, x, y);
    SoftRatioDefined(Lim1(limitC, limitC, biasC, depth), Scale(1.0, depth), x, y);
  }

  lemma IntendedChromaMeaning(depth: int, limitC: real, biasC: real, x: real, y: real)
    requires biasC != 0.0
    ensures Eval(IntendedSpressoChroma(depth, limitC, biasC), x, y) == Some(
              if limitC < 0.0 then SoftRatio(Lim1(limitC, limitC, biasC, depth), Scale(1.0, depth), x, y)
              else ClampBlend(NoMoreThan, Scale(0.0, depth), Lim1(limitC, limitC, biasC, depth), Lim2(limitC, limitC, depth),
                              Scale(100.0, depth), biasC, x, y))
  {
    if limitC < 0.0 {
      SoftRatioMeaning(Lim1(limitC, limitC, biasC, depth), Scale(1.0, depth), x, y);
    } else {
      ClampMeaning(NoMoreThan, Scale(0.0, depth), Lim1(limitC, limitC, biasC, depth), Lim2(limitC, limitC, depth),
                   Scale(100.0, depth), biasC, x, y);
    }
  }

  lemma ChromaBlendBound(depth: int, limitC: real, biasC: real, x: real, y: real)
    requires limitC > 0.0 && 0.0 < biasC <= 100.0 && depth >= 8
    ensures var v := ClampBlend(NoMoreThan, Scale(0.0, depth), Lim1(limitC, limitC, biasC, depth), Lim2(limitC, limitC, depth),
                                Scale(100.0, depth), biasC, x, y);
            v.Num? && AbsR(v.v - x) <= Scale(limitC, depth)
  {
    StpressoFraction(limitC, biasC, depth);
    ClampBlendBound(NoMoreThan, Scale(0.0, depth), Lim1(limitC, limitC, biasC, depth), Lim2(limitC, limitC, depth),
                    Scale(100.0, depth), biasC, x, y);
  }

  /** With a positive `limit_c` the intended chroma expression never moves a pixel by more than `scale(limit_c)`. */
  lemma IntendedChromaBound(depth: int, limitC: real, biasC: real, x: real, y: real)
    requires limitC > 0.0 && 0.0 < biasC <= 100.0 && depth >= 8
    ensures var e := Eval(IntendedSpressoChroma(depth, limitC, biasC), x, y);
            e.Some? && e.value.Num? && AbsR(e.value.v - x) <= Scale(limitC, depth)
  {
    ChromaBlendBound(depth, limitC, biasC, x, y);
    IntendedChromaMeaning(depth, limitC, biasC, x, y);
  }

  // ---------------------------------------------------------------------------------------------
  // The temporal blend. The temporal expression takes `tlim1` and `tlim2` from tlimit/tbias but
  // blends by `bias`, so `tlim1 * bias <= tlim2 * scale(100)` need not hold and a pixel can move
  // by more than `tlimit`.

  /** As written: limit 3, bias 24, tlimit 3, tbias 10 give `tlim1 = 29` and `tlim2 = 3`, and the
      temporal expression moves the pixel 100 to 106.96, more than three steps. */
  lemma TemporalExceedsTlimit()
    ensures Lim1(3.0, 3.0, 10.0, 8) == 29.0 && Lim2(3.0, 3.0, 8) == 3.0
    ensures Eval(Stpresso(8, 3.0, 24.0, 12.0, 3.0, 10.0, 1.0).value.temporal.value, 100.0, 129.0) == Some(Num(106.96))
    ensures AbsR(106.96 - 100.0) > Scale(3.0, 8)
  {
    Depth8();
    assert 3.0 * 100.0 / 10.0 - 1.0 == 29.0;
    assert RoundHalfEven(29.0) == 29;
    assert ClampBlend(Below, 1.0, 29.0, 3.0, 100.0, 24.0, 100.0, 129.0) == Num(106.96);
    StpressoTemporal(8, 3.0, 24.0, 12.0, 3.0, 10.0, 1.0, 100.0, 129.0);
  }

  /** The temporal expression blending by `tbias`, the percentage its thresholds were derived for. */
  function IntendedTemporal(depth: int, limit: real, tlimit: real, tbias: real): Program
    requires tbias != 0.0
  {
    var tlim1, tlim2 := Lim1(tlimit, tlimit, tbias, depth), Lim2(tlimit, tlimit, depth);
    if limit < 0.0 then SoftRatioProgram(tlim1, Scale(1.0, depth))
    else ClampProgram(Below, Scale(1.0, depth), tlim1, tlim2, Scale(100.0, depth), tbias)
  }

  lemma IntendedTemporalMeaning(depth: int, limit: real, tlimit: real, tbias: real, x: real, y: real)
    requires tbias != 0.0
    ensures Eval(IntendedTemporal(depth, limit, tlimit, tbias), x, y) == Some(
              if limit < 0.0 then SoftRatio(Lim1(tlimit, tlimit, tbias, depth), Scale(1.0, depth), x, y)
              else ClampBlend(Below, Scale(1.0, depth), Lim1(tlimit, tlimit, tbias, depth), Lim2(tlimit, tlimit, depth),
                              Scale(100.0, depth), tbias, x, y))
  {
    if limit < 0.0 {
      SoftRatioMeaning(Lim1(tlimit, tlimit, tbias, depth), Scale(1.0, depth), x, y);
    } else {
      ClampMeaning(Below, Scale(1.0, depth), Lim1(tlimit, tlimit, tbias, depth), Lim2(tlimit, tlimit, depth),
                   Scale(100.0, depth), tbias, x, y);
    }
  }

  /** Where the two biases are equal, or the soft-ratio form is chosen, stpresso builds the corrected expression. */
  lemma IntendedTemporalAgrees(depth: int, limit: real, bias: real, tthr: real, tlimit: real, tbias: real, back: real)
    requires bias != 0.0 && tbias != 0.0 && tthr != 0.0 && (limit < 0.0 || bias == tbias)
    ensures Stpresso(depth, limit, bias, tthr, tlimit, tbias, back).value.temporal.value
            == IntendedTemporal(depth, limit, tlimit, tbias)
  {
  }

  /** With `limit >= 0`, a positive `tlimit`, a `tbias` in (0, 100] and a depth of 8 or more, the
      corrected temporal expression never changes a pixel by more than `scale(tlimit)`. */
  lemma IntendedTemporalBound(depth: int, limit: real, tlimit: real, tbias: real, x: real, y: real)
    requires limit >= 0.0 && tlimit > 0.0 && 0.0 < tbias <= 100.0 && depth >= 8
    ensures var e := Eval(IntendedTemporal(depth, limit, tlimit, tbias), x, y);
            e.Some? && e.value.Num? && AbsR(e.value.v - x) <= Scale(tlimit, depth)
  {
    StpressoFraction(tlimit, tbias, depth);
    ClampBlendBound(Below, Scale(1.0, depth), Lim1(tlimit, tlimit, tbias, depth), Lim2(tlimit, tlimit, depth),
                    Scale(100.0, depth), tbias, x, y);
    IntendedTemporalMeaning(depth, limit, tlimit, tbias, x, y);
  }

  /** The input of the example above, under the corrected expression: 100 + 29 * 10 % is 102.9. */
  lemma IntendedTemporalExample()
    ensures Eval(IntendedTemporal(8, 3.0, 3.0, 10.0), 100.0, 129.0) == Some(Num(102.9))
  {
    Depth8();
    assert 3.0 * 100.0 / 10.0 - 1.0 == 29.0;
    assert RoundHalfEven(29.0) == 29;
    assert ClampBlend(Below, 1.0, 29.0, 3.0, 100.0, 10.0, 100.0, 129.0) == Num(102.9);
    IntendedTemporalMeaning(8, 3.0, 3.0, 10.0, 100.0, 129.0);
  }

  /** With a positive `limit` and a bias in (0, 100], spresso's luma expression never changes a
      pixel by more than `scale(limit)`, as its documentation promises. */
  lemma SpressoLumaBound(depth: int, limit: real, bias: real, limitC: real, biasC: real, rgModeC: int, x: real, y: real)
    requires limit > 0.0 && 0.0 < bias <= 100.0 && depth >= 8 && biasC != 0.0
    ensures var e := Eval(Spresso(depth, limit, bias, limitC, biasC, rgModeC).value.luma, x, y);
            e.Some? && e.value.Num? && AbsR(e.value.v - x) <= Scale(limit, depth)
  {
    ChromaBlendBound(depth, limit, bias, x, y);
    SpressoLuma(depth, limit, bias, limitC, biasC, rgModeC, x, y);
  }
}
