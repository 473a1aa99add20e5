/**
 * The pointwise masks other filters build as `Expr` strings: the luma ramp of `mwlmask`, the
 * debanding mask of `SAdeband` with its smoothing choice, and four one-line masks (the subtitle
 * mask of `textsub`, the difference mask of `LazyDering`, the credit mask of `creditmask`, and the
 * difference limiter of `mwenhance`).
 */
module Masks {
  import opened Wrappers
  import opened Postfix
  import opened Depth

  function AbsR(v: real): real {
    if v < 0.0 then -v else v
  }

  function BinOf(op: BinOp, l: Expr, r: real): Expr {
    Bin(op, l, Lit(r))
  }

  lemma LeafFacts(v: real, x: real, y: real)
    ensures Compile(VarX) == [X] && Compile(VarY) == [Y] && Compile(Lit(v)) == [Const(v)]
    ensures Denote(VarX, x, y) == Num(x) && Denote(VarY, x, y) == Num(y) && Denote(Lit(v), x, y) == Num(v)
  {
  }

  /** `x V op` */
  lemma OffsetX(op: BinOp, v: real, x: real, y: real)
    ensures Compile(BinOf(op, VarX, v)) == [X, Const(v), Op(op)]
    ensures Denote(BinOf(op, VarX, v), x, y) == Apply(op, Num(x), Num(v))
  {
    LeafFacts(v, x, y);
  }

  /** `x y - abs` */
  lemma DistanceFacts(x: real, y: real)
    ensures Compile(AbsOf(Bin(Minus, VarX, VarY))) == [X, Y, Op(Minus), Abs]
    ensures Denote(AbsOf(Bin(Minus, VarX, VarY)), x, y) == Num(AbsR(x - y))
  {
    LeafFacts(0.0, x, y);
    assert Compile(Bin(Minus, VarX, VarY)) == [X, Y, Op(Minus)];
  }

  // ---------------------------------------------------------------------------------------------
  // mwlmask: a luma ramp. Thresholds are given at 8 bits and shifted left by `bits - 8`.

  /** `v << (bits - 8)` for bits >= 8. */
  function Shifted(v: int, bits: int): int
    requires bits >= 8
  {
    v * Pow2(bits - 8)
  }

  /** `(1 << bits) - 1`, the largest sample value. */
  function White(bits: nat): int {
    Pow2(bits) - 1
  }

  /** The thresholds in the clip's depth; an absent `h2` or `l2` is the white level. */
  datatype Ramp = Ramp(l1: real, h1: real, h2: real, l2: real, white: real)

  /** `x H2 <= WHITE x L2 < x L2 - SLOPE2 * 0 ? ?`, or just `WHITE` when `h2` reaches white. */
  function TailProgram(r: Ramp): Program
    requires r.h2 < r.white ==> r.h2 != r.l2
  {
    if r.h2 >= r.white then [Const(r.white)]
    else [X, Const(r.h2), Op(AtMost), Const(r.white), X, Const(r.l2), Op(Less), X, Const(r.l2), Op(Minus),
          Const(r.white / (r.h2 - r.l2)), Op(Times), Const(0.0), Cond, Cond]
  }

  /** `x L1 <= 0 x H1 < x L1 - SLOPE1 * <tail> ? ?` */
  function RampProgram(r: Ramp): Program
    requires r.h1 != r.l1 && (r.h2 < r.white ==> r.h2 != r.l2)
  {
    [X, Const(r.l1), Op(AtMost), Const(0.0), X, Const(r.h1), Op(Less), X, Const(r.l1), Op(Minus),
     Const(r.white / (r.h1 - r.l1)), Op(Times)] + TailProgram(r) + [Cond, Cond]
  }

  /** `x H2 <= WHITE x L2 < x L2 - S * 0 ? ?` as a tree, for any slope S. */
  function FallTree(h2: real, white: real, l2: real, sl: real): Expr
  {
    Select(BinOf(AtMost, VarX, h2), Lit(white),
           Select(BinOf(Less, VarX, l2), BinOf(Times, BinOf(Minus, VarX, l2), sl), Lit(0.0)))
  }

  /** `x L1 <= 0 x H1 < x L1 - S * <tail> ? ?` as a tree, for any slope S. */
  function RiseTree(l1: real, h1: real, sl: real, tail: Expr): Expr
  {
    Select(BinOf(AtMost, VarX, l1), Lit(0.0),
           Select(BinOf(Less, VarX, h1), BinOf(Times, BinOf(Minus, VarX, l1), sl), tail))
  }

  function TailTree(r: Ramp): Expr
    requires r.h2 < r.white ==> r.h2 != r.l2
  {
    if r.h2 >= r.white then Lit(r.white)
    else FallTree(r.h2, r.white, r.l2, r.white / (r.h2 - r.l2))
  }

  function RampTree(r: Ramp): Expr
    requires r.h1 != r.l1 && (r.h2 < r.white ==> r.h2 != r.l2)
  {
    RiseTree(r.l1, r.h1, r.white / (r.h1 - r.l1), TailTree(r))
  }

  /**
   * The mask value: black up to `l1`, rising linearly to white at `h1`, then white, and (when
   * `h2` is below white) white up to `h2`, falling linearly to black at `l2`, then black.
   */
  function RampValue(r: Ramp, x: real): real
    requires r.h1 != r.l1 && (r.h2 < r.white ==> r.h2 != r.l2)
  {
    if x <= r.l1 then 0.0
    else if x < r.h1 then (x - r.l1) * (r.white / (r.h1 - r.l1))
    else if r.h2 >= r.white || x <= r.h2 then r.white
    else if x < r.l2 then (x - r.l2) * (r.white / (r.h2 - r.l2))
    else 0.0
  }

  /**
   * mwlmask. A depth under 8 makes the left shift negative (ValueError); `h1 == l1`, or
   * `h2 == l2` with `h2` below white, divides by zero.
   */
  function MwlMask(bits: nat, l1: int, h1: int, h2: Option<int>, l2: Option<int>): (res: Result<Program>)
    ensures bits < 8 ==> res == Err(ValueError("negative shift count"))
    ensures bits >= 8 ==> (res.Err? <==> MwlRamp(bits, l1, h1, h2, l2).h1 == MwlRamp(bits, l1, h1, h2, l2).l1
                                         || (MwlRamp(bits, l1, h1, h2, l2).h2 < MwlRamp(bits, l1, h1, h2, l2).white
                                             && MwlRamp(bits, l1, h1, h2, l2).h2 == MwlRamp(bits, l1, h1, h2, l2).l2))
    ensures res.Err? && bits >= 8 ==> res.error == ZeroDivisionError
  {
    if bits < 8 then Err(ValueError("negative shift count"))
    else
      var r := MwlRamp(bits, l1, h1, h2, l2);
      if r.h2 < r.white && r.h2 == r.l2 then Err(ZeroDivisionError)
      else if r.h1 == r.l1 then Err(ZeroDivisionError)
      else Ok(RampProgram(r))
  }

  function MwlRamp(bits: nat, l1: int, h1: int, h2: Option<int>, l2: Option<int>): Ramp
    requires bits >= 8
  {
    var white := White(bits);
    Ramp(Shifted(l1, bits) as real, Shifted(h1, bits) as real,
         (if h2.None? then white else Shifted(h2.value, bits)) as real,
         (if l2.None? then white else Shifted(l2.value, bits)) as real,
         white as real)
  }

  /** `x L - S *` */
  lemma SlopeFacts(l: real, sl: real, x: real, y: real)
    ensures Compile(BinOf(Times, BinOf(Minus, VarX, l), sl)) == [X, Const(l), Op(Minus), Const(sl), Op(Times)]
    ensures Denote(BinOf(Times, BinOf(Minus, VarX, l), sl), x, y) == Num((x - l) * sl)
  {
    LeafFacts(sl, x, y);
    OffsetX(Minus, l, x, y);
  }

  lemma FallFacts(h2: real, white: real, l2: real, sl: real, x: real, y: real)
    ensures Compile(FallTree(h2, white, l2, sl))
              == [X, Const(h2), Op(AtMost), Const(white), X, Const(l2), Op(Less), X, Const(l2), Op(Minus),
                  Const(sl), Op(Times), Const(0.0), Cond, Cond]
    ensures Denote(FallTree(h2, white, l2, sl), x, y)
              == Num(if x <= h2 then white else if x < l2 then (x - l2) * sl else 0.0)
  {
    LeafFacts(white, x, y);
    LeafFacts(0.0, x, y);
    OffsetX(AtMost, h2, x, y);
    OffsetX(Less, l2, x, y);
    SlopeFacts(l2, sl, x, y);
    var inner := Select(BinOf(Less, VarX, l2), BinOf(Times, BinOf(Minus, VarX, l2), sl), Lit(0.0));
    assert Compile(inner) == [X, Const(l2), Op(Less), X, Const(l2), Op(Minus), Const(sl), Op(Times), Const(0.0), Cond];
  }

  lemma RiseRest(l1: real, h1: real, sl: real, tail: Expr)
    ensures Compile(Select(BinOf(Less, VarX, h1), BinOf(Times, BinOf(Minus, VarX, l1), sl), tail))
              == [X, Const(h1), Op(Less), X, Const(l1), Op(Minus), Const(sl), Op(Times)] + Compile(tail) + [Cond]
  {
    OffsetX(Less, h1, 0.0, 0.0);
    SlopeFacts(l1, sl, 0.0, 0.0);
  }

  lemma RiseCompiles(l1: real, h1: real, sl: real, tail: Expr)
    ensures Compile(RiseTree(l1, h1, sl, tail))
              == [X, Const(l1), Op(AtMost), Const(0.0), X, Const(h1), Op(Less), X, Const(l1), Op(Minus),
                  Const(sl), Op(Times)] + Compile(tail) + [Cond, Cond]
  {
    LeafFacts(0.0, 0.0, 0.0);
    OffsetX(AtMost, l1, 0.0, 0.0);
    RiseRest(l1, h1, sl, tail);
    var mid := [X, Const(h1), Op(Less), X, Const(l1), Op(Minus), Const(sl), Op(Times)];
    Regroup([X, Const(l1), Op(AtMost), Const(0.0)], mid, Compile(tail), [Cond], [Cond]);
  }

  lemma Regroup<T>(p: seq<T>, q: seq<T>, t: seq<T>, c: seq<T>, d: seq<T>)
    ensures p + (q + t + c) + d == (p + q) + t + (c + d)
  {
  }

  lemma RiseDenotes(l1: real, h1: real, sl: real, tail: Expr, x: real, y: real)
    ensures Denote(RiseTree(l1, h1, sl, tail), x, y)
              == if x <= l1 then Num(0.0) else if x < h1 then Num((x - l1) * sl) else Denote(tail, x, y)
  {
    LeafFacts(0.0, x, y);
    OffsetX(AtMost, l1, x, y);
    OffsetX(Less, h1, x, y);
    SlopeFacts(l1, sl, x, y);
  }

  lemma RampCompiles(r: Ramp)
    requires r.h1 != r.l1 && (r.h2 < r.white ==> r.h2 != r.l2)
    ensures Compile(RampTree(r)) == RampProgram(r)
  {
    RiseCompiles(r.l1, r.h1, r.white / (r.h1 - r.l1), TailTree(r));
    if r.h2 < r.white {
      FallFacts(r.h2, r.white, r.l2, r.white / (r.h2 - r.l2), 0.0, 0.0);
    } else {
      LeafFacts(r.white, 0.0, 0.0);
    }
  }

  lemma RampDenotes(r: Ramp, x: real, y: real)
    requires r.h1 != r.l1 && (r.h2 < r.white ==> r.h2 != r.l2)
    ensures Denote(RampTree(r), x, y) == Num(RampValue(r, x))
  {
    RiseDenotes(r.l1, r.h1, r.white / (r.h1 - r.l1), TailTree(r), x, y);
    if r.h2 < r.white {
      FallFacts(r.h2, r.white, r.l2, r.white / (r.h2 - r.l2), x, y);
    } else {
      LeafFacts(r.white, x, y);
    }
  }

  lemma RampMeaning(r: Ramp, x: real, y: real)
    requires r.h1 != r.l1 && (r.h2 < r.white ==> r.h2 != r.l2)
    ensures Eval(RampProgram(r), x, y) == Some(Num(RampValue(r, x)))
  {
    RampCompiles(r);
    RampDenotes(r, x, y);
    EvalCompile(RampTree(r), x, y);
  }

  lemma MwlMaskMeaning(bits: nat, l1: int, h1: int, h2: Option<int>, l2: Option<int>, x: real, y: real)
    requires MwlMask(bits, l1, h1, h2, l2).Ok?
    ensures bits >= 8
    ensures Eval(MwlMask(bits, l1, h1, h2, l2).value, x, y) == Some(Num(RampValue(MwlRamp(bits, l1, h1, h2, l2), x)))
  {
    RampMeaning(MwlRamp(bits, l1, h1, h2, l2), x, y);
  }

  lemma PartOfWhole(t: real, d: real, w: real)
    requires 0.0 < t < d && w >= 0.0
    ensures 0.0 <= t * (w / d) <= w
  {
    var q := w / d;
    assert q * d == w;
    assert q >= 0.0;
    assert t * q <= d * q;
  }

  /** With rising thresholds in order, and a falling edge (if any) in order, the mask stays within black..white. */
  lemma RampRange(r: Ramp, x: real)
    requires r.l1 < r.h1 && r.white >= 0.0 && (r.h2 < r.white ==> r.h2 < r.l2)
    ensures 0.0 <= RampValue(r, x) <= r.white
  {
    if r.l1 < x < r.h1 {
      PartOfWhole(x - r.l1, r.h1 - r.l1, r.white);
    } else if !(x <= r.l1) && !(r.h2 >= r.white || x <= r.h2) && x < r.l2 {
      PartOfWhole(r.l2 - x, r.l2 - r.h2, r.white);
      assert (x - r.l2) * (r.white / (r.h2 - r.l2)) == (r.l2 - x) * (r.white / (r.l2 - r.h2));
    }
  }

  lemma SlopeOrder(a: real, b: real, q: real)
    requires a <= b && q >= 0.0
    ensures a * q <= b * q
  {
  }

  /** Without a falling edge the mask never decreases as the luma rises. */
  lemma RampMonotone(r: Ramp, x1: real, x2: real)
    requires r.l1 < r.h1 && r.white >= 0.0 && r.h2 >= r.white && x1 <= x2
    ensures RampValue(r, x1) <= RampValue(r, x2)
  {
    var q := r.white / (r.h1 - r.l1);
    assert q * (r.h1 - r.l1) == r.white;
    RampRange(r, x1);
    RampRange(r, x2);
    if r.l1 < x1 && x2 < r.h1 {
      SlopeOrder(x1 - r.l1, x2 - r.l1, q);
    }
  }

  /** At 16 bits the default thresholds 80 and 96 become 20480 and 24576 and white is 65535. */
  lemma MwlDefaults16()
    ensures MwlRamp(16, 80, 96, None, None) == Ramp(20480.0, 24576.0, 65535.0, 65535.0, 65535.0)
    ensures MwlMask(16, 80, 96, None, None).Ok?
  {
    assert Pow2(8) == 256;
    assert Pow2(16) == 65536;
  }

  // ---------------------------------------------------------------------------------------------
  // SAdeband: a mask that is full below the limited-range black and falls linearly to zero at `thr`.

  /** `x THR > 0 65535 x LOW - 65535 * THR LOW - / - ?` */
  function DebandProgram(t: real, low: real): Program {
    [X, Const(t), Op(Greater), Const(0.0), Const(65535.0), X, Const(low), Op(Minus), Const(65535.0), Op(Times),
     Const(t), Const(low), Op(Minus), Op(Over), Op(Minus), Cond]
  }

  function DebandTree(t: real, low: real): Expr {
    Select(BinOf(Greater, VarX, t), Lit(0.0),
           Bin(Minus, Lit(65535.0),
               Bin(Over, BinOf(Times, BinOf(Minus, VarX, low), 65535.0), Bin(Minus, Lit(t), Lit(low)))))
  }

  /**
   * The mask: zero above `t`; otherwise 65535 scaled by how far `x` lies below `t`, full at `low`.
   * When `t == low` the division is by zero.
   */
  function DebandValue(t: real, low: real, x: real): Value {
    if x > t then Num(0.0)
    else if t == low then Undefined
    else Num(65535.0 * ((t - x) / (t - low)))
  }

  lemma DivUnique(a: real, d: real, q: real)
    requires d != 0.0 && q * d == a
    ensures a / d == q
  {
  }

  lemma DebandAlgebra(t: real, low: real, x: real)
    requires t != low
    ensures 65535.0 - (x - low) * 65535.0 / (t - low) == 65535.0 * ((t - x) / (t - low))
  {
    var d := t - low;
    var f := (x - low) / d;
    assert f * d == x - low;
    assert (x - low) * 65535.0 / d == 65535.0 * f by {
      DivUnique((x - low) * 65535.0, d, 65535.0 * f);
    }
    assert (t - x) / d == 1.0 - f by {
      assert (1.0 - f) * d == t - x;
      DivUnique(t - x, d, 1.0 - f);
    }
  }

  lemma DebandCompiles(t: real, low: real)
    ensures Compile(DebandTree(t, low)) == DebandProgram(t, low)
  {
    LeafFacts(0.0, 0.0, 0.0);
    LeafFacts(65535.0, 0.0, 0.0);
    LeafFacts(t, 0.0, 0.0);
    LeafFacts(low, 0.0, 0.0);
    OffsetX(Greater, t, 0.0, 0.0);
    OffsetX(Minus, low, 0.0, 0.0);
    var num := BinOf(Times, BinOf(Minus, VarX, low), 65535.0);
    assert Compile(num) == [X, Const(low), Op(Minus), Const(65535.0), Op(Times)];
    var den := Bin(Minus, Lit(t), Lit(low));
    assert Compile(den) == [Const(t), Const(low), Op(Minus)];
    var q := Bin(Over, num, den);
    assert Compile(q) == [X, Const(low), Op(Minus), Const(65535.0), Op(Times), Const(t), Const(low), Op(Minus), Op(Over)];
    var f := Bin(Minus, Lit(65535.0), q);
    assert Compile(f) == [Const(65535.0)] + Compile(q) + [Op(Minus)];
  }

  lemma DebandDenotes(t: real, low: real, x: real, y: real)
    ensures Denote(DebandTree(t, low), x, y) == DebandValue(t, low, x)
  {
    LeafFacts(0.0, x, y);
    LeafFacts(65535.0, x, y);
    LeafFacts(t, x, y);
    LeafFacts(low, x, y);
    OffsetX(Greater, t, x, y);
    OffsetX(Minus, low, x, y);
    var num := BinOf(Times, BinOf(Minus, VarX, low), 65535.0);
    assert Denote(num, x, y) == Num((x - low) * 65535.0);
    var den := Bin(Minus, Lit(t), Lit(low));
    assert Denote(den, x, y) == Num(t - low);
    var q := Bin(Over, num, den);
    var f := Bin(Minus, Lit(65535.0), q);
    if t != low {
      assert Denote(q, x, y) == Num((x - low) * 65535.0 / (t - low));
      DebandAlgebra(t, low, x);
      assert Denote(f, x, y) == Num(65535.0 * ((t - x) / (t - low)));
    } else {
      assert Denote(q, x, y) == Undefined;
    }
  }

  lemma DebandMeaning(t: real, low: real, x: real, y: real)
    ensures Eval(DebandProgram(t, low), x, y) == Some(DebandValue(t, low, x))
  {
    DebandCompiles(t, low);
    DebandDenotes(t, low, x, y);
    EvalCompile(DebandTree(t, low), x, y);
  }

  /** A share `a` of a positive whole `d`. */
  lemma Share(a: real, d: real)
    requires d > 0.0
    ensures 0.0 <= a <= d ==> 0.0 <= a / d <= 1.0
    ensures a > d ==> a / d > 1.0
    ensures a == d ==> a / d == 1.0
    ensures a == 0.0 ==> a / d == 0.0
  {
    var q := a / d;
    assert q * d == a;
  }

  lemma ShareOrder(a1: real, a2: real, d: real)
    requires d > 0.0 && a1 > a2
    ensures a1 / d > a2 / d
  {
    var q1, q2 := a1 / d, a2 / d;
    assert q1 * d == a1 && q2 * d == a2;
    assert (q1 - q2) * d == a1 - a2;
  }

  /** Between `low` and `t` the mask falls from 65535 to 0; below `low` it exceeds 65535. */
  lemma DebandShape(t: real, low: real, x: real)
    requires low < t
    ensures DebandValue(t, low, low) == Num(65535.0) && DebandValue(t, low, t) == Num(0.0)
    ensures low <= x <= t ==> 0.0 <= DebandValue(t, low, x).v <= 65535.0
    ensures x < low ==> DebandValue(t, low, x).v > 65535.0
  {
    Share(t - low, t - low);
    Share(t - t, t - low);
    Share(t - x, t - low);
  }

  /** Where the mask is not cut off, a brighter pixel gets a smaller mask value. */
  lemma DebandDecreasing(t: real, low: real, x1: real, x2: real)
    requires low < t && x1 < x2 <= t
    ensures DebandValue(t, low, x1).v > DebandValue(t, low, x2).v
  {
    ShareOrder(t - x1, t - x2, t - low);
  }

  /** How SAdeband smooths its mask, chosen by `smoothmask`. */
  datatype Smoothing = NoSmoothing | RemoveGrain(mode: int) | Convolution(matrix: seq<int>)

  /** The `smoothmask` argument: a number, a list (the convolution matrix), or anything else. */
  datatype SmoothMaskArg = Number(n: int) | Matrix(m: seq<int>) | OtherArg

  datatype DebandPlan = DebandPlan(mask: Program, smoothing: Smoothing)

  /**
   * SAdeband. The threshold is given at 8 bits and the mask is built at 16 bits; with `tvrange`
   * the lower end is the limited-range black 16. Any `smoothmask` other than -1, 0, 1, 2 or a list
   * raises TypeError.
   */
  function SAdeband(thr: real, smoothmask: SmoothMaskArg, tvrange: bool): (res: Result<DebandPlan>)
    ensures res.Err? <==> !(smoothmask.Matrix? || (smoothmask.Number? && -1 <= smoothmask.n <= 2))
    ensures res.Err? ==> res.error == TypeError("")
    ensures res.Ok? ==> res.value.mask == DebandProgram(Scale(thr), if tvrange then Scale(16.0) else 0.0)
  {
    var mask := DebandProgram(Scale(thr), if tvrange then Scale(16.0) else 0.0);
    var smoothing :=
      match smoothmask
      case Number(n) =>
        if n == -1 then Some(NoSmoothing)
        else if n == 0 then Some(RemoveGrain(11))
        else if n == 1 then Some(RemoveGrain(20))
        else if n == 2 then Some(RemoveGrain(19))
        else None
      case Matrix(m) => Some(Convolution(m))
      case OtherArg => None;
    if smoothing.None? then Err(TypeError("")) else Ok(DebandPlan(mask, smoothing.value))
  }

  /** The smoothing each accepted `smoothmask` selects. */
  lemma SAdebandSmoothing(thr: real, tvrange: bool, m: seq<int>)
    ensures SAdeband(thr, Number(-1), tvrange).value.smoothing == NoSmoothing
    ensures SAdeband(thr, Number(0), tvrange).value.smoothing == RemoveGrain(11)
    ensures SAdeband(thr, Number(1), tvrange).value.smoothing == RemoveGrain(20)
    ensures SAdeband(thr, Number(2), tvrange).value.smoothing == RemoveGrain(19)
    ensures SAdeband(thr, Matrix(m), tvrange).value.smoothing == Convolution(m)
  {
  }

  /** With the default threshold 128 and limited range, the mask runs from 4096 (full) to 32768 (zero). */
  lemma SAdebandDefault(x: real, y: real)
    ensures Eval(SAdeband(128.0, Number(0), true).value.mask, x, y) == Some(DebandValue(32768.0, 4096.0, x))
  {
    FactorOfNat(8);
    assert Pow2(8) == 256;
    DebandMeaning(32768.0, 4096.0, x, y);
  }

  // ---------------------------------------------------------------------------------------------
  // One-line masks.

  /** textsub `_mske`: `x y - abs 1 < 0 255 ?` */
  function SubtitleMaskProgram(): Program {
    [X, Y, Op(Minus), Abs, Const(1.0), Op(Less), Const(0.0), Const(255.0), Cond]
  }

  /** A pixel the subtitle changed (by at least one step) is 255, any other is 0. */
  lemma SubtitleMaskMeaning(x: real, y: real)
    ensures Eval(SubtitleMaskProgram(), x, y) == Some(Num(if AbsR(x - y) < 1.0 then 0.0 else 255.0))
  {
    var e := Select(BinOf(Less, AbsOf(Bin(Minus, VarX, VarY)), 1.0), Lit(0.0), Lit(255.0));
    DistanceFacts(x, y);
    LeafFacts(1.0, x, y);
    LeafFacts(0.0, x, y);
    LeafFacts(255.0, x, y);
    assert Compile(e.cond) == [X, Y, Op(Minus), Abs] + [Const(1.0)] + [Op(Less)];
    assert Compile(e) == Compile(e.cond) + [Const(0.0)] + [Const(255.0)] + [Cond];
    assert Compile(e) == SubtitleMaskProgram();
    assert Denote(e.cond, x, y) == Num(if AbsR(x - y) < 1.0 then 1.0 else 0.0);
    EvalCompile(e, x, y);
  }

  /** LazyDering: `x y - x y > *` */
  function PositiveDiffProgram(): Program {
    [X, Y, Op(Minus), X, Y, Op(Greater), Op(Times)]
  }

  /** The expression keeps only positive differences: `max(x - y, 0)`. */
  lemma PositiveDiffMeaning(x: real, y: real)
    ensures Eval(PositiveDiffProgram(), x, y) == Some(Num(if x > y then x - y else 0.0))
  {
    var e := Bin(Times, Bin(Minus, VarX, VarY), Bin(Greater, VarX, VarY));
    LeafFacts(0.0, x, y);
    assert Compile(Bin(Minus, VarX, VarY)) == [X, Y, Op(Minus)];
    assert Compile(Bin(Greater, VarX, VarY)) == [X, Y, Op(Greater)];
    assert Compile(e) == [X, Y, Op(Minus)] + [X, Y, Op(Greater)] + [Op(Times)];
    assert Compile(e) == PositiveDiffProgram();
    assert Denote(Bin(Minus, VarX, VarY), x, y) == Num(x - y);
    assert Denote(Bin(Greater, VarX, VarY), x, y) == Num(if x > y then 1.0 else 0.0);
    EvalCompile(e, x, y);
  }

  /** creditmask: `x y - abs 2560 > 65535 0 ?` */
  function CreditMaskProgram(): Program {
    [X, Y, Op(Minus), Abs, Const(2560.0), Op(Greater), Const(65535.0), Const(0.0), Cond]
  }

  /** A 16-bit difference of more than 2560 (10 at 8 bits) marks the pixel as credit. */
  lemma CreditMaskMeaning(x: real, y: real)
    ensures Eval(CreditMaskProgram(), x, y) == Some(Num(if AbsR(x - y) > 2560.0 then 65535.0 else 0.0))
  {
    var e := Select(BinOf(Greater, AbsOf(Bin(Minus, VarX, VarY)), 2560.0), Lit(65535.0), Lit(0.0));
    DistanceFacts(x, y);
    LeafFacts(2560.0, x, y);
    LeafFacts(65535.0, x, y);
    LeafFacts(0.0, x, y);
    assert Compile(e.cond) == [X, Y, Op(Minus), Abs] + [Const(2560.0)] + [Op(Greater)];
    assert Compile(e) == Compile(e.cond) + [Const(65535.0)] + [Const(0.0)] + [Cond];
    assert Compile(e) == CreditMaskProgram();
    assert Denote(e.cond, x, y) == Num(if AbsR(x - y) > 2560.0 then 1.0 else 0.0);
    EvalCompile(e, x, y);
  }

  /** mwenhance: `x N - abs y N - abs <= x y ?` */
  function LimitDiffProgram(n: real): Program {
    [X, Const(n), Op(Minus), Abs, Y, Const(n), Op(Minus), Abs, Op(AtMost), X, Y, Cond]
  }

  /** Of the two differences the one nearer the neutral level is kept, the first one on a tie. */
  lemma LimitDiffMeaning(n: real, x: real, y: real)
    ensures Eval(LimitDiffProgram(n), x, y) == Some(Num(if AbsR(x - n) <= AbsR(y - n) then x else y))
    ensures var r := if AbsR(x - n) <= AbsR(y - n) then x else y;
            AbsR(r - n) <= AbsR(x - n) && AbsR(r - n) <= AbsR(y - n)
  {
    var dx := AbsOf(BinOf(Minus, VarX, n));
    var dy := AbsOf(Bin(Minus, VarY, Lit(n)));
    var e := Select(Bin(AtMost, dx, dy), VarX, VarY);
    LeafFacts(n, x, y);
    OffsetX(Minus, n, x, y);
    assert Compile(dx) == [X, Const(n), Op(Minus), Abs];
    assert Denote(dx, x, y) == Num(AbsR(x - n));
    assert Compile(Bin(Minus, VarY, Lit(n))) == [Y, Const(n), Op(Minus)];
    assert Compile(dy) == [Y, Const(n), Op(Minus), Abs];
    assert Denote(dy, x, y) == Num(AbsR(y - n));
    assert Compile(e.cond) == Compile(dx) + Compile(dy) + [Op(AtMost)];
    assert Compile(e) == Compile(e.cond) + [X] + [Y] + [Cond];
    assert Compile(e) == LimitDiffProgram(n);
    assert Denote(e.cond, x, y) == Num(if AbsR(x - n) <= AbsR(y - n) then 1.0 else 0.0);
    EvalCompile(e, x, y);
  }
}
