// String helpers shared by the parameter-string builders: ASCII case mapping
// (Python's str.lower / str.upper on the ASCII range), the decimal text of an
// integer (Python's repr / str of an int) and brace counting.
module Text {

  // ---------------------------------------------------------------- case

  function LowerChar(c: char): (r: char)
    ensures 'A' <= c <= 'Z' ==> r as int == c as int + 32
    ensures !('A' <= c <= 'Z') ==> r == c
  {
    if 'A' <= c <= 'Z' then (c as int + 32) as char else c
  }

  function UpperChar(c: char): (r: char)
    ensures 'a' <= c <= 'z' ==> r as int == c as int - 32
    ensures !('a' <= c <= 'z') ==> r == c
  {
    if 'a' <= c <= 'z' then (c as int - 32) as char else c
  }

  /** str.lower() restricted to ASCII letters. */
  function Lower(s: string): (r: string)
    ensures |r| == |s|
    ensures forall i :: 0 <= i < |s| ==> r[i] == LowerChar(s[i])
  {
    seq(|s|, i requires 0 <= i < |s| => LowerChar(s[i]))
  }

  /** str.upper() restricted to ASCII letters. */
  function Upper(s: string): (r: string)
    ensures |r| == |s|
    ensures forall i :: 0 <= i < |s| ==> r[i] == UpperChar(s[i])
  {
    seq(|s|, i requires 0 <= i < |s| => UpperChar(s[i]))
  }

  predicate IsLower(s: string) { forall i :: 0 <= i < |s| ==> !('A' <= s[i] <= 'Z') }
  predicate IsUpper(s: string) { forall i :: 0 <= i < |s| ==> !('a' <= s[i] <= 'z') }

  /** Lowering leaves no capital letter and changes nothing already lower-case. */
  lemma LowerNormalises(s: string)
    ensures IsLower(Lower(s))
    ensures Lower(Lower(s)) == Lower(s)
    ensures IsLower(s) ==> Lower(s) == s
  {
  }

  lemma UpperNormalises(s: string)
    ensures IsUpper(Upper(s))
    ensures Upper(Upper(s)) == Upper(s)
    ensures IsUpper(s) ==> Upper(s) == s
  {
  }

  // ---------------------------------------------------------------- digits

  function DigitChar(d: nat): (c: char)
    requires d < 10
    ensures '0' <= c <= '9' && c as int - '0' as int == d
  {
    ('0' as int + d) as char
  }

  /** The decimal digits of a natural number, most significant first, no leading zero. */
  function Digits(n: nat): (r: string)
    ensures |r| >= 1
    ensures forall i :: 0 <= i < |r| ==> '0' <= r[i] <= '9'
    ensures |r| > 1 ==> r[0] != '0'
  {
    if n < 10 then [DigitChar(n)] else Digits(n / 10) + [DigitChar(n % 10)]
  }

  /** repr(n) / str(n) for a Python int. */
  function Repr(n: int): (r: string)
    ensures |r| >= 1
  {
    if n < 0 then "-" + Digits(-n) else Digits(n)
  }

  /** Reads back a string of decimal digits. */
  function DigitsValue(s: string): int
  {
    if |s| == 0 then 0 else 10 * DigitsValue(s[..|s| - 1]) + (s[|s| - 1] as int - '0' as int)
  }

  function ParseInt(s: string): int
  {
    if |s| > 0 && s[0] == '-' then -DigitsValue(s[1..]) else DigitsValue(s)
  }

  lemma {:induction false} DigitsRoundTrip(n: nat)
    ensures DigitsValue(Digits(n)) == n
  {
    if n >= 10 {
      var d := Digits(n / 10) + [DigitChar(n % 10)];
      assert d[..|d| - 1] == Digits(n / 10);
      DigitsRoundTrip(n / 10);
    }
  }

  /** repr of an int reads back as the same int. */
  lemma ReprRoundTrip(n: int)
    ensures ParseInt(Repr(n)) == n
  {
    if n < 0 {
      assert ("-" + Digits(-n))[1..] == Digits(-n);
      DigitsRoundTrip(-n);
    } else {
      DigitsRoundTrip(n);
    }
  }

  /** Different ints have different text. */
  lemma ReprInjective(m: int, n: int)
    requires Repr(m) == Repr(n)
    ensures m == n
  {
    ReprRoundTrip(m);
    ReprRoundTrip(n);
  }

  // ---------------------------------------------------------------- braces

  function Delta(c: char): int
  {
    if c == '{' then 1 else if c == '}' then -1 else 0
  }

  /** Number of '{' minus number of '}' among the first n characters. */
  function NetTo(s: string, n: nat): int
    requires n <= |s|
  {
    if n == 0 then 0 else NetTo(s, n - 1) + Delta(s[n - 1])
  }

  /** Number of '{' minus number of '}'; 0 when the two counts are equal. */
  function Net(s: string): int
  {
    NetTo(s, |s|)
  }

  /** The string contains no brace at all. */
  predicate Plain(s: string)
  {
    forall i :: 0 <= i < |s| ==> s[i] != '{' && s[i] != '}'
  }

  lemma {:induction false} NetToPrefix(a: string, b: string, n: nat)
    requires n <= |a|
    ensures NetTo(a + b, n) == NetTo(a, n)
  {
    if n > 0 {
      NetToPrefix(a, b, n - 1);
    }
  }

  lemma {:induction false} NetToSuffix(a: string, b: string, k: nat)
    requires k <= |b|
    ensures NetTo(a + b, |a| + k) == NetTo(a, |a|) + NetTo(b, k)
  {
    if k == 0 {
      NetToPrefix(a, b, |a|);
    } else {
      NetToSuffix(a, b, k - 1);
      assert (a + b)[|a| + k - 1] == b[k - 1];
    }
  }

  lemma NetAppend(a: string, b: string)
    ensures Net(a + b) == Net(a) + Net(b)
  {
    NetToSuffix(a, b, |b|);
  }

  lemma {:induction false} NetToPlain(s: string, n: nat)
    requires n <= |s| && Plain(s)
    ensures NetTo(s, n) == 0
  {
    if n > 0 {
      NetToPlain(s, n - 1);
    }
  }

  lemma NetPlain(s: string)
    requires Plain(s)
    ensures Net(s) == 0
  {
    NetToPlain(s, |s|);
  }

  /** The braces themselves, named so that a piece of parameter text can be
      written as brace-free text and braces. */
  const LB: string := "{"
  const RB: string := "}"

  lemma NetBraces()
    ensures Net(LB) == 1 && Net(RB) == -1
  {
  }

  /** The text of an int never contains a brace, so splicing it in keeps the count. */
  lemma ReprPlain(n: int)
    ensures Plain(Repr(n))
  {
  }

  // ---------------------------------------------------------------- nesting

  function MinInt(a: int, b: int): int
  {
    if a < b then a else b
  }

  /** The lowest brace depth reached by the prefixes of length 0 to n. */
  function LowTo(s: string, n: nat): int
    requires n <= |s|
  {
    if n == 0 then 0 else MinInt(LowTo(s, n - 1), NetTo(s, n))
  }

  /** The lowest brace depth reached while reading `s` from its start. */
  function Low(s: string): int
  {
    LowTo(s, |s|)
  }

  /** The braces pair up: as many '{' as '}', and no prefix closes more than it has opened. */
  predicate Nested(s: string)
  {
    Net(s) == 0 && forall n :: 0 <= n <= |s| ==> NetTo(s, n) >= 0
  }

  lemma {:induction false} LowToLeast(s: string, n: nat)
    requires n <= |s|
    ensures forall m :: 0 <= m <= n ==> NetTo(s, m) >= LowTo(s, n)
  {
    if n > 0 {
      LowToLeast(s, n - 1);
    }
  }

  lemma {:induction false} LowToNonNegative(s: string, n: nat)
    requires n <= |s| && forall m :: 0 <= m <= n ==> NetTo(s, m) >= 0
    ensures LowTo(s, n) >= 0
  {
    if n > 0 {
      LowToNonNegative(s, n - 1);
    }
  }

  /** A string nests exactly when its count is zero and its lowest depth is not below zero. */
  lemma NestedByLow(s: string)
    ensures Nested(s) <==> Net(s) == 0 && Low(s) >= 0
  {
    LowToLeast(s, |s|);
    if Nested(s) {
      LowToNonNegative(s, |s|);
    }
  }

  lemma {:induction false} LowToPrefix(a: string, b: string, n: nat)
    requires n <= |a|
    ensures LowTo(a + b, n) == LowTo(a, n)
  {
    if n > 0 {
      LowToPrefix(a, b, n - 1);
      NetToPrefix(a, b, n);
    }
  }

  lemma {:induction false} LowToSuffix(a: string, b: string, k: nat)
    requires k <= |b|
    ensures LowTo(a + b, |a| + k) == MinInt(Low(a), Net(a) + LowTo(b, k))
  {
    if k == 0 {
      LowToPrefix(a, b, |a|);
      LowToLeast(a, |a|);
    } else {
      LowToSuffix(a, b, k - 1);
      NetToSuffix(a, b, k);
    }
  }

  /** Reading `a + b`: the counts add, and the lowest depth is `a`'s, or `b`'s lowest on top of `a`'s count. */
  lemma BracesAppend(a: string, b: string)
    ensures Net(a + b) == Net(a) + Net(b)
    ensures Low(a + b) == MinInt(Low(a), Net(a) + Low(b))
  {
    NetAppend(a, b);
    LowToSuffix(a, b, |b|);
  }

  lemma {:induction false} LowToPlain(s: string, n: nat)
    requires n <= |s| && Plain(s)
    ensures LowTo(s, n) == 0
  {
    if n > 0 {
      LowToPlain(s, n - 1);
      NetToPlain(s, n);
    }
  }

  lemma BracesPlain(s: string)
    requires Plain(s)
    ensures Net(s) == 0 && Low(s) == 0
  {
    NetPlain(s);
    LowToPlain(s, |s|);
  }

  lemma BracesOfBraces()
    ensures Net(LB) == 1 && Low(LB) == 0
    ensures Net(RB) == -1 && Low(RB) == -1
  {
    NetBraces();
  }
}
