// JavaScript numbers as the browser scripts use them: IEEE special values,
// truthiness, `x || 0`, comparisons that are false on NaN, the four operators,
// `parseFloat` and `Number.prototype.toFixed`. Finite values are exact reals:
// rounding to double precision, overflow to Infinity and negative zero are not
// modelled.
module JsNumbers {
  import opened Wrappers
  import opened Text

  datatype JsNumber = NaN | PosInf | NegInf | Finite(r: real)

  /** `!!x` for a number: NaN and zero are falsy. */
  predicate Truthy(x: JsNumber)
  {
    x != NaN && x != Finite(0.0)
  }

  /** `x || 0`: a falsy number becomes 0. */
  function OrZero(x: JsNumber): (r: JsNumber)
    ensures r != NaN
    ensures Truthy(x) ==> r == x
    ensures !Truthy(x) ==> r == Finite(0.0)
  {
    if Truthy(x) then x else Finite(0.0)
  }

  /** `a < b`; false as soon as one side is NaN. */
  predicate Less(a: JsNumber, b: JsNumber)
  {
    if a == NaN || b == NaN then false
    else if a.Finite? && b.Finite? then a.r < b.r
    else a != b && (a == NegInf || b == PosInf)
  }

  /** `a <= b`; false as soon as one side is NaN. */
  predicate LessEq(a: JsNumber, b: JsNumber)
  {
    a != NaN && b != NaN && !Less(b, a)
  }

  /** `-x`. */
  function Neg(x: JsNumber): JsNumber
  {
    match x
    case NaN => NaN
    case PosInf => NegInf
    case NegInf => PosInf
    case Finite(r) => Finite(-r)
  }

  /** `a + b`. */
  function Add(a: JsNumber, b: JsNumber): JsNumber
  {
    if a == NaN || b == NaN then NaN
    else if a.Finite? && b.Finite? then Finite(a.r + b.r)
    else if (a == PosInf && b == NegInf) || (a == NegInf && b == PosInf) then NaN
    else if a == PosInf || b == PosInf then PosInf
    else NegInf
  }

  /** `a - b`. */
  function Sub(a: JsNumber, b: JsNumber): JsNumber
  {
    Add(a, Neg(b))
  }

  predicate Negative(x: JsNumber)
  {
    x == NegInf || (x.Finite? && x.r < 0.0)
  }

  /** An infinity carrying the sign of a product or quotient. */
  function SignedInf(negative: bool): JsNumber
  {
    if negative then NegInf else PosInf
  }

  /** `a * b`. */
  function Mul(a: JsNumber, b: JsNumber): JsNumber
  {
    if a == NaN || b == NaN then NaN
    else if a.Finite? && b.Finite? then Finite(a.r * b.r)
    else if a == Finite(0.0) || b == Finite(0.0) then NaN
    else SignedInf(Negative(a) != Negative(b))
  }

  /** `a / b`; a zero divisor is taken to be +0. */
  function Div(a: JsNumber, b: JsNumber): JsNumber
  {
    if a == NaN || b == NaN then NaN
    else if !a.Finite? && !b.Finite? then NaN
    else if !a.Finite? then SignedInf(Negative(a) != Negative(b))
    else if !b.Finite? then Finite(0.0)
    else if b.r == 0.0 then (if a.r == 0.0 then NaN else SignedInf(a.r < 0.0))
    else Finite(a.r / b.r)
  }

  /** `Math.max(a, b)`: NaN wins. */
  function Max(a: JsNumber, b: JsNumber): (r: JsNumber)
    ensures (a == NaN || b == NaN) <==> r == NaN
    ensures r != NaN ==> LessEq(a, r) && LessEq(b, r) && (r == a || r == b)
  {
    if a == NaN || b == NaN then NaN else if Less(a, b) then b else a
  }

  lemma {:induction false} FiniteArithmetic(x: real, y: real)
    ensures Add(Finite(x), Finite(y)) == Finite(x + y)
    ensures Sub(Finite(x), Finite(y)) == Finite(x - y)
    ensures Max(Finite(x), Finite(y)) == Finite(if x < y then y else x)
  {
  }

  /** The characters JavaScript's `trim` and `parseFloat` treat as white space. */
  predicate IsJsWhitespace(c: char)
  {
    c == '\t' || c == '\n' || c == '\U{0B}' || c == '\U{0C}' || c == '\r' || c == ' ' ||
    c == '\U{A0}' || c == '\U{1680}' || ('\U{2000}' <= c <= '\U{200A}') ||
    c == '\U{2028}' || c == '\U{2029}' || c == '\U{202F}' || c == '\U{205F}' ||
    c == '\U{3000}' || c == '\U{FEFF}'
  }

  /** `v * 10^e` as an exact real, one power of ten at a time. */
  function Shift(v: real, e: int): real
    decreases if e >= 0 then e else -e
  {
    if e == 0 then v else if e > 0 then Shift(v, e - 1) * 10.0 else Shift(v, e + 1) / 10.0
  }

  /** The exponent part that starts at `k`, if there is one: its value and where it ends. */
  function ExponentAt(u: string, k: nat): (r: (int, nat))
    requires k <= |u|
    ensures k <= r.1 <= |u|
  {
    if k < |u| && (u[k] == 'e' || u[k] == 'E') then
      var signed := k + 1 < |u| && (u[k + 1] == '+' || u[k + 1] == '-');
      var start := if signed then k + 2 else k + 1;
      var end := DigitRunEnd(u, start);
      if end == start then (0, k)
      else
        var v: int := DigitsValue(u[start..end]);
        (if signed && u[k + 1] == '-' then -v else v, end)
    else (0, k)
  }

  /** The longest prefix of `u` that is an unsigned decimal literal, read as a number. */
  function ParseUnsigned(u: string): Option<JsNumber>
  {
    if StartsWith(u, "Infinity") then Some(PosInf)
    else
      var i := DigitRunEnd(u, 0);
      if i < |u| && u[i] == '.' then
        var j := DigitRunEnd(u, i + 1);
        if i == 0 && j == i + 1 then None
        else
          var e := ExponentAt(u, j).0;
          Some(Finite(Shift(DigitsValue(u[..i] + u[i + 1..j]) as real, e - (j - i - 1))))
      else if i == 0 then None
      else
        var e := ExponentAt(u, i).0;
        Some(Finite(Shift(DigitsValue(u[..i]) as real, e)))
  }

  /** `parseFloat(s)`: leading white space, an optional sign, then the longest decimal prefix. */
  function ParseFloat(s: string): JsNumber
  {
    var t := TrimLeft(s, IsJsWhitespace);
    var negative := |t| > 0 && t[0] == '-';
    var u := if |t| > 0 && (t[0] == '+' || t[0] == '-') then t[1..] else t;
    match ParseUnsigned(u)
    case None => NaN
    case Some(v) => if negative then Neg(v) else v
  }

  /** `parseFloat(undefined)`, the value of a missing field. */
  function ParseFloatOpt(s: Option<string>): (r: JsNumber)
    ensures s.None? ==> r == NaN
  {
    match s
    case None => NaN
    case Some(v) => ParseFloat(v)
  }

  /** A non-empty run of digits parses as its decimal value. */
  lemma {:induction false} ParseUnsignedDigits(s: string)
    requires |s| > 0 && AllDigits(s)
    ensures ParseUnsigned(s) == Some(Finite(DigitsValue(s) as real))
  {
    if StartsWith(s, "Infinity") {
      StartsWithHead(s, "Infinity");
      assert false;
    }
    DigitRunWhole(s, 0);
    assert s[..|s|] == s;
  }

  /** parseFloat reads back the decimal rendering of every natural number. */
  lemma {:induction false} ParseFloatNat(n: nat)
    ensures ParseFloat(NatToString(n)) == Finite(n as real)
  {
    var s := NatToString(n);
    NatToStringShape(n);
    NatToStringValue(n);
    assert !IsJsWhitespace(s[0]) by {
      assert IsDigit(s[0]);
    }
    TrimLeftNone(s, IsJsWhitespace);
    assert !(s[0] == '+' || s[0] == '-') by {
      assert IsDigit(s[0]);
    }
    ParseUnsignedDigits(s);
  }

  /** `x * 10^f` rounded half up: the integer that `x.toFixed(f)` writes out. */
  function FixedUnits(x: real, f: nat): nat
    requires x >= 0.0
  {
    var scaled := Shift(x, f) + 0.5;
    if scaled.Floor < 0 then 0 else scaled.Floor
  }

  /** The digits of `FixedUnits(x, f)`, left-padded with zeros to more than `f` of them. */
  function Padded(x: real, f: nat): (p: string)
    requires x >= 0.0
    ensures |p| > f && AllDigits(p) && DigitsValue(p) == FixedUnits(x, f)
  {
    var n := FixedUnits(x, f);
    var digits := NatToString(n);
    NatToStringShape(n);
    NatToStringValue(n);
    if |digits| <= f then
      DigitsValueZeros(f + 1 - |digits|, digits);
      Zeros(f + 1 - |digits|) + digits
    else digits
  }

  /** `x.toFixed(f)` for a non-negative real: round half up to `f` decimals. */
  function FixedDigits(x: real, f: nat): (s: string)
    requires x >= 0.0
    ensures |s| > 0
  {
    var p := Padded(x, f);
    if f == 0 then p else p[..|p| - f] + "." + p[|p| - f..]
  }

  /** `x.toFixed(f)`: NaN and the infinities print as words, a negative number gets a '-'. */
  function ToFixed(x: JsNumber, f: nat): string
  {
    match x
    case NaN => "NaN"
    case PosInf => "Infinity"
    case NegInf => "-Infinity"
    case Finite(r) => FiniteFixed(r, f)
  }

  function Abs(r: real): (a: real)
    ensures a >= 0.0 && (a == r || a == -r)
  {
    if r < 0.0 then -r else r
  }

  /** `r.toFixed(f)` for a finite `r`: a negative number gets a '-'. */
  function FiniteFixed(r: real, f: nat): string
  {
    (if r < 0.0 then "-" else "") + FixedDigits(Abs(r), f)
  }

  /** The number `x.toFixed(f)` writes for a non-negative `x`: `x` rounded half up to `f` decimals. */
  function FixedValue(x: real, f: nat): real
    requires x >= 0.0
  {
    Shift(FixedUnits(x, f) as real, -(f as int))
  }

  /** The number `r.toFixed(f)` writes: `r` rounded half away from zero to `f` decimals. */
  function Rounded(r: real, f: nat): real
  {
    if r < 0.0 then -FixedValue(Abs(r), f) else FixedValue(Abs(r), f)
  }

  /** Text that cannot continue a number literal: nothing, or a character other than a digit or an exponent mark. */
  predicate EndsNumber(tail: string)
  {
    tail == [] || (!IsDigit(tail[0]) && tail[0] != 'e' && tail[0] != 'E')
  }

  /** `toFixed`'s output with `f > 0`: the integer digits, a point, then `f` decimals. */
  lemma {:induction false} FixedSplit(x: real, f: nat)
    requires x >= 0.0 && f > 0
    ensures var p := Padded(x, f);
      FixedDigits(x, f) == p[..|p| - f] + "." + p[|p| - f..] &&
      |p[..|p| - f]| > 0 && AllDigits(p[..|p| - f]) && |p[|p| - f..]| == f && AllDigits(p[|p| - f..]) &&
      p[..|p| - f] + p[|p| - f..] == p
  {
  }

  /** What `parseFloat` makes of an unsigned literal with a point, once its layout is known. */
  lemma {:induction false} ParseUnsignedPoint(u: string, i: nat, j: nat, digits: string, k: nat)
    requires 0 < i < j <= |u| && u[i] == '.' && k == j - i - 1
    requires !StartsWith(u, "Infinity") && DigitRunEnd(u, 0) == i && DigitRunEnd(u, i + 1) == j
    requires ExponentAt(u, j).0 == 0
    requires AllDigits(digits) && u[..i] + u[i + 1..j] == digits
    ensures ParseUnsigned(u) == Some(Finite(Shift(DigitsValue(digits) as real, -(k as int))))
  {
  }

  /** The layout of digits, a point, more digits and a tail that ends the literal. */
  lemma {:induction false} DecimalLayout(a: string, b: string, tail: string)
    requires |a| > 0 && |b| > 0 && AllDigits(a) && AllDigits(b) && EndsNumber(tail)
    ensures var u := a + "." + b + tail; var i := |a|; var j := |a| + 1 + |b|;
      j <= |u| && u[i] == '.' && !StartsWith(u, "Infinity") &&
      DigitRunEnd(u, 0) == i && DigitRunEnd(u, i + 1) == j &&
      ExponentAt(u, j).0 == 0 && u[..i] + u[i + 1..j] == a + b
  {
    var u := a + "." + b + tail;
    var i := |a|;
    var j := |a| + 1 + |b|;
    assert IsDigit(u[0]) by {
      assert u[0] == a[0];
    }
    if StartsWith(u, "Infinity") {
      StartsWithHead(u, "Infinity");
      assert false;
    }
    forall k | 0 <= k < i ensures IsDigit(u[k]) {
      assert u[k] == a[k];
    }
    assert u[i] == '.';
    DigitRunIs(u, 0, i);
    forall k | i + 1 <= k < j ensures IsDigit(u[k]) {
      assert u[k] == b[k - i - 1];
    }
    if j < |u| {
      assert u[j] == tail[0];
    }
    DigitRunIs(u, i + 1, j);
    assert u[..i] + u[i + 1..j] == a + b;
  }

  /** `parseFloat`'s reading of digits, a point and more digits, followed by text that ends the literal. */
  lemma {:induction false} ParseDecimal(a: string, b: string, tail: string, n: nat)
    requires |a| > 0 && |b| > 0 && AllDigits(a) && AllDigits(b) && EndsNumber(tail)
    requires AllDigits(a + b) && DigitsValue(a + b) == n
    ensures ParseUnsigned(a + "." + b + tail) == Some(Finite(Shift(n as real, -(|b| as int))))
  {
    var u := a + "." + b + tail;
    DecimalLayout(a, b, tail);
    ParseUnsignedPoint(u, |a|, |a| + 1 + |b|, a + b, |b|);
  }

  /** `parseFloat` reads `x.toFixed(f)` back as the rounded value, whatever non-numeric text follows. */
  lemma {:induction false} ParseFixedDigits(x: real, f: nat, tail: string)
    requires x >= 0.0 && f > 0 && EndsNumber(tail)
    ensures IsDigit(FixedDigits(x, f)[0])
    ensures ParseUnsigned(FixedDigits(x, f) + tail) == Some(Finite(FixedValue(x, f)))
  {
    ParsePointedValue(Padded(x, f), f, tail, FixedDigits(x, f), FixedValue(x, f));
  }

  /** `ParsePointed` for a literal `u` known to be that layout and a value `v` known to be its reading. */
  lemma {:induction false} ParsePointedValue(p: string, f: nat, tail: string, u: string, v: real)
    requires |p| > f > 0 && AllDigits(p) && EndsNumber(tail)
    requires u == p[..|p| - f] + "." + p[|p| - f..]
    requires v == Shift(DigitsValue(p) as real, -(f as int))
    ensures IsDigit(u[0])
    ensures ParseUnsigned(u + tail) == Some(Finite(v))
  {
    ParsePointed(p, f, tail);
  }

  /** A run of digits with a point put before its last `f` digits reads as the run's value shifted by `f`. */
  lemma {:induction false} ParsePointed(p: string, f: nat, tail: string)
    requires |p| > f > 0 && AllDigits(p) && EndsNumber(tail)
    ensures IsDigit((p[..|p| - f] + "." + p[|p| - f..])[0])
    ensures ParseUnsigned(p[..|p| - f] + "." + p[|p| - f..] + tail) ==
      Some(Finite(Shift(DigitsValue(p) as real, -(f as int))))
  {
    var a, b := p[..|p| - f], p[|p| - f..];
    assert (a + "." + b)[0] == a[0] == p[0];
    assert a + b == p;
    forall k | 0 <= k < |a| ensures IsDigit(a[k]) { assert a[k] == p[k]; }
    forall k | 0 <= k < |b| ensures IsDigit(b[k]) { assert b[k] == p[k + |a|]; }
    ParseDecimal(a, b, tail, DigitsValue(p));
  }

  /** `parseFloat` reads `r.toFixed(f)` back as `r` rounded to `f` decimals, whatever non-numeric text follows. */
  lemma {:induction false} ParseToFixed(r: real, f: nat, tail: string)
    requires f > 0 && EndsNumber(tail)
    ensures ParseFloat(FiniteFixed(r, f) + tail) == Finite(Rounded(r, f))
  {
    if r < 0.0 {
      ParseNegativeFixed(r, f, tail, FiniteFixed(r, f) + tail);
    } else {
      ParsePositiveFixed(r, f, tail);
    }
  }

  lemma {:induction false} ParseNegativeFixed(r: real, f: nat, tail: string, s: string)
    requires r < 0.0 && f > 0 && EndsNumber(tail) && s == FiniteFixed(r, f) + tail
    ensures ParseFloat(s) == Finite(Rounded(r, f))
  {
    NegativeFixedText(r, f, tail);
    ParseMinusFixedAt(Abs(r), f, tail, s);
  }

  lemma {:induction false} ParseMinusFixedAt(x: real, f: nat, tail: string, s: string)
    requires x >= 0.0 && f > 0 && EndsNumber(tail) && s == "-" + (FixedDigits(x, f) + tail)
    ensures ParseFloat(s) == Finite(-FixedValue(x, f))
  {
    ParseMinusFixed(x, f, tail);
  }

  lemma {:induction false} NegativeFixedText(r: real, f: nat, tail: string)
    requires r < 0.0
    ensures FiniteFixed(r, f) + tail == "-" + (FixedDigits(Abs(r), f) + tail)
    ensures Rounded(r, f) == -FixedValue(Abs(r), f)
  {
  }

  lemma {:induction false} ParseMinusFixed(x: real, f: nat, tail: string)
    requires x >= 0.0 && f > 0 && EndsNumber(tail)
    ensures ParseFloat("-" + (FixedDigits(x, f) + tail)) == Finite(-FixedValue(x, f))
  {
    var u := FixedDigits(x, f) + tail;
    ParseFixedDigits(x, f, tail);
    ParseFloatMinus(u);
    assert ParseUnsigned(u) == Some(Finite(FixedValue(x, f)));
    assert Neg(Finite(FixedValue(x, f))) == Finite(-FixedValue(x, f));
  }

  lemma {:induction false} ParsePositiveFixed(r: real, f: nat, tail: string)
    requires r >= 0.0 && f > 0 && EndsNumber(tail)
    ensures ParseFloat(FiniteFixed(r, f) + tail) == Finite(Rounded(r, f))
  {
    var d := FixedDigits(Abs(r), f);
    PositiveFixedText(r, f, tail);
    ParseFixedDigits(Abs(r), f, tail);
    assert (d + tail)[0] == d[0];
    ParseFloatUnsigned(d + tail);
  }

  lemma {:induction false} PositiveFixedText(r: real, f: nat, tail: string)
    requires r >= 0.0
    ensures FiniteFixed(r, f) + tail == FixedDigits(Abs(r), f) + tail
    ensures Rounded(r, f) == FixedValue(Abs(r), f)
  {
  }

  /** `parseFloat` on text that starts with neither white space nor a sign. */
  lemma {:induction false} ParseFloatUnsigned(u: string)
    requires |u| > 0 && !IsJsWhitespace(u[0]) && u[0] != '+' && u[0] != '-'
    ensures ParseFloat(u) == ParseUnsigned(u).GetOr(NaN)
  {
    TrimLeftNone(u, IsJsWhitespace);
  }

  /** `parseFloat` on a minus sign followed by an unsigned literal. */
  lemma {:induction false} ParseFloatMinus(u: string)
    ensures ParseFloat("-" + u) == (match ParseUnsigned(u) case None => NaN case Some(v) => Neg(v))
  {
    var s := "-" + u;
    TrimLeftNone(s, IsJsWhitespace);
    var t := TrimLeft(s, IsJsWhitespace);
    assert t == s && t[0] == '-' && t[1..] == u;
  }

  lemma {:induction false} ShiftUp(v: real, k: nat)
    ensures Shift(v, k) == v * Pow10(k) as real
    decreases k
  {
    if k > 0 {
      ShiftUp(v, k - 1);
    }
  }

  lemma {:induction false} ShiftDown(v: real, k: nat)
    ensures Shift(v, -(k as int)) == v / Pow10(k) as real
    decreases k
  {
    if k > 0 {
      ShiftDown(v, k - 1);
      assert Shift(v, -(k as int)) == Shift(v, -(k as int - 1)) / 10.0;
      assert Pow10(k) as real == Pow10(k - 1) as real * 10.0;
      DivideTwice(v, Pow10(k - 1) as real, 10.0);
    }
  }

  lemma {:induction false} DivideTwice(v: real, p: real, c: real)
    requires p > 0.0 && c > 0.0
    ensures v / p / c == v / (p * c)
  {
    var a := v / p;
    assert a * p == v;
    var b := a / c;
    assert b * c == a;
    assert b * (p * c) == (b * c) * p;
  }

  lemma {:induction false} DivSum(a: real, b: real, q: real)
    requires q != 0.0
    ensures (a + b) / q == a / q + b / q
  {
  }

  lemma {:induction false} DivideBounds(a: real, lo: real, hi: real, q: real)
    requires q > 0.0 && lo <= a <= hi
    ensures lo / q <= a / q <= hi / q
  {
  }

  lemma {:induction false} CloseAfterDivide(x: real, q: real, n: real)
    requires q > 0.0 && x * q - 0.5 <= n <= x * q + 0.5
    ensures x - 0.5 / q <= n / q <= x + 0.5 / q
  {
    var y := x * q;
    DivideBounds(n, y - 0.5, y + 0.5, q);
    DivSum(y, 0.5, q);
    DivSum(y, -0.5, q);
    assert y / q == x;
  }

  /** Rounding half up moves a non-negative number by at most half a unit of the last place. */
  lemma {:induction false} FixedUnitsClose(x: real, f: nat)
    requires x >= 0.0
    ensures var q := Pow10(f) as real;
      x - 0.5 / q <= FixedValue(x, f) <= x + 0.5 / q
  {
    var q := Pow10(f) as real;
    var n := FixedUnits(x, f) as real;
    assert x * q - 0.5 <= n <= x * q + 0.5 by {
      ShiftUp(x, f);
      var scaled := Shift(x, f) + 0.5;
      assert FixedUnits(x, f) == scaled.Floor;
    }
    ShiftDown(n, f);
    CloseAfterDivide(x, q, n);
  }

  /** `toFixed(f)` is within half a unit of the last place of the number it prints. */
  lemma {:induction false} RoundedClose(r: real, f: nat)
    ensures var q := Pow10(f) as real; r - 0.5 / q <= Rounded(r, f) <= r + 0.5 / q
  {
    FixedUnitsClose(Abs(r), f);
  }
}
