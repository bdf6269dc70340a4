// The Python built-ins the server code leans on: `int(...)` on text, truthiness of the
// values a form or a column can hold, and list indexing with negative indices.
module Python {
  import opened Wrappers
  import opened Text

  /** A value handed to a coercer: form data is text, defaults and route arguments may be ints. */
  datatype PyValue = PyNone | PyStr(s: string) | PyInt(i: int)

  /** `bool(v)`: `None`, `''` and `0` are false, everything else true. */
  predicate Truthy(v: PyValue)
  {
    match v
    case PyNone => false
    case PyStr(s) => s != ""
    case PyInt(i) => i != 0
  }

  /** `bool(s)` of an optional text column. */
  predicate TruthyStr(s: Option<string>)
  {
    s.Some? && s.value != ""
  }

  /** `bool(n)` of an optional integer column. */
  predicate TruthyInt(n: Option<int>)
  {
    n.Some? && n.value != 0
  }

  /** `x or 0` of an optional integer column. */
  function OrZero(n: Option<int>): int
  {
    if n.Some? then n.value else 0
  }

  /** Decimal digits with single underscores between them, as `int()` accepts them. */
  predicate DigitGroups(b: string)
  {
    && |b| > 0 && IsDigit(b[0]) && IsDigit(b[|b| - 1])
    && (forall i :: 0 <= i < |b| ==> IsDigit(b[i]) || b[i] == '_')
    && (forall i :: 0 <= i < |b| - 1 ==> b[i] == '_' ==> IsDigit(b[i + 1]))
  }

  function StripUnderscores(b: string): (r: string)
    ensures (forall i :: 0 <= i < |b| ==> IsDigit(b[i]) || b[i] == '_') ==> AllDigits(r)
    ensures AllDigits(b) ==> r == b
    decreases |b|
  {
    if b == [] then []
    else
      assert forall i :: 1 <= i < |b| ==> b[1..][i - 1] == b[i];
      (if b[0] == '_' then [] else [b[0]]) + StripUnderscores(b[1..])
  }

  function GroupsValue(b: string): nat
    requires DigitGroups(b)
  {
    DigitsValue(StripUnderscores(b))
  }

  /** `int(...)` on text already stripped of surrounding whitespace. */
  function ParseStripped(t: string): Option<int>
  {
    if |t| > 0 && (t[0] == '-' || t[0] == '+') then
      if DigitGroups(t[1..]) then Some(if t[0] == '-' then -(GroupsValue(t[1..]) as int) else GroupsValue(t[1..]))
      else None
    else if DigitGroups(t) then Some(GroupsValue(t))
    else None
  }

  /**
   * `int(s)` for a string: surrounding whitespace, an optional sign, then digit groups.
   * `None` is the `ValueError` the call raises on anything else.
   */
  function ParseInt(s: string): Option<int>
  {
    ParseStripped(Trim(s, IsPyWhitespace))
  }

  lemma {:induction false} DigitsAreGroups(d: string)
    requires |d| > 0 && AllDigits(d)
    ensures DigitGroups(d) && GroupsValue(d) == DigitsValue(d)
  {
  }

  /** Text that starts and ends with a non-blank character is its own strip. */
  lemma {:induction false} TrimNone(s: string)
    requires |s| > 0 && !IsPyWhitespace(s[0]) && !IsPyWhitespace(s[|s| - 1])
    ensures Trim(s, IsPyWhitespace) == s
  {
    TrimLeftNone(s, IsPyWhitespace);
  }

  /** Plain digits parse to their value. */
  lemma {:induction false} ParseStrippedDigits(d: string)
    requires |d| > 0 && AllDigits(d)
    ensures ParseStripped(d) == Some(DigitsValue(d))
  {
    DigitsAreGroups(d);
    assert IsDigit(d[0]);
  }

  /** A minus sign before digit groups parses to the negated value. */
  lemma {:induction false} ParseStrippedMinus(t: string)
    requires |t| > 0 && t[0] == '-' && DigitGroups(t[1..])
    ensures ParseStripped(t) == Some(-(GroupsValue(t[1..]) as int))
  {
  }

  /** A minus sign before plain digits parses to the negated value. */
  lemma {:induction false} ParseStrippedNegative(d: string)
    requires |d| > 0 && AllDigits(d)
    ensures ParseStripped("-" + d) == Some(-(DigitsValue(d) as int))
  {
    DigitsAreGroups(d);
    var t := "-" + d;
    assert t[1..] == d;
    ParseStrippedMinus(t);
  }

  /** Plain digits, with nothing around them, parse to their value. */
  lemma {:induction false} ParseIntDigits(s: string)
    requires |s| > 0 && AllDigits(s)
    ensures ParseInt(s) == Some(DigitsValue(s))
  {
    ParseStrippedDigits(s);
    TrimNone(s);
  }

  /** `str(n)` is never empty and holds only a minus sign and digits, the sign first. */
  lemma {:induction false} IntToStringHead(n: int)
    ensures |IntToString(n)| > 0 && (IntToString(n)[0] == '-' || IsDigit(IntToString(n)[0]))
    ensures forall i :: 0 <= i < |IntToString(n)| ==> IntToString(n)[i] == '-' || IsDigit(IntToString(n)[i])
  {
    var m: nat := if n < 0 then -n else n;
    NatToStringShape(m);
    var s := IntToString(n);
    if n < 0 {
      assert forall i :: 1 <= i < |s| ==> s[i] == NatToString(m)[i - 1];
    }
  }

  /** `int(str(n)) == n` for every integer. */
  lemma {:induction false} ParseIntOfString(n: int)
    ensures ParseInt(IntToString(n)) == Some(n)
  {
    var m: nat := if n < 0 then -n else n;
    NatToStringShape(m);
    NatToStringValue(m);
    var d := NatToString(m);
    if n < 0 {
      ParseIntNegative(d);
    } else {
      ParseIntDigits(d);
    }
  }

  /** A minus sign before plain digits, with nothing around them, parses to the negated value. */
  lemma {:induction false} ParseIntNegative(d: string)
    requires |d| > 0 && AllDigits(d)
    ensures ParseInt("-" + d) == Some(-(DigitsValue(d) as int))
  {
    ParseStrippedNegative(d);
    var s := "-" + d;
    assert s[|s| - 1] == d[|d| - 1];
    assert IsDigit(d[|d| - 1]);
    TrimNone(s);
  }

  /** A letter inside the stripped text makes `int()` raise. */
  lemma {:induction false} ParseStrippedRejects(t: string, k: nat)
    requires k < |t| && 'a' <= t[k] <= 'z'
    ensures ParseStripped(t).None?
  {
    if k > 0 && |t| > 0 && (t[0] == '-' || t[0] == '+') {
      assert t[1..][k - 1] == t[k];
    }
  }

  /** Text with a lower-case letter in it never parses. */
  lemma {:induction false} ParseIntRejects(s: string, k: nat)
    requires k < |s| && 'a' <= s[k] <= 'z'
    ensures ParseInt(s).None?
  {
    assert !IsPyWhitespace(s[k]);
    TrimKeeps(s, IsPyWhitespace, k);
    ParseStrippedRejects(Trim(s, IsPyWhitespace), k - (|s| - |TrimLeft(s, IsPyWhitespace)|));
  }

  /** Python's `f'{n:0{w}d}'` for a non-negative `n`: the decimal digits left-padded with zeros to width `w`. */
  function ZeroPad(n: nat, w: nat): string
  {
    var d := NatToString(n);
    if |d| < w then Zeros(w - |d|) + d else d
  }

  /** Zero-padded text parses back to the number. */
  lemma {:induction false} ParseIntOfZeroPad(n: nat, w: nat)
    ensures ParseInt(ZeroPad(n, w)) == Some(n)
  {
    var d := NatToString(n);
    NatToStringShape(n);
    NatToStringValue(n);
    var s := ZeroPad(n, w);
    if |d| < w {
      DigitsValueZeros(w - |d|, d);
    }
    ParseIntDigits(s);
  }

  /** Python's `xs[i]`: negative indices count from the end; `None` is the `IndexError`. */
  function PyIndex<T>(xs: seq<T>, i: int): (r: Option<T>)
    ensures r.Some? <==> -|xs| <= i < |xs|
    ensures 0 <= i < |xs| ==> r == Some(xs[i])
  {
    if 0 <= i < |xs| then Some(xs[i])
    else if -|xs| <= i < 0 then Some(xs[|xs| + i])
    else None
  }
}
