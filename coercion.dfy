// The coercers the forms hand their submitted values to, and the month choice tables.
module Coercion {
  import opened Wrappers
  import opened Text
  import opened Python
  import opened Calendar

  /**
   * `safe_int_coerce`: `None`, `''` and `'None'` give `None`; otherwise `int(value)`, with
   * any `ValueError` or `TypeError` turned into `None`, so the coercer never raises.
   */
  function SafeIntCoerce(v: PyValue): Option<int>
  {
    if v == PyNone || v == PyStr("") || v == PyStr("None") then None
    else match v
      case PyInt(i) => Some(i)
      case PyStr(s) => ParseInt(s)
      case PyNone => None
  }

  /** `safe_int_coerce(str(n)) == n` for every integer `n`. */
  lemma {:induction false} SafeIntCoerceOfString(n: int)
    ensures SafeIntCoerce(PyStr(IntToString(n))) == Some(n)
  {
    var s := IntToString(n);
    IntToStringHead(n);
    assert s[0] != "None"[0];
    SafeIntCoerceText(s);
    ParseIntOfString(n);
  }

  /** Text other than `''` and `'None'` goes to `int()`. */
  lemma {:induction false} SafeIntCoerceText(s: string)
    requires s != "" && s != "None"
    ensures SafeIntCoerce(PyStr(s)) == ParseInt(s)
  {
  }

  /** Text with a lower-case letter in it coerces to `None` rather than raising. */
  lemma {:induction false} SafeIntCoerceRejects(s: string, k: nat)
    requires k < |s| && 'a' <= s[k] <= 'z'
    ensures SafeIntCoerce(PyStr(s)) == None
  {
    ParseIntRejects(s, k);
  }

  /** `coerce_int_or_none`: `''` and `None` give `None`, anything else goes to `int()`, which may raise. */
  function CoerceIntOrNone(v: PyValue): Result<Option<int>>
  {
    if v == PyStr("") || v == PyNone then Ok(None)
    else match v
      case PyInt(i) => Ok(Some(i))
      case PyStr(s) => (match ParseInt(s) case Some(n) => Ok(Some(n)) case None => Err("ValueError"))
      case PyNone => Ok(None)
  }

  /**
   * The two coercers agree wherever `coerce_int_or_none` returns, and `safe_int_coerce` gives
   * `None` exactly where the other raises; `'None'` is such a value.
   */
  lemma {:induction false} CoercersAgree(v: PyValue)
    ensures CoerceIntOrNone(v).Ok? ==> SafeIntCoerce(v) == CoerceIntOrNone(v).value
    ensures CoerceIntOrNone(v).Err? ==> SafeIntCoerce(v) == None
  {
    if v == PyStr("None") {
      NoneTextRaises();
    }
  }

  /** `coerce_int_or_none('None')` raises, where `safe_int_coerce('None')` gives `None`. */
  lemma {:induction false} NoneTextRaises()
    ensures CoerceIntOrNone(PyStr("None")).Err? && SafeIntCoerce(PyStr("None")).None?
  {
    ParseIntRejects("None", 1);
  }

  /** `coerce_int_or_none(str(n)) == n`. */
  lemma {:induction false} CoerceIntOrNoneOfString(n: int)
    ensures CoerceIntOrNone(PyStr(IntToString(n))) == Ok(Some(n))
  {
    IntToStringHead(n);
    ParseIntOfString(n);
  }

  /** `format_number`: `None` is shown as `'0'`; other numbers go through the given renderer. */
  function FormatNumber(number: Option<real>, render: real -> string): (r: string)
    ensures number.None? ==> r == "0"
    ensures number.Some? ==> r == render(number.value)
  {
    if number.None? then "0" else render(number.value)
  }

  /** The `mois` choices of the thermal report form: `(1, 'Janvier')` through `(12, 'Décembre')`. */
  function MoisChoices(): (r: seq<(int, string)>)
    ensures |r| == 12
  {
    seq(12, k requires 0 <= k < 12 => (k + 1, MoisNoms[k + 1]))
  }

  /** Every month choice is a real month labelled with its name, and its submitted text coerces back. */
  lemma {:induction false} MoisChoicesRoundTrip(k: int)
    requires 0 <= k < |MoisChoices()|
    ensures MonthName(MoisChoices()[k].0) == Some(MoisChoices()[k].1)
    ensures SafeIntCoerce(PyStr(IntToString(MoisChoices()[k].0))) == Some(MoisChoices()[k].0)
    ensures forall j :: 0 <= j < |MoisChoices()| && MoisChoices()[j].0 == MoisChoices()[k].0 ==> j == k
  {
    SafeIntCoerceOfString(k + 1);
  }

  /** The filter form's `mois` choices: `('', 'Tous les mois')`, then `(i, f'{i:02d}')` for 1..12. */
  function FiltreMoisChoices(): (r: seq<(PyValue, string)>)
    ensures |r| == 13
  {
    [(PyStr(""), "Tous les mois")] + seq(12, k requires 0 <= k < 12 => (PyInt(k + 1), ZeroPad(k + 1, 2)))
  }

  /** The first filter choice is the empty one; every other label is two digits that parse to its month. */
  lemma {:induction false} FiltreMoisChoicesLabels(k: int)
    requires 1 <= k < |FiltreMoisChoices()|
    ensures FiltreMoisChoices()[0] == (PyStr(""), "Tous les mois")
    ensures FiltreMoisChoices()[k].0 == PyInt(k) && 1 <= k <= 12
    ensures |FiltreMoisChoices()[k].1| == 2 && ParseInt(FiltreMoisChoices()[k].1) == Some(k)
  {
    ParseIntOfZeroPad(k, 2);
    ZeroPadMois(k);
    FiltreMoisChoiceAt(k);
  }

  lemma {:induction false} FiltreMoisChoiceAt(k: int)
    requires 1 <= k <= 12
    ensures FiltreMoisChoices()[0] == (PyStr(""), "Tous les mois")
    ensures FiltreMoisChoices()[k] == (PyInt(k), ZeroPad(k, 2))
  {
  }

  /** A month number takes two characters once padded. */
  lemma {:induction false} ZeroPadMois(k: nat)
    requires 1 <= k <= 12
    ensures |ZeroPad(k, 2)| == 2
  {
    assert |NatToString(k)| <= 2 by {
      if k >= 10 {
        assert NatToString(k) == NatToString(k / 10) + [DigitChar(k % 10)];
      }
    }
  }
}
