// The monthly-collection form (year choices, its default year, the duplicate and future-period
// checks) and the date check of the new-project form. Dates are given as (year, month).
module CollecteForms {
  import opened Wrappers
  import opened Text
  import opened Python
  import opened CollecteModel
  import Calendar

  /** `[(str(y), str(y)) for y in range(current_year - 5, current_year + 3)]`. */
  function YearChoices(currentYear: int): seq<(string, string)>
  {
    seq(8, k requires 0 <= k < 8 => (IntToString(currentYear - 5 + k), IntToString(currentYear - 5 + k)))
  }

  /** Eight years from five before the current one to two after it, in order, each shown as itself. */
  lemma {:induction false} YearChoicesRange(currentYear: int)
    ensures |YearChoices(currentYear)| == 8
    ensures forall k :: 0 <= k < 8 ==> YearChoices(currentYear)[k].0 == YearChoices(currentYear)[k].1
    ensures forall k :: 0 <= k < 8 ==> ParseInt(YearChoices(currentYear)[k].0) == Some(currentYear - 5 + k)
    ensures YearChoices(currentYear)[5].0 == IntToString(currentYear)
  {
    forall k | 0 <= k < 8
      ensures ParseInt(YearChoices(currentYear)[k].0) == Some(currentYear - 5 + k)
    {
      ParseIntOfString(currentYear - 5 + k);
    }
  }

  /** A year offered by the form is one of those eight years. */
  lemma {:induction false} YearChoicesOnly(currentYear: int, y: int)
    requires exists k :: 0 <= k < 8 && YearChoices(currentYear)[k].0 == IntToString(y)
    ensures currentYear - 5 <= y <= currentYear + 2
  {
    var k :| 0 <= k < 8 && YearChoices(currentYear)[k].0 == IntToString(y);
    Calendar.IntToStringInjective(y, currentYear - 5 + k);
  }

  /** Where `validate` puts its messages. */
  datatype FormError =
    | ExistingCollecte(mois: string, annee: string, statut: Option<StatutCollecte>)
    | FuturePeriod
    | InvalidPeriod

  /**
   * `existing and existing.statut != 'brouillon'` as written: the status is an enum member,
   * which never equals the text, so every existing collection blocks, drafts included.
   */
  predicate BlocksAsWritten(existing: Option<Collecte>)
  {
    existing.Some? && !StatutEqualsText(existing.value.statut, "brouillon")
  }

  /** The intended test: an existing collection blocks unless it is still a draft. */
  predicate Blocks(existing: Option<Collecte>)
  {
    existing.Some? && existing.value.statut != Some(Brouillon)
  }

  /** An existing draft is refused as written and accepted as intended; a submitted one is refused by both. */
  lemma {:induction false} BlocksAsWrittenRefusesDrafts(c: Collecte)
    ensures BlocksAsWritten(Some(c))
    ensures c.statut == Some(Brouillon) ==> !Blocks(Some(c))
    ensures c.statut != Some(Brouillon) ==> Blocks(Some(c))
    ensures !BlocksAsWritten(None) && !Blocks(None)
  {
  }

  /** The filter of the duplicate queries: the same operator and period, and still active. */
  predicate SamePeriod(c: Collecte, operateurId: int, annee: int, mois: int)
  {
    c.operateurId == operateurId && c.annee == annee && c.mois == mois && c.actif
  }

  /** The position of the first row from `from` on that the duplicate query finds. */
  function ExistingIndex(rows: seq<Collecte>, operateurId: int, annee: int, mois: int, from: nat): (r: Option<nat>)
    requires from <= |rows|
    ensures r.Some? ==> from <= r.value < |rows| && SamePeriod(rows[r.value], operateurId, annee, mois)
    ensures r.Some? ==> forall k :: from <= k < r.value ==> !SamePeriod(rows[k], operateurId, annee, mois)
    ensures r.None? <==> forall k :: from <= k < |rows| ==> !SamePeriod(rows[k], operateurId, annee, mois)
    decreases |rows| - from
  {
    if from == |rows| then None
    else if SamePeriod(rows[from], operateurId, annee, mois) then Some(from)
    else ExistingIndex(rows, operateurId, annee, mois, from + 1)
  }

  /** `.first()` of that query (by the unique key there is at most one such row). */
  function ExistingFor(rows: seq<Collecte>, operateurId: int, annee: int, mois: int): (r: Option<Collecte>)
    ensures r.Some? ==> r.value in rows && SamePeriod(r.value, operateurId, annee, mois)
    ensures r.None? <==> forall k :: 0 <= k < |rows| ==> !SamePeriod(rows[k], operateurId, annee, mois)
  {
    match ExistingIndex(rows, operateurId, annee, mois, 0)
    case Some(i) => Some(rows[i])
    case None => None
  }

  /** `date(annee, mois, 1)` exists: a month of the year and a year of `datetime`'s range. */
  predicate IsDate(annee: int, mois: int)
  {
    1 <= annee <= 9999 && 1 <= mois <= 12
  }

  /** The first day of the month comes after the first day of the current month. */
  predicate AfterMonth(annee: int, mois: int, todayYear: int, todayMonth: int)
  {
    annee > todayYear || (annee == todayYear && mois > todayMonth)
  }

  /** What `validate` returns and which messages it adds to `mois` and to `annee`. */
  datatype Validation = Validation(outcome: Result<bool>, moisErrors: seq<FormError>, anneeErrors: seq<FormError>)

  /**
   * `CollecteDonneesMensuellesForm.validate`, read on values: the field validators' verdict,
   * the user's operator, the table, the submitted texts with what `int()` makes of them, and
   * today's month. The duplicate query converts the texts outside the `try`, so a text that
   * is not a number raises there.
   */
  function ValidateSpec(baseValid: bool, operateurId: Option<int>, rows: seq<Collecte>,
                        annee: string, mois: string, y: Option<int>, m: Option<int>,
                        todayYear: int, todayMonth: int,
                        blocks: Option<Collecte> -> bool): Validation
  {
    if !baseValid then Validation(Ok(false), [], [])
    else if TruthyInt(operateurId) then
      ExistingStep(operateurId.value, rows, annee, mois, y, m, blocks).GetOr(PeriodStep(y, m, todayYear, todayMonth))
    else PeriodStep(y, m, todayYear, todayMonth)
  }

  /**
   * The duplicate check for a user with an operator; `None` lets the period check run. The
   * status test on the collection found is a parameter: `BlocksAsWritten` for the form as
   * written, `Blocks` for the intended one.
   */
  function ExistingStep(operateurId: int, rows: seq<Collecte>, annee: string, mois: string,
                        y: Option<int>, m: Option<int>, blocks: Option<Collecte> -> bool): Option<Validation>
  {
    if y.None? || m.None? then Some(Validation(Err("ValueError"), [], []))
    else
      var e := ExistingFor(rows, operateurId, y.value, m.value);
      if e.Some? && blocks(e) then Some(Validation(Ok(false), [ExistingCollecte(mois, annee, e.value.statut)], []))
      else None
  }

  /** The period check inside the `try`: an impossible date, then a future month. */
  function PeriodStep(y: Option<int>, m: Option<int>, todayYear: int, todayMonth: int): Validation
  {
    if y.None? || m.None? || !IsDate(y.value, m.value) then Validation(Ok(false), [], [InvalidPeriod])
    else if AfterMonth(y.value, m.value, todayYear, todayMonth) then Validation(Ok(false), [FuturePeriod], [])
    else Validation(Ok(true), [], [])
  }

  /**
   * The form accepts exactly a valid, existing, non-future period with no blocking collection of
   * the user's operator; a refusal always carries exactly one message, an acceptance none.
   */
  lemma {:induction false} ValidateAccepts(baseValid: bool, operateurId: Option<int>, rows: seq<Collecte>,
                        annee: string, mois: string, todayYear: int, todayMonth: int,
                        blocks: Option<Collecte> -> bool)
    ensures var v := ValidateSpec(baseValid, operateurId, rows, annee, mois, ParseInt(annee), ParseInt(mois), todayYear, todayMonth, blocks);
      v.outcome == Ok(true) <==>
        (baseValid && ParseInt(annee).Some? && ParseInt(mois).Some?
         && IsDate(ParseInt(annee).value, ParseInt(mois).value)
         && !AfterMonth(ParseInt(annee).value, ParseInt(mois).value, todayYear, todayMonth)
         && (TruthyInt(operateurId) ==>
            var e := ExistingFor(rows, operateurId.value, ParseInt(annee).value, ParseInt(mois).value);
            !(e.Some? && blocks(e))))
    ensures var v := ValidateSpec(baseValid, operateurId, rows, annee, mois, ParseInt(annee), ParseInt(mois), todayYear, todayMonth, blocks);
      v.outcome == Ok(false) && baseValid ==> |v.moisErrors| + |v.anneeErrors| == 1
    ensures var v := ValidateSpec(baseValid, operateurId, rows, annee, mois, ParseInt(annee), ParseInt(mois), todayYear, todayMonth, blocks);
      v.outcome != Ok(false) ==> v.moisErrors == [] && v.anneeErrors == []
  {
    var y, m := ParseInt(annee), ParseInt(mois);
    PeriodStepMeaning(y, m, todayYear, todayMonth);
    if baseValid && TruthyInt(operateurId) {
      ExistingStepMeaning(operateurId.value, rows, annee, mois, y, m, blocks);
    }
  }

  /** The period check accepts exactly an existing, non-future month, and a refusal carries one message. */
  lemma {:induction false} PeriodStepMeaning(y: Option<int>, m: Option<int>, todayYear: int, todayMonth: int)
    ensures var v := PeriodStep(y, m, todayYear, todayMonth);
      (v.outcome == Ok(true) <==> y.Some? && m.Some? && IsDate(y.value, m.value) && !AfterMonth(y.value, m.value, todayYear, todayMonth))
      && (v.outcome == Ok(true) || v.outcome == Ok(false))
      && (v.outcome == Ok(false) ==> |v.moisErrors| + |v.anneeErrors| == 1)
      && (v.outcome == Ok(true) ==> v.moisErrors == [] && v.anneeErrors == [])
  {
  }

  /** The duplicate check stops validation exactly on unparsable numbers or a collection failing the test. */
  lemma {:induction false} ExistingStepMeaning(operateurId: int, rows: seq<Collecte>, annee: string, mois: string,
                        y: Option<int>, m: Option<int>, blocks: Option<Collecte> -> bool)
    ensures var s := ExistingStep(operateurId, rows, annee, mois, y, m, blocks);
      (s.None? <==>
         (y.Some? && m.Some? &&
          var e := ExistingFor(rows, operateurId, y.value, m.value); !(e.Some? && blocks(e))))
      && (s.Some? ==> s.value.outcome != Ok(true))
      && (s.Some? && s.value.outcome == Ok(false) ==> |s.value.moisErrors| == 1 && s.value.anneeErrors == [])
      && (s.Some? && s.value.outcome != Ok(false) ==> s.value.moisErrors == [] && s.value.anneeErrors == [])
  {
  }

  /**
   * As written the form refuses the period of any existing collection of the operator, a draft
   * included, with the month error naming its status; with the intended test an existing draft
   * of a valid, non-future month is accepted.
   */
  lemma {:induction false} ValidateAsWrittenRefusesDraft(operateurId: int, rows: seq<Collecte>, annee: string, mois: string,
                        todayYear: int, todayMonth: int, c: Collecte)
    requires operateurId != 0 && ParseInt(annee).Some? && ParseInt(mois).Some?
    requires ExistingFor(rows, operateurId, ParseInt(annee).value, ParseInt(mois).value) == Some(c)
    ensures ValidateSpec(true, Some(operateurId), rows, annee, mois, ParseInt(annee), ParseInt(mois), todayYear, todayMonth,
                         BlocksAsWritten)
            == Validation(Ok(false), [ExistingCollecte(mois, annee, c.statut)], [])
    ensures c.statut == Some(Brouillon) && IsDate(ParseInt(annee).value, ParseInt(mois).value)
            && !AfterMonth(ParseInt(annee).value, ParseInt(mois).value, todayYear, todayMonth) ==>
      ValidateSpec(true, Some(operateurId), rows, annee, mois, ParseInt(annee), ParseInt(mois), todayYear, todayMonth,
                   Blocks).outcome == Ok(true)
  {
    var y, m := ParseInt(annee), ParseInt(mois);
    BlocksAsWrittenRefusesDrafts(c);
    assert ExistingStep(operateurId, rows, annee, mois, y, m, BlocksAsWritten)
           == Some(Validation(Ok(false), [ExistingCollecte(mois, annee, c.statut)], []));
    if c.statut == Some(Brouillon) {
      assert ExistingStep(operateurId, rows, annee, mois, y, m, Blocks) == None;
    }
  }

  /** The current month and every earlier one pass the period check; the next month does not. */
  lemma {:induction false} CurrentMonthAccepted(todayYear: int, todayMonth: int)
    requires 1 <= todayMonth <= 12
    ensures !AfterMonth(todayYear, todayMonth, todayYear, todayMonth)
    ensures todayMonth < 12 ==> AfterMonth(todayYear, todayMonth + 1, todayYear, todayMonth)
    ensures AfterMonth(todayYear + 1, 1, todayYear, todayMonth)
  {
  }

  /** The monthly-collection form: its year field, its choices and the two fields' error lists. */
  class CollecteForm {
    var annee: string
    var anneeChoices: seq<(string, string)>
    var mois: string
    var moisErrors: seq<FormError>
    var anneeErrors: seq<FormError>

    /** `__init__`: the eight year choices, and the current year when no year was submitted. */
    constructor (anneeData: string, moisData: string, currentYear: int)
      ensures anneeChoices == YearChoices(currentYear)
      ensures annee == (if anneeData == "" then IntToString(currentYear) else anneeData)
      ensures mois == moisData && moisErrors == [] && anneeErrors == []
    {
      anneeChoices := YearChoices(currentYear);
      annee := anneeData;
      mois := moisData;
      moisErrors := [];
      anneeErrors := [];
      if anneeData == "" {
        annee := IntToString(currentYear);
      }
    }

    /** `validate`: runs the checks in order and appends the message of the first that fails. */
    method Validate(baseValid: bool, operateurId: Option<int>, rows: seq<Collecte>, todayYear: int, todayMonth: int,
                    blocks: Option<Collecte> -> bool)
      returns (r: Result<bool>)
      modifies this`moisErrors, this`anneeErrors
      ensures var v := ValidateSpec(baseValid, operateurId, rows, old(annee), old(mois),
                                    ParseInt(old(annee)), ParseInt(old(mois)), todayYear, todayMonth, blocks);
        r == v.outcome && moisErrors == old(moisErrors) + v.moisErrors && anneeErrors == old(anneeErrors) + v.anneeErrors
    {
      assert moisErrors + [] == moisErrors && anneeErrors + [] == anneeErrors;
      if !baseValid {
        return Ok(false);
      }
      var y := ParseInt(annee);
      var m := ParseInt(mois);
      if TruthyInt(operateurId) {
        var stop := CheckExisting(operateurId.value, rows, y, m, blocks);
        if stop.Some? {
          return stop.value;
        }
      }
      r := CheckPeriod(y, m, todayYear, todayMonth);
    }

    /** The duplicate query of a user with an operator; `None` when validation goes on. */
    method CheckExisting(operateurId: int, rows: seq<Collecte>, y: Option<int>, m: Option<int>,
                         blocks: Option<Collecte> -> bool)
      returns (stop: Option<Result<bool>>)
      modifies this`moisErrors
      ensures var s := ExistingStep(operateurId, rows, annee, mois, y, m, blocks);
        && (stop.Some? <==> s.Some?)
        && (s.Some? ==> stop.value == s.value.outcome && moisErrors == old(moisErrors) + s.value.moisErrors
                        && s.value.anneeErrors == [])
        && (s.None? ==> moisErrors == old(moisErrors))
    {
      if y.None? || m.None? {
        return Some(Err("ValueError"));
      }
      var existing := ExistingFor(rows, operateurId, y.value, m.value);
      if existing.Some? && blocks(existing) {
        moisErrors := moisErrors + [ExistingCollecte(mois, annee, existing.value.statut)];
        return Some(Ok(false));
      }
      return None;
    }

    /** The `try` block: build the first day of the month and compare it with the current month's. */
    method CheckPeriod(y: Option<int>, m: Option<int>, todayYear: int, todayMonth: int) returns (r: Result<bool>)
      modifies this`moisErrors, this`anneeErrors
      ensures var v := PeriodStep(y, m, todayYear, todayMonth);
        r == v.outcome && moisErrors == old(moisErrors) + v.moisErrors && anneeErrors == old(anneeErrors) + v.anneeErrors
    {
      if y.None? || m.None? || !IsDate(y.value, m.value) {
        anneeErrors := anneeErrors + [InvalidPeriod];
        return Ok(false);
      }
      if AfterMonth(y.value, m.value, todayYear, todayMonth) {
        moisErrors := moisErrors + [FuturePeriod];
        return Ok(false);
      }
      return Ok(true);
    }
  }

  /**
   * `CollecteProjetNouveauForm.validate_date_mise_service_prevue` on day numbers: checked only
   * when both dates are set, and the commissioning must come strictly after the start of works.
   */
  function MiseEnServiceError(miseEnService: Option<int>, debut: Option<int>): (err: Option<string>)
    ensures err.Some? <==> miseEnService.Some? && debut.Some? && miseEnService.value <= debut.value
  {
    if miseEnService.Some? && debut.Some? && miseEnService.value <= debut.value then
      Some("La date de mise en service doit être postérieure au début des travaux")
    else None
  }
}
