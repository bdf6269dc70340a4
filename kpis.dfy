// Regulatory KPIs: grading a measured value against a KPI's thresholds, recording the grade
// and penalty on an operator's performance, and the payment state of a sanction.
// Dates are day numbers.
module Kpis {
  import opened Wrappers

  /** The grades `evaluer_performance` returns, from best to worst. */
  datatype Niveau = Excellent | Acceptable | Limite | Critique

  function NiveauText(n: Niveau): string
  {
    match n
    case Excellent => "excellent"
    case Acceptable => "acceptable"
    case Limite => "limite"
    case Critique => "critique"
  }

  function Rank(n: Niveau): nat
  {
    match n
    case Excellent => 0
    case Acceptable => 1
    case Limite => 2
    case Critique => 3
  }

  /** The columns of a `kpis_reglementaires` row that grading reads; thresholds and fines may be NULL. */
  datatype KpiReglementaire = KpiReglementaire(
    code: string, seuilExcellent: Option<real>, seuilAcceptable: Option<real>, seuilLimite: Option<real>,
    sensAmelioration: Option<string>,
    penaliteModeree: Option<real>, penaliteMajeure: Option<real>, penaliteCritique: Option<real>)

  /** A grade and the fine that goes with it. */
  datatype Evaluation = Evaluation(niveau: Niveau, penalite: Option<real>)

  /** Comparing a number with `None` raises in Python 3. */
  predicate ThresholdsSet(k: KpiReglementaire)
  {
    k.seuilExcellent.Some? && k.seuilAcceptable.Some? && k.seuilLimite.Some?
  }

  /** The chain for a KPI where lower is better: each threshold is an upper bound. */
  function GradeLower(k: KpiReglementaire, valeur: real): (r: Result<Evaluation>)
    ensures ThresholdsSet(k) ==> r.Ok?
  {
    if k.seuilExcellent.None? then Err("TypeError")
    else if valeur <= k.seuilExcellent.value then Ok(Evaluation(Excellent, None))
    else if k.seuilAcceptable.None? then Err("TypeError")
    else if valeur <= k.seuilAcceptable.value then Ok(Evaluation(Acceptable, None))
    else if k.seuilLimite.None? then Err("TypeError")
    else if valeur <= k.seuilLimite.value then Ok(Evaluation(Limite, k.penaliteModeree))
    else Ok(Evaluation(Critique, k.penaliteCritique))
  }

  /** The mirrored chain for a KPI where higher is better: each threshold is a lower bound. */
  function GradeHigher(k: KpiReglementaire, valeur: real): (r: Result<Evaluation>)
    ensures ThresholdsSet(k) ==> r.Ok?
  {
    if k.seuilExcellent.None? then Err("TypeError")
    else if valeur >= k.seuilExcellent.value then Ok(Evaluation(Excellent, None))
    else if k.seuilAcceptable.None? then Err("TypeError")
    else if valeur >= k.seuilAcceptable.value then Ok(Evaluation(Acceptable, None))
    else if k.seuilLimite.None? then Err("TypeError")
    else if valeur >= k.seuilLimite.value then Ok(Evaluation(Limite, k.penaliteModeree))
    else Ok(Evaluation(Critique, k.penaliteCritique))
  }

  /** `evaluer_performance`: 'diminution' grades downwards; any other direction, NULL included, upwards. */
  function EvaluerPerformance(k: KpiReglementaire, valeur: real): Result<Evaluation>
  {
    if k.sensAmelioration == Some("diminution") then GradeLower(k, valeur) else GradeHigher(k, valeur)
  }

  /**
   * The grade decides the fine: none for the two good grades, the moderate fine at the limit
   * and the critical fine beyond it; the major fine is never used.
   */
  lemma {:induction false} PenaltyOfGrade(k: KpiReglementaire, valeur: real)
    ensures var r := EvaluerPerformance(k, valeur);
      r.Ok? ==> && (r.value.niveau == Excellent || r.value.niveau == Acceptable ==> r.value.penalite.None?)
                && (r.value.niveau == Limite ==> r.value.penalite == k.penaliteModeree)
                && (r.value.niveau == Critique ==> r.value.penalite == k.penaliteCritique)
    ensures var r := EvaluerPerformance(k, valeur);
      r.Ok? ==> r.value.penalite in {None, k.penaliteModeree, k.penaliteCritique}
  {
  }

  /** For 'diminution' with all thresholds set, the grade is read off the three upper bounds in order. */
  lemma {:induction false} GradeLowerCases(k: KpiReglementaire, valeur: real)
    requires ThresholdsSet(k) && k.sensAmelioration == Some("diminution")
    ensures var n := EvaluerPerformance(k, valeur).value.niveau;
      && (n == Excellent <==> valeur <= k.seuilExcellent.value)
      && (n == Acceptable <==> !(valeur <= k.seuilExcellent.value) && valeur <= k.seuilAcceptable.value)
      && (n == Limite <==> !(valeur <= k.seuilExcellent.value) && !(valeur <= k.seuilAcceptable.value)
                           && valeur <= k.seuilLimite.value)
      && (n == Critique <==> !(valeur <= k.seuilExcellent.value) && !(valeur <= k.seuilAcceptable.value)
                             && !(valeur <= k.seuilLimite.value))
  {
  }

  function Neg(x: Option<real>): Option<real>
  {
    match x
    case None => None
    case Some(v) => Some(-v)
  }

  /** The KPI with its thresholds negated and graded downwards. */
  function Mirrored(k: KpiReglementaire): KpiReglementaire
  {
    k.(seuilExcellent := Neg(k.seuilExcellent), seuilAcceptable := Neg(k.seuilAcceptable),
       seuilLimite := Neg(k.seuilLimite), sensAmelioration := Some("diminution"))
  }

  /** Grading upwards is grading the negated value downwards against the negated thresholds. */
  lemma {:induction false} HigherIsMirroredLower(k: KpiReglementaire, valeur: real)
    requires k.sensAmelioration != Some("diminution")
    ensures EvaluerPerformance(k, valeur) == EvaluerPerformance(Mirrored(k), -valeur)
  {
  }

  /** With ordered upper bounds, a larger value never gets a better grade when lower is better. */
  lemma {:induction false} GradeLowerMonotone(k: KpiReglementaire, v1: real, v2: real)
    requires ThresholdsSet(k) && k.sensAmelioration == Some("diminution")
    requires k.seuilExcellent.value <= k.seuilAcceptable.value <= k.seuilLimite.value
    requires v1 <= v2
    ensures Rank(EvaluerPerformance(k, v1).value.niveau) <= Rank(EvaluerPerformance(k, v2).value.niveau)
  {
  }

  /** With ordered lower bounds, a larger value never gets a worse grade when higher is better. */
  lemma {:induction false} GradeHigherMonotone(k: KpiReglementaire, v1: real, v2: real)
    requires ThresholdsSet(k) && k.sensAmelioration != Some("diminution")
    requires k.seuilExcellent.value >= k.seuilAcceptable.value >= k.seuilLimite.value
    requires v1 <= v2
    ensures Rank(EvaluerPerformance(k, v2).value.niveau) <= Rank(EvaluerPerformance(k, v1).value.niveau)
  {
    HigherIsMirroredLower(k, v1);
    HigherIsMirroredLower(k, v2);
    GradeLowerMonotone(Mirrored(k), -v2, -v1);
  }

  /** An operator's measured value for a KPI, with the grade and fine recorded on it. */
  class PerformanceOperateurKpi {
    var kpi: Option<KpiReglementaire>
    var valeurMesuree: real
    var evaluation: Option<Niveau>
    var penaliteAppliquee: Option<real>

    /** A new row: no grade yet, and the fine's column default of 0 (applied on insert). */
    constructor (kpi: Option<KpiReglementaire>, valeurMesuree: real)
      ensures this.kpi == kpi && this.valeurMesuree == valeurMesuree
      ensures evaluation.None? && penaliteAppliquee.None?
    {
      this.kpi := kpi;
      this.valeurMesuree := valeurMesuree;
      evaluation := None;
      penaliteAppliquee := None;
    }

    /**
     * `calculer_evaluation`: without a KPI nothing changes and `(None, None)` comes back; otherwise
     * the grade is stored and the fine, or 0 when there is none. A grading that raises changes nothing.
     */
    method CalculerEvaluation() returns (r: Result<(Option<Niveau>, Option<real>)>)
      modifies this`evaluation, this`penaliteAppliquee
      ensures kpi.None? ==> r == Ok((None, None)) && evaluation == old(evaluation) && penaliteAppliquee == old(penaliteAppliquee)
      ensures kpi.Some? && EvaluerPerformance(kpi.value, valeurMesuree).Err? ==>
        r.Err? && evaluation == old(evaluation) && penaliteAppliquee == old(penaliteAppliquee)
      ensures kpi.Some? && EvaluerPerformance(kpi.value, valeurMesuree).Ok? ==>
        var e := EvaluerPerformance(kpi.value, valeurMesuree).value;
        && r == Ok((Some(e.niveau), e.penalite))
        && evaluation == Some(e.niveau)
        && penaliteAppliquee == Some(e.penalite.GetOr(0.0))
    {
      if kpi.None? {
        return Ok((None, None));
      }
      var graded := EvaluerPerformance(kpi.value, valeurMesuree);
      if graded.Err? {
        return Err(graded.error);
      }
      evaluation := Some(graded.value.niveau);
      penaliteAppliquee := Some(graded.value.penalite.GetOr(0.0));
      return Ok((Some(graded.value.niveau), graded.value.penalite));
    }
  }

  /** `SanctionReglementaire.est_payee`: a payment date is recorded. */
  predicate EstPayee(datePaiement: Option<int>)
  {
    datePaiement.Some?
  }

  /** `est_en_retard`: a due date exists, it is before today, and nothing is paid. */
  predicate EstEnRetard(dateEcheance: Option<int>, datePaiement: Option<int>, today: int)
  {
    dateEcheance.Some? && dateEcheance.value < today && !EstPayee(datePaiement)
  }

  /** A paid sanction is never late, neither is one without a due date, and lateness only grows with time. */
  lemma {:induction false} SanctionStates(dateEcheance: Option<int>, datePaiement: Option<int>, today: int, later: int)
    ensures EstPayee(datePaiement) ==> !EstEnRetard(dateEcheance, datePaiement, today)
    ensures dateEcheance.None? ==> !EstEnRetard(dateEcheance, datePaiement, today)
    ensures dateEcheance.Some? && !EstPayee(datePaiement) ==>
      (EstEnRetard(dateEcheance, datePaiement, today) <==> today > dateEcheance.value)
    ensures today <= later && EstEnRetard(dateEcheance, datePaiement, today) ==> EstEnRetard(dateEcheance, datePaiement, later)
  {
  }
}
