// The hydro report form and the report filter form: the default period, the date-order
// check, and the choice lists built from the plants and the years on record.
module ProductionHydroForms {
  import opened Wrappers
  import opened Text
  import opened Python
  import opened Collections

  /** A choice of a select field: the submitted value and its label. */
  type Choice = (PyValue, string)

  /** A plant as the choice lists show it. */
  datatype CentraleRef = CentraleRef(id: int, nom: string, code: string)

  /** The label "nom (code)". */
  function CentraleChoice(c: CentraleRef): Choice
  {
    (PyInt(c.id), c.nom + " (" + c.code + ")")
  }

  /** The plant choices: the placeholder, then one choice per plant in the order given. */
  method CentraleChoices(placeholder: string, centrales: seq<CentraleRef>) returns (choices: seq<Choice>)
    ensures choices == [(PyStr(""), placeholder)] + MapSeq(CentraleChoice, centrales)
  {
    choices := [(PyStr(""), placeholder)];
    var i := 0;
    while i < |centrales|
      invariant 0 <= i <= |centrales|
      invariant choices == [(PyStr(""), placeholder)] + MapSeq(CentraleChoice, centrales[..i])
    {
      MapSeqSnoc(CentraleChoice, centrales, i);
      choices := choices + [CentraleChoice(centrales[i])];
      i := i + 1;
    }
    assert centrales[..i] == centrales;
  }

  /** Entry k + 1 offers plant k under its name and code, so each plant's id is offered exactly once per listing. */
  lemma {:induction false} CentraleChoicesIndex(placeholder: string, centrales: seq<CentraleRef>, k: int)
    requires 0 <= k < |centrales|
    ensures var cs := [(PyStr(""), placeholder)] + MapSeq(CentraleChoice, centrales);
      |cs| == |centrales| + 1 && cs[0].0 == PyStr("")
      && cs[k + 1].0 == PyInt(centrales[k].id)
      && StartsWith(cs[k + 1].1, centrales[k].nom + " (") && EndsWith(cs[k + 1].1, centrales[k].code + ")")
  {
    var texte := centrales[k].nom + " (" + centrales[k].code + ")";
    assert texte == (centrales[k].nom + " (") + (centrales[k].code + ")");
    ConcatParts(centrales[k].nom + " (", centrales[k].code + ")");
  }

  /** `RapportHydroForm`: the fields its own code reads and writes. Dates are days. */
  class RapportHydroForm {
    var centraleChoices: seq<Choice>
    var annee: Option<int>
    var mois: Option<int>
    var periodeDebut: Option<int>
    var periodeFin: Option<int>
    var periodeFinErrors: seq<string>

    /** The form as built from the request; a missing or zero year and month default to today's. */
    constructor(annee: Option<int>, mois: Option<int>, periodeDebut: Option<int>, periodeFin: Option<int>,
                anneeCourante: int, moisCourant: int)
      ensures this.annee == (if TruthyInt(annee) then annee else Some(anneeCourante))
      ensures this.mois == (if TruthyInt(mois) then mois else Some(moisCourant))
      ensures this.periodeDebut == periodeDebut && this.periodeFin == periodeFin
      ensures centraleChoices == [] && periodeFinErrors == []
    {
      this.annee := if TruthyInt(annee) then annee else Some(anneeCourante);
      this.mois := if TruthyInt(mois) then mois else Some(moisCourant);
      this.periodeDebut := periodeDebut;
      this.periodeFin := periodeFin;
      centraleChoices := [];
      periodeFinErrors := [];
    }

    /** `populate_centrales`. */
    method PopulateCentrales(centrales: seq<CentraleRef>)
      modifies this
      ensures centraleChoices == [(PyStr(""), "Sélectionner une centrale...")] + MapSeq(CentraleChoice, centrales)
      ensures annee == old(annee) && mois == old(mois) && periodeDebut == old(periodeDebut)
      ensures periodeFin == old(periodeFin) && periodeFinErrors == old(periodeFinErrors)
    {
      centraleChoices := CentraleChoices("Sélectionner une centrale...", centrales);
    }

    /**
     * `validate`: the field validators' verdict (`baseValid`) first; then an end date before
     * the start date fails with one error on the end date. Equal dates pass.
     */
    method Validate(baseValid: bool) returns (rv: bool)
      modifies this
      ensures rv <==> baseValid && !(periodeDebut.Some? && periodeFin.Some? && periodeFin.value < periodeDebut.value)
      ensures periodeFinErrors == old(periodeFinErrors) + (if baseValid && !rv then [FinAvantDebut] else [])
      ensures centraleChoices == old(centraleChoices) && annee == old(annee) && mois == old(mois)
      ensures periodeDebut == old(periodeDebut) && periodeFin == old(periodeFin)
    {
      if !baseValid {
        return false;
      }
      if periodeDebut.Some? && periodeFin.Some? {
        if periodeFin.value < periodeDebut.value {
          periodeFinErrors := periodeFinErrors + [FinAvantDebut];
          return false;
        }
      }
      return true;
    }
  }

  const FinAvantDebut: string := "La date de fin doit être postérieure à la date de début."

  /** A year as a choice: its decimal text as both value and label. */
  function AnneeChoice(annee: int): Choice
  {
    (PyStr(IntToString(annee)), IntToString(annee))
  }

  function AsReal(n: int): real
  {
    n as real
  }

  /** `FiltreRapportForm`: the two choice lists its code builds. */
  class FiltreRapportForm {
    var centraleChoices: seq<Choice>
    var anneeChoices: seq<Choice>

    constructor()
      ensures centraleChoices == [(PyStr(""), "Toutes les centrales")]
      ensures anneeChoices == [(PyStr(""), "Toutes les années")]
    {
      centraleChoices := [(PyStr(""), "Toutes les centrales")];
      anneeChoices := [(PyStr(""), "Toutes les années")];
    }

    /** `populate_centrales`. */
    method PopulateCentrales(centrales: seq<CentraleRef>)
      modifies this
      ensures centraleChoices == [(PyStr(""), "Toutes les centrales")] + MapSeq(CentraleChoice, centrales)
      ensures anneeChoices == old(anneeChoices)
    {
      centraleChoices := CentraleChoices("Toutes les centrales", centrales);
    }

    /** `populate_annees`: the placeholder, then the years from the most recent to the oldest. */
    method PopulateAnnees(annees: seq<int>)
      modifies this
      ensures anneeChoices == [(PyStr(""), "Toutes les années")] + MapSeq(AnneeChoice, SortDescBy(AsReal, annees))
      ensures centraleChoices == old(centraleChoices)
    {
      anneeChoices := AnneeChoices(SortDescBy(AsReal, annees));
    }
  }

  /** The year choices: the placeholder, then one choice per year in the order given. */
  method AnneeChoices(triees: seq<int>) returns (choices: seq<Choice>)
    ensures choices == [(PyStr(""), "Toutes les années")] + MapSeq(AnneeChoice, triees)
  {
    choices := [(PyStr(""), "Toutes les années")];
    var i := 0;
    while i < |triees|
      invariant 0 <= i <= |triees|
      invariant choices == [(PyStr(""), "Toutes les années")] + MapSeq(AnneeChoice, triees[..i])
    {
      MapSeqSnoc(AnneeChoice, triees, i);
      choices := choices + [AnneeChoice(triees[i])];
      i := i + 1;
    }
    assert triees[..i] == triees;
  }

  /** The year list offers each year on record as often as it occurs, the most recent first. */
  lemma {:induction false} AnneeChoicesOrdered(annees: seq<int>)
    ensures var cs := [(PyStr(""), "Toutes les années")] + MapSeq(AnneeChoice, SortDescBy(AsReal, annees));
      var triees := SortDescBy(AsReal, annees);
      |cs| == |annees| + 1
      && multiset(triees) == multiset(annees)
      && (forall i, j :: 0 <= i < j < |triees| ==> triees[i] >= triees[j])
      && (forall i :: 0 <= i < |triees| ==> cs[i + 1] == AnneeChoice(triees[i]))
  {
    var triees := SortDescBy(AsReal, annees);
    AnneeChoicesListe(annees, triees, [(PyStr(""), "Toutes les années")] + MapSeq(AnneeChoice, triees));
  }

  lemma {:induction false} AnneeChoicesListe(annees: seq<int>, triees: seq<int>, cs: seq<Choice>)
    requires triees == SortDescBy(AsReal, annees)
    requires cs == [(PyStr(""), "Toutes les années")] + MapSeq(AnneeChoice, triees)
    ensures |cs| == |annees| + 1
    ensures multiset(triees) == multiset(annees)
    ensures forall i, j :: 0 <= i < j < |triees| ==> triees[i] >= triees[j]
    ensures forall i :: 0 <= i < |triees| ==> cs[i + 1] == AnneeChoice(triees[i])
  {
    SortDescByCorrect(AsReal, annees);
    assert |triees| == |annees| by {
      assert |multiset(triees)| == |multiset(annees)|;
    }
    forall i, j | 0 <= i < j < |triees|
      ensures triees[i] >= triees[j]
    {
      assert AsReal(triees[i]) >= AsReal(triees[j]);
    }
    forall i | 0 <= i < |triees|
      ensures cs[i + 1] == AnneeChoice(triees[i])
    {
      assert cs[i + 1] == MapSeq(AnneeChoice, triees)[i];
    }
  }

}
