// The thermal production report pages: which plants a user may report on, the default
// reporting period, the one-report-per-plant-and-month rule, the operator check on creation,
// and the lock on reports already transmitted.
module ProductionThermiqueRoutes {
  import opened Wrappers
  import opened Python
  import opened Users

  /** A calendar day. */
  datatype Jour = Jour(annee: int, mois: int, jour: int)

  /** Python's `date(annee, mois, 1)`: a `ValueError` outside years 1..9999 or months 1..12. */
  function PremierDuMois(annee: int, mois: int): Result<Jour>
  {
    if 1 <= annee <= 9999 && 1 <= mois <= 12 then Ok(Jour(annee, mois, 1)) else Err("ValueError")
  }

  /** The default period: the first of the month to the first of the next, December rolling into January. */
  function PeriodeParDefaut(annee: int, mois: int): Result<(Jour, Jour)>
  {
    match PremierDuMois(annee, mois)
    case Err(e) => Err(e)
    case Ok(debut) =>
      match (if mois == 12 then PremierDuMois(annee + 1, 1) else PremierDuMois(annee, mois + 1))
      case Err(e) => Err(e)
      case Ok(fin) => Ok((debut, fin))
  }

  /** The month count of a day, so that consecutive months differ by one. */
  function RangMois(j: Jour): int
  {
    j.annee * 12 + j.mois
  }

  /** The default period starts on the first of a month and ends on the first of the very next month. */
  lemma {:induction false} PeriodeParDefautMeaning(annee: int, mois: int)
    ensures PeriodeParDefaut(annee, mois).Ok? <==> 1 <= mois <= 12 && 1 <= annee <= 9999 && (annee < 9999 || mois < 12)
    ensures PeriodeParDefaut(annee, mois).Ok? ==>
      var (debut, fin) := PeriodeParDefaut(annee, mois).value;
      debut == Jour(annee, mois, 1) && fin.jour == 1 && 1 <= fin.mois <= 12
      && RangMois(fin) == RangMois(debut) + 1
      && (mois == 12 ==> fin == Jour(annee + 1, 1, 1))
      && (mois < 12 ==> fin == Jour(annee, mois + 1, 1))
  {
  }

  /** The period fields of the report form as the view reads them. */
  datatype Saisie = Saisie(annee: Option<int>, mois: Option<int>, periodeDebut: Option<Jour>, periodeFin: Option<Jour>)

  /**
   * The pre-filling of `nouveau_rapport`: today's year and month when missing or zero, then
   * the default period for each period field still empty. An impossible date raises.
   */
  function Prefill(s: Saisie, anneeCourante: int, moisCourant: int): Result<Saisie>
  {
    var annee := if TruthyInt(s.annee) then s.annee else Some(anneeCourante);
    var mois := if TruthyInt(s.mois) then s.mois else Some(moisCourant);
    if !(TruthyInt(annee) && TruthyInt(mois)) then Ok(s.(annee := annee, mois := mois))
    else match PeriodeParDefaut(annee.value, mois.value)
      case Err(e) => Err(e)
      case Ok((debut, fin)) =>
        Ok(Saisie(annee, mois, if s.periodeDebut.None? then Some(debut) else s.periodeDebut,
                  if s.periodeFin.None? then Some(fin) else s.periodeFin))
  }

  /** Dates the user entered are kept; empty ones get the month's bounds; filling twice changes nothing. */
  lemma {:induction false} PrefillMeaning(s: Saisie, anneeCourante: int, moisCourant: int)
    requires anneeCourante != 0 && moisCourant != 0
    ensures Prefill(s, anneeCourante, moisCourant).Ok? ==>
      var t := Prefill(s, anneeCourante, moisCourant).value;
      t.annee == (if TruthyInt(s.annee) then s.annee else Some(anneeCourante))
      && t.mois == (if TruthyInt(s.mois) then s.mois else Some(moisCourant))
      && PeriodeParDefaut(t.annee.value, t.mois.value).Ok?
      && (s.periodeDebut.Some? ==> t.periodeDebut == s.periodeDebut)
      && (s.periodeFin.Some? ==> t.periodeFin == s.periodeFin)
      && (s.periodeDebut.None? ==> t.periodeDebut == Some(PeriodeParDefaut(t.annee.value, t.mois.value).value.0))
      && (s.periodeFin.None? ==> t.periodeFin == Some(PeriodeParDefaut(t.annee.value, t.mois.value).value.1))
      && Prefill(t, anneeCourante, moisCourant) == Ok(t)
    ensures Prefill(s, anneeCourante, moisCourant).Err? <==>
      var annee := if TruthyInt(s.annee) then s.annee.value else anneeCourante;
      var mois := if TruthyInt(s.mois) then s.mois.value else moisCourant;
      PeriodeParDefaut(annee, mois).Err?
  {
  }

  // ---------------------------------------------------------------------------------------
  // Plants and reports.

  datatype Centrale = Centrale(id: int, nom: string, typeCombustible: Option<string>, operateurId: Option<int>, actif: bool)

  /** `get_accessible_centrales_thermique`: active plants, all of them for an administrator, the own operator's otherwise. */
  function AccessibleCentrales(u: User, cs: seq<Centrale>): (r: seq<Centrale>)
    ensures forall c :: c in r <==> c in cs && c.actif && (IsAdmin(u) || (u.operateurId.Some? && c.operateurId == u.operateurId))
  {
    if cs == [] then []
    else
      var c := cs[|cs| - 1];
      AccessibleCentrales(u, cs[..|cs| - 1])
      + (if c.actif && (IsAdmin(u) || (u.operateurId.Some? && c.operateurId == u.operateurId)) then [c] else [])
  }

  predicate IsAccessible(u: User, cs: seq<Centrale>, centraleId: int)
  {
    exists c :: c in AccessibleCentrales(u, cs) && c.id == centraleId
  }

  /** `RapportThermique`: the period key, the status text, the energy produced, and the other columns as text. */
  datatype Rapport = Rapport(id: int, centraleId: int, annee: int, mois: int, periodeDebut: Jour, periodeFin: Jour,
                             statut: string, energieProduite: Option<real>, donnees: map<string, string>)

  /** The submitted and validated report form. */
  datatype Formulaire = Formulaire(centraleId: Option<int>, annee: int, mois: int, periodeDebut: Jour, periodeFin: Jour,
                                   statut: string, energieProduite: Option<real>, donnees: map<string, string>)

  /** What a handler ends with. */
  datatype Issue =
    | AucuneCentrale        // no plant available: redirect to the list
    | Affiche               // the form is shown (a GET, or a submission that failed validation)
    | Introuvable           // 404
    | Interdit              // 403
    | HorsOperateur         // the plant belongs to another operator: redirect with an error
    | Doublon               // a report already exists for the period: the form again with an error
    | Verrouille            // the report was transmitted: redirect with an error
    | Enregistre(id: int)
    | Supprime

  predicate MemePeriode(r: Rapport, centraleId: int, annee: int, mois: int)
  {
    r.centraleId == centraleId && r.annee == annee && r.mois == mois
  }

  predicate PeriodeExiste(rs: seq<Rapport>, centraleId: int, annee: int, mois: int)
  {
    exists k :: 0 <= k < |rs| && MemePeriode(rs[k], centraleId, annee, mois)
  }

  /** The rule both creation pages enforce: one report per plant and month. */
  predicate PeriodesUniques(rs: seq<Rapport>)
  {
    forall i, j :: 0 <= i < j < |rs| ==> !MemePeriode(rs[j], rs[i].centraleId, rs[i].annee, rs[i].mois)
  }

  /** A transmitted report is locked for everyone but the super administrator. */
  predicate Modifiable(r: Rapport, u: User)
  {
    r.statut != "transmis" || u.role == SuperAdmin
  }

  lemma {:induction false} ModifiableCases(r: Rapport, u: User)
    ensures r.statut == "transmis" ==> (Modifiable(r, u) <==> IsSuperAdmin(u))
    ensures r.statut != "transmis" ==> Modifiable(r, u)
  {
  }

  function FindCentrale(cs: seq<Centrale>, id: int): (r: Option<Centrale>)
    ensures r.Some? ==> r.value in cs && r.value.id == id
    ensures r.None? ==> forall c :: c in cs ==> c.id != id
  {
    if cs == [] then None else if cs[0].id == id then Some(cs[0]) else FindCentrale(cs[1..], id)
  }

  function FindRapport(rs: seq<Rapport>, id: int): (k: int)
    ensures -1 <= k < |rs|
    ensures k >= 0 ==> rs[k].id == id
    ensures k == -1 ==> forall i :: 0 <= i < |rs| ==> rs[i].id != id
  {
    if rs == [] then -1 else if rs[|rs| - 1].id == id then |rs| - 1 else FindRapport(rs[..|rs| - 1], id)
  }

  /** The row `populate_obj` writes from the form over a report. */
  function Rempli(r: Rapport, f: Formulaire): Rapport
  {
    r.(centraleId := f.centraleId.GetOr(r.centraleId), annee := f.annee, mois := f.mois,
       periodeDebut := f.periodeDebut, periodeFin := f.periodeFin, statut := f.statut,
       energieProduite := f.energieProduite, donnees := f.donnees)
  }

  /** The reports table and its id sequence. */
  class Registre {
    var rapports: seq<Rapport>
    var nextId: int

    constructor()
      ensures rapports == [] && nextId == 1
    {
      rapports := [];
      nextId := 1;
    }

    /** Ids are unique because each insert takes the next one. */
    predicate Valid()
      reads this
    {
      forall k :: 0 <= k < |rapports| ==> rapports[k].id < nextId
    }

    method Inserer(r: Rapport)
      modifies this
      requires Valid() && r.id == nextId
      ensures rapports == old(rapports) + [r] && nextId == old(nextId) + 1 && Valid()
    {
      rapports := rapports + [r];
      nextId := nextId + 1;
    }
  }

  lemma {:induction false} AppendKeepsUnique(rs: seq<Rapport>, r: Rapport)
    requires PeriodesUniques(rs) && !PeriodeExiste(rs, r.centraleId, r.annee, r.mois)
    ensures PeriodesUniques(rs + [r])
  {
    var t := rs + [r];
    forall i, j | 0 <= i < j < |t| ensures !MemePeriode(t[j], t[i].centraleId, t[i].annee, t[i].mois) {
      assert t[i] == rs[i];
      if j == |rs| {
        assert !MemePeriode(rs[i], r.centraleId, r.annee, r.mois);
      } else {
        assert t[j] == rs[j];
      }
    }
  }

  /**
   * `nouveau_rapport`: the plant comes from the whole table (404 if absent), a non-administrator
   * must own it, and the period must be free; the new report takes all fields from the form.
   * `soumis` stands for a form that passed `validate_on_submit`. The plant id's membership in the
   * form's choice list (`SelectField.pre_validate`) is not re-checked here, so a caller passing
   * an unlisted but accessible id gets it saved, where the form would say "Not a valid choice".
   */
  method NouveauRapport(db: Registre, u: User, centrales: seq<Centrale>, soumis: Option<Formulaire>) returns (issue: Issue)
    modifies db
    requires db.Valid() && PeriodesUniques(db.rapports)
    ensures db.Valid() && PeriodesUniques(db.rapports)
    ensures AccessibleCentrales(u, centrales) == [] ==> issue == AucuneCentrale
    ensures issue == Affiche <==> AccessibleCentrales(u, centrales) != [] && soumis.None?
    ensures issue.Enregistre? <==>
      AccessibleCentrales(u, centrales) != [] && soumis.Some? && soumis.value.centraleId.Some?
      && FindCentrale(centrales, soumis.value.centraleId.value).Some?
      && (IsAdmin(u) || FindCentrale(centrales, soumis.value.centraleId.value).value.operateurId == u.operateurId)
      && !PeriodeExiste(old(db.rapports), soumis.value.centraleId.value, soumis.value.annee, soumis.value.mois)
    ensures issue.Enregistre? ==>
      var f := soumis.value;
      issue.id == old(db.nextId)
      && db.rapports == old(db.rapports) + [Rapport(old(db.nextId), f.centraleId.value, f.annee, f.mois,
                                                    f.periodeDebut, f.periodeFin, f.statut, f.energieProduite, f.donnees)]
    ensures issue == HorsOperateur ==> !IsAdmin(u)
    ensures !issue.Enregistre? ==> db.rapports == old(db.rapports) && db.nextId == old(db.nextId)
  {
    if AccessibleCentrales(u, centrales) == [] {
      return AucuneCentrale;
    }
    if soumis.None? {
      return Affiche;
    }
    var f := soumis.value;
    if f.centraleId.None? {
      return Introuvable;
    }
    var c := FindCentrale(centrales, f.centraleId.value);
    if c.None? {
      return Introuvable;
    }
    if !IsAdmin(u) && c.value.operateurId != u.operateurId {
      return HorsOperateur;
    }
    if PeriodeExiste(db.rapports, f.centraleId.value, f.annee, f.mois) {
      return Doublon;
    }
    var r := Rapport(db.nextId, f.centraleId.value, f.annee, f.mois, f.periodeDebut, f.periodeFin, f.statut,
                     f.energieProduite, f.donnees);
    AppendKeepsUnique(db.rapports, r);
    db.Inserer(r);
    return Enregistre(r.id);
  }

  /**
   * `nouveau_rapport_centrale`: the plant must be among the accessible ones, the period must be
   * free, and the new report always starts as 'brouillon' whatever status the form carries.
   */
  method NouveauRapportCentrale(db: Registre, u: User, centrales: seq<Centrale>, centraleId: int, soumis: Option<Formulaire>)
    returns (issue: Issue)
    modifies db
    requires db.Valid() && PeriodesUniques(db.rapports)
    ensures db.Valid() && PeriodesUniques(db.rapports)
    ensures !IsAccessible(u, centrales, centraleId) ==> issue == AucuneCentrale
    ensures issue.Enregistre? <==>
      IsAccessible(u, centrales, centraleId) && soumis.Some?
      && !PeriodeExiste(old(db.rapports), centraleId, soumis.value.annee, soumis.value.mois)
    ensures issue.Enregistre? ==>
      var f := soumis.value;
      db.rapports == old(db.rapports) + [Rapport(old(db.nextId), centraleId, f.annee, f.mois,
                                                    f.periodeDebut, f.periodeFin, "brouillon", f.energieProduite, f.donnees)]
    ensures !issue.Enregistre? ==> db.rapports == old(db.rapports) && db.nextId == old(db.nextId)
  {
    if !IsAccessible(u, centrales, centraleId) {
      return AucuneCentrale;
    }
    if soumis.None? {
      return Affiche;
    }
    var f := soumis.value;
    if PeriodeExiste(db.rapports, centraleId, f.annee, f.mois) {
      return Doublon;
    }
    var r := Rapport(db.nextId, centraleId, f.annee, f.mois, f.periodeDebut, f.periodeFin, "brouillon",
                     f.energieProduite, f.donnees);
    AppendKeepsUnique(db.rapports, r);
    db.Inserer(r);
    return Enregistre(r.id);
  }

  /**
   * `modifier_rapport`: 404, then 403 outside the accessible plants, then the transmitted lock;
   * a valid submission overwrites the report with the form, and only that report changes.
   */
  method ModifierRapport(db: Registre, u: User, centrales: seq<Centrale>, id: int, soumis: Option<Formulaire>)
    returns (issue: Issue)
    modifies db
    ensures var k := FindRapport(old(db.rapports), id);
      (k == -1 <==> issue == Introuvable)
      && (k >= 0 && !IsAccessible(u, centrales, old(db.rapports)[k].centraleId) ==> issue == Interdit)
      && (k >= 0 && IsAccessible(u, centrales, old(db.rapports)[k].centraleId) ==>
            (issue == Verrouille <==> !Modifiable(old(db.rapports)[k], u)))
      && (issue.Enregistre? <==> k >= 0 && IsAccessible(u, centrales, old(db.rapports)[k].centraleId)
                                 && Modifiable(old(db.rapports)[k], u) && soumis.Some?)
      && (issue.Enregistre? ==> db.rapports == old(db.rapports)[k := Rempli(old(db.rapports)[k], soumis.value)])
      && (!issue.Enregistre? ==> db.rapports == old(db.rapports))
    ensures db.nextId == old(db.nextId)
  {
    var k := FindRapport(db.rapports, id);
    if k == -1 {
      return Introuvable;
    }
    if !IsAccessible(u, centrales, db.rapports[k].centraleId) {
      return Interdit;
    }
    if !Modifiable(db.rapports[k], u) {
      return Verrouille;
    }
    if soumis.None? {
      return Affiche;
    }
    db.rapports := db.rapports[k := Rempli(db.rapports[k], soumis.value)];
    return Enregistre(id);
  }

  /**
   * Editing goes through no period check: a report moved onto the month of another report of
   * the same plant leaves two reports for one period.
   */
  lemma {:induction false} ModificationMayDuplicate(d1: Jour, d2: Jour)
    ensures var rs := [Rapport(1, 7, 2024, 1, d1, d2, "brouillon", None, map[]),
                       Rapport(2, 7, 2024, 2, d1, d2, "brouillon", None, map[])];
      var f := Formulaire(Some(7), 2024, 1, d1, d2, "brouillon", None, map[]);
      PeriodesUniques(rs) && !PeriodesUniques(rs[1 := Rempli(rs[1], f)])
  {
    var rs := [Rapport(1, 7, 2024, 1, d1, d2, "brouillon", None, map[]),
               Rapport(2, 7, 2024, 2, d1, d2, "brouillon", None, map[])];
    var f := Formulaire(Some(7), 2024, 1, d1, d2, "brouillon", None, map[]);
    var t := rs[1 := Rempli(rs[1], f)];
    assert MemePeriode(t[1], t[0].centraleId, t[0].annee, t[0].mois);
  }

  /** `supprimer_rapport`: the same guards as editing; the report is removed and nothing else changes. */
  method SupprimerRapport(db: Registre, u: User, centrales: seq<Centrale>, id: int) returns (issue: Issue)
    modifies db
    requires PeriodesUniques(db.rapports)
    ensures PeriodesUniques(db.rapports)
    ensures var k := FindRapport(old(db.rapports), id);
      (k == -1 <==> issue == Introuvable)
      && (issue == Supprime <==> k >= 0 && IsAccessible(u, centrales, old(db.rapports)[k].centraleId)
                                 && Modifiable(old(db.rapports)[k], u))
      && (issue == Supprime ==> db.rapports == old(db.rapports)[..k] + old(db.rapports)[k + 1..])
      && (issue != Supprime ==> db.rapports == old(db.rapports))
    ensures db.nextId == old(db.nextId)
  {
    var k := FindRapport(db.rapports, id);
    if k == -1 {
      return Introuvable;
    }
    if !IsAccessible(u, centrales, db.rapports[k].centraleId) {
      return Interdit;
    }
    if !Modifiable(db.rapports[k], u) {
      return Verrouille;
    }
    RemoveKeepsUnique(db.rapports, k);
    db.rapports := db.rapports[..k] + db.rapports[k + 1..];
    return Supprime;
  }

  lemma {:induction false} RemoveKeepsUnique(rs: seq<Rapport>, k: int)
    requires 0 <= k < |rs| && PeriodesUniques(rs)
    ensures PeriodesUniques(rs[..k] + rs[k + 1..])
  {
    var t := rs[..k] + rs[k + 1..];
    forall i, j | 0 <= i < j < |t| ensures !MemePeriode(t[j], t[i].centraleId, t[i].annee, t[i].mois) {
      var i0 := if i < k then i else i + 1;
      var j0 := if j < k then j else j + 1;
      assert t[i] == rs[i0] && t[j] == rs[j0];
    }
  }
}
