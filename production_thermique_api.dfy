// The thermal production JSON endpoints: the AJAX filter over the reports a user may see,
// with its per-report permissions and summary counts, and the production statistics.
module ProductionThermiqueApi {
  import opened Wrappers
  import opened Text
  import opened Python
  import opened Users
  import opened Collections
  import opened Ratios
  import opened ProductionThermiqueRoutes

  /** The query parameters of `api_filters` (`None` when absent; `search` defaults to ''). */
  datatype Parametres = Parametres(mois: Option<string>, annee: Option<string>, centraleId: Option<string>,
                                   statut: Option<string>, search: string)

  /** A numeric filter applies only to a non-empty parameter made of decimal digits. */
  function Chiffres(p: Option<string>): (r: Option<int>)
    ensures r.Some? <==> p.Some? && |p.value| > 0 && AllDigits(p.value)
    ensures r.Some? ==> r.value >= 0
  {
    if p.Some? && |p.value| > 0 && AllDigits(p.value) then Some(DigitsValue(p.value) as int) else None
  }

  /** The plant's name contains the search term, ignoring case. */
  predicate Correspond(c: Centrale, search: string)
  {
    Contains(Lower(c.nom), Lower(search))
  }

  predicate DeCentrale(acc: seq<Centrale>, r: Rapport)
  {
    exists c :: c in acc && c.id == r.centraleId
  }

  predicate DeCentraleCorrespondante(acc: seq<Centrale>, r: Rapport, search: string)
  {
    exists c :: c in acc && c.id == r.centraleId && Correspond(c, search)
  }

  predicate CondMois(p: Parametres, r: Rapport)
  {
    Chiffres(p.mois).Some? ==> r.mois == Chiffres(p.mois).value
  }

  predicate CondAnnee(p: Parametres, r: Rapport)
  {
    Chiffres(p.annee).Some? ==> r.periodeDebut.annee == Chiffres(p.annee).value
  }

  predicate CondCentrale(p: Parametres, r: Rapport)
  {
    Chiffres(p.centraleId).Some? ==> r.centraleId == Chiffres(p.centraleId).value
  }

  predicate CondStatut(p: Parametres, r: Rapport)
  {
    TruthyStr(p.statut) ==> r.statut == p.statut.value
  }

  predicate CondSearch(acc: seq<Centrale>, p: Parametres, r: Rapport)
  {
    p.search != "" ==> DeCentraleCorrespondante(acc, r, p.search)
  }

  /** The reference definition of the filter: every condition the parameters switch on. */
  predicate Retenu(acc: seq<Centrale>, p: Parametres, r: Rapport)
  {
    DeCentrale(acc, r) && CondMois(p, r) && CondAnnee(p, r) && CondCentrale(p, r) && CondStatut(p, r)
    && CondSearch(acc, p, r)
  }

  /** One `query.filter(...)` step. */
  method Affiner(choisis: seq<Rapport>, q: Rapport -> bool) returns (r: seq<Rapport>)
    ensures forall x :: x in r <==> x in choisis && q(x)
  {
    r := Filter(q, choisis);
    FilterIff(q, choisis);
  }

  /** The query of `api_filters`, refined by each parameter in turn. */
  method Selectionner(acc: seq<Centrale>, rapports: seq<Rapport>, p: Parametres) returns (choisis: seq<Rapport>)
    ensures forall x :: x in choisis <==> x in rapports && Retenu(acc, p, x)
  {
    choisis := Affiner(rapports, (x: Rapport) => DeCentrale(acc, x));
    if Chiffres(p.mois).Some? {
      choisis := Affiner(choisis, (x: Rapport) => CondMois(p, x));
    }
    if Chiffres(p.annee).Some? {
      choisis := Affiner(choisis, (x: Rapport) => CondAnnee(p, x));
    }
    if Chiffres(p.centraleId).Some? {
      choisis := Affiner(choisis, (x: Rapport) => CondCentrale(p, x));
    }
    if TruthyStr(p.statut) {
      choisis := Affiner(choisis, (x: Rapport) => CondStatut(p, x));
    }
    if p.search != "" {
      var trouvees := Filter((k: Centrale) => Correspond(k, p.search), acc);
      FilterIff((k: Centrale) => Correspond(k, p.search), acc);
      if trouvees != [] {
        choisis := Affiner(choisis, (x: Rapport) => CondSearch(acc, p, x));
      } else {
        choisis := [];
      }
    }
  }

  /** The ordering key of `periode_debut` (descending order is most recent first). */
  function CleDebut(r: Rapport): real
  {
    (r.periodeDebut.annee * 10000 + r.periodeDebut.mois * 100 + r.periodeDebut.jour) as real
  }

  /** The permission flags sent with each report. */
  datatype Ligne = Ligne(id: int, centraleId: int, statut: string, canEdit: bool, canDelete: bool)

  function LigneDe(u: User, r: Rapport): Ligne
  {
    Ligne(r.id, r.centraleId, r.statut, r.statut != "transmis" || IsSuperAdmin(u), IsSuperAdmin(u))
  }

  /** The flags agree with the lock of the edit and delete pages: only the super administrator deletes. */
  lemma {:induction false} LigneAgreesWithLock(u: User, r: Rapport)
    ensures LigneDe(u, r).canEdit <==> Modifiable(r, u)
    ensures LigneDe(u, r).canDelete ==> LigneDe(u, r).canEdit
    ensures r.statut == "transmis" ==> (LigneDe(u, r).canEdit <==> LigneDe(u, r).canDelete)
  {
  }

  /**
   * `api_filters` (pagination left out): 403 without an administrator role or an operator;
   * otherwise the accessible reports the parameters keep, most recent period first, each with
   * its permission flags.
   */
  method ApiFilters(u: User, centrales: seq<Centrale>, rapports: seq<Rapport>, p: Parametres)
    returns (r: Http<seq<Ligne>>, ghost selection: seq<Rapport>)
    ensures r.Abort? <==> !(IsAdmin(u) || u.operateurId.Some?)
    ensures r.Abort? ==> r.status == 403
    ensures r.Done? ==>
      (forall x :: x in selection <==> x in rapports && Retenu(AccessibleCentrales(u, centrales), p, x))
      && DescendingBy(CleDebut, selection)
      && r.value == MapSeq((x: Rapport) => LigneDe(u, x), selection)
  {
    if !(IsAdmin(u) || u.operateurId.Some?) {
      return Abort(403), [];
    }
    var acc := AccessibleCentrales(u, centrales);
    var choisis := Selectionner(acc, rapports, p);
    var triees := SortDescBy(CleDebut, choisis);
    SortDescByCorrect(CleDebut, choisis);
    assert forall x :: x in triees <==> x in multiset(choisis);
    var lignes := Lignes(u, triees);
    return Done(lignes), triees;
  }

  /** The rows sent for the sorted reports, in the same order. */
  method Lignes(u: User, triees: seq<Rapport>) returns (lignes: seq<Ligne>)
    ensures lignes == MapSeq((x: Rapport) => LigneDe(u, x), triees)
  {
    var f := (x: Rapport) => LigneDe(u, x);
    lignes := [];
    var i := 0;
    while i < |triees|
      invariant 0 <= i <= |triees|
      invariant lignes == MapSeq(f, triees[..i])
    {
      MapSeqSnoc(f, triees, i);
      lignes := lignes + [f(triees[i])];
      i := i + 1;
    }
    assert triees[..i] == triees;
  }

  /** The summary counts of `api_filters`, over every accessible report whatever the filters. */
  datatype Stats = Stats(totalRapports: nat, rapportsValides: nat, energieTotale: real, nombreCentrales: nat,
                         rapportsBrouillon: nat)

  function EnergieDe(acc: seq<Centrale>, x: Rapport): real
  {
    if DeCentrale(acc, x) then OrZeroR(x.energieProduite) else 0.0
  }

  function StatsDe(acc: seq<Centrale>, rapports: seq<Rapport>): Stats
  {
    if acc == [] then Stats(0, 0, 0.0, 0, 0)
    else Stats(Count((x: Rapport) => DeCentrale(acc, x), rapports),
               Count((x: Rapport) => DeCentrale(acc, x) && x.statut == "valide", rapports),
               SumOf((x: Rapport) => EnergieDe(acc, x), rapports),
               |acc|,
               Count((x: Rapport) => DeCentrale(acc, x) && x.statut == "brouillon", rapports))
  }

  /** Without an accessible plant every figure is 0; otherwise validated and draft reports are among the total. */
  lemma {:induction false} StatsMeaning(acc: seq<Centrale>, rapports: seq<Rapport>)
    ensures acc == [] ==> StatsDe(acc, rapports) == Stats(0, 0, 0.0, 0, 0)
    ensures StatsDe(acc, rapports).rapportsValides + StatsDe(acc, rapports).rapportsBrouillon
            <= StatsDe(acc, rapports).totalRapports <= |rapports|
    ensures StatsDe(acc, rapports).nombreCentrales == |acc|
    ensures (forall x :: x in rapports ==> OrZeroR(x.energieProduite) >= 0.0) ==> StatsDe(acc, rapports).energieTotale >= 0.0
  {
    if acc != [] {
      var v := (x: Rapport) => DeCentrale(acc, x) && x.statut == "valide";
      var b := (x: Rapport) => DeCentrale(acc, x) && x.statut == "brouillon";
      var vb := (x: Rapport) => DeCentrale(acc, x) && (x.statut == "valide" || x.statut == "brouillon");
      CountSplit(v, b, vb, rapports);
      CountMonotone(vb, (x: Rapport) => DeCentrale(acc, x), rapports);
      if forall x :: x in rapports ==> OrZeroR(x.energieProduite) >= 0.0 {
        SumNonNegative((x: Rapport) => EnergieDe(acc, x), rapports);
      }
    }
  }

  // ---------------------------------------------------------------------------------------
  // `api_statistiques`.

  /** The SQL `SUM` of the energy of the reports kept by `p`, with `NULL` (no row or only NULLs) read as 0. */
  function SommeEnergie(p: Rapport -> bool, rapports: seq<Rapport>): real
  {
    SumOf((x: Rapport) => if p(x) then OrZeroR(x.energieProduite) else 0.0, rapports)
  }

  /** The answer of `api_statistiques`: monthly production of the year and production per fuel (NULL fuel as 'Non défini'). */
  datatype Statistiques = Statistiques(totalCentrales: nat, energieTotale: real,
                                       productionMensuelle: map<int, real>, repartitionType: map<string, real>)

  function TypeDe(acc: seq<Centrale>, x: Rapport): Option<string>
  {
    var k := FindCentrale(acc, x.centraleId);
    if k.Some? then k.value.typeCombustible else None
  }

  function Libelle(t: Option<string>): string
  {
    if TruthyStr(t) then t.value else "Non défini"
  }

  function ApiStatistiques(acc: seq<Centrale>, rapports: seq<Rapport>, anneeCourante: int): Statistiques
  {
    if acc == [] then Statistiques(0, 0.0, map[], map[])
    else
      var mois := set x | x in rapports && DeCentrale(acc, x) && x.annee == anneeCourante :: x.mois;
      var types := set x | x in rapports && DeCentrale(acc, x) :: Libelle(TypeDe(acc, x));
      Statistiques(|acc|, SommeEnergie((x: Rapport) => DeCentrale(acc, x), rapports),
        map m | m in mois :: SommeEnergie((x: Rapport) => DeCentrale(acc, x) && x.annee == anneeCourante && x.mois == m, rapports),
        map t | t in types :: SommeEnergie((x: Rapport) => DeCentrale(acc, x) && Libelle(TypeDe(acc, x)) == t, rapports))
  }

  /** No accessible plant gives empty figures; otherwise a month or fuel appears exactly when a report carries it. */
  lemma {:induction false} ApiStatistiquesMeaning(acc: seq<Centrale>, rapports: seq<Rapport>, annee: int, x: Rapport)
    ensures acc == [] ==> ApiStatistiques(acc, rapports, annee) == Statistiques(0, 0.0, map[], map[])
    ensures acc != [] && x in rapports && DeCentrale(acc, x) ==>
      Libelle(TypeDe(acc, x)) in ApiStatistiques(acc, rapports, annee).repartitionType
      && (x.annee == annee ==> x.mois in ApiStatistiques(acc, rapports, annee).productionMensuelle)
    ensures forall m :: m in ApiStatistiques(acc, rapports, annee).productionMensuelle ==>
      exists y :: y in rapports && DeCentrale(acc, y) && y.annee == annee && y.mois == m
  {
  }
}
