// The transport module's decisions and aggregates (app/transport/routes.py): the operator
// permission check, the dashboard's filtered lists, totals and chart counters, the guards on
// deleting a substation and on creating a report, and a line's monthly performance series.
module TransportRoutes {
  import opened Wrappers
  import opened Text
  import opened Python
  import opened Users
  import opened Ratios
  import opened Collections
  import opened Access
  import opened Calendar

  /** A `LigneTransport` row: `tension_nominale` and `operateur_id` are NOT NULL. */
  datatype Ligne = Ligne(
    id: int, operateurId: int, tensionNominale: real, longueurTotale: Option<real>,
    statut: Option<string>, actif: bool)

  /** A `PosteTransport` row. */
  datatype PosteT = PosteT(
    id: int, operateurId: int, puissanceInstallee: Option<real>, statut: Option<string>, actif: bool)

  /** A `TransformateurTransport` row: only its substation and its active flag matter here. */
  datatype TransformateurT = TransformateurT(posteId: int, actif: bool)

  const EnService: string := "en_service"

  const NonDefini: string := "Non défini"

  /** `verifier_permission_operateur`: administrators always, others only for their own operator. */
  predicate VerifierPermission(u: User, operateurId: int)
  {
    IsAdmin(u) || u.operateurId == Some(operateurId)
  }

  /** The check is the shared operator-access rule on a set operator; a user without an operator is refused unless administrator. */
  lemma {:induction false} VerifierPermissionMeaning(u: User, operateurId: int)
    ensures VerifierPermission(u, operateurId) <==> CanAccessOperateur(u, Some(operateurId))
    ensures !IsAdmin(u) && u.operateurId.None? ==> !VerifierPermission(u, operateurId)
    ensures !IsAdmin(u) ==> (VerifierPermission(u, operateurId) <==> u.operateurId == Some(operateurId))
  {
  }

  // ---------------------------------------------------------------------------------------
  // index: the filtered lists and their statistics

  /** The query-string filters: `type=int` and `type=float` give `None` for a missing or malformed value. */
  datatype Filtres = Filtres(
    operateur: Option<int>, statut: Option<string>, tensionMin: Option<real>, tensionMax: Option<real>)

  /** The base query: every row for an administrator, the user's operator's rows otherwise. */
  predicate DuPerimetre(u: User, operateurId: int)
  {
    IsAdmin(u) || u.operateurId == Some(operateurId)
  }

  /** Each filter applies only when its value is truthy, so `0` is no filter; only active rows are listed. */
  predicate LigneRetenue(u: User, f: Filtres, l: Ligne)
  {
    && DuPerimetre(u, l.operateurId)
    && (TruthyInt(f.operateur) ==> l.operateurId == f.operateur.value)
    && (TruthyStr(f.statut) ==> l.statut == f.statut)
    && (TruthyR(f.tensionMin) ==> l.tensionNominale >= f.tensionMin.value)
    && (TruthyR(f.tensionMax) ==> l.tensionNominale <= f.tensionMax.value)
    && l.actif
  }

  /** The substations ignore the voltage filters. */
  predicate PosteRetenu(u: User, f: Filtres, p: PosteT)
  {
    && DuPerimetre(u, p.operateurId)
    && (TruthyInt(f.operateur) ==> p.operateurId == f.operateur.value)
    && (TruthyStr(f.statut) ==> p.statut == f.statut)
    && p.actif
  }

  function LignesRetenues(u: User, f: Filtres, lignes: seq<Ligne>): seq<Ligne>
  {
    Filter((l: Ligne) => LigneRetenue(u, f, l), lignes)
  }

  function PostesRetenus(u: User, f: Filtres, postes: seq<PosteT>): seq<PosteT>
  {
    Filter((p: PosteT) => PosteRetenu(u, f, p), postes)
  }

  /** A listed line is one the user may see through the operator check and that is active. */
  lemma {:induction false} LignesRetenuesMeaning(u: User, f: Filtres, lignes: seq<Ligne>)
    ensures forall l :: l in LignesRetenues(u, f, lignes) <==> l in lignes && LigneRetenue(u, f, l)
    ensures forall l :: l in LignesRetenues(u, f, lignes) ==> VerifierPermission(u, l.operateurId) && l.actif
  {
    FilterIff((l: Ligne) => LigneRetenue(u, f, l), lignes);
  }

  /** A zero lower voltage bound filters nothing, unlike a positive one. */
  lemma {:induction false} TensionMinZeroIgnored(u: User, f: Filtres, l: Ligne)
    requires f.tensionMin == Some(0.0)
    ensures LigneRetenue(u, f, l) == LigneRetenue(u, f.(tensionMin := None), l)
  {
  }

  lemma {:induction false} PostesRetenusMeaning(u: User, f: Filtres, postes: seq<PosteT>)
    ensures forall p :: p in PostesRetenus(u, f, postes) <==> p in postes && PosteRetenu(u, f, p)
  {
    FilterIff((p: PosteT) => PosteRetenu(u, f, p), postes);
  }

  /** The `stats` dictionary of the dashboard. */
  datatype StatsTransport = StatsTransport(
    nbLignes: nat, nbPostes: nat, longueurTotale: real, capaciteTotale: real,
    lignesEnService: nat, postesEnService: nat)

  // `sum([x.c for x in xs if x.c])`: a falsy value adds nothing, so each term is `x.c or 0`.
  function LongueurDe(l: Ligne): real { OrZeroR(l.longueurTotale) }

  function CapaciteDe(p: PosteT): real { OrZeroR(p.puissanceInstallee) }

  predicate LigneEnService(l: Ligne) { l.statut == Some(EnService) }

  predicate PosteEnService(p: PosteT) { p.statut == Some(EnService) }

  function Statistiques(lignes: seq<Ligne>, postes: seq<PosteT>): StatsTransport
  {
    StatsTransport(
      |lignes|, |postes|, SumOf(LongueurDe, lignes), SumOf(CapaciteDe, postes),
      Count(LigneEnService, lignes), Count(PosteEnService, postes))
  }

  /**
   * The totals count the listed rows, the in-service counts are bounded by them and equal
   * them exactly when every row is in service, and the sums of lengths are not negative when no length is.
   */
  lemma {:induction false} StatistiquesMeaning(lignes: seq<Ligne>, postes: seq<PosteT>)
    ensures var s := Statistiques(lignes, postes);
      && s.nbLignes == |lignes| && s.nbPostes == |postes|
      && s.lignesEnService <= s.nbLignes && s.postesEnService <= s.nbPostes
      && ((forall k :: 0 <= k < |lignes| ==> LigneEnService(lignes[k])) ==> s.lignesEnService == s.nbLignes)
      && ((forall k :: 0 <= k < |lignes| ==> LongueurDe(lignes[k]) >= 0.0) ==> s.longueurTotale >= 0.0)
  {
    if forall k :: 0 <= k < |lignes| ==> LigneEnService(lignes[k]) {
      CountAll(LigneEnService, lignes);
    }
    if forall k :: 0 <= k < |lignes| ==> LongueurDe(lignes[k]) >= 0.0 {
      SumNonNegative(LongueurDe, lignes);
    }
  }

  lemma {:induction false} CountAll<A>(p: A -> bool, s: seq<A>)
    requires forall k :: 0 <= k < |s| ==> p(s[k])
    ensures Count(p, s) == |s|
  {
    if s != [] {
      CountAll(p, s[..|s| - 1]);
    }
  }

  // ---------------------------------------------------------------------------------------
  // generer_donnees_graphiques_transport

  /**
   * `f"{ligne.tension_nominale} kV"`. Python's text of a float (`220.0`) is the parameter
   * `floatText`: its shortest round-trip digits are not modelled.
   */
  function TensionCle(floatText: real -> string, l: Ligne): string
  {
    floatText(l.tensionNominale) + " kV"
  }

  function StatutLigneDe(l: Ligne): string { if TruthyStr(l.statut) then l.statut.value else NonDefini }

  function StatutPosteDe(p: PosteT): string { if TruthyStr(p.statut) then p.statut.value else NonDefini }

  /** The counter the voltage loop builds. */
  function RepartitionTension(floatText: real -> string, lignes: seq<Ligne>): map<string, nat>
  {
    CountsBy((l: Ligne) => TensionCle(floatText, l), lignes)
  }

  datatype GraphiquesTransport = GraphiquesTransport(
    repartitionTension: map<string, nat>, statutsLignes: map<string, nat>,
    statutsPostes: map<string, nat>, evolutionIndisponibilites: seq<real>)

  method GenererDonneesGraphiques(floatText: real -> string, lignes: seq<Ligne>, postes: seq<PosteT>)
    returns (g: GraphiquesTransport)
    ensures g.repartitionTension == RepartitionTension(floatText, lignes)
    ensures g.statutsLignes == CountsBy(StatutLigneDe, lignes)
    ensures g.statutsPostes == CountsBy(StatutPosteDe, postes)
    ensures g.evolutionIndisponibilites == []
  {
    var tensions := Tally((l: Ligne) => TensionCle(floatText, l), lignes);
    assert tensions == RepartitionTension(floatText, lignes);
    var statutsLignes := Tally(StatutLigneDe, lignes);
    var statutsPostes := Tally(StatutPosteDe, postes);
    g := GraphiquesTransport(tensions, statutsLignes, statutsPostes, []);
  }

  /** The voltage buckets' counts add up to the number of lines. */
  lemma {:induction false} RepartitionTensionTotal(floatText: real -> string, lignes: seq<Ligne>)
    ensures MapTotal(RepartitionTension(floatText, lignes)) == |lignes|
  {
    CountsByTotal((l: Ligne) => TensionCle(floatText, l), lignes);
  }

  /** Every bucket is the voltage of some line followed by " kV", and every line has its bucket. */
  lemma {:induction false} RepartitionTensionKeys(floatText: real -> string, lignes: seq<Ligne>)
    ensures forall k :: k in RepartitionTension(floatText, lignes) ==>
              exists i :: 0 <= i < |lignes| && k == floatText(lignes[i].tensionNominale) + " kV"
    ensures forall i :: 0 <= i < |lignes| ==> TensionCle(floatText, lignes[i]) in RepartitionTension(floatText, lignes)
  {
    CountsByKeys((l: Ligne) => TensionCle(floatText, l), lignes);
  }

  lemma {:induction false} TensionCleSuffix(floatText: real -> string, l: Ligne)
    ensures EndsWith(TensionCle(floatText, l), " kV")
  {
    ConcatParts(floatText(l.tensionNominale), " kV");
  }

  /** The status counters add up to the number of rows. */
  lemma {:induction false} StatutsTotals(lignes: seq<Ligne>, postes: seq<PosteT>)
    ensures MapTotal(CountsBy(StatutLigneDe, lignes)) == |lignes|
    ensures MapTotal(CountsBy(StatutPosteDe, postes)) == |postes|
  {
    CountsByTotal(StatutLigneDe, lignes);
    CountsByTotal(StatutPosteDe, postes);
  }

  // ---------------------------------------------------------------------------------------
  // supprimer_poste

  datatype Suppression = Refusee(transformateurs: nat) | Supprime(poste: PosteT)

  function FindPoste(postes: seq<PosteT>, id: int): (r: Option<PosteT>)
    ensures r.Some? ==> r.value in postes && r.value.id == id
    ensures r.None? ==> forall p :: p in postes ==> p.id != id
  {
    if postes == [] then None
    else if postes[0].id == id then Some(postes[0])
    else FindPoste(postes[1..], id)
  }

  predicate TransformateurActifDe(posteId: int, t: TransformateurT) { t.posteId == posteId && t.actif }

  /**
   * `supprimer_poste`: 404 for an unknown substation, 403 for another operator's one,
   * refused while an active transformer is attached, else the substation is soft-deleted.
   */
  function SupprimerPoste(u: User, postes: seq<PosteT>, transformateurs: seq<TransformateurT>, id: int): Http<Suppression>
  {
    match FindPoste(postes, id)
    case None => Abort(404)
    case Some(p) =>
      if !VerifierPermission(u, p.operateurId) then Abort(403)
      else
        var n := Count((t: TransformateurT) => TransformateurActifDe(p.id, t), transformateurs);
        if n > 0 then Done(Refusee(n)) else Done(Supprime(p.(actif := false)))
  }

  /**
   * A substation is deleted only when it exists, the user may act on its operator and no
   * active transformer points to it; the deletion clears the active flag and nothing else.
   */
  lemma {:induction false} SupprimerPosteMeaning(u: User, postes: seq<PosteT>, transformateurs: seq<TransformateurT>, id: int)
    ensures SupprimerPoste(u, postes, transformateurs, id) == Abort(404) <==> FindPoste(postes, id).None?
    ensures SupprimerPoste(u, postes, transformateurs, id).Done? ==> VerifierPermission(u, FindPoste(postes, id).value.operateurId)
    ensures SupprimerPoste(u, postes, transformateurs, id).Done? && SupprimerPoste(u, postes, transformateurs, id).value.Supprime? ==>
              && SupprimerPoste(u, postes, transformateurs, id).value.poste == FindPoste(postes, id).value.(actif := false)
              && forall t :: t in transformateurs ==> !TransformateurActifDe(id, t)
    ensures SupprimerPoste(u, postes, transformateurs, id).Done? && SupprimerPoste(u, postes, transformateurs, id).value.Refusee? ==>
              exists t :: t in transformateurs && TransformateurActifDe(id, t)
  {
    match FindPoste(postes, id)
    case None =>
    case Some(p) =>
      var q := (t: TransformateurT) => TransformateurActifDe(p.id, t);
      CountIsFilterLength(q, transformateurs);
      FilterIff(q, transformateurs);
      if Count(q, transformateurs) > 0 {
        assert Filter(q, transformateurs)[0] in Filter(q, transformateurs);
      }
  }

  // ---------------------------------------------------------------------------------------
  // nouveau_rapport

  /**
   * What the creation handler does with the submitted ids: refused without a substation and
   * without a line; the insert fails when there is no line, since `ligne_id` is NOT NULL
   * (the report has no substation column, the form's substation is not stored).
   */
  datatype CreationRapport = SansPosteNiLigne | EchecEnregistrement | Cree(ligneId: int) | ErreurServeur

  /**
   * `nouveau_rapport` as written: `RapportTransportForm` has no `poste_id` field, so setting
   * `form.poste_id.choices` raises `AttributeError` on every request, before the form is read.
   */
  function NouveauRapportAsWritten(posteId: int, ligneId: int): (r: CreationRapport)
    ensures r == ErreurServeur
  {
    ErreurServeur
  }

  /** The choice lists put `0` first as the "nothing selected" entry: `0` becomes `None`. */
  function ZeroCommeNone(id: int): Option<int>
  {
    if id == 0 then None else Some(id)
  }

  /**
   * `nouveau_rapport` corrected: the form carries the substation choice the handler fills in.
   * This is the handler's own guard. Before it runs, `ligne_id`'s `DataRequired`
   * (app/transport/forms.py:288) already refuses the line choice 0 in `validate_on_submit`, so
   * with the full form a submission without a line is shown again rather than reaching
   * `SansPosteNiLigne` or `EchecEnregistrement`.
   */
  function NouveauRapport(posteId: int, ligneId: int): (r: CreationRapport)
    ensures r != ErreurServeur
    ensures r.Cree? ==> r.ligneId == ligneId != 0
  {
    var poste := ZeroCommeNone(posteId);
    var ligne := ZeroCommeNone(ligneId);
    if !TruthyInt(poste) && !TruthyInt(ligne) then SansPosteNiLigne
    else if ligne.None? then EchecEnregistrement
    else Cree(ligne.value)
  }

  /** The guard refuses exactly the submissions with neither id set; a report is stored only with a line. */
  lemma {:induction false} NouveauRapportMeaning(posteId: int, ligneId: int)
    ensures NouveauRapport(posteId, ligneId) == SansPosteNiLigne <==> posteId == 0 && ligneId == 0
    ensures NouveauRapport(posteId, ligneId).Cree? <==> ligneId != 0
    ensures NouveauRapport(posteId, ligneId).Cree? ==> NouveauRapport(posteId, ligneId).ligneId == ligneId
    ensures NouveauRapport(posteId, ligneId) == EchecEnregistrement <==> posteId != 0 && ligneId == 0
  {
  }

  /** As written no submission is ever refused, rejected by the database or stored; the corrected handler never fails that way. */
  lemma {:induction false} NouveauRapportAsWrittenFails(posteId: int, ligneId: int)
    ensures NouveauRapportAsWritten(posteId, ligneId) != NouveauRapport(posteId, ligneId)
    ensures NouveauRapportAsWritten(posteId, ligneId) == ErreurServeur
  {
  }

  // ---------------------------------------------------------------------------------------
  // generer_donnees_performance_ligne

  /** A `RapportTransport` of the line: the month of `periode_debut` and the indicators. */
  datatype RapportT = RapportT(
    annee: AnneeNum, mois: MoisNum,
    tauxUtilisation: Option<real>, nombreIncidents: Option<int>, chargeMoyenne: Option<real>)

  /** `max(0, 100 - (nombre_incidents or 0) * 10)`. */
  function Fiabilite(r: RapportT): int
  {
    var v := 100 - OrZero(r.nombreIncidents) * 10;
    if v > 0 then v else 0
  }

  /** Each incident costs 10 points, from 100 down to 0: full marks without incidents, none from 10 on. */
  lemma {:induction false} FiabiliteMeaning(r: RapportT)
    ensures 0 <= Fiabilite(r)
    ensures OrZero(r.nombreIncidents) >= 0 ==> Fiabilite(r) <= 100
    ensures Fiabilite(r) == 100 <==> OrZero(r.nombreIncidents) == 0
    ensures Fiabilite(r) == 0 <==> OrZero(r.nombreIncidents) >= 10
    ensures 0 <= OrZero(r.nombreIncidents) < 10 ==> Fiabilite(r) == 100 - 10 * OrZero(r.nombreIncidents)
  {
  }

  datatype PerformanceLigne = PerformanceLigne(
    labels: seq<string>, disponibilite: seq<real>, fiabilite: seq<int>, charge: seq<real>)

  function LabelDe(r: RapportT): string { MoisAnnee(r.annee, r.mois) }

  function DisponibiliteDe(r: RapportT): real { OrZeroR(r.tauxUtilisation) }

  function ChargeDe(r: RapportT): real { OrZeroR(r.chargeMoyenne) }

  /** One entry per report, in the order given (the query sorts by period start). */
  method GenererPerformanceLigne(rapports: seq<RapportT>) returns (p: PerformanceLigne)
    ensures p.labels == MapSeq(LabelDe, rapports)
    ensures p.disponibilite == MapSeq(DisponibiliteDe, rapports)
    ensures p.fiabilite == MapSeq(Fiabilite, rapports)
    ensures p.charge == MapSeq(ChargeDe, rapports)
  {
    var labels, dispo, fiab, charge := [], [], [], [];
    for i := 0 to |rapports|
      invariant labels == MapSeq(LabelDe, rapports[..i])
      invariant dispo == MapSeq(DisponibiliteDe, rapports[..i])
      invariant fiab == MapSeq(Fiabilite, rapports[..i])
      invariant charge == MapSeq(ChargeDe, rapports[..i])
    {
      var r := rapports[i];
      assert rapports[..i + 1][..i] == rapports[..i];
      labels := labels + [LabelDe(r)];
      dispo := dispo + [DisponibiliteDe(r)];
      fiab := fiab + [Fiabilite(r)];
      charge := charge + [ChargeDe(r)];
    }
    assert rapports[..|rapports|] == rapports;
    p := PerformanceLigne(labels, dispo, fiab, charge);
  }
}
