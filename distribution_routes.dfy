// The distribution dashboard's aggregates (app/distribution/routes.py): the global statistics
// over networks, substations, feeders and the monthly records a user may see; the chart
// counters; and the per-month performance series of one network.
module DistributionRoutes {
  import opened Wrappers
  import opened Text
  import opened Python
  import opened Users
  import opened Ratios
  import opened Collections
  import opened DistributionModel
  import opened Calendar

  // ---------------------------------------------------------------------------------------
  // Infrastructure rows: the columns the dashboard reads; NULL is `None`.

  datatype Reseau = Reseau(
    zoneDesserte: Option<string>, typeReseau: Option<string>,
    longueurReseauMt: Option<real>, longueurReseauBt: Option<real>)

  datatype Poste = Poste(
    nom: string, puissanceInstallee: Option<real>, nombreClientsRaccordes: Option<int>, statut: Option<string>)

  datatype Feeder = Feeder(typeFeeder: Option<string>, statut: Option<string>)

  const EnService: string := "en_service"

  predicate PosteEnService(p: Poste) { p.statut == Some(EnService) }

  predicate FeederEnService(f: Feeder) { f.statut == Some(EnService) }

  // `sum([x.c for x in xs if x.c])`: a falsy value adds nothing, so each term is `x.c or 0`.
  function PuissanceDe(p: Poste): real { OrZeroR(p.puissanceInstallee) }

  function LongueurMtDe(r: Reseau): real { OrZeroR(r.longueurReseauMt) }

  function LongueurBtDe(r: Reseau): real { OrZeroR(r.longueurReseauBt) }

  /** The connected clients a substation contributes to `clients_infrastructure`. */
  function ClientsRaccordes(p: Poste): real { OrZero(p.nombreClientsRaccordes) as real }

  /** The connected clients it contributes to `clients_alimentes`: only a substation in service counts. */
  function ClientsAlimentes(p: Poste): real { if PosteEnService(p) then ClientsRaccordes(p) else 0.0 }

  /** `taux_desserte`: the share of connected clients behind a substation in service, 0 without clients. */
  function TauxDesserte(postes: seq<Poste>): real
  {
    var infrastructure := SumOf(ClientsRaccordes, postes);
    if infrastructure > 0.0 then Percent(SumOf(ClientsAlimentes, postes), infrastructure) else 0.0
  }

  /** Without connected clients the rate is 0. */
  lemma {:induction false} TauxDesserteSansClients(postes: seq<Poste>)
    requires SumOf(ClientsRaccordes, postes) <= 0.0
    ensures TauxDesserte(postes) == 0.0
  {
  }

  /** With no client count negative, the rate is a percentage. */
  lemma {:induction false} TauxDesserteBounds(postes: seq<Poste>)
    requires forall k :: 0 <= k < |postes| ==> OrZero(postes[k].nombreClientsRaccordes) >= 0
    ensures 0.0 <= TauxDesserte(postes) <= 100.0
  {
    var infrastructure := SumOf(ClientsRaccordes, postes);
    var alimentes := SumOf(ClientsAlimentes, postes);
    SumDominated(ClientsAlimentes, ClientsRaccordes, postes);
    SumNonNegative(ClientsAlimentes, postes);
    if infrastructure > 0.0 {
      PercentOfShare(alimentes, infrastructure);
    }
  }

  /** With every substation in service, every connected client is served. */
  lemma {:induction false} TauxDesserteToutEnService(postes: seq<Poste>)
    requires SumOf(ClientsRaccordes, postes) > 0.0
    requires forall k :: 0 <= k < |postes| ==> PosteEnService(postes[k])
    ensures TauxDesserte(postes) == 100.0
  {
    var infrastructure := SumOf(ClientsRaccordes, postes);
    assert forall k :: 0 <= k < |postes| ==> ClientsAlimentes(postes[k]) == ClientsRaccordes(postes[k]);
    SumSame(ClientsAlimentes, ClientsRaccordes, postes);
    assert TauxDesserte(postes) == Percent(infrastructure, infrastructure);
    PercentOfWhole(infrastructure);
  }

  // ---------------------------------------------------------------------------------------
  // calculer_statistiques_distribution

  /**
   * The monthly records the user may see: every record for an administrator, the records of
   * the user's operator otherwise, none for a user without an operator.
   */
  function Visibles(u: User, donnees: seq<Donnees>): seq<Donnees>
  {
    if IsAdmin(u) then donnees
    else if u.operateurId.Some? then Filter((d: Donnees) => d.operateurId == u.operateurId.value, donnees)
    else []
  }

  lemma {:induction false} VisiblesMeaning(u: User, donnees: seq<Donnees>)
    ensures IsAdmin(u) ==> Visibles(u, donnees) == donnees
    ensures !IsAdmin(u) ==> forall d :: d in Visibles(u, donnees) <==> d in donnees && Some(d.operateurId) == u.operateurId
  {
    if !IsAdmin(u) && u.operateurId.Some? {
      FilterIff((d: Donnees) => d.operateurId == u.operateurId.value, donnees);
    }
  }

  /** `order_by(mois.desc()).first()`: a record of the latest month; among equals, the first one. */
  function DerniereSaisie(ds: seq<Donnees>): (d: Donnees)
    requires ds != []
    ensures d in ds
    ensures forall e :: e in ds ==> e.mois <= d.mois
  {
    if |ds| == 1 then ds[0]
    else
      var p := DerniereSaisie(ds[..|ds| - 1]);
      assert forall e :: e in ds ==> e in ds[..|ds| - 1] || e == ds[|ds| - 1];
      if ds[|ds| - 1].mois > p.mois then ds[|ds| - 1] else p
  }

  function ImpayesDe(d: Donnees): real { OrZeroR(d.impayes) }

  function PertesDe(d: Donnees): real { OrZeroR(d.pertesTechniques) + OrZeroR(d.pertesCommerciales) }

  /** The dictionary `calculer_statistiques_distribution` returns (`nb_reseaux` repeats `total_reseaux`). */
  datatype Statistiques = Statistiques(
    totalReseaux: nat, nbFeeders: nat, puissanceTotale: real,
    longueurLignesMt: real, longueurLignesBt: real, postesEnService: nat, feedersEnService: nat,
    nbClients: int, energieDistribuee: real, revenusTotaux: real,
    tauxRecouvrement: real, tauxPertes: real, tauxDesserte: real)

  /** The current year's records among those the user may see. */
  function DonneesAnnee(u: User, donnees: seq<Donnees>, anneeCourante: int): seq<Donnees>
  {
    Filter((d: Donnees) => d.annee == anneeCourante, Visibles(u, donnees))
  }

  /**
   * The global statistics. Without a record for the current year the energy, revenue and
   * rates are 0; with records, the energy is in GWh, the recovery rate is the unpaid-free
   * share of revenue and the loss rate the lost share of distributed energy.
   */
  function CalculerStatistiques(
    u: User, reseaux: seq<Reseau>, postes: seq<Poste>, feeders: seq<Feeder>,
    donnees: seq<Donnees>, anneeCourante: int): Statistiques
  {
    var annee := DonneesAnnee(u, donnees, anneeCourante);
    var energie := SumOf(EnergieTotale, annee);
    var revenus := SumOf(RevenusTotaux, annee);
    var impayes := SumOf(ImpayesDe, annee);
    var pertes := SumOf(PertesDe, annee);
    Statistiques(
      |reseaux|, |feeders|, SumOf(PuissanceDe, postes),
      SumOf(LongueurMtDe, reseaux), SumOf(LongueurBtDe, reseaux),
      Count(PosteEnService, postes), Count(FeederEnService, feeders),
      if annee == [] then 0 else TotalClientsFinMois(DerniereSaisie(annee)),
      if annee == [] then 0.0 else energie / 1000.0,
      if annee == [] then 0.0 else revenus,
      if annee != [] && revenus > 0.0 then Percent(revenus - impayes, revenus) else 0.0,
      if annee != [] && energie > 0.0 then Percent(pertes, energie) else 0.0,
      TauxDesserte(postes))
  }

  /** The infrastructure part counts the rows given, and in-service counts are bounded by them. */
  lemma {:induction false} StatistiquesInfrastructure(
    u: User, reseaux: seq<Reseau>, postes: seq<Poste>, feeders: seq<Feeder>, donnees: seq<Donnees>, annee: int)
    ensures var s := CalculerStatistiques(u, reseaux, postes, feeders, donnees, annee);
      && s.totalReseaux == |reseaux| && s.nbFeeders == |feeders|
      && s.postesEnService <= |postes| && s.feedersEnService <= |feeders|
      && s.tauxDesserte == TauxDesserte(postes)
  {
  }

  /** Without a visible record of the current year, every operational figure is 0. */
  lemma {:induction false} StatistiquesSansDonnees(
    u: User, reseaux: seq<Reseau>, postes: seq<Poste>, feeders: seq<Feeder>, donnees: seq<Donnees>, annee: int)
    requires forall d :: d in Visibles(u, donnees) ==> d.annee != annee
    ensures var s := CalculerStatistiques(u, reseaux, postes, feeders, donnees, annee);
      s.nbClients == 0 && s.energieDistribuee == 0.0 && s.revenusTotaux == 0.0
      && s.tauxRecouvrement == 0.0 && s.tauxPertes == 0.0
  {
  }

  /**
   * With visible records of the current year: the client count is the end-of-month total of
   * a record of the latest month, the energy is the MWh total over 1000, the revenue is
   * summed, and each rate is 0 exactly when its base is not positive.
   */
  lemma {:induction false} StatistiquesAvecDonnees(
    u: User, reseaux: seq<Reseau>, postes: seq<Poste>, feeders: seq<Feeder>, donnees: seq<Donnees>, annee: int)
    requires DonneesAnnee(u, donnees, annee) != []
    ensures var a := DonneesAnnee(u, donnees, annee);
      var s := CalculerStatistiques(u, reseaux, postes, feeders, donnees, annee);
      && (exists d :: d in a && s.nbClients == TotalClientsFinMois(d) && forall e :: e in a ==> e.mois <= d.mois)
      && s.energieDistribuee * 1000.0 == SumOf(EnergieTotale, a)
      && s.revenusTotaux == SumOf(RevenusTotaux, a)
      && (SumOf(RevenusTotaux, a) <= 0.0 ==> s.tauxRecouvrement == 0.0)
      && (SumOf(EnergieTotale, a) <= 0.0 ==> s.tauxPertes == 0.0)
  {
    var a := DonneesAnnee(u, donnees, annee);
    var d := DerniereSaisie(a);
    assert d in a;
  }

  /** The recovery rate: what was not left unpaid, as a share of revenue. */
  lemma {:induction false} TauxRecouvrementMeaning(revenus: real, impayes: real)
    requires revenus > 0.0
    ensures 0.0 <= impayes <= revenus ==> 0.0 <= Percent(revenus - impayes, revenus) <= 100.0
    ensures impayes == 0.0 ==> Percent(revenus - impayes, revenus) == 100.0
    ensures Percent(revenus - impayes, revenus) * revenus / 100.0 == revenus - impayes
  {
    PercentOfShare(revenus - impayes, revenus);
    PercentOfWhole(revenus);
  }

  // ---------------------------------------------------------------------------------------
  // generer_donnees_graphiques_distribution

  const NonDefinie: string := "Non définie"

  const NonDefini: string := "Non défini"

  /** `s or default` on a nullable text column. */
  function OrLibelle(s: Option<string>, default: string): (r: string)
    ensures TruthyStr(s) ==> r == s.value
    ensures !TruthyStr(s) ==> r == default
  {
    if TruthyStr(s) then s.value else default
  }

  function ZoneDe(r: Reseau): string { OrLibelle(r.zoneDesserte, NonDefinie) }

  function TypeReseauDe(r: Reseau): string { OrLibelle(r.typeReseau, NonDefini) }

  function StatutPosteDe(p: Poste): string { OrLibelle(p.statut, NonDefini) }

  function TypeFeederDe(f: Feeder): string { OrLibelle(f.typeFeeder, NonDefini) }

  /** A `(nom, nombre_clients_raccordes)` pair of `postes_clients`. */
  function PaireClients(p: Poste): (string, int) { (p.nom, OrZero(p.nombreClientsRaccordes)) }

  predicate AClients(p: Poste) { TruthyInt(p.nombreClientsRaccordes) }

  function NombreDe(x: (string, int)): real { x.1 as real }

  /** `postes_clients`: the substations with a truthy client count. */
  function PostesClients(postes: seq<Poste>): seq<(string, int)>
  {
    MapSeq(PaireClients, Filter(AClients, postes))
  }

  /** `postes_clients.sort(key=lambda x: x[1], reverse=True)`. */
  function ClassementClients(postes: seq<Poste>): seq<(string, int)>
  {
    SortDescBy(NombreDe, PostesClients(postes))
  }

  /** `postes_clients[:10]`. */
  function TopClients(postes: seq<Poste>): seq<(string, int)>
  {
    var c := ClassementClients(postes);
    c[..if |c| < 10 then |c| else 10]
  }

  /** `dict(pairs)`: a later pair with the same name replaces the value of an earlier one. */
  function DictOf(pairs: seq<(string, int)>): map<string, int>
  {
    if pairs == [] then map[] else DictOf(pairs[..|pairs| - 1])[pairs[|pairs| - 1].0 := pairs[|pairs| - 1].1]
  }

  /** The dictionary has one key per distinct name, so at most one per pair, and takes its values from the pairs. */
  lemma {:induction false} DictOfSize(pairs: seq<(string, int)>)
    ensures |DictOf(pairs)| <= |pairs|
  {
    if pairs != [] {
      var p := pairs[..|pairs| - 1];
      DictOfSize(p);
      var m := DictOf(p);
      var x := pairs[|pairs| - 1];
      assert DictOf(pairs).Keys == m.Keys + {x.0};
      assert |m.Keys + {x.0}| <= |m.Keys| + 1;
    }
  }

  lemma {:induction false} DictOfMeaning(pairs: seq<(string, int)>)
    ensures forall k :: k in DictOf(pairs) ==> (k, DictOf(pairs)[k]) in pairs
    ensures forall i :: 0 <= i < |pairs| ==> pairs[i].0 in DictOf(pairs)
  {
    if pairs != [] {
      var p := pairs[..|pairs| - 1];
      DictOfMeaning(p);
      forall i | 0 <= i < |pairs| ensures pairs[i].0 in DictOf(pairs) {
        if i < |p| {
          assert pairs[i] == p[i];
        }
      }
    }
  }

  /**
   * The top list keeps at most 10 substations, all with a truthy client count, in descending
   * order of clients; the ranking drops no substation and holds none it was not given, and
   * every substation left out has no more clients than any kept.
   */
  lemma {:induction false} TopClientsMeaning(postes: seq<Poste>)
    ensures |TopClients(postes)| <= 10
    ensures DescendingBy(NombreDe, TopClients(postes))
    ensures multiset(ClassementClients(postes)) == multiset(PostesClients(postes))
    ensures TopClients(postes) == ClassementClients(postes)[..|TopClients(postes)|]
    ensures |PostesClients(postes)| <= 10 ==> TopClients(postes) == ClassementClients(postes)
    ensures forall i, j :: 0 <= i < |TopClients(postes)| <= j < |ClassementClients(postes)| ==>
              TopClients(postes)[i].1 >= ClassementClients(postes)[j].1
  {
    var s := PostesClients(postes);
    var c := ClassementClients(postes);
    var t := TopClients(postes);
    SortDescByCorrect(NombreDe, s);
    forall i, j | 0 <= i < |t| <= j < |c| ensures t[i].1 >= c[j].1 {
      assert t[i] == c[i];
      assert NombreDe(c[i]) >= NombreDe(c[j]);
    }
    assert DescendingBy(NombreDe, t) by {
      forall i, j | 0 <= i < j < |t| ensures NombreDe(t[i]) >= NombreDe(t[j]) {
        assert t[i] == c[i] && t[j] == c[j];
      }
    }
  }

  /** Every ranked substation has a truthy client count. */
  lemma {:induction false} TopClientsCounted(postes: seq<Poste>)
    ensures forall x :: x in TopClients(postes) ==> x.1 != 0
  {
    var s := PostesClients(postes);
    var c := ClassementClients(postes);
    forall x | x in TopClients(postes) ensures x.1 != 0 {
      assert x in c;
      assert x in multiset(s);
      var k :| 0 <= k < |s| && s[k] == x;
      var f := Filter(AClients, postes);
      assert f[k] in f;
    }
  }

  /** The dashboard's chart data. */
  datatype Graphiques = Graphiques(
    repartitionZones: map<string, nat>, typesReseaux: map<string, nat>, statutsPostes: map<string, nat>,
    repartitionClients: map<string, int>, typesAlimentationFeeders: map<string, nat>)

  method GenererDonneesGraphiques(reseaux: seq<Reseau>, postes: seq<Poste>, feeders: seq<Feeder>)
    returns (g: Graphiques)
    ensures g.repartitionZones == CountsBy(ZoneDe, reseaux)
    ensures g.typesReseaux == CountsBy(TypeReseauDe, reseaux)
    ensures g.statutsPostes == CountsBy(StatutPosteDe, postes)
    ensures g.repartitionClients == DictOf(TopClients(postes))
    ensures g.typesAlimentationFeeders == CountsBy(TypeFeederDe, feeders)
  {
    var zones := Tally(ZoneDe, reseaux);
    var types := Tally(TypeReseauDe, reseaux);
    var statuts := Tally(StatutPosteDe, postes);
    var clients := DictOf(TopClients(postes));
    var alimentations := Tally(TypeFeederDe, feeders);
    g := Graphiques(zones, types, statuts, clients, alimentations);
  }

  /** A chart counter: its counts add up to the number of items and each key counts the items that carry it. */
  lemma {:induction false} ZonesMeaning(reseaux: seq<Reseau>, k: string)
    requires k in CountsBy(ZoneDe, reseaux)
    ensures MapTotal(CountsBy(ZoneDe, reseaux)) == |reseaux|
    ensures CountsBy(ZoneDe, reseaux)[k] == CountKey(ZoneDe, reseaux, k)
  {
    CountsByTotal(ZoneDe, reseaux);
    CountsByValues(ZoneDe, reseaux, k);
  }

  /** The placeholder key appears exactly when some network has no zone (or names it so). */
  lemma {:induction false} ZonesNonDefinie(reseaux: seq<Reseau>)
    ensures (NonDefinie in CountsBy(ZoneDe, reseaux)) <==>
              exists i :: 0 <= i < |reseaux| && (!TruthyStr(reseaux[i].zoneDesserte) || reseaux[i].zoneDesserte == Some(NonDefinie))
  {
    CountsByKeys(ZoneDe, reseaux);
    assert forall r :: ZoneDe(r) == NonDefinie <==> !TruthyStr(r.zoneDesserte) || r.zoneDesserte == Some(NonDefinie);
  }

  /** The other three counters add up to the number of items as well. */
  lemma {:induction false} CompteursTotals(reseaux: seq<Reseau>, postes: seq<Poste>, feeders: seq<Feeder>)
    ensures MapTotal(CountsBy(TypeReseauDe, reseaux)) == |reseaux|
    ensures MapTotal(CountsBy(StatutPosteDe, postes)) == |postes|
    ensures MapTotal(CountsBy(TypeFeederDe, feeders)) == |feeders|
  {
    CountsByTotal(TypeReseauDe, reseaux);
    CountsByTotal(StatutPosteDe, postes);
    CountsByTotal(TypeFeederDe, feeders);
  }

  // ---------------------------------------------------------------------------------------
  // generer_donnees_performance_reseau

  /** A `RapportDistribution` of the network: the month of `periode_debut` and the indicators. */
  datatype Rapport = Rapport(
    annee: AnneeNum, mois: MoisNum,
    tauxDisponibilite: Option<real>, saidiRealise: Option<real>, saifiRealise: Option<real>)

  /** `periode_debut.strftime('%m/%Y')`. */
  function Label(r: Rapport): string
  {
    MoisAnnee(r.annee, r.mois)
  }

  /** The month a report belongs to, as a number that grows with time. */
  function MoisCle(r: Rapport): int { r.annee * 12 + r.mois }

  /** The grouping loop's dictionary `rapports_par_mois`, built on the prefix. */
  function Groupes(rs: seq<Rapport>): map<string, seq<Rapport>>
  {
    if rs == [] then map[]
    else
      var g := Groupes(rs[..|rs| - 1]);
      var k := Label(rs[|rs| - 1]);
      g[k := (if k in g then g[k] else []) + [rs[|rs| - 1]]]
  }

  /** The dictionary's keys in insertion order. */
  function Cles(rs: seq<Rapport>): seq<string>
  {
    if rs == [] then []
    else
      var c := Cles(rs[..|rs| - 1]);
      if Label(rs[|rs| - 1]) in c then c else c + [Label(rs[|rs| - 1])]
  }

  /** The reports of the month whose label is `k`, in order. */
  function DuMois(rs: seq<Rapport>, k: string): (g: seq<Rapport>)
    ensures forall r :: r in g ==> r in rs && Label(r) == k
  {
    if rs == [] then []
    else DuMois(rs[..|rs| - 1], k) + (if Label(rs[|rs| - 1]) == k then [rs[|rs| - 1]] else [])
  }

  lemma {:induction false} GroupesPrefix(rs: seq<Rapport>, i: nat)
    requires i < |rs|
    ensures Groupes(rs[..i + 1]) == var g := Groupes(rs[..i]); var k := Label(rs[i]);
      g[k := (if k in g then g[k] else []) + [rs[i]]]
    ensures Cles(rs[..i + 1]) == var c := Cles(rs[..i]); if Label(rs[i]) in c then c else c + [Label(rs[i])]
  {
    assert rs[..i + 1][..i] == rs[..i];
  }

  /** A month has a group exactly when some report falls in it, and the group holds that month's reports. */
  lemma {:induction false} GroupesMeaning(rs: seq<Rapport>)
    ensures forall k :: k in Groupes(rs) <==> k in Cles(rs)
    ensures forall k :: k in Groupes(rs) ==> Groupes(rs)[k] == DuMois(rs, k) && Groupes(rs)[k] != []
    ensures forall k :: k !in Groupes(rs) ==> DuMois(rs, k) == []
  {
    if rs != [] {
      GroupesMeaning(rs[..|rs| - 1]);
    }
  }

  /** The keys are the labels of the reports. */
  lemma {:induction false} ClesMeaning(rs: seq<Rapport>)
    ensures forall k :: k in Cles(rs) <==> k in MapSeq(Label, rs)
  {
    if rs != [] {
      ClesMeaning(rs[..|rs| - 1]);
    }
  }

  /** Each key is listed once. */
  lemma {:induction false} ClesDistinct(rs: seq<Rapport>)
    ensures forall i, j :: 0 <= i < j < |Cles(rs)| ==> Cles(rs)[i] != Cles(rs)[j]
  {
    if rs != [] {
      ClesDistinct(rs[..|rs| - 1]);
    }
  }

  method GrouperParMois(rapports: seq<Rapport>) returns (groupes: map<string, seq<Rapport>>, cles: seq<string>)
    ensures groupes == Groupes(rapports) && cles == Cles(rapports)
  {
    groupes := map[];
    cles := [];
    for i := 0 to |rapports|
      invariant groupes == Groupes(rapports[..i]) && cles == Cles(rapports[..i])
      invariant forall k :: k in groupes <==> k in cles
    {
      GroupesPrefix(rapports, i);
      var r := rapports[i];
      var mois := Label(r);
      if mois !in groupes {
        groupes := groupes[mois := []];
        cles := cles + [mois];
      }
      groupes := groupes[mois := groupes[mois] + [r]];
    }
    assert rapports[..|rapports|] == rapports;
  }

  function Disponibilite(r: Rapport): Option<real> { r.tauxDisponibilite }

  function Saidi(r: Rapport): Option<real> { r.saidiRealise }

  function Saifi(r: Rapport): Option<real> { r.saifiRealise }

  /** `sum([f(r) for r in g if f(r)]) / len(g)`: falsy values add nothing but still count in the divisor. */
  function Moyenne(f: Rapport -> Option<real>, g: seq<Rapport>): real
    requires g != []
  {
    Somme(f, g) / (|g| as real)
  }

  /** The sum of the set values of an indicator. */
  function Somme(f: Rapport -> Option<real>, g: seq<Rapport>): real
  {
    if g == [] then 0.0 else Somme(f, g[..|g| - 1]) + OrZeroR(f(g[|g| - 1]))
  }

  /** The mean times the group size is the sum of the set values; without negative values it is not negative. */
  lemma {:induction false} MoyenneMeaning(f: Rapport -> Option<real>, g: seq<Rapport>)
    requires g != []
    ensures Moyenne(f, g) * (|g| as real) == Somme(f, g)
    ensures (forall k :: 0 <= k < |g| ==> OrZeroR(f(g[k])) >= 0.0) ==> Moyenne(f, g) >= 0.0
  {
    if forall k :: 0 <= k < |g| ==> OrZeroR(f(g[k])) >= 0.0 {
      SommeNonNegative(f, g);
    }
  }

  lemma {:induction false} SommeNonNegative(f: Rapport -> Option<real>, g: seq<Rapport>)
    requires forall k :: 0 <= k < |g| ==> OrZeroR(f(g[k])) >= 0.0
    ensures Somme(f, g) >= 0.0
  {
    if g != [] {
      SommeNonNegative(f, g[..|g| - 1]);
    }
  }

  /** A month with one report lacking the indicator and one at 80 averages 40, not 80. */
  lemma {:induction false} MoyenneCountsFalsy(a: Rapport, b: Rapport)
    requires a.tauxDisponibilite == None && b.tauxDisponibilite == Some(80.0)
    ensures Moyenne(Disponibilite, [a, b]) == 40.0
  {
    assert [a, b][..1] == [a];
    assert Somme(Disponibilite, [a]) == 0.0;
    assert Somme(Disponibilite, [a, b]) == 80.0;
  }

  /** The series `generer_donnees_performance_reseau` returns. */
  datatype Performance = Performance(labels: seq<string>, disponibilite: seq<real>, saidi: seq<real>, saifi: seq<real>)

  /** The series hold one entry per month of `ordre`, each the mean of the indicator over the month's group. */
  predicate SeriesDe(groupes: map<string, seq<Rapport>>, ordre: seq<string>, p: Performance)
  {
    && p.labels == ordre
    && |p.disponibilite| == |ordre| && |p.saidi| == |ordre| && |p.saifi| == |ordre|
    && forall i :: 0 <= i < |ordre| ==>
         (&& ordre[i] in groupes && groupes[ordre[i]] != []
          && p.disponibilite[i] == Moyenne(Disponibilite, groupes[ordre[i]])
          && p.saidi[i] == Moyenne(Saidi, groupes[ordre[i]])
          && p.saifi[i] == Moyenne(Saifi, groupes[ordre[i]]))
  }

  /** The same, with each month's group written as the reports of that month. */
  predicate Series(rapports: seq<Rapport>, ordre: seq<string>, p: Performance)
  {
    && p.labels == ordre
    && |p.disponibilite| == |ordre| && |p.saidi| == |ordre| && |p.saifi| == |ordre|
    && forall i :: 0 <= i < |ordre| ==>
         (&& DuMois(rapports, ordre[i]) != []
          && p.disponibilite[i] == Moyenne(Disponibilite, DuMois(rapports, ordre[i]))
          && p.saidi[i] == Moyenne(Saidi, DuMois(rapports, ordre[i]))
          && p.saifi[i] == Moyenne(Saifi, DuMois(rapports, ordre[i])))
  }

  lemma {:induction false} SeriesOfGroupes(rapports: seq<Rapport>, ordre: seq<string>, p: Performance)
    requires SeriesDe(Groupes(rapports), ordre, p)
    ensures Series(rapports, ordre, p)
  {
    GroupesMeaning(rapports);
  }

  /** The averaging loop over the months in the order given. */
  method Moyennes(groupes: map<string, seq<Rapport>>, ordre: seq<string>) returns (p: Performance)
    requires forall k :: k in ordre ==> k in groupes && groupes[k] != []
    ensures SeriesDe(groupes, ordre, p)
  {
    var labels, dispo, saidi, saifi := [], [], [], [];
    for i := 0 to |ordre|
      invariant labels == ordre[..i]
      invariant |dispo| == i && |saidi| == i && |saifi| == i
      invariant forall j :: 0 <= j < i ==> dispo[j] == Moyenne(Disponibilite, groupes[ordre[j]])
      invariant forall j :: 0 <= j < i ==> saidi[j] == Moyenne(Saidi, groupes[ordre[j]])
      invariant forall j :: 0 <= j < i ==> saifi[j] == Moyenne(Saifi, groupes[ordre[j]])
    {
      var mois := ordre[i];
      var rapportsMois := groupes[mois];
      labels := labels + [mois];
      dispo := dispo + [Moyenne(Disponibilite, rapportsMois)];
      saidi := saidi + [Moyenne(Saidi, rapportsMois)];
      saifi := saifi + [Moyenne(Saifi, rapportsMois)];
    }
    p := Performance(labels, dispo, saidi, saifi);
  }

  /** The order the code uses: `sorted()` of the "MM/YYYY" labels, i.e. text order. */
  function OrdreAsWritten(rapports: seq<Rapport>): seq<string>
  {
    SortBy(LexLe, Cles(rapports))
  }

  /** `datetime.strptime(k, '%m/%Y')` as a month number, the key the labels evidently should be sorted by. */
  function ChronoCle(k: string): int
  {
    if |k| < 3 then 0 else ParseInt(k[3..]).GetOr(0) * 12 + ParseInt(k[..2]).GetOr(0)
  }

  predicate ChronoLe(a: string, b: string) { ChronoCle(a) <= ChronoCle(b) }

  /** The corrected order: oldest month first. */
  function OrdreChronologique(rapports: seq<Rapport>): seq<string>
  {
    SortBy(ChronoLe, Cles(rapports))
  }

  lemma {:induction false} OrdreElements(rapports: seq<Rapport>, ordre: seq<string>)
    requires multiset(ordre) == multiset(Cles(rapports))
    ensures forall k :: k in ordre ==> k in Groupes(rapports) && Groupes(rapports)[k] != []
    ensures forall k :: k in ordre <==> k in MapSeq(Label, rapports)
  {
    GroupesMeaning(rapports);
    ClesMeaning(rapports);
    forall k ensures k in ordre <==> k in Cles(rapports) {
      assert k in ordre <==> k in multiset(ordre);
      assert k in Cles(rapports) <==> k in multiset(Cles(rapports));
    }
  }

  /** The performance series as the code computes them: months in text order of their labels. */
  method GenererPerformanceReseauAsWritten(rapports: seq<Rapport>) returns (p: Performance)
    ensures Series(rapports, OrdreAsWritten(rapports), p)
  {
    var groupes, cles := GrouperParMois(rapports);
    var ordre := SortBy(LexLe, cles);
    OrdreElements(rapports, ordre);
    p := Moyennes(groupes, ordre);
    SeriesOfGroupes(rapports, ordre, p);
  }

  /** The performance series with the months in calendar order. */
  method GenererPerformanceReseau(rapports: seq<Rapport>) returns (p: Performance)
    ensures Series(rapports, OrdreChronologique(rapports), p)
  {
    var groupes, cles := GrouperParMois(rapports);
    var ordre := SortBy(ChronoLe, cles);
    OrdreElements(rapports, ordre);
    p := Moyennes(groupes, ordre);
    SeriesOfGroupes(rapports, ordre, p);
  }

  /** Either order lists each month of the reports once; the code's order is text order. */
  lemma {:induction false} OrdreAsWrittenMeaning(rapports: seq<Rapport>)
    ensures SortedBy(LexLe, OrdreAsWritten(rapports))
    ensures forall k :: k in OrdreAsWritten(rapports) <==> k in MapSeq(Label, rapports)
    ensures |OrdreAsWritten(rapports)| == |Cles(rapports)|
  {
    LexLeIsTotalPreorder();
    SortByCorrect(LexLe, Cles(rapports));
    OrdreElements(rapports, OrdreAsWritten(rapports));
  }

  lemma {:induction false} MoisTwoDigits(m: MoisNum)
    ensures |ZeroPad(m, 2)| == 2
  {
    if m >= 10 {
      assert NatToString(m) == NatToString(m / 10) + [DigitChar(m % 10)];
    }
  }

  /** Parsing a label back gives the month it was made from. */
  lemma {:induction false} ChronoCleOfLabel(r: Rapport)
    ensures ChronoCle(Label(r)) == MoisCle(r)
  {
    var l := Label(r);
    MoisTwoDigits(r.mois);
    assert l[..2] == ZeroPad(r.mois, 2);
    assert l[3..] == ZeroPad(r.annee, 4);
    ParseIntOfZeroPad(r.mois, 2);
    ParseIntOfZeroPad(r.annee, 4);
  }

  lemma {:induction false} ChronoLeIsTotalPreorder()
    ensures TotalPreorder(ChronoLe)
  {
  }

  /** In the corrected order, every report of an earlier entry is from an earlier or the same month. */
  lemma {:induction false} OrdreChronologiqueMeaning(rapports: seq<Rapport>)
    ensures forall k :: k in OrdreChronologique(rapports) <==> k in MapSeq(Label, rapports)
    ensures forall i, j, r, s ::
              (&& 0 <= i < j < |OrdreChronologique(rapports)|
               && r in DuMois(rapports, OrdreChronologique(rapports)[i])
               && s in DuMois(rapports, OrdreChronologique(rapports)[j])) ==> MoisCle(r) <= MoisCle(s)
  {
    var o := OrdreChronologique(rapports);
    ChronoLeIsTotalPreorder();
    SortByCorrect(ChronoLe, Cles(rapports));
    OrdreElements(rapports, o);
    forall i, j, r, s | 0 <= i < j < |o| && r in DuMois(rapports, o[i]) && s in DuMois(rapports, o[j])
      ensures MoisCle(r) <= MoisCle(s)
    {
      ChronoCleOfLabel(r);
      ChronoCleOfLabel(s);
      assert ChronoLe(o[i], o[j]);
    }
  }

  lemma {:induction false} LabelDecembre2024(r: Rapport)
    requires r.annee == 2024 && r.mois == 12
    ensures Label(r) == "12/2024"
  {
    assert NatToString(12) == "12";
    assert NatToString(20) == "20";
    assert NatToString(202) == "202";
    assert NatToString(2024) == "2024";
  }

  lemma {:induction false} LabelJanvier2025(r: Rapport)
    requires r.annee == 2025 && r.mois == 1
    ensures Label(r) == "01/2025"
  {
    assert NatToString(1) == "1";
    assert NatToString(20) == "20";
    assert NatToString(202) == "202";
    assert NatToString(2025) == "2025";
  }

  /** Two reports one month apart across a new year: the code lists January 2025 before December 2024. */
  lemma {:induction false} OrdreTexteNonChronologique(dec: Rapport, jan: Rapport)
    requires dec.annee == 2024 && dec.mois == 12 && jan.annee == 2025 && jan.mois == 1
    ensures MoisCle(dec) < MoisCle(jan)
    ensures OrdreAsWritten([dec, jan]) == ["01/2025", "12/2024"]
  {
    DeuxMois(dec, jan);
    assert !LexLe("12/2024", "01/2025");
    assert SortBy(LexLe, ["01/2025"]) == ["01/2025"];
  }

  /** The corrected order lists the same two reports as they happened. */
  lemma {:induction false} OrdreChronologiqueDeuxMois(dec: Rapport, jan: Rapport)
    requires dec.annee == 2024 && dec.mois == 12 && jan.annee == 2025 && jan.mois == 1
    ensures OrdreChronologique([dec, jan]) == ["12/2024", "01/2025"]
  {
    DeuxMois(dec, jan);
    ChronoDeux(dec, jan);
  }

  lemma {:induction false} ChronoDeux(a: Rapport, b: Rapport)
    requires MoisCle(a) < MoisCle(b) && Cles([a, b]) == [Label(a), Label(b)]
    ensures OrdreChronologique([a, b]) == [Label(a), Label(b)]
  {
    ChronoCleOfLabel(a);
    ChronoCleOfLabel(b);
    assert ChronoLe(Label(a), Label(b));
    assert SortBy(ChronoLe, [Label(b)]) == [Label(b)];
  }

  lemma {:induction false} DeuxMois(dec: Rapport, jan: Rapport)
    requires dec.annee == 2024 && dec.mois == 12 && jan.annee == 2025 && jan.mois == 1
    ensures Label(dec) == "12/2024" && Label(jan) == "01/2025"
    ensures Cles([dec, jan]) == ["12/2024", "01/2025"]
  {
    LabelDecembre2024(dec);
    LabelJanvier2025(jan);
    assert [dec, jan][..1] == [dec];
    assert [dec][..0] == [];
    assert Cles([dec]) == [Label(dec)];
    assert Label(jan) != Label(dec) by {
      assert Label(jan)[0] != Label(dec)[0];
    }
  }
}
