// The national statistics the ARE dashboard's main page computes straight from the
// operational tables (`_calculer_statistiques_nationales_avancees` in
// app/are/dashboard/routes.py): per-year installed capacity, production, clients and
// billing, the domestic share of solar capacity, and the access rates, read from the yearly
// national record when there is one and estimated from the client count otherwise.
module AreStatistiquesAvancees {
  import opened Wrappers
  import opened Ratios
  import opened Python
  import DistributionModel
  import AreStatistiques
  import AreDashboardRoutes

  // ---------------------------------------------------------------------------------------
  // Installed capacity: `SUM(puissance_installee)` of the active plants put into service no
  // later than the year; a plant without a date drops out of the comparison.

  function PuissancesEnService(cs: seq<AreStatistiques.Centrale>, annee: int): seq<Option<real>>
  {
    if cs == [] then []
    else
      var c := cs[|cs| - 1];
      PuissancesEnService(cs[..|cs| - 1], annee) + (if AreStatistiques.EnService(c, annee) then [c.puissance] else [])
  }

  /** The query's result, `or 0`. */
  function Capacite(cs: seq<AreStatistiques.Centrale>, annee: int): real
  {
    OrZeroR(AreStatistiques.SommeSql(PuissancesEnService(cs, annee)))
  }

  /** A plant in service in a year is in service in every later year. */
  lemma {:induction false} PuissancesCroissantes(cs: seq<AreStatistiques.Centrale>, a: int, b: int)
    requires a <= b
    requires forall k :: 0 <= k < |cs| ==> cs[k].puissance.None? || cs[k].puissance.value >= 0.0
    ensures Capacite(cs, a) <= Capacite(cs, b)
    ensures Capacite(cs, a) >= 0.0
  {
    if cs != [] {
      var p := cs[..|cs| - 1];
      var c := cs[|cs| - 1];
      PuissancesCroissantes(p, a, b);
      SommeSnoc(PuissancesEnService(p, a), c.puissance);
      SommeSnoc(PuissancesEnService(p, b), c.puissance);
      assert OrZeroR(c.puissance) >= 0.0;
      if AreStatistiques.EnService(c, a) {
        assert AreStatistiques.EnService(c, b);
        assert Capacite(cs, a) == Capacite(p, a) + OrZeroR(c.puissance);
        assert Capacite(cs, b) == Capacite(p, b) + OrZeroR(c.puissance);
      } else if AreStatistiques.EnService(c, b) {
        assert PuissancesEnService(cs, a) == PuissancesEnService(p, a);
        assert Capacite(cs, a) == Capacite(p, a);
        assert Capacite(cs, b) == Capacite(p, b) + OrZeroR(c.puissance);
      } else {
        assert PuissancesEnService(cs, a) == PuissancesEnService(p, a);
        assert PuissancesEnService(cs, b) == PuissancesEnService(p, b);
        assert Capacite(cs, a) == Capacite(p, a);
        assert Capacite(cs, b) == Capacite(p, b);
      }
    }
  }

  /** Adding a value to a SQL sum read `or 0` adds it, a NULL as 0. */
  lemma {:induction false} SommeSnoc(xs: seq<Option<real>>, x: Option<real>)
    ensures OrZeroR(AreStatistiques.SommeSql(xs + [x])) == OrZeroR(AreStatistiques.SommeSql(xs)) + OrZeroR(x)
  {
    AreStatistiques.SommeSqlSnoc(xs, x);
  }

  /** One entry of `evolution_capacite`. */
  datatype EvolutionCapacite = EvolutionCapacite(annee: int, hydro: real, thermique: real, solaire: real, totale: real)

  function EvolutionCapaciteAnnee(h: seq<AreStatistiques.Centrale>, th: seq<AreStatistiques.Centrale>,
                                  so: seq<AreStatistiques.Centrale>, annee: int): EvolutionCapacite
  {
    var ch := Capacite(h, annee);
    var ct := Capacite(th, annee);
    var cs := Capacite(so, annee);
    EvolutionCapacite(annee, ch, ct, cs, ch + ct + cs)
  }

  method EvolutionCapacites(h: seq<AreStatistiques.Centrale>, th: seq<AreStatistiques.Centrale>,
                            so: seq<AreStatistiques.Centrale>, debut: int, fin: int)
    returns (r: seq<EvolutionCapacite>)
    ensures |r| == AreDashboardRoutes.NombreAnnees(debut, fin)
    ensures forall k :: 0 <= k < |r| ==> r[k] == EvolutionCapaciteAnnee(h, th, so, debut + k)
  {
    r := [];
    for i := 0 to AreDashboardRoutes.NombreAnnees(debut, fin)
      invariant |r| == i
      invariant forall k :: 0 <= k < i ==> r[k] == EvolutionCapaciteAnnee(h, th, so, debut + k)
    {
      r := r + [EvolutionCapaciteAnnee(h, th, so, debut + i)];
    }
  }

  /**
   * The total is the sum of the three sources, and with non-negative capacities no source's
   * capacity falls from one entry to the next.
   */
  lemma {:induction false} EvolutionCapaciteMeaning(h: seq<AreStatistiques.Centrale>, th: seq<AreStatistiques.Centrale>,
                                 so: seq<AreStatistiques.Centrale>, a: int, b: int)
    requires a <= b
    requires forall k :: 0 <= k < |h| ==> h[k].puissance.None? || h[k].puissance.value >= 0.0
    requires forall k :: 0 <= k < |th| ==> th[k].puissance.None? || th[k].puissance.value >= 0.0
    requires forall k :: 0 <= k < |so| ==> so[k].puissance.None? || so[k].puissance.value >= 0.0
    ensures var e := EvolutionCapaciteAnnee(h, th, so, a);
      e.totale == e.hydro + e.thermique + e.solaire && e.hydro >= 0.0 && e.thermique >= 0.0 && e.solaire >= 0.0
    ensures var e := EvolutionCapaciteAnnee(h, th, so, a);
      var f := EvolutionCapaciteAnnee(h, th, so, b);
      e.hydro <= f.hydro && e.thermique <= f.thermique && e.solaire <= f.solaire && e.totale <= f.totale
  {
    PuissancesCroissantes(h, a, b);
    PuissancesCroissantes(th, a, b);
    PuissancesCroissantes(so, a, b);
  }

  // ---------------------------------------------------------------------------------------
  // Production: `SUM(energie_produite)` of the year's active reports, in MWh, shown in GWh.

  /** The columns of a production report the query reads. */
  datatype RapportEnergie = RapportEnergie(annee: int, actif: bool, energie: Option<real>)

  function Energies(rs: seq<RapportEnergie>, annee: int): seq<Option<real>>
  {
    if rs == [] then []
    else
      var r := rs[|rs| - 1];
      Energies(rs[..|rs| - 1], annee) + (if r.annee == annee && r.actif then [r.energie] else [])
  }

  function ProductionMwh(rs: seq<RapportEnergie>, annee: int): real
  {
    OrZeroR(AreStatistiques.SommeSql(Energies(rs, annee)))
  }

  /** `prod / 1000 if prod else 0`. */
  function EnGwh(prod: real): real
  {
    if prod != 0.0 then prod / 1000.0 else 0.0
  }

  datatype EvolutionProduction = EvolutionProduction(annee: int, hydro: real, thermique: real, solaire: real, totale: real)

  function EvolutionProductionAnnee(h: seq<RapportEnergie>, th: seq<RapportEnergie>, so: seq<RapportEnergie>, annee: int)
    : EvolutionProduction
  {
    var ph := ProductionMwh(h, annee);
    var pt := ProductionMwh(th, annee);
    var ps := ProductionMwh(so, annee);
    EvolutionProduction(annee, EnGwh(ph), EnGwh(pt), EnGwh(ps), (ph + pt + ps) / 1000.0)
  }

  method EvolutionProductions(h: seq<RapportEnergie>, th: seq<RapportEnergie>, so: seq<RapportEnergie>, debut: int, fin: int)
    returns (r: seq<EvolutionProduction>)
    ensures |r| == AreDashboardRoutes.NombreAnnees(debut, fin)
    ensures forall k :: 0 <= k < |r| ==> r[k] == EvolutionProductionAnnee(h, th, so, debut + k)
  {
    r := [];
    for i := 0 to AreDashboardRoutes.NombreAnnees(debut, fin)
      invariant |r| == i
      invariant forall k :: 0 <= k < i ==> r[k] == EvolutionProductionAnnee(h, th, so, debut + k)
    {
      r := r + [EvolutionProductionAnnee(h, th, so, debut + i)];
    }
  }

  /** Every figure is the MWh sum over 1000, and the total is the sum of the three sources. */
  lemma {:induction false} EvolutionProductionMeaning(h: seq<RapportEnergie>, th: seq<RapportEnergie>, so: seq<RapportEnergie>, annee: int)
    ensures var e := EvolutionProductionAnnee(h, th, so, annee);
      && e.hydro * 1000.0 == ProductionMwh(h, annee)
      && e.thermique * 1000.0 == ProductionMwh(th, annee)
      && e.solaire * 1000.0 == ProductionMwh(so, annee)
      && e.totale == e.hydro + e.thermique + e.solaire
  {
  }

  // ---------------------------------------------------------------------------------------
  // Clients and billing, from the monthly distribution records.

  /** A monthly distribution record with its `actif` flag. */
  datatype Mensuelle = Mensuelle(donnees: DistributionModel.Donnees, actif: bool)

  predicate DeLAnnee(m: Mensuelle, annee: int)
  {
    m.donnees.annee == annee && m.actif
  }

  /** `MAX(mois)` of the year's active records. */
  function MoisMax(ms: seq<Mensuelle>, annee: int): Option<int>
  {
    if ms == [] then None
    else
      var p := MoisMax(ms[..|ms| - 1], annee);
      var m := ms[|ms| - 1];
      if !DeLAnnee(m, annee) then p
      else if p.Some? && p.value >= m.donnees.mois then p
      else Some(m.donnees.mois)
  }

  /** The last month with data, `or 12`: also 12 when there is none, or when the maximum is 0. */
  function DernierMois(ms: seq<Mensuelle>, annee: int): int
  {
    var m := MoisMax(ms, annee);
    if m.Some? && m.value != 0 then m.value else 12
  }

  /** The maximum is the month of one of the year's records and no record of the year is later. */
  lemma {:induction false} MoisMaxMeaning(ms: seq<Mensuelle>, annee: int)
    ensures MoisMax(ms, annee).None? <==> forall k :: 0 <= k < |ms| ==> !DeLAnnee(ms[k], annee)
    ensures MoisMax(ms, annee).Some? ==>
      (exists k :: 0 <= k < |ms| && DeLAnnee(ms[k], annee) && ms[k].donnees.mois == MoisMax(ms, annee).value)
      && forall k :: 0 <= k < |ms| && DeLAnnee(ms[k], annee) ==> ms[k].donnees.mois <= MoisMax(ms, annee).value
  {
    if ms != [] {
      var p := ms[..|ms| - 1];
      MoisMaxMeaning(p, annee);
      assert forall k :: 0 <= k < |p| ==> p[k] == ms[k];
      if MoisMax(ms, annee) == MoisMax(p, annee) && MoisMax(p, annee).Some? {
        var j :| 0 <= j < |p| && DeLAnnee(p[j], annee) && p[j].donnees.mois == MoisMax(p, annee).value;
        assert ms[j] == p[j];
      }
    }
  }

  /** One record's figure in SQL: NULL as soon as one operand is NULL. */
  function Net(debut: Option<int>, nouveaux: Option<int>, deconnexions: Option<int>): Option<int>
  {
    if debut.Some? && nouveaux.Some? && deconnexions.Some? then Some(debut.value + nouveaux.value - deconnexions.value)
    else None
  }

  function NetNiveau(d: DistributionModel.Donnees, n: DistributionModel.Niveau): Option<int>
  {
    Net(DistributionModel.Au(d.clientsDebut, n), DistributionModel.Au(d.nouveaux, n), DistributionModel.Au(d.deconnexions, n))
  }

  function NetTotal(d: DistributionModel.Donnees): Option<int>
  {
    var ht := NetNiveau(d, DistributionModel.HT);
    var mt := NetNiveau(d, DistributionModel.MT);
    var bt := NetNiveau(d, DistributionModel.BT);
    if ht.Some? && mt.Some? && bt.Some? then Some(ht.value + mt.value + bt.value) else None
  }

  /** The figures of the records of the year's last month with data. */
  function AuDernierMois(ms: seq<Mensuelle>, annee: int, mois: int, f: DistributionModel.Donnees -> Option<int>)
    : seq<Option<int>>
  {
    if ms == [] then []
    else
      var m := ms[|ms| - 1];
      AuDernierMois(ms[..|ms| - 1], annee, mois, f)
      + (if DeLAnnee(m, annee) && m.donnees.mois == mois then [f(m.donnees)] else [])
  }

  /** A billing figure over all of the year's active records. */
  function SurLAnnee(ms: seq<Mensuelle>, annee: int, f: DistributionModel.Donnees -> Option<int>): seq<Option<int>>
  {
    if ms == [] then []
    else
      var m := ms[|ms| - 1];
      SurLAnnee(ms[..|ms| - 1], annee, f) + (if DeLAnnee(m, annee) then [f(m.donnees)] else [])
  }

  function NetHt(d: DistributionModel.Donnees): Option<int> { NetNiveau(d, DistributionModel.HT) }

  function NetMt(d: DistributionModel.Donnees): Option<int> { NetNiveau(d, DistributionModel.MT) }

  function NetBt(d: DistributionModel.Donnees): Option<int> { NetNiveau(d, DistributionModel.BT) }

  function Emises(d: DistributionModel.Donnees): Option<int> { d.facturesEmises }

  function Payees(d: DistributionModel.Donnees): Option<int> { d.facturesPayees }

  /** `payees / emises * 100` when invoices were issued, 0 otherwise. */
  function TauxPaiement(emises: int, payees: int): real
  {
    if emises > 0 then payees as real / emises as real * 100.0 else 0.0
  }

  lemma {:induction false} TauxPaiementMeaning(emises: int, payees: int)
    ensures emises <= 0 ==> TauxPaiement(emises, payees) == 0.0
    ensures emises > 0 ==> TauxPaiement(emises, payees) * emises as real == payees as real * 100.0
    ensures emises > 0 && 0 <= payees <= emises ==> 0.0 <= TauxPaiement(emises, payees) <= 100.0
  {
    if emises > 0 {
      var e := emises as real;
      var p := payees as real;
      var r := p / e;
      assert r * e == p;
      assert TauxPaiement(emises, payees) == r * 100.0;
      if 0 <= payees <= emises {
        assert 0.0 <= r <= 1.0;
      }
    }
  }

  /** One entry of `evolution_clients`. */
  datatype EvolutionClients = EvolutionClients(
    annee: int, ht: int, mt: int, bt: int, total: int, emises: int, payees: int, tauxPaiement: real)

  function EvolutionClientsAnnee(ms: seq<Mensuelle>, annee: int): EvolutionClients
  {
    var mois := DernierMois(ms, annee);
    var emises := OrZero(AreStatistiques.SommeSqlInt(SurLAnnee(ms, annee, Emises)));
    var payees := OrZero(AreStatistiques.SommeSqlInt(SurLAnnee(ms, annee, Payees)));
    EvolutionClients(annee,
      OrZero(AreStatistiques.SommeSqlInt(AuDernierMois(ms, annee, mois, NetHt))),
      OrZero(AreStatistiques.SommeSqlInt(AuDernierMois(ms, annee, mois, NetMt))),
      OrZero(AreStatistiques.SommeSqlInt(AuDernierMois(ms, annee, mois, NetBt))),
      OrZero(AreStatistiques.SommeSqlInt(AuDernierMois(ms, annee, mois, NetTotal))),
      emises, payees, TauxPaiement(emises, payees))
  }

  method EvolutionClientele(ms: seq<Mensuelle>, debut: int, fin: int) returns (r: seq<EvolutionClients>)
    ensures |r| == AreDashboardRoutes.NombreAnnees(debut, fin)
    ensures forall k :: 0 <= k < |r| ==> r[k] == EvolutionClientsAnnee(ms, debut + k)
  {
    r := [];
    for i := 0 to AreDashboardRoutes.NombreAnnees(debut, fin)
      invariant |r| == i
      invariant forall k :: 0 <= k < i ==> r[k] == EvolutionClientsAnnee(ms, debut + k)
    {
      r := r + [EvolutionClientsAnnee(ms, debut + i)];
    }
  }

  // ---------------------------------------------------------------------------------------
  // Domestic solar capacity: 30% of the solar capacity in service, keyed by year.

  method CapaciteSolaireDomestique(so: seq<AreStatistiques.Centrale>, debut: int, fin: int) returns (m: map<int, real>)
    ensures forall a :: a in m <==> debut <= a <= fin
    ensures forall a :: a in m ==> m[a] == Capacite(so, a) * 0.3
  {
    m := map[];
    for i := 0 to AreDashboardRoutes.NombreAnnees(debut, fin)
      invariant forall a :: a in m <==> debut <= a < debut + i
      invariant forall a :: a in m ==> m[a] == Capacite(so, a) * 0.3
    {
      m := m[debut + i := Capacite(so, debut + i) * 0.3];
    }
  }

  /** With non-negative capacities the domestic share never falls from one year to a later one. */
  lemma {:induction false} SolaireDomestiqueCroissant(so: seq<AreStatistiques.Centrale>, a: int, b: int)
    requires a <= b
    requires forall k :: 0 <= k < |so| ==> so[k].puissance.None? || so[k].puissance.value >= 0.0
    ensures 0.0 <= Capacite(so, a) * 0.3 <= Capacite(so, b) * 0.3
    ensures Capacite(so, a) * 0.3 <= Capacite(so, a)
  {
    PuissancesCroissantes(so, a, b);
  }

  // ---------------------------------------------------------------------------------------
  // Access rates.

  /** The estimated population of the country. */
  const PopulationRdc: int := 105000000

  /** One entry of `taux_electrification`. */
  datatype TauxAnnee = TauxAnnee(annee: int, clients: int, personnes: int, acces: real, electrification: real,
                                 couverture: real)

  /** Python's `int()` on a real: truncation toward zero. */
  function Tronquer(x: real): int
  {
    if x >= 0.0 then x.Floor else -((-x).Floor)
  }

  /** The first national record of the year (`filter_by(annee=annee).first()`). */
  function StatistiqueDe(stats: seq<AreStatistiques.StatistiqueNationale>, annee: int): (r: Option<AreStatistiques.StatistiqueNationale>)
    ensures r.Some? ==> r.value in stats && r.value.annee == annee
    ensures r.None? ==> forall k :: 0 <= k < |stats| ==> stats[k].annee != annee
  {
    if stats == [] then None
    else if stats[0].annee == annee then Some(stats[0])
    else
      assert forall k :: 1 <= k < |stats| ==> stats[k] == stats[1..][k - 1];
      StatistiqueDe(stats[1..], annee)
  }

  /** `next((c['clients_total'] for c in evolution_clients if c['annee'] == annee), 0)`. */
  function ClientsEstimes(ev: seq<EvolutionClients>, annee: int): int
  {
    if ev == [] then 0
    else if ev[0].annee == annee then ev[0].total
    else ClientsEstimes(ev[1..], annee)
  }

  /** The rates read from a national record: 4.5 persons per household. */
  function TauxDeStatistique(annee: int, s: AreStatistiques.StatistiqueNationale): TauxAnnee
  {
    TauxAnnee(annee, s.totalClients, Tronquer(s.totalClients as real * 4.5), s.tauxAcces, s.tauxElectrification,
      s.tauxCouverture)
  }

  /** The fallback: 5 persons per client over the country's population. */
  function TauxEstime(annee: int, clients: int): TauxAnnee
  {
    var personnes := clients * 5;
    var taux := if PopulationRdc > 0 then personnes as real / PopulationRdc as real * 100.0 else 0.0;
    TauxAnnee(annee, clients, personnes, taux, taux * 0.8, if taux * 1.2 <= 100.0 then taux * 1.2 else 100.0)
  }

  /** The year's client figures are labelled with their year. */
  lemma {:induction false} EvolutionClientsAnneeDe(ms: seq<Mensuelle>, annee: int)
    ensures EvolutionClientsAnnee(ms, annee).annee == annee
  {
  }

  function TauxDeLAnnee(stats: seq<AreStatistiques.StatistiqueNationale>, ev: seq<EvolutionClients>, annee: int): TauxAnnee
  {
    match StatistiqueDe(stats, annee)
    case Some(s) => TauxDeStatistique(annee, s)
    case None => TauxEstime(annee, ClientsEstimes(ev, annee))
  }

  method TauxElectrification(stats: seq<AreStatistiques.StatistiqueNationale>, ev: seq<EvolutionClients>,
                             debut: int, fin: int)
    returns (r: seq<TauxAnnee>)
    ensures |r| == AreDashboardRoutes.NombreAnnees(debut, fin)
    ensures forall k :: 0 <= k < |r| ==> r[k] == TauxDeLAnnee(stats, ev, debut + k)
  {
    r := [];
    for i := 0 to AreDashboardRoutes.NombreAnnees(debut, fin)
      invariant |r| == i
      invariant forall k :: 0 <= k < i ==> r[k] == TauxDeLAnnee(stats, ev, debut + k)
    {
      r := r + [TauxDeLAnnee(stats, ev, debut + i)];
    }
  }

  /**
   * The estimate: 5 persons per client, an access rate of persons over 105 million in
   * percent, electrification at 80% of it and coverage at 120% of it, capped at 100.
   */
  lemma {:induction false} TauxEstimeMeaning(annee: int, clients: int)
    ensures var t := TauxEstime(annee, clients);
      && t.personnes == 5 * clients
      && t.acces * 105000000.0 == t.personnes as real * 100.0
      && t.electrification == 0.8 * t.acces
      && t.couverture <= 100.0
      && (clients <= 17500000 ==> t.couverture == 1.2 * t.acces)
      && (clients >= 17500000 ==> t.couverture == 100.0)
  {
    var t := TauxEstime(annee, clients);
    var c := clients as real;
    assert t.acces == c * 5.0 / 105000000.0 * 100.0;
    assert t.acces * 1.2 == c * 6.0 / 1050000.0;
  }

  /** Truncation keeps the integer part: within 1 of the value, toward 0. */
  lemma {:induction false} TronquerMeaning(x: real)
    ensures x >= 0.0 ==> 0 <= Tronquer(x) && Tronquer(x) as real <= x < Tronquer(x) as real + 1.0
    ensures x < 0.0 ==> Tronquer(x) <= 0 && Tronquer(x) as real - 1.0 < x <= Tronquer(x) as real
  {
  }

  /** The clients a year's estimate uses are those of that year's own `evolution_clients` entry. */
  lemma {:induction false} ClientsEstimesPremier(ev: seq<EvolutionClients>, debut: int, k: nat)
    requires k < |ev|
    requires forall j :: 0 <= j < |ev| ==> ev[j].annee == debut + j
    ensures ClientsEstimes(ev, debut + k) == ev[k].total
    decreases k
  {
    if k > 0 {
      assert forall j :: 0 <= j < |ev| - 1 ==> ev[1..][j] == ev[j + 1];
      ClientsEstimesPremier(ev[1..], debut + 1, k - 1);
    }
  }

  /** The client figures of the years from `debut` on, one per year. */
  predicate SerieClients(ms: seq<Mensuelle>, ev: seq<EvolutionClients>, debut: int)
  {
    forall j :: 0 <= j < |ev| ==> ev[j] == EvolutionClientsAnnee(ms, debut + j)
  }

  lemma {:induction false} SerieClientsAnnees(ms: seq<Mensuelle>, ev: seq<EvolutionClients>, debut: int)
    requires SerieClients(ms, ev, debut)
    ensures forall j :: 0 <= j < |ev| ==> ev[j].annee == debut + j
  {
    forall j | 0 <= j < |ev| ensures ev[j].annee == debut + j {
      EvolutionClientsAnneeDe(ms, debut + j);
    }
  }

  lemma {:induction false} SerieClientsAt(ms: seq<Mensuelle>, ev: seq<EvolutionClients>, debut: int, k: nat)
    requires SerieClients(ms, ev, debut) && k < |ev|
    ensures ev[k] == EvolutionClientsAnnee(ms, debut + k)
  {
  }

  /** The estimate of a year of the series is taken from that year's own client count. */
  lemma {:induction false} EstimeDuTotal(ev: seq<EvolutionClients>, debut: int, k: nat)
    requires k < |ev|
    requires forall j :: 0 <= j < |ev| ==> ev[j].annee == debut + j
    ensures TauxEstime(debut + k, ClientsEstimes(ev, debut + k)) == TauxEstime(debut + k, ev[k].total)
  {
    ClientsEstimesPremier(ev, debut, k);
  }

  // ---------------------------------------------------------------------------------------
  // The whole computation.

  /** The tables the computation reads. */
  datatype Tables = Tables(
    centralesHydro: seq<AreStatistiques.Centrale>, centralesThermiques: seq<AreStatistiques.Centrale>,
    centralesSolaires: seq<AreStatistiques.Centrale>,
    rapportsHydro: seq<RapportEnergie>, rapportsThermiques: seq<RapportEnergie>, rapportsSolaires: seq<RapportEnergie>,
    mensuelles: seq<Mensuelle>, nationales: seq<AreStatistiques.StatistiqueNationale>)

  /** The dictionary the function returns, without the plain row counts. */
  datatype StatistiquesAvancees = StatistiquesAvancees(
    capacite: seq<EvolutionCapacite>, production: seq<EvolutionProduction>, clients: seq<EvolutionClients>,
    solaireDomestique: map<int, real>, taux: seq<TauxAnnee>, debut: int, fin: int)

  /** `annee_fin` defaults to the current year. */
  method CalculerStatistiquesNationalesAvancees(t: Tables, debut: int, finDemandee: Option<int>, anneeCourante: int)
    returns (s: StatistiquesAvancees)
    ensures s.debut == debut && s.fin == finDemandee.GetOr(anneeCourante)
    ensures |s.capacite| == |s.production| == |s.clients| == |s.taux| == AreDashboardRoutes.NombreAnnees(s.debut, s.fin)
    ensures forall k :: 0 <= k < |s.taux| ==>
      && s.capacite[k] == EvolutionCapaciteAnnee(t.centralesHydro, t.centralesThermiques, t.centralesSolaires, debut + k)
      && s.production[k] == EvolutionProductionAnnee(t.rapportsHydro, t.rapportsThermiques, t.rapportsSolaires, debut + k)
      && s.clients[k] == EvolutionClientsAnnee(t.mensuelles, debut + k)
      && s.taux[k] == TauxDeLAnnee(t.nationales, s.clients, debut + k)
    ensures forall a :: a in s.solaireDomestique <==> s.debut <= a <= s.fin
    ensures forall a :: a in s.solaireDomestique ==> s.solaireDomestique[a] == Capacite(t.centralesSolaires, a) * 0.3
  {
    var fin := finDemandee.GetOr(anneeCourante);
    var capacite := EvolutionCapacites(t.centralesHydro, t.centralesThermiques, t.centralesSolaires, debut, fin);
    var production := EvolutionProductions(t.rapportsHydro, t.rapportsThermiques, t.rapportsSolaires, debut, fin);
    var clients := EvolutionClientele(t.mensuelles, debut, fin);
    var domestique := CapaciteSolaireDomestique(t.centralesSolaires, debut, fin);
    var taux := TauxElectrification(t.nationales, clients, debut, fin);
    s := StatistiquesAvancees(capacite, production, clients, domestique, taux, debut, fin);
  }

  /**
   * A year with a national record takes its rates from it; a year without one takes the
   * estimate from that year's own client count.
   */
  lemma {:induction false} TauxMeaning(t: Tables, s: StatistiquesAvancees, k: nat)
    requires |s.clients| == |s.taux| && k < |s.taux|
    requires SerieClients(t.mensuelles, s.clients, s.debut)
    requires s.taux[k] == TauxDeLAnnee(t.nationales, s.clients, s.debut + k)
    ensures StatistiqueDe(t.nationales, s.debut + k).Some? ==>
      s.taux[k] == TauxDeStatistique(s.debut + k, StatistiqueDe(t.nationales, s.debut + k).value)
    ensures StatistiqueDe(t.nationales, s.debut + k).None? ==>
      s.taux[k] == TauxEstime(s.debut + k, EvolutionClientsAnnee(t.mensuelles, s.debut + k).total)
  {
    var annee := s.debut + k;
    if StatistiqueDe(t.nationales, annee).None? {
      SerieClientsAnnees(t.mensuelles, s.clients, s.debut);
      EstimeDuTotal(s.clients, s.debut, k);
      SerieClientsAt(t.mensuelles, s.clients, s.debut, k);
    }
  }
}
