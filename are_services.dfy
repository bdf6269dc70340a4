// The strategic indicators the regulator's dashboard derives from the sector's reports
// (`IndicateursAREService`): the access rate of a province, the energy mix, the operators'
// performance, the automatic alerts and the yearly strategic KPIs. Query results are
// sequences of rows in table order; a column that may be NULL is an `Option`.
module AreServices {
  import opened Wrappers
  import opened Text
  import opened Python
  import opened Ratios
  import opened Users
  import opened Collections

  // ---------------------------------------------------------------------------------
  // Access rate of a province

  /**
   * A distribution network, with the `nombre_clients_fin` of its latest report of the year
   * under consideration (None when it has no report that year or the column is NULL).
   */
  datatype Reseau = Reseau(province: string, operateurId: int, actif: bool, clientsFin: Option<int>)

  /** A `DonneesProvince` row: province, year, population. */
  datatype DonneesProvince = DonneesProvince(province: string, annee: int, population: Option<int>)

  /** `ReseauDistribution.query.filter_by(province=..., actif=True)`. */
  function ReseauxDeProvince(rs: seq<Reseau>, province: string): (r: seq<Reseau>)
    ensures forall x :: x in r <==> x in rs && x.province == province && x.actif
  {
    if rs == [] then []
    else (if rs[0].province == province && rs[0].actif then [rs[0]] else []) + ReseauxDeProvince(rs[1..], province)
  }

  /** `ReseauDistribution.query.filter_by(operateur_id=..., actif=True)`. */
  function ReseauxDeOperateur(rs: seq<Reseau>, operateurId: int): (r: seq<Reseau>)
    ensures forall x :: x in r <==> x in rs && x.operateurId == operateurId && x.actif
  {
    if rs == [] then []
    else (if rs[0].operateurId == operateurId && rs[0].actif then [rs[0]] else []) + ReseauxDeOperateur(rs[1..], operateurId)
  }

  /** The clients a network counts: its latest report's `nombre_clients_fin` when set and non-zero. */
  function ClientsDe(r: Reseau): int
  {
    OrZero(r.clientsFin)
  }

  /** The clients of the networks, added up in order. */
  function SommeClients(rs: seq<Reseau>): int
  {
    if rs == [] then 0 else SommeClients(rs[..|rs| - 1]) + ClientsDe(rs[|rs| - 1])
  }

  lemma {:induction false} SommeClientsNonNegative(rs: seq<Reseau>)
    requires forall i :: 0 <= i < |rs| ==> ClientsDe(rs[i]) >= 0
    ensures SommeClients(rs) >= 0
  {
    if rs != [] {
      SommeClientsNonNegative(rs[..|rs| - 1]);
    }
  }

  /** The population the networks serve: four persons per client of each network's latest report. */
  method PopulationDesservie(rs: seq<Reseau>) returns (p: int)
    ensures p == 4 * SommeClients(rs)
  {
    p := 0;
    for i := 0 to |rs|
      invariant p == 4 * SommeClients(rs[..i])
    {
      assert rs[..i + 1][..i] == rs[..i];
      if TruthyInt(rs[i].clientsFin) {
        p := p + rs[i].clientsFin.value * 4;
      }
    }
    assert rs[..|rs|] == rs;
  }

  /** The population of the first `DonneesProvince` row for the province and year; None without one. */
  function PopulationProvince(ds: seq<DonneesProvince>, province: string, annee: int): (r: Option<int>)
    ensures r.Some? ==> exists d :: d in ds && DeProvince(d, province, annee) && d.population == r
    ensures (forall k :: 0 <= k < |ds| ==> !DeProvince(ds[k], province, annee)) ==> r.None?
  {
    if ds == [] then None
    else if DeProvince(ds[0], province, annee) then ds[0].population
    else
      var r := PopulationProvince(ds[1..], province, annee);
      assert forall k :: 1 <= k < |ds| ==> ds[k] == ds[1..][k - 1];
      r
  }

  /** `.first()` gives the population of the first row of the province and year. */
  lemma {:induction false} PopulationProvinceFirst(ds: seq<DonneesProvince>, province: string, annee: int, k: int)
    requires 0 <= k < |ds| && DeProvince(ds[k], province, annee) && PremiereDeProvince(ds, k, province, annee)
    ensures PopulationProvince(ds, province, annee) == ds[k].population
  {
    if k > 0 {
      assert ds[1..][k - 1] == ds[k];
      assert PremiereDeProvince(ds[1..], k - 1, province, annee) by {
        assert forall j :: 0 <= j < k - 1 ==> ds[1..][j] == ds[j + 1];
      }
      PopulationProvinceFirst(ds[1..], province, annee, k - 1);
    }
  }

  /** No row before `k` is the province's for the year. */
  predicate PremiereDeProvince(ds: seq<DonneesProvince>, k: int, province: string, annee: int)
    requires 0 <= k <= |ds|
  {
    forall j :: 0 <= j < k ==> !DeProvince(ds[j], province, annee)
  }

  /** The row is the province's, for the year (`filter_by(province=..., annee=...)`). */
  predicate DeProvince(d: DonneesProvince, province: string, annee: int)
  {
    d.province == province && d.annee == annee
  }

  /** The access rate of a province's active networks for a population: 0 without networks or population. */
  function TauxAcces(rs: seq<Reseau>, population: Option<int>): real
  {
    if rs == [] then 0.0
    else if TruthyInt(population) then Min((4 * SommeClients(rs)) as real / population.value as real * 100.0, 100.0)
    else 0.0
  }

  /** `calculer_taux_acces_province`. */
  method CalculerTauxAccesProvince(reseaux: seq<Reseau>, donnees: seq<DonneesProvince>, province: string, annee: int)
    returns (taux: real)
    ensures taux == TauxAcces(ReseauxDeProvince(reseaux, province), PopulationProvince(donnees, province, annee))
    ensures taux <= 100.0
  {
    var rs := ReseauxDeProvince(reseaux, province);
    if rs == [] {
      return 0.0;
    }
    var populationDesservie := PopulationDesservie(rs);
    var population := PopulationProvince(donnees, province, annee);
    if TruthyInt(population) {
      var t := populationDesservie as real / population.value as real * 100.0;
      return Min(t, 100.0);
    }
    return 0.0;
  }

  /**
   * The rate is 0 without networks or without a population, never above 100, four persons
   * per client of the population while below the cap, and not negative for a non-negative
   * client total (which `SommeClientsNonNegative` gives when no count is negative).
   */
  lemma {:induction false} TauxAccesMeaning(rs: seq<Reseau>, population: Option<int>)
    ensures rs == [] ==> TauxAcces(rs, population) == 0.0
    ensures !TruthyInt(population) ==> TauxAcces(rs, population) == 0.0
    ensures TauxAcces(rs, population) <= 100.0
    ensures rs != [] && TruthyInt(population) && TauxAcces(rs, population) < 100.0 ==>
      TauxAcces(rs, population) * population.value as real == 400.0 * SommeClients(rs) as real
    ensures SommeClients(rs) >= 0 && population.Some? && population.value > 0 ==> TauxAcces(rs, population) >= 0.0
  {
    if rs != [] && TruthyInt(population) {
      var a := (4 * SommeClients(rs)) as real;
      assert a == 4.0 * SommeClients(rs) as real;
      TauxPlafonne(a, population.value as real, TauxAcces(rs, population));
    }
  }

  /** `min(a / p * 100, 100)`: at most 100, `100 * a` over `p` below the cap, not negative for a non-negative share. */
  lemma {:induction false} TauxPlafonne(a: real, p: real, taux: real)
    requires p != 0.0
    requires taux == Min(a / p * 100.0, 100.0)
    ensures taux <= 100.0
    ensures taux < 100.0 ==> taux * p == 100.0 * a
    ensures a >= 0.0 && p > 0.0 ==> taux >= 0.0
  {
    var q := a / p;
    assert q * p == a;
    assert (q * 100.0) * p == 100.0 * (q * p);
  }

  // ---------------------------------------------------------------------------------
  // Energy mix

  datatype Filiere = Hydro | Thermique | Solaire

  /**
   * A production report joined to its plant: the plant's sector and operator, the report's
   * year, its `actif` flag and its `energie_produite`.
   */
  datatype RapportProduction = RapportProduction(
    filiere: Filiere, operateurId: int, annee: int, actif: bool, energieProduite: Option<real>)

  /** A plant: its sector, operator, `actif` flag and `puissance_installee`. */
  datatype Centrale = Centrale(filiere: Filiere, operateurId: int, actif: bool, puissanceInstallee: Option<real>)

  /** The rows the production query keeps: the sector's active reports of the year, of the operator when a non-zero id is given. */
  predicate RapportRetenu(r: RapportProduction, f: Filiere, annee: int, operateurId: Option<int>)
  {
    r.filiere == f && r.annee == annee && r.actif && (TruthyInt(operateurId) ==> r.operateurId == operateurId.value)
  }

  /** `SUM(energie_produite) ... or 0.0`: NULL values add nothing and no row gives 0. */
  function Production(rs: seq<RapportProduction>, f: Filiere, annee: int, operateurId: Option<int>): real
  {
    if rs == [] then 0.0
    else
      Production(rs[..|rs| - 1], f, annee, operateurId)
      + (if RapportRetenu(rs[|rs| - 1], f, annee, operateurId) then OrZeroR(rs[|rs| - 1].energieProduite) else 0.0)
  }

  lemma {:induction false} ProductionNonNegative(rs: seq<RapportProduction>, f: Filiere, annee: int, operateurId: Option<int>)
    requires forall i :: 0 <= i < |rs| ==> OrZeroR(rs[i].energieProduite) >= 0.0
    ensures Production(rs, f, annee, operateurId) >= 0.0
  {
    if rs != [] {
      ProductionNonNegative(rs[..|rs| - 1], f, annee, operateurId);
    }
  }

  /** The mix dictionary: each sector's share of the total in percent, and the total. */
  datatype Mix = Mix(hydro: real, thermique: real, solaire: real, total: real)

  /** The mix of three productions: all zero unless their total is positive. */
  function MixDe(h: real, t: real, s: real): Mix
  {
    var total := h + t + s;
    if total > 0.0 then Mix(Percent(h, total), Percent(t, total), Percent(s, total), total)
    else Mix(0.0, 0.0, 0.0, 0.0)
  }

  /** `calculer_mix_energetique(annee, operateur_id)`. */
  function CalculerMixEnergetique(rs: seq<RapportProduction>, annee: int, operateurId: Option<int>): Mix
  {
    MixDe(Production(rs, Hydro, annee, operateurId), Production(rs, Thermique, annee, operateurId),
          Production(rs, Solaire, annee, operateurId))
  }

  /**
   * With a positive total the three shares add up to 100 and give back each production;
   * otherwise every field is 0. The total is never negative, and the shares of
   * non-negative productions are percentages.
   */
  lemma {:induction false} MixMeaning(h: real, t: real, s: real)
    ensures h + t + s > 0.0 ==>
      && MixDe(h, t, s).hydro + MixDe(h, t, s).thermique + MixDe(h, t, s).solaire == 100.0
      && MixDe(h, t, s).total == h + t + s
      && MixDe(h, t, s).hydro * MixDe(h, t, s).total / 100.0 == h
      && MixDe(h, t, s).thermique * MixDe(h, t, s).total / 100.0 == t
      && MixDe(h, t, s).solaire * MixDe(h, t, s).total / 100.0 == s
    ensures h + t + s <= 0.0 ==> MixDe(h, t, s) == Mix(0.0, 0.0, 0.0, 0.0)
    ensures MixDe(h, t, s).total >= 0.0
    ensures h >= 0.0 && t >= 0.0 && s >= 0.0 ==>
      && 0.0 <= MixDe(h, t, s).hydro <= 100.0
      && 0.0 <= MixDe(h, t, s).thermique <= 100.0
      && 0.0 <= MixDe(h, t, s).solaire <= 100.0
  {
    var total := h + t + s;
    if total > 0.0 {
      PercentAdditive(h, t, total);
      PercentAdditive(h + t, s, total);
      PercentOfWhole(total);
      PercentOfShare(h, total);
      PercentOfShare(t, total);
      PercentOfShare(s, total);
    }
  }

  // ---------------------------------------------------------------------------------
  // Operator performance

  /** `SUM(puissance_installee) ... or 0.0` over the operator's active plants of a sector. */
  function Puissance(cs: seq<Centrale>, f: Filiere, operateurId: int): real
  {
    if cs == [] then 0.0
    else
      Puissance(cs[..|cs| - 1], f, operateurId)
      + (var c := cs[|cs| - 1];
         if c.filiere == f && c.operateurId == operateurId && c.actif then OrZeroR(c.puissanceInstallee) else 0.0)
  }

  /** The load factor: production over the installed power running all 8760 hours of a year, in percent; 0 without power. */
  function FacteurCharge(production: real, puissance: real): real
  {
    if puissance > 0.0 then
      var productionTheoriqueMax := puissance * 8760.0;
      if productionTheoriqueMax > 0.0 then production / productionTheoriqueMax * 100.0 else 0.0
    else 0.0
  }

  /** The load factor is 0 without installed power, otherwise the share of the theoretical maximum. */
  lemma {:induction false} FacteurChargeMeaning(production: real, puissance: real)
    ensures puissance <= 0.0 ==> FacteurCharge(production, puissance) == 0.0
    ensures puissance > 0.0 ==> FacteurCharge(production, puissance) * (puissance * 8760.0) / 100.0 == production
    ensures puissance > 0.0 && 0.0 <= production <= puissance * 8760.0 ==> 0.0 <= FacteurCharge(production, puissance) <= 100.0
  {
    if puissance > 0.0 {
      PercentOfShare(production, puissance * 8760.0);
    }
  }

  /** One entry of `performances`. */
  datatype PerformanceOperateur = PerformanceOperateur(
    operateur: string, operateurId: int, puissanceInstallee: real, productionAnnuelle: real,
    facteurCharge: real, clientsTotal: int, mix: Mix)

  /** What the loop body computes for one operator. */
  function PerformanceDe(o: Operateur, cs: seq<Centrale>, rs: seq<RapportProduction>, reseaux: seq<Reseau>, annee: int)
    : PerformanceOperateur
  {
    var puissance := Puissance(cs, Hydro, o.id) + Puissance(cs, Thermique, o.id) + Puissance(cs, Solaire, o.id);
    var mix := CalculerMixEnergetique(rs, annee, Some(o.id));
    PerformanceOperateur(o.nom, o.id, puissance, mix.total, FacteurCharge(mix.total, puissance),
                         SommeClients(ReseauxDeOperateur(reseaux, o.id)), mix)
  }

  /**
   * An operator's entry: its annual production is its mix total, never negative; its load
   * factor is 0 without installed power and otherwise gives back the production; its
   * clients are those of its active networks.
   */
  lemma {:induction false} PerformanceMeaning(o: Operateur, cs: seq<Centrale>, rs: seq<RapportProduction>, reseaux: seq<Reseau>, annee: int)
    ensures PerformanceDe(o, cs, rs, reseaux, annee).operateurId == o.id
    ensures PerformanceDe(o, cs, rs, reseaux, annee).productionAnnuelle == PerformanceDe(o, cs, rs, reseaux, annee).mix.total
    ensures PerformanceDe(o, cs, rs, reseaux, annee).productionAnnuelle >= 0.0
    ensures PerformanceDe(o, cs, rs, reseaux, annee).puissanceInstallee <= 0.0 ==>
      PerformanceDe(o, cs, rs, reseaux, annee).facteurCharge == 0.0
    ensures PerformanceDe(o, cs, rs, reseaux, annee).puissanceInstallee > 0.0 ==>
      PerformanceDe(o, cs, rs, reseaux, annee).facteurCharge * (PerformanceDe(o, cs, rs, reseaux, annee).puissanceInstallee * 8760.0) / 100.0
      == PerformanceDe(o, cs, rs, reseaux, annee).productionAnnuelle
    ensures PerformanceDe(o, cs, rs, reseaux, annee).clientsTotal == SommeClients(ReseauxDeOperateur(reseaux, o.id))
  {
    var p := PerformanceDe(o, cs, rs, reseaux, annee);
    MixMeaning(Production(rs, Hydro, annee, Some(o.id)), Production(rs, Thermique, annee, Some(o.id)),
               Production(rs, Solaire, annee, Some(o.id)));
    FacteurChargeMeaning(p.productionAnnuelle, p.puissanceInstallee);
  }

  /** The clients of an operator's networks, counted report by report. */
  method ClientsTotal(rs: seq<Reseau>) returns (c: int)
    ensures c == SommeClients(rs)
  {
    c := 0;
    for i := 0 to |rs|
      invariant c == SommeClients(rs[..i])
    {
      assert rs[..i + 1][..i] == rs[..i];
      if TruthyInt(rs[i].clientsFin) {
        c := c + rs[i].clientsFin.value;
      }
    }
    assert rs[..|rs|] == rs;
  }

  /** `calculer_performance_operateurs`: one entry per active operator, in table order. */
  method CalculerPerformanceOperateurs(
    ops: seq<Operateur>, cs: seq<Centrale>, rs: seq<RapportProduction>, reseaux: seq<Reseau>, annee: int)
    returns (performances: seq<PerformanceOperateur>)
    ensures |performances| == |Actives(ops)|
    ensures forall i :: 0 <= i < |performances| ==> performances[i] == PerformanceDe(Actives(ops)[i], cs, rs, reseaux, annee)
  {
    var operateurs := Actives(ops);
    performances := [];
    for i := 0 to |operateurs|
      invariant |performances| == i
      invariant forall k :: 0 <= k < i ==> performances[k] == PerformanceDe(operateurs[k], cs, rs, reseaux, annee)
    {
      var entree := PerformanceCalculee(operateurs[i], cs, rs, reseaux, annee);
      performances := performances + [entree];
    }
  }

  /** The body of the loop for one operator. */
  method PerformanceCalculee(o: Operateur, cs: seq<Centrale>, rs: seq<RapportProduction>, reseaux: seq<Reseau>, annee: int)
    returns (entree: PerformanceOperateur)
    ensures entree == PerformanceDe(o, cs, rs, reseaux, annee)
  {
    var puissanceTotale := Puissance(cs, Hydro, o.id) + Puissance(cs, Thermique, o.id) + Puissance(cs, Solaire, o.id);
    var mix := CalculerMixEnergetique(rs, annee, Some(o.id));
    var productionTotale := mix.total;
    var facteurCharge := 0.0;
    if puissanceTotale > 0.0 {
      var productionTheoriqueMax := puissanceTotale * 8760.0;
      if productionTheoriqueMax > 0.0 {
        facteurCharge := productionTotale / productionTheoriqueMax * 100.0;
      }
    }
    assert facteurCharge == FacteurCharge(productionTotale, puissanceTotale);
    var clientsTotal := ClientsTotal(ReseauxDeOperateur(reseaux, o.id));
    entree := PerformanceOperateur(o.nom, o.id, puissanceTotale, productionTotale, facteurCharge, clientsTotal, mix);
  }

  // ---------------------------------------------------------------------------------
  // Automatic alerts

  /** A `KPIStrategic` row. `atteint` and `actif` take their column defaults (False, True) when the row is inserted. */
  datatype Kpi = Kpi(
    code: string, nom: string, valeur: real, unite: string, periode: string, annee: int,
    objectif: Option<real>, atteint: Option<bool>, seuilAlerte: Option<real>, sourceDonnees: Option<string>,
    operateurId: Option<int>, actif: bool)

  datatype TypeAlerte = Conformite | Financier | Technique | Administratif | Securite
  datatype SeveriteAlerte = Faible | Moyenne | Elevee | Critique

  /** An `AlerteRegulateur` row (`statut` is free text, 'active' when inserted without one). */
  datatype Alerte = Alerte(
    typeAlerte: TypeAlerte, severite: SeveriteAlerte, entite: string, titre: string, description: string,
    operateurId: Option<int>, createurId: int, statut: Option<string>, priorite: Option<int>)

  /**
   * SQLite's `s LIKE p`: `%` matches any run of characters, `_` any one character, and
   * ASCII letters match whatever their case.
   */
  predicate Like(s: string, p: string)
    decreases |p|, |s|
  {
    if p == [] then s == []
    else if p[0] == '%' then Like(s, p[1..]) || (s != [] && Like(s[1..], p))
    else s != [] && (p[0] == '_' || LowerChar(p[0]) == LowerChar(s[0])) && Like(s[1..], p[1..])
  }

  lemma {:induction false} LikeAnyTail(s: string)
    ensures Like(s, "%")
  {
    if s != [] {
      LikeAnyTail(s[1..]);
    }
  }

  lemma {:induction false} LikeLiteralThenAny(x: string, b: string)
    ensures Like(x + b, x + "%")
  {
    if x == [] {
      assert x + b == b && x + "%" == "%";
      LikeAnyTail(b);
    } else {
      LikeLiteralThenAny(x[1..], b);
      assert (x + b)[1..] == x[1..] + b;
      assert (x + "%")[1..] == x[1..] + "%";
    }
  }

  /** A text matches `%x%` as soon as it contains `x`. */
  lemma {:induction false} LikeContains(a: string, x: string, b: string)
    ensures Like(a + x + b, "%" + x + "%")
  {
    if a == [] {
      assert a + x + b == x + b;
      assert ("%" + x + "%")[1..] == x + "%";
      LikeLiteralThenAny(x, b);
    } else {
      LikeContains(a[1..], x, b);
      assert (a + x + b)[1..] == a[1..] + x + b;
    }
  }

  /** `KPIStrategic.query.filter(seuil_alerte IS NOT NULL, actif)`, in table order. */
  function KpisCritiques(kpis: seq<Kpi>): (r: seq<Kpi>)
    ensures forall k :: k in r <==> k in kpis && k.seuilAlerte.Some? && k.actif
  {
    if kpis == [] then []
    else (if kpis[0].seuilAlerte.Some? && kpis[0].actif then [kpis[0]] else []) + KpisCritiques(kpis[1..])
  }

  /** The KPI is below its alert threshold. */
  predicate SousSeuil(k: Kpi)
  {
    k.seuilAlerte.Some? && k.valeur < k.seuilAlerte.value
  }

  /** An alert the lookup for a KPI code finds: an active technical alert whose entity matches `%code%`. */
  predicate CouvreKpi(a: Alerte, code: string)
  {
    a.typeAlerte == Technique && Like(a.entite, "%" + code + "%") && a.statut == Some("active")
  }

  /** The `.first()` of that lookup. */
  function AlerteKpiExistante(t: seq<Alerte>, code: string): (r: Option<Alerte>)
    ensures r.Some? ==> r.value in t && CouvreKpi(r.value, code)
    ensures r.None? <==> forall i :: 0 <= i < |t| ==> !CouvreKpi(t[i], code)
  {
    if t == [] then None
    else if CouvreKpi(t[0], code) then Some(t[0])
    else
      var r := AlerteKpiExistante(t[1..], code);
      assert forall i :: 1 <= i < |t| ==> t[i] == t[1..][i - 1];
      r
  }

  /** The alert raised for a KPI below its threshold; `texte` is Python's text of a float. */
  function AlerteKpi(k: Kpi, texte: real -> string): Alerte
  {
    Alerte(Technique, Elevee, "KPI " + k.code, "Alerte KPI: " + k.nom,
           "Le KPI " + k.nom + " a une valeur de " + texte(k.valeur) + " " + k.unite
           + ", inférieure au seuil" + " d'alerte de " + texte(k.seuilAlerte.GetOr(0.0)) + " " + k.unite + ".",
           k.operateurId, 1, Some("active"), Some(2))
  }

  /** A KPI's own alert is one its lookup finds. */
  lemma {:induction false} AlerteKpiCouvre(k: Kpi, texte: real -> string)
    ensures CouvreKpi(AlerteKpi(k, texte), k.code)
  {
    LikeContains("KPI ", k.code, "");
    assert "KPI " + k.code + "" == "KPI " + k.code;
  }

  /** The alert table after the KPI loop over `ks`: each KPI below its threshold adds an alert unless one is found. */
  function AlertesKpi(t: seq<Alerte>, ks: seq<Kpi>, texte: real -> string): seq<Alerte>
  {
    if ks == [] then t
    else
      var avant := AlertesKpi(t, ks[..|ks| - 1], texte);
      var k := ks[|ks| - 1];
      if SousSeuil(k) && AlerteKpiExistante(avant, k.code).None? then avant + [AlerteKpi(k, texte)] else avant
  }

  /** Alert `j` of `r` is the alert of `k`, a KPI below its threshold that no alert before it covers. */
  predicate AlerteAjoutee(r: seq<Alerte>, j: int, k: Kpi, texte: real -> string)
  {
    && 0 <= j < |r| && SousSeuil(k) && r[j] == AlerteKpi(k, texte)
    && forall i :: 0 <= i < j ==> !CouvreKpi(r[i], k.code)
  }

  /** Alert `j` of `r` is the alert of some KPI of `ks` that `AlerteAjoutee` describes. */
  predicate AjouteeParmi(r: seq<Alerte>, j: int, ks: seq<Kpi>, texte: real -> string)
  {
    exists k :: k in ks && AlerteAjoutee(r, j, k, texte)
  }

  /**
   * The alerts of the table are kept, and each alert the loop adds is the alert of a KPI
   * below its threshold for which no earlier alert was found.
   */
  lemma {:induction false} AlertesKpiCreees(t: seq<Alerte>, ks: seq<Kpi>, texte: real -> string)
    ensures |AlertesKpi(t, ks, texte)| >= |t| && AlertesKpi(t, ks, texte)[..|t|] == t
    ensures forall j :: |t| <= j < |AlertesKpi(t, ks, texte)| ==>
      AjouteeParmi(AlertesKpi(t, ks, texte), j, ks, texte)
  {
    if ks != [] {
      var init := ks[..|ks| - 1];
      var k := ks[|ks| - 1];
      AlertesKpiCreees(t, init, texte);
      var avant := AlertesKpi(t, init, texte);
      assert forall x :: x in init ==> x in ks;
      AlertesKpiElargies(avant, t, init, ks, texte);
      if SousSeuil(k) && AlerteKpiExistante(avant, k.code).None? {
        assert AlertesKpi(t, ks, texte) == avant + [AlerteKpi(k, texte)];
        AlertesKpiAjout(avant, t, ks, k, texte);
      } else {
        assert AlertesKpi(t, ks, texte) == avant;
      }
    }
  }

  /** What the alerts added after `t` say about the KPIs of `init` holds for any `ks` containing them. */
  lemma {:induction false} AlertesKpiElargies(r: seq<Alerte>, t: seq<Alerte>, init: seq<Kpi>, ks: seq<Kpi>, texte: real -> string)
    requires forall x :: x in init ==> x in ks
    requires forall j :: |t| <= j < |r| ==> AjouteeParmi(r, j, init, texte)
    ensures forall j :: |t| <= j < |r| ==> AjouteeParmi(r, j, ks, texte)
  {
    forall j | |t| <= j < |r|
      ensures AjouteeParmi(r, j, ks, texte)
    {
      assert AjouteeParmi(r, j, init, texte);
      var k :| k in init && AlerteAjoutee(r, j, k, texte);
      assert k in ks;
    }
  }

  /** Appending the alert of a KPI below its threshold that no alert of `avant` covers keeps the description. */
  lemma {:induction false} AlertesKpiAjout(avant: seq<Alerte>, t: seq<Alerte>, ks: seq<Kpi>, k: Kpi, texte: real -> string)
    requires |avant| >= |t| && avant[..|t|] == t
    requires k in ks && SousSeuil(k) && AlerteKpiExistante(avant, k.code).None?
    requires forall j :: |t| <= j < |avant| ==> AjouteeParmi(avant, j, ks, texte)
    ensures var r := avant + [AlerteKpi(k, texte)];
      && |r| >= |t| && r[..|t|] == t
      && forall j :: |t| <= j < |r| ==> AjouteeParmi(r, j, ks, texte)
  {
    var r := avant + [AlerteKpi(k, texte)];
    assert r[..|t|] == avant[..|t|] == t;
    forall j | |t| <= j < |r|
      ensures AjouteeParmi(r, j, ks, texte)
    {
      if j == |avant| {
        assert forall i :: 0 <= i < j ==> r[i] == avant[i];
        assert AlerteAjoutee(r, j, k, texte);
      } else {
        assert AjouteeParmi(avant, j, ks, texte);
        var k' :| k' in ks && AlerteAjoutee(avant, j, k', texte);
        assert forall i :: 0 <= i <= j ==> r[i] == avant[i];
        assert AlerteAjoutee(r, j, k', texte);
      }
    }
  }

  /** After the loop, the lookup finds an alert for every KPI of `ks` below its threshold. */
  lemma {:induction false} AlertesKpiCouvrent(t: seq<Alerte>, ks: seq<Kpi>, texte: real -> string)
    ensures forall k :: k in ks && SousSeuil(k) ==> AlerteKpiExistante(AlertesKpi(t, ks, texte), k.code).Some?
  {
    if ks != [] {
      var init := ks[..|ks| - 1];
      AlertesKpiCouvrent(t, init, texte);
      var avant := AlertesKpi(t, init, texte);
      var last := ks[|ks| - 1];
      var r := AlertesKpi(t, ks, texte);
      assert r[..|avant|] == avant by {
        AlertesKpiCreees(t, init, texte);
      }
      forall k | k in ks && SousSeuil(k)
        ensures AlerteKpiExistante(r, k.code).Some?
      {
        var a: Alerte;
        if k in init {
          a := AlerteKpiExistante(avant, k.code).value;
          var i :| 0 <= i < |avant| && avant[i] == a;
          assert r[i] == a;
        } else {
          assert k == last;
          if AlerteKpiExistante(avant, k.code).None? {
            a := AlerteKpi(k, texte);
            AlerteKpiCouvre(k, texte);
            assert r[|avant|] == a;
          } else {
            a := AlerteKpiExistante(avant, k.code).value;
            var i :| 0 <= i < |avant| && avant[i] == a;
            assert r[i] == a;
          }
        }
      }
    }
  }

  /** The KPI half of `generer_alertes_automatiques`: the table grows by the alerts it returns. */
  method GenererAlertesKpi(table: seq<Alerte>, kpis: seq<Kpi>, texte: real -> string)
    returns (generees: seq<Alerte>, t: seq<Alerte>)
    ensures t == AlertesKpi(table, KpisCritiques(kpis), texte)
    ensures t == table + generees
  {
    var critiques := KpisCritiques(kpis);
    generees := [];
    t := table;
    for i := 0 to |critiques|
      invariant t == AlertesKpi(table, critiques[..i], texte)
      invariant t == table + generees
    {
      assert critiques[..i + 1][..i] == critiques[..i];
      var kpi := critiques[i];
      if kpi.valeur < kpi.seuilAlerte.value {
        var existante := AlerteKpiExistante(t, kpi.code);
        if existante.None? {
          var alerte := AlerteKpi(kpi, texte);
          ConcatAssoc(table, generees, [alerte]);
          t := t + [alerte];
          generees := generees + [alerte];
        }
      }
    }
    assert critiques[..|critiques|] == critiques;
  }

  /** The three report streams whose delays are watched, in the dictionary's order. */
  datatype Source = SourceHydro | SourceThermique | SourceTransport

  /** The key of a stream in `derniers_rapports`, which the alert texts quote. */
  function NomSource(s: Source): string
  {
    match s
    case SourceHydro => "hydro"
    case SourceThermique => "thermique"
    case SourceTransport => "transport"
  }

  const Sources: seq<Source> := [SourceHydro, SourceThermique, SourceTransport]

  /** Thirty days, in seconds: the age past which an operator's latest report is late. */
  const DelaiRetard: int := 30 * 86400

  /** A report of one of the streams, with the operator of its plant or line and its `date_creation` in seconds. */
  datatype RapportDate = RapportDate(source: Source, operateurId: int, dateCreation: int)

  predicate DuFlux(r: RapportDate, s: Source, operateurId: int)
  {
    r.source == s && r.operateurId == operateurId
  }

  /** The `date_creation` of the operator's latest report of a stream (`order_by(date_creation.desc()).first()`). */
  function DernierRapport(rs: seq<RapportDate>, s: Source, operateurId: int): (r: Option<int>)
    ensures r.None? <==> forall i :: 0 <= i < |rs| ==> !DuFlux(rs[i], s, operateurId)
    ensures r.Some? ==> exists i :: 0 <= i < |rs| && DuFlux(rs[i], s, operateurId) && rs[i].dateCreation == r.value
    ensures r.Some? ==> forall i :: 0 <= i < |rs| && DuFlux(rs[i], s, operateurId) ==> rs[i].dateCreation <= r.value
  {
    if rs == [] then None
    else
      var avant := DernierRapport(rs[..|rs| - 1], s, operateurId);
      var x := rs[|rs| - 1];
      assert forall i :: 0 <= i < |rs| - 1 ==> rs[..|rs| - 1][i] == rs[i];
      if !DuFlux(x, s, operateurId) then avant
      else if avant.None? || avant.value < x.dateCreation then Some(x.dateCreation)
      else avant
  }

  /** The operator's latest report of the stream is older than the limit. */
  predicate EnRetard(rs: seq<RapportDate>, s: Source, operateurId: int, limite: int)
  {
    var d := DernierRapport(rs, s, operateurId);
    d.Some? && d.value < limite
  }

  /** No stream of the operator is late. */
  predicate AJour(rs: seq<RapportDate>, operateurId: int, limite: int)
  {
    forall s :: s in Sources ==> !EnRetard(rs, s, operateurId, limite)
  }

  /**
   * The delay half as written: the lookup of an existing alert reads `nom_commercial`,
   * which `Operateur` does not have, so the first late report raises `AttributeError`;
   * when no report is late nothing is created.
   */
  method VerifierRetardsAsWritten(ops: seq<Operateur>, rs: seq<RapportDate>, maintenant: int)
    returns (r: Result<seq<Alerte>>)
    ensures r.Err? <==> exists o :: o in Actives(ops) && !AJour(rs, o.id, maintenant - DelaiRetard)
    ensures r.Ok? ==> r.value == []
  {
    var operateurs := Actives(ops);
    var limite := maintenant - DelaiRetard;
    for i := 0 to |operateurs|
      invariant forall k :: 0 <= k < i ==> AJour(rs, operateurs[k].id, limite)
    {
      for j := 0 to |Sources|
        invariant forall m :: 0 <= m < j ==> !EnRetard(rs, Sources[m], operateurs[i].id, limite)
      {
        var dernier := DernierRapport(rs, Sources[j], operateurs[i].id);
        if dernier.Some? && dernier.value < limite {
          assert operateurs[i] in operateurs && Sources[j] in Sources;
          return Err("AttributeError: nom_commercial");
        }
      }
      assert AJour(rs, operateurs[i].id, limite);
    }
    assert forall o :: o in operateurs ==> AJour(rs, o.id, limite);
    return Ok([]);
  }

  /** The lookup for a delay, naming the operator by `nom`: an active administrative alert for it whose description matches `%type%`. */
  predicate CouvreRetard(a: Alerte, nom: string, typeRapport: string)
  {
    a.typeAlerte == Administratif && a.entite == nom && Like(a.description, "%" + typeRapport + "%")
    && a.statut == Some("active")
  }

  function AlerteRetardExistante(t: seq<Alerte>, nom: string, typeRapport: string): (r: Option<Alerte>)
    ensures r.Some? ==> r.value in t && CouvreRetard(r.value, nom, typeRapport)
    ensures r.None? <==> forall i :: 0 <= i < |t| ==> !CouvreRetard(t[i], nom, typeRapport)
  {
    if t == [] then None
    else if CouvreRetard(t[0], nom, typeRapport) then Some(t[0])
    else
      var r := AlerteRetardExistante(t[1..], nom, typeRapport);
      assert forall i :: 1 <= i < |t| ==> t[i] == t[1..][i - 1];
      r
  }

  /** A lookup that finds something still finds it once alerts are appended. */
  lemma {:induction false} AlerteRetardExistanteCroissante(t: seq<Alerte>, u: seq<Alerte>, nom: string, typeRapport: string)
    requires |t| <= |u| && u[..|t|] == t
    ensures AlerteRetardExistante(t, nom, typeRapport).Some? ==> AlerteRetardExistante(u, nom, typeRapport).Some?
  {
    if AlerteRetardExistante(t, nom, typeRapport).Some? {
      var i :| 0 <= i < |t| && t[i] == AlerteRetardExistante(t, nom, typeRapport).value;
      assert u[i] == t[i];
    }
  }

  /** The alert raised for a late report of an operator. */
  function AlerteRetard(o: Operateur, typeRapport: string): Alerte
  {
    Alerte(Administratif, Moyenne, o.nom, "Retard rapport " + typeRapport,
           "Aucun rapport " + typeRapport + " reçu depuis plus de 30 jours" + " pour l'opérateur " + o.nom + ".",
           Some(o.id), 1, Some("active"), Some(2))
  }

  lemma {:induction false} AlerteRetardCouvre(o: Operateur, typeRapport: string)
    ensures CouvreRetard(AlerteRetard(o, typeRapport), o.nom, typeRapport)
  {
    var suite := " reçu depuis plus de 30 jours" + " pour l'opérateur " + o.nom + ".";
    LikeContains("Aucun rapport ", typeRapport, suite);
    assert "Aucun rapport " + typeRapport + suite
      == "Aucun rapport " + typeRapport + " reçu depuis plus de 30 jours" + " pour l'opérateur " + o.nom + ".";
  }

  /** The table after checking the streams `ss` of one operator. */
  function RetardsOperateur(t: seq<Alerte>, o: Operateur, ss: seq<Source>, rs: seq<RapportDate>, limite: int): seq<Alerte>
  {
    if ss == [] then t
    else
      var avant := RetardsOperateur(t, o, ss[..|ss| - 1], rs, limite);
      var s := ss[|ss| - 1];
      if EnRetard(rs, s, o.id, limite) && AlerteRetardExistante(avant, o.nom, NomSource(s)).None?
      then avant + [AlerteRetard(o, NomSource(s))]
      else avant
  }

  /** The table after checking every stream of the operators `ops`. */
  function Retards(t: seq<Alerte>, ops: seq<Operateur>, rs: seq<RapportDate>, limite: int): seq<Alerte>
  {
    if ops == [] then t else RetardsOperateur(Retards(t, ops[..|ops| - 1], rs, limite), ops[|ops| - 1], Sources, rs, limite)
  }

  /** Checking an operator keeps the existing alerts and finds an alert for each of its late streams among `ss`. */
  lemma {:induction false} RetardsOperateurCouvrent(t: seq<Alerte>, o: Operateur, ss: seq<Source>, rs: seq<RapportDate>, limite: int)
    ensures |RetardsOperateur(t, o, ss, rs, limite)| >= |t| && RetardsOperateur(t, o, ss, rs, limite)[..|t|] == t
    ensures forall s :: s in ss && EnRetard(rs, s, o.id, limite) ==>
      AlerteRetardExistante(RetardsOperateur(t, o, ss, rs, limite), o.nom, NomSource(s)).Some?
  {
    if ss != [] {
      var init := ss[..|ss| - 1];
      RetardsOperateurCouvrent(t, o, init, rs, limite);
      var avant := RetardsOperateur(t, o, init, rs, limite);
      var r := RetardsOperateur(t, o, ss, rs, limite);
      var last := ss[|ss| - 1];
      assert |r| >= |avant| && r[..|avant|] == avant;
      assert r[..|t|] == avant[..|t|];
      forall s | s in ss && EnRetard(rs, s, o.id, limite)
        ensures AlerteRetardExistante(r, o.nom, NomSource(s)).Some?
      {
        if s in init {
          AlerteRetardExistanteCroissante(avant, r, o.nom, NomSource(s));
        } else if AlerteRetardExistante(avant, o.nom, NomSource(s)).Some? {
          AlerteRetardExistanteCroissante(avant, r, o.nom, NomSource(s));
        } else {
          assert s == last;
          AlerteRetardCouvre(o, NomSource(s));
          assert r[|avant|] == AlerteRetard(o, NomSource(s));
        }
      }
    }
  }

  /**
   * Once every operator is checked, each late stream of each of them has an active
   * administrative alert naming the operator, and the alerts already there are kept.
   */
  lemma {:induction false} RetardsCouverts(t: seq<Alerte>, ops: seq<Operateur>, rs: seq<RapportDate>, limite: int)
    ensures |Retards(t, ops, rs, limite)| >= |t| && Retards(t, ops, rs, limite)[..|t|] == t
    ensures forall o, s :: o in ops && s in Sources && EnRetard(rs, s, o.id, limite) ==>
      AlerteRetardExistante(Retards(t, ops, rs, limite), o.nom, NomSource(s)).Some?
  {
    if ops != [] {
      var init := ops[..|ops| - 1];
      RetardsCouverts(t, init, rs, limite);
      var avant := Retards(t, init, rs, limite);
      var last := ops[|ops| - 1];
      var r := Retards(t, ops, rs, limite);
      RetardsOperateurCouvrent(avant, last, Sources, rs, limite);
      assert r[..|t|] == avant[..|t|];
      forall o, s | o in ops && s in Sources && EnRetard(rs, s, o.id, limite)
        ensures AlerteRetardExistante(r, o.nom, NomSource(s)).Some?
      {
        if o in init {
          AlerteRetardExistanteCroissante(avant, r, o.nom, NomSource(s));
        } else {
          assert o == last;
        }
      }
    }
  }

  /** One operator's streams, checked in turn: the table grows by the alerts it returns. */
  method VerifierRetardsOperateur(t0: seq<Alerte>, o: Operateur, rs: seq<RapportDate>, limite: int)
    returns (t: seq<Alerte>, nouvelles: seq<Alerte>)
    ensures t == RetardsOperateur(t0, o, Sources, rs, limite)
    ensures t == t0 + nouvelles
  {
    t := t0;
    nouvelles := [];
    for j := 0 to |Sources|
      invariant t == RetardsOperateur(t0, o, Sources[..j], rs, limite)
      invariant t == t0 + nouvelles
    {
      assert Sources[..j + 1][..j] == Sources[..j];
      var typeRapport := NomSource(Sources[j]);
      var dernier := DernierRapport(rs, Sources[j], o.id);
      if dernier.Some? && dernier.value < limite {
        var existante := AlerteRetardExistante(t, o.nom, typeRapport);
        if existante.None? {
          var alerte := AlerteRetard(o, typeRapport);
          ConcatAssoc(t0, nouvelles, [alerte]);
          t := t + [alerte];
          nouvelles := nouvelles + [alerte];
        }
      }
    }
    assert Sources[..|Sources|] == Sources;
  }

  /** The delay half with the operator named by `nom`. */
  method VerifierRetards(table: seq<Alerte>, ops: seq<Operateur>, rs: seq<RapportDate>, maintenant: int)
    returns (generees: seq<Alerte>, t: seq<Alerte>)
    ensures t == Retards(table, Actives(ops), rs, maintenant - DelaiRetard)
    ensures t == table + generees
  {
    var operateurs := Actives(ops);
    var limite := maintenant - DelaiRetard;
    t := table;
    generees := [];
    for i := 0 to |operateurs|
      invariant t == Retards(table, operateurs[..i], rs, limite)
      invariant t == table + generees
    {
      assert operateurs[..i + 1][..i] == operateurs[..i];
      var nouvelles;
      t, nouvelles := VerifierRetardsOperateur(t, operateurs[i], rs, limite);
      ConcatAssoc(table, generees, nouvelles);
      generees := generees + nouvelles;
    }
    assert operateurs[..|operateurs|] == operateurs;
  }

  /**
   * `generer_alertes_automatiques` as written: the KPI alerts are saved one by one, so they
   * stay in the table even when the delay half then raises.
   */
  method GenererAlertesAutomatiquesAsWritten(
    table: seq<Alerte>, kpis: seq<Kpi>, ops: seq<Operateur>, rs: seq<RapportDate>, maintenant: int, texte: real -> string)
    returns (t: seq<Alerte>, r: Result<seq<Alerte>>)
    ensures t == AlertesKpi(table, KpisCritiques(kpis), texte)
    ensures r.Err? <==> exists o :: o in Actives(ops) && !AJour(rs, o.id, maintenant - DelaiRetard)
    ensures r.Ok? ==> t == table + r.value
  {
    var generees;
    generees, t := GenererAlertesKpi(table, kpis, texte);
    var retards := VerifierRetardsAsWritten(ops, rs, maintenant);
    if retards.Err? {
      return t, Err(retards.error);
    }
    assert retards.value == [];
    r := Ok(generees);
  }

  /** `generer_alertes_automatiques` with the operator named by `nom`: the KPI alerts, then the delay alerts. */
  method GenererAlertesAutomatiques(
    table: seq<Alerte>, kpis: seq<Kpi>, ops: seq<Operateur>, rs: seq<RapportDate>, maintenant: int, texte: real -> string)
    returns (generees: seq<Alerte>, t: seq<Alerte>)
    ensures t == Retards(AlertesKpi(table, KpisCritiques(kpis), texte), Actives(ops), rs, maintenant - DelaiRetard)
    ensures t == table + generees
  {
    var kpi, retards;
    kpi, t := GenererAlertesKpi(table, kpis, texte);
    retards, t := VerifierRetards(t, ops, rs, maintenant);
    ConcatAssoc(table, kpi, retards);
    generees := kpi + retards;
  }

  // ---------------------------------------------------------------------------------
  // Strategic KPIs of a year

  /** The row has the code and the year. */
  predicate Cle(k: Kpi, code: string, annee: int)
  {
    k.code == code && k.annee == annee
  }

  /** The index of the first row from `i` on with the code and year. */
  function FindKpiFrom(rows: seq<Kpi>, code: string, annee: int, i: nat): (r: Option<nat>)
    requires i <= |rows|
    ensures r.Some? ==> i <= r.value < |rows| && Cle(rows[r.value], code, annee)
    ensures r.Some? ==> forall j :: i <= j < r.value ==> !Cle(rows[j], code, annee)
    ensures r.None? ==> forall j :: i <= j < |rows| ==> !Cle(rows[j], code, annee)
    decreases |rows| - i
  {
    if i == |rows| then None
    else if Cle(rows[i], code, annee) then Some(i)
    else FindKpiFrom(rows, code, annee, i + 1)
  }

  /** `KPIStrategic.query.filter_by(code=..., annee=...).first()`, as an index into the table. */
  function FindKpi(rows: seq<Kpi>, code: string, annee: int): (r: Option<nat>)
    ensures r.Some? ==> r.value < |rows| && Cle(rows[r.value], code, annee)
    ensures r.Some? ==> forall j :: 0 <= j < r.value ==> !Cle(rows[j], code, annee)
    ensures r.None? ==> forall j :: 0 <= j < |rows| ==> !Cle(rows[j], code, annee)
  {
    FindKpiFrom(rows, code, annee, 0)
  }

  /** The first matching row is determined by where the keys match, and nothing else. */
  lemma {:induction false} FindKpiUnique(rows: seq<Kpi>, code: string, annee: int, i: nat)
    requires i < |rows| && Cle(rows[i], code, annee)
    requires forall j :: 0 <= j < i ==> !Cle(rows[j], code, annee)
    ensures FindKpi(rows, code, annee) == Some(i)
  {
  }

  /** Two tables with the same keys row by row answer every lookup alike. */
  lemma {:induction false} FindKpiSameKeys(rows: seq<Kpi>, rows2: seq<Kpi>, code: string, annee: int)
    requires |rows| == |rows2|
    requires forall j :: 0 <= j < |rows| ==> rows[j].code == rows2[j].code && rows[j].annee == rows2[j].annee
    ensures FindKpi(rows, code, annee) == FindKpi(rows2, code, annee)
  {
    var r := FindKpi(rows, code, annee);
    if r.Some? {
      FindKpiUnique(rows2, code, annee, r.value);
    } else {
      assert FindKpi(rows2, code, annee).None?;
    }
  }

  /** Appending a row with another key leaves every lookup of that key as it was. */
  lemma {:induction false} FindKpiAppend(rows: seq<Kpi>, x: Kpi, code: string, annee: int)
    ensures !Cle(x, code, annee) ==> FindKpi(rows + [x], code, annee) == FindKpi(rows, code, annee)
    ensures Cle(x, code, annee) && FindKpi(rows, code, annee).None? ==> FindKpi(rows + [x], code, annee) == Some(|rows|)
  {
    var r := FindKpi(rows, code, annee);
    var u := rows + [x];
    if r.Some? {
      FindKpiUnique(u, code, annee, r.value);
    } else if Cle(x, code, annee) {
      FindKpiUnique(u, code, annee, |rows|);
    } else {
      assert FindKpi(u, code, annee).None?;
    }
  }

  /** Another key than the given one: what an upsert must leave alone. */
  predicate AutreCle(c: string, a: int, code: string, annee: int)
  {
    c != code || a != annee
  }

  /**
   * The create-or-update step each strategic KPI goes through: the first row with the code
   * and year gets the new value, or the new row is appended. Afterwards the lookup finds the
   * row holding the value, every other row is as before, and every other key's lookup too.
   */
  method UpsertKpi(rows: seq<Kpi>, code: string, annee: int, valeur: real, nouveau: Kpi)
    returns (r: seq<Kpi>, index: nat)
    requires Cle(nouveau, code, annee) && nouveau.valeur == valeur
    ensures index < |r| && FindKpi(r, code, annee) == Some(index) && r[index].valeur == valeur
    ensures FindKpi(rows, code, annee).Some? ==>
      index == FindKpi(rows, code, annee).value && |r| == |rows| && r[index] == rows[index].(valeur := valeur)
    ensures FindKpi(rows, code, annee).None? ==> r == rows + [nouveau]
    ensures forall j :: 0 <= j < |rows| && j != index ==> r[j] == rows[j]
    ensures forall c, a :: AutreCle(c, a, code, annee) ==> FindKpi(r, c, a) == FindKpi(rows, c, a)
  {
    var kpi := FindKpi(rows, code, annee);
    if kpi.None? {
      r, index := rows + [nouveau], |rows|;
      FindKpiAppend(rows, nouveau, code, annee);
      forall c, a | AutreCle(c, a, code, annee)
        ensures FindKpi(r, c, a) == FindKpi(rows, c, a)
      {
        FindKpiAppend(rows, nouveau, c, a);
      }
    } else {
      index := kpi.value;
      r := rows[index := rows[index].(valeur := valeur)];
      FindKpiSameKeys(rows, r, code, annee);
      forall c, a | AutreCle(c, a, code, annee)
        ensures FindKpi(r, c, a) == FindKpi(rows, c, a)
      {
        FindKpiSameKeys(rows, r, c, a);
      }
    }
  }

  /** `atteint := valeur >= objectif` for a KPI with an objective; a KPI without one is left alone. */
  function Atteint(k: Kpi): Kpi
  {
    if k.objectif.Some? then k.(atteint := Some(k.valeur >= k.objectif.value)) else k
  }

  /**
   * With an objective the KPI is reached exactly when its value is at least the objective;
   * without one nothing changes; the key and the value never change, and marking twice is
   * marking once.
   */
  lemma {:induction false} AtteintMeaning(k: Kpi)
    ensures k.objectif.Some? ==> (Atteint(k).atteint == Some(true) <==> k.valeur >= k.objectif.value)
    ensures k.objectif.Some? ==> Atteint(k).atteint.Some?
    ensures k.objectif.None? ==> Atteint(k) == k
    ensures Atteint(k).code == k.code && Atteint(k).annee == k.annee && Atteint(k).valeur == k.valeur
    ensures Atteint(Atteint(k)) == Atteint(k)
  {
  }

  /** The last loop of `mettre_a_jour_kpis_strategiques`: each updated KPI with an objective is marked. */
  method MarquerAtteints(rows: seq<Kpi>, maj: seq<nat>) returns (r: seq<Kpi>)
    requires forall i :: 0 <= i < |maj| ==> maj[i] < |rows|
    ensures |r| == |rows|
    ensures forall j :: 0 <= j < |rows| ==> r[j] == (if j in maj then Atteint(rows[j]) else rows[j])
  {
    r := rows;
    for i := 0 to |maj|
      invariant |r| == |rows|
      invariant forall j :: 0 <= j < |rows| ==> r[j] == (if j in maj[..i] then Atteint(rows[j]) else rows[j])
    {
      var k := maj[i];
      assert forall j :: j in maj[..i + 1] <==> j in maj[..i] || j == k;
      if r[k].objectif.Some? {
        r := r[k := r[k].(atteint := Some(r[k].valeur >= r[k].objectif.value))];
      }
    }
    assert maj[..|maj|] == maj;
  }

  /** Marking changes no key, so every lookup answers as before. */
  lemma {:induction false} MarquerGardeCles(rows: seq<Kpi>, r: seq<Kpi>, maj: seq<nat>, code: string, annee: int)
    requires |r| == |rows|
    requires forall j :: 0 <= j < |rows| ==> r[j] == (if j in maj then Atteint(rows[j]) else rows[j])
    ensures FindKpi(r, code, annee) == FindKpi(rows, code, annee)
  {
    FindKpiSameKeys(rows, r, code, annee);
  }

  /** The provinces the national rate goes through. */
  const Provinces: seq<string> := [
    "Kinshasa", "Bas-Congo", "Bandundu", "Équateur", "Orientale", "Nord-Kivu", "Sud-Kivu",
    "Maniema", "Katanga", "Kasaï-Oriental", "Kasaï-Occidental"]

  /** The access rate of each province in turn. */
  function TauxProvinces(reseaux: seq<Reseau>, donnees: seq<DonneesProvince>, annee: int): (r: seq<real>)
    ensures |r| == |Provinces|
    ensures forall i :: 0 <= i < |Provinces| ==>
      r[i] == TauxAcces(ReseauxDeProvince(reseaux, Provinces[i]), PopulationProvince(donnees, Provinces[i], annee))
  {
    seq(|Provinces|, i requires 0 <= i < |Provinces| =>
      TauxAcces(ReseauxDeProvince(reseaux, Provinces[i]), PopulationProvince(donnees, Provinces[i], annee)))
  }

  /** The sum of the positive rates. */
  function SommePositifs(xs: seq<real>): real
  {
    if xs == [] then 0.0 else SommePositifs(xs[..|xs| - 1]) + (if xs[|xs| - 1] > 0.0 then xs[|xs| - 1] else 0.0)
  }

  /** How many rates are positive. */
  function NbPositifs(xs: seq<real>): nat
  {
    if xs == [] then 0 else NbPositifs(xs[..|xs| - 1]) + (if xs[|xs| - 1] > 0.0 then 1 else 0)
  }

  /** One more rate adds itself to the sum and one to the count when it is positive, nothing otherwise. */
  lemma {:induction false} PositifsPrefixe(xs: seq<real>, i: nat)
    requires i < |xs|
    ensures SommePositifs(xs[..i + 1]) == SommePositifs(xs[..i]) + (if xs[i] > 0.0 then xs[i] else 0.0)
    ensures NbPositifs(xs[..i + 1]) == NbPositifs(xs[..i]) + (if xs[i] > 0.0 then 1 else 0)
  {
    assert xs[..i + 1][..i] == xs[..i];
  }

  /** The national rate: the mean of the positive provincial rates, None when there is none. */
  function TauxNational(xs: seq<real>): Option<real>
  {
    if NbPositifs(xs) > 0 then Some(SommePositifs(xs) / NbPositifs(xs) as real) else None
  }

  lemma {:induction false} PositifsBornes(xs: seq<real>)
    ensures NbPositifs(xs) == 0 <==> forall i :: 0 <= i < |xs| ==> xs[i] <= 0.0
    ensures SommePositifs(xs) >= 0.0
    ensures NbPositifs(xs) > 0 ==> SommePositifs(xs) > 0.0
    ensures (forall i :: 0 <= i < |xs| ==> xs[i] <= 100.0) ==> SommePositifs(xs) <= 100.0 * NbPositifs(xs) as real
  {
    if xs != [] {
      var init := xs[..|xs| - 1];
      PositifsBornes(init);
      assert forall i :: 0 <= i < |init| ==> init[i] == xs[i];
    }
  }

  /**
   * The national rate exists exactly when some province has a positive rate; it is then
   * positive, and at most 100 when every provincial rate is.
   */
  lemma {:induction false} TauxNationalMeaning(xs: seq<real>)
    ensures TauxNational(xs).None? <==> forall i :: 0 <= i < |xs| ==> xs[i] <= 0.0
    ensures TauxNational(xs).Some? ==> TauxNational(xs).value > 0.0
    ensures TauxNational(xs).Some? && (forall i :: 0 <= i < |xs| ==> xs[i] <= 100.0) ==> TauxNational(xs).value <= 100.0
  {
    PositifsBornes(xs);
    if NbPositifs(xs) > 0 {
      QuotientBorne(SommePositifs(xs), NbPositifs(xs) as real);
    }
  }

  /** A positive sum over a positive count has a positive quotient, at most 100 when the sum is at most 100 per count. */
  lemma {:induction false} QuotientBorne(somme: real, n: real)
    requires n > 0.0
    ensures somme > 0.0 ==> somme / n > 0.0
    ensures somme <= 100.0 * n ==> somme / n <= 100.0
  {
    var v := somme / n;
    assert v * n == somme;
    if v <= 0.0 {
      assert v * n <= 0.0;
    }
    if v > 100.0 {
      assert (v - 100.0) * n > 0.0;
    }
  }

  /** The provincial rates never exceed 100, so neither does the national one. */
  lemma {:induction false} TauxNationalAuPlus100(reseaux: seq<Reseau>, donnees: seq<DonneesProvince>, annee: int)
    ensures TauxNational(TauxProvinces(reseaux, donnees, annee)).Some? ==>
      0.0 < TauxNational(TauxProvinces(reseaux, donnees, annee)).value <= 100.0
  {
    var xs := TauxProvinces(reseaux, donnees, annee);
    forall i | 0 <= i < |xs|
      ensures xs[i] <= 100.0
    {
      TauxAccesMeaning(ReseauxDeProvince(reseaux, Provinces[i]), PopulationProvince(donnees, Provinces[i], annee));
    }
    TauxNationalMeaning(xs);
  }

  /** The loop over the provinces: the sum and the number of the positive rates. */
  method SommerTauxProvinces(reseaux: seq<Reseau>, donnees: seq<DonneesProvince>, annee: int)
    returns (total: real, provincesAvecDonnees: nat)
    ensures total == SommePositifs(TauxProvinces(reseaux, donnees, annee))
    ensures provincesAvecDonnees == NbPositifs(TauxProvinces(reseaux, donnees, annee))
  {
    ghost var xs := TauxProvinces(reseaux, donnees, annee);
    total, provincesAvecDonnees := 0.0, 0;
    for i := 0 to |Provinces|
      invariant total == SommePositifs(xs[..i])
      invariant provincesAvecDonnees == NbPositifs(xs[..i])
    {
      PositifsPrefixe(xs, i);
      var taux := CalculerTauxAccesProvince(reseaux, donnees, Provinces[i], annee);
      assert taux == xs[i];
      if taux > 0.0 {
        total := total + taux;
        provincesAvecDonnees := provincesAvecDonnees + 1;
      }
    }
    assert xs[..|Provinces|] == xs;
  }

  const CodeTauxAcces: string := "TAUX_ACCES_NATIONAL"
  const CodeProduction: string := "PRODUCTION_NATIONALE"
  const CodeOperateurs: string := "OPERATEURS_ACTIFS"

  /** A new strategic KPI of the year (`periode` is `str(annee)`; no operator; not reached). */
  function NouveauKpi(code: string, nom: string, valeur: real, unite: string, annee: int,
                      objectif: Option<real>, seuil: Option<real>, source: string): Kpi
  {
    Kpi(code, nom, valeur, unite, IntToString(annee), annee, objectif, Some(false), seuil, Some(source), None, true)
  }

  /** The KPI row of the key was upserted with the value and then marked. */
  predicate MisAJour(r: seq<Kpi>, code: string, annee: int, valeur: real)
  {
    && FindKpi(r, code, annee).Some?
    && r[FindKpi(r, code, annee).value].valeur == valeur
    && (r[FindKpi(r, code, annee).value].objectif.Some? ==>
          r[FindKpi(r, code, annee).value].atteint
          == Some(valeur >= r[FindKpi(r, code, annee).value].objectif.value))
  }

  /**
   * The first KPI: when some province has a positive rate, the national rate is upserted
   * under TAUX_ACCES_NATIONAL with the objective 85 % and the alert threshold 70 %.
   */
  method MettreAJourTauxAcces(rows: seq<Kpi>, annee: int, reseaux: seq<Reseau>, donnees: seq<DonneesProvince>)
    returns (r: seq<Kpi>, maj: seq<nat>, national: Option<real>)
    ensures national == TauxNational(TauxProvinces(reseaux, donnees, annee))
    ensures national.Some? ==> |maj| == 1 && maj[0] < |r| && TenuPar(r, maj, CodeTauxAcces, annee, national.value)
    ensures national.None? ==> maj == [] && r == rows
    ensures |rows| <= |r|
    ensures forall j :: 0 <= j < |rows| && j !in maj ==> r[j] == rows[j]
    ensures forall c, a :: AutreCle(c, a, CodeTauxAcces, annee) ==> FindKpi(r, c, a) == FindKpi(rows, c, a)
  {
    var tauxAccesTotal, provincesAvecDonnees := SommerTauxProvinces(reseaux, donnees, annee);
    r, maj, national := rows, [], None;
    if provincesAvecDonnees > 0 {
      var tauxAccesNational := tauxAccesTotal / provincesAvecDonnees as real;
      national := Some(tauxAccesNational);
      var nouveau := NouveauKpi(CodeTauxAcces, "Taux d'accès national" + " à l'électricité", tauxAccesNational, "%", annee,
                                Some(85.0), Some(70.0), "Rapports distribution");
      var index;
      r, index := UpsertKpi(rows, CodeTauxAcces, annee, tauxAccesNational, nouveau);
      maj := [index];
    }
  }

  /** The row of the key holds the value and is one of the updated rows. */
  predicate TenuPar(r: seq<Kpi>, maj: seq<nat>, code: string, annee: int, valeur: real)
  {
    FindKpi(r, code, annee).Some? && r[FindKpi(r, code, annee).value].valeur == valeur && FindKpi(r, code, annee).value in maj
  }

  /** A later upsert of another key keeps a row already upserted. */
  lemma {:induction false} UpsertGarde(rA: seq<Kpi>, rB: seq<Kpi>, maj: seq<nat>, code: string, annee: int, valeur: real,
                    codeB: string, indexB: nat)
    requires TenuPar(rA, maj, code, annee, valeur) && code != codeB
    requires FindKpi(rB, code, annee) == FindKpi(rA, code, annee)
    requires |rA| <= |rB| && indexB < |rB| && Cle(rB[indexB], codeB, annee)
    requires forall j :: 0 <= j < |rA| && j != indexB ==> rB[j] == rA[j]
    ensures TenuPar(rB, maj + [indexB], code, annee, valeur)
  {
  }

  /**
   * One upsert in the sequence: the KPIs `tenus` already upserted (code and value, all of
   * the same year and of other codes) keep their rows, and the new one holds its value.
   */
  method UpsertSuivant(rA: seq<Kpi>, majA: seq<nat>, code: string, annee: int, valeur: real, nouveau: Kpi,
                       ghost tenus: seq<(string, real)>)
    returns (r: seq<Kpi>, maj: seq<nat>)
    requires Cle(nouveau, code, annee) && nouveau.valeur == valeur
    requires forall j :: 0 <= j < |majA| ==> majA[j] < |rA|
    requires forall t :: t in tenus ==> t.0 != code && TenuPar(rA, majA, t.0, annee, t.1)
    ensures forall t :: t in tenus ==> TenuPar(r, maj, t.0, annee, t.1)
    ensures TenuPar(r, maj, code, annee, valeur)
    ensures |maj| == |majA| + 1 && maj[..|majA|] == majA
    ensures forall j :: 0 <= j < |maj| ==> maj[j] < |r|
    ensures |rA| <= |r| && forall j :: 0 <= j < |rA| && j !in maj ==> r[j] == rA[j]
    ensures forall c :: c != code ==> FindKpi(r, c, annee) == FindKpi(rA, c, annee)
  {
    var index;
    r, index := UpsertKpi(rA, code, annee, valeur, nouveau);
    maj := majA + [index];
    assert maj[..|majA|] == majA;
    forall t | t in tenus
      ensures TenuPar(r, maj, t.0, annee, t.1)
    {
      assert AutreCle(t.0, annee, code, annee);
      UpsertGarde(rA, r, majA, t.0, annee, t.1, code, index);
    }
    forall c | c != code
      ensures FindKpi(r, c, annee) == FindKpi(rA, c, annee)
    {
      assert AutreCle(c, annee, code, annee);
    }
  }

  /**
   * The second and third upserts of `mettre_a_jour_kpis_strategiques` (national production,
   * active operators), after the first one left the access rate `national` in `r1`.
   */
  method UpsertProductionOperateurs(
    r1: seq<Kpi>, maj1: seq<nat>, annee: int, national: Option<real>, rapports: seq<RapportProduction>, ops: seq<Operateur>)
    returns (r: seq<Kpi>, maj: seq<nat>)
    requires national.Some? ==> TenuPar(r1, maj1, CodeTauxAcces, annee, national.value)
    requires forall j :: 0 <= j < |maj1| ==> maj1[j] < |r1|
    ensures national.Some? ==> TenuPar(r, maj, CodeTauxAcces, annee, national.value)
    ensures FindKpi(r, CodeTauxAcces, annee) == FindKpi(r1, CodeTauxAcces, annee)
    ensures TenuPar(r, maj, CodeProduction, annee, CalculerMixEnergetique(rapports, annee, None).total)
    ensures TenuPar(r, maj, CodeOperateurs, annee, |Actives(ops)| as real)
    ensures |maj| == |maj1| + 2 && forall j :: j in maj1 ==> j in maj
    ensures forall j :: 0 <= j < |maj| ==> maj[j] < |r|
    ensures |r1| <= |r| && forall j :: 0 <= j < |r1| && j !in maj ==> r[j] == r1[j]
  {
    ghost var tenus: seq<(string, real)> := if national.Some? then [(CodeTauxAcces, national.value)] else [];

    var mixNational := CalculerMixEnergetique(rapports, annee, None);
    var production := NouveauKpi(CodeProduction, "Production électrique nationale", mixNational.total, "MWh", annee,
                                 Some(15000000.0), Some(8000000.0), "Rapports production");
    var r2, maj2 := UpsertSuivant(r1, maj1, CodeProduction, annee, mixNational.total, production, tenus);

    var nbOperateurs := |Actives(ops)|;
    var operateurs := NouveauKpi(CodeOperateurs, "Nombre d'opérateurs actifs", nbOperateurs as real, "opérateurs", annee,
                                 None, None, "Base opérateurs");
    r, maj := UpsertSuivant(r2, maj2, CodeOperateurs, annee, nbOperateurs as real, operateurs,
                            tenus + [(CodeProduction, mixNational.total)]);
    assert forall j :: j in maj1 ==> j in maj2[..|maj1|];
    assert forall j :: j in maj2 ==> j in maj[..|maj2|];
    assert (CodeProduction, mixNational.total) in tenus + [(CodeProduction, mixNational.total)];
    assert national.Some? ==> (CodeTauxAcces, national.value) in tenus + [(CodeProduction, mixNational.total)];
  }

  /** A row upserted with a value and then marked satisfies the KPI's update. */
  lemma {:induction false} MarqueApresUpsert(r3: seq<Kpi>, r: seq<Kpi>, maj: seq<nat>, code: string, annee: int, valeur: real)
    requires TenuPar(r3, maj, code, annee, valeur)
    requires |r| == |r3|
    requires forall j :: 0 <= j < |r3| ==> r[j] == (if j in maj then Atteint(r3[j]) else r3[j])
    ensures MisAJour(r, code, annee, valeur)
  {
    MarquerGardeCles(r3, r, maj, code, annee);
  }

  /**
   * `mettre_a_jour_kpis_strategiques`: the national access rate (when known), the national
   * production (objective 15 000 000 MWh, threshold 8 000 000) and the number of active
   * operators (no objective) are each upserted under their code for the year, then every
   * updated KPI with an objective is marked reached or not. The other rows are untouched.
   */
  method MettreAJourKpisStrategiques(
    rows: seq<Kpi>, annee: int, reseaux: seq<Reseau>, donnees: seq<DonneesProvince>,
    rapports: seq<RapportProduction>, ops: seq<Operateur>)
    returns (r: seq<Kpi>, maj: seq<nat>)
    ensures TauxNational(TauxProvinces(reseaux, donnees, annee)).Some? ==>
      MisAJour(r, CodeTauxAcces, annee, TauxNational(TauxProvinces(reseaux, donnees, annee)).value)
    ensures TauxNational(TauxProvinces(reseaux, donnees, annee)).None? ==>
      FindKpi(r, CodeTauxAcces, annee) == FindKpi(rows, CodeTauxAcces, annee)
    ensures MisAJour(r, CodeProduction, annee, CalculerMixEnergetique(rapports, annee, None).total)
    ensures MisAJour(r, CodeOperateurs, annee, |Actives(ops)| as real)
    ensures |maj| == if TauxNational(TauxProvinces(reseaux, donnees, annee)).Some? then 3 else 2
    ensures |rows| <= |r| && forall j :: 0 <= j < |rows| && j !in maj ==> r[j] == rows[j]
  {
    var r1, maj1, national := MettreAJourTauxAcces(rows, annee, reseaux, donnees);
    var r3;
    r3, maj := UpsertProductionOperateurs(r1, maj1, annee, national, rapports, ops);
    r := MarquerAtteints(r3, maj);
    if TauxNational(TauxProvinces(reseaux, donnees, annee)).Some? {
      MarqueApresUpsert(r3, r, maj, CodeTauxAcces, annee, TauxNational(TauxProvinces(reseaux, donnees, annee)).value);
    } else {
      MarquerGardeCles(r3, r, maj, CodeTauxAcces, annee);
    }
    MarqueApresUpsert(r3, r, maj, CodeProduction, annee, CalculerMixEnergetique(rapports, annee, None).total);
    MarqueApresUpsert(r3, r, maj, CodeOperateurs, annee, |Actives(ops)| as real);
  }
}
