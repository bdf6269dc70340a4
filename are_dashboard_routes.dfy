// The decisions of the ARE dashboard pages (app/are/dashboard/routes.py): the yearly chart
// series of the statistics page, what the main page keeps when an operator is chosen, and
// the grouping of the KPIs page.
module AreDashboardRoutes {
  import opened Wrappers
  import opened Python
  import opened Text
  import Collections
  import AreStatistiques
  import AreServices

  // ---------------------------------------------------------------------------------------
  // The statistics page: one entry per year of `range(annee_debut, annee_fin + 1)`.

  /** The number of years in `range(debut, fin + 1)`; none when `fin < debut`. */
  function NombreAnnees(debut: int, fin: int): nat
  {
    if fin < debut then 0 else fin - debut + 1
  }

  /** `list(range(debut, fin + 1))`. */
  function Annees(debut: int, fin: int): (r: seq<int>)
    ensures |r| == NombreAnnees(debut, fin)
    ensures forall k :: 0 <= k < |r| ==> r[k] == debut + k
    decreases NombreAnnees(debut, fin)
  {
    if fin < debut then [] else Annees(debut, fin - 1) + [fin]
  }

  predicate DeLAnneeEtSource(c: AreStatistiques.Capacite, annee: int, t: AreStatistiques.TypeProjet)
  {
    c.annee == annee && c.typeSource == t
  }

  /**
   * The capacity of one source in one year: the sum of the capacity rows of that year whose
   * `type_source` value is the source's.
   */
  function CapaciteAnnee(cs: seq<AreStatistiques.Capacite>, annee: int, t: AreStatistiques.TypeProjet): real
  {
    if cs == [] then 0.0
    else
      var c := cs[|cs| - 1];
      CapaciteAnnee(cs[..|cs| - 1], annee, t) + (if DeLAnneeEtSource(c, annee, t) then c.installee else 0.0)
  }

  /** The production of a year: that of the first national record of the year, 0 when there is none. */
  function ProductionAnnee(stats: seq<AreStatistiques.StatistiqueNationale>, annee: int): real
  {
    if stats == [] then 0.0
    else if stats[0].annee == annee then stats[0].totaux.production
    else ProductionAnnee(stats[1..], annee)
  }

  /** The clients of a year: the sum of `total_clients` over that year's client records. */
  function ClientsAnnee(cl: seq<AreStatistiques.Clientele>, annee: int): int
  {
    if cl == [] then 0
    else
      var c := cl[|cl| - 1];
      ClientsAnnee(cl[..|cl| - 1], annee) + (if c.annee == annee then c.totalClients else 0)
  }

  /** `graphiques_data`; the three label lists are the same list of years. */
  datatype Graphiques = Graphiques(
    labels: seq<int>,
    hydro: seq<real>,
    thermique: seq<real>,
    solaire: seq<real>,
    production: seq<real>,
    clients: seq<int>)

  /** The per-year loop that fills the chart series. */
  method RemplirGraphiques(capacites: seq<AreStatistiques.Capacite>, stats: seq<AreStatistiques.StatistiqueNationale>,
                           cl: seq<AreStatistiques.Clientele>, debut: int, fin: int)
    returns (g: Graphiques)
    ensures g.labels == Annees(debut, fin)
    ensures |g.hydro| == |g.thermique| == |g.solaire| == |g.production| == |g.clients| == NombreAnnees(debut, fin)
    ensures forall k :: 0 <= k < NombreAnnees(debut, fin) ==>
      && g.hydro[k] == CapaciteAnnee(capacites, debut + k, AreStatistiques.ProductionHydro)
      && g.thermique[k] == CapaciteAnnee(capacites, debut + k, AreStatistiques.ProductionThermique)
      && g.solaire[k] == CapaciteAnnee(capacites, debut + k, AreStatistiques.ProductionSolaire)
      && g.production[k] == ProductionAnnee(stats, debut + k)
      && g.clients[k] == ClientsAnnee(cl, debut + k)
  {
    var n := NombreAnnees(debut, fin);
    g := Graphiques(Annees(debut, fin), [], [], [], [], []);
    for i := 0 to n
      invariant g.labels == Annees(debut, fin)
      invariant |g.hydro| == |g.thermique| == |g.solaire| == |g.production| == |g.clients| == i
      invariant forall k :: 0 <= k < i ==>
        && g.hydro[k] == CapaciteAnnee(capacites, debut + k, AreStatistiques.ProductionHydro)
        && g.thermique[k] == CapaciteAnnee(capacites, debut + k, AreStatistiques.ProductionThermique)
        && g.solaire[k] == CapaciteAnnee(capacites, debut + k, AreStatistiques.ProductionSolaire)
        && g.production[k] == ProductionAnnee(stats, debut + k)
        && g.clients[k] == ClientsAnnee(cl, debut + k)
    {
      var annee := debut + i;
      g := g.(hydro := g.hydro + [CapaciteAnnee(capacites, annee, AreStatistiques.ProductionHydro)],
              thermique := g.thermique + [CapaciteAnnee(capacites, annee, AreStatistiques.ProductionThermique)],
              solaire := g.solaire + [CapaciteAnnee(capacites, annee, AreStatistiques.ProductionSolaire)]);
      g := g.(production := g.production + [ProductionAnnee(stats, annee)],
              clients := g.clients + [ClientsAnnee(cl, annee)]);
    }
  }

  /** A year without a national record shows production 0. */
  lemma {:induction false} ProductionAnneeAbsente(stats: seq<AreStatistiques.StatistiqueNationale>, annee: int)
    requires forall k :: 0 <= k < |stats| ==> stats[k].annee != annee
    ensures ProductionAnnee(stats, annee) == 0.0
    decreases |stats|
  {
    if stats != [] {
      assert forall k :: 0 <= k < |stats| - 1 ==> stats[1..][k] == stats[k + 1];
      ProductionAnneeAbsente(stats[1..], annee);
    }
  }

  /** A year with a national record shows the production of its first record. */
  lemma {:induction false} ProductionAnneePremiere(stats: seq<AreStatistiques.StatistiqueNationale>, annee: int, k: nat)
    requires k < |stats| && stats[k].annee == annee
    requires forall j :: 0 <= j < k ==> stats[j].annee != annee
    ensures ProductionAnnee(stats, annee) == stats[k].totaux.production
    decreases k
  {
    if k > 0 {
      assert forall j :: 0 <= j < k - 1 ==> stats[1..][j] == stats[j + 1];
      ProductionAnneePremiere(stats[1..], annee, k - 1);
    }
  }

  /**
   * A year's capacity is the sum over the rows of that year and source: non-negative when
   * the capacities are, and additive over a split of the rows.
   */
  lemma {:induction false} CapaciteAnneeMeaning(a: seq<AreStatistiques.Capacite>, b: seq<AreStatistiques.Capacite>,
                                                 annee: int, t: AreStatistiques.TypeProjet)
    ensures CapaciteAnnee(a + b, annee, t) == CapaciteAnnee(a, annee, t) + CapaciteAnnee(b, annee, t)
    ensures (forall k :: 0 <= k < |a| ==> a[k].installee >= 0.0) ==> CapaciteAnnee(a, annee, t) >= 0.0
    ensures (forall k :: 0 <= k < |a| ==> !DeLAnneeEtSource(a[k], annee, t)) ==> CapaciteAnnee(a, annee, t) == 0.0
    decreases |a| + |b|
  {
    if b == [] {
      assert a + b == a;
      if a != [] {
        CapaciteAnneeMeaning(a[..|a| - 1], [], annee, t);
      }
    } else {
      var b0 := b[..|b| - 1];
      assert (a + b)[..|a + b| - 1] == a + b0;
      CapaciteAnneeMeaning(a, b0, annee, t);
    }
  }

  // ---------------------------------------------------------------------------------------
  // The main page (`index`): an operator filter that is 0 or absent filters nothing.

  /** `if operateur_id:` on the optional request argument. */
  predicate Filtre(operateurId: Option<int>)
  {
    TruthyInt(operateurId)
  }

  predicate DeLOperateur(p: AreServices.PerformanceOperateur, operateurId: int)
  {
    p.operateurId == operateurId
  }

  function PerformancesDe(ps: seq<AreServices.PerformanceOperateur>, operateurId: int): seq<AreServices.PerformanceOperateur>
  {
    if ps == [] then []
    else PerformancesDe(ps[..|ps| - 1], operateurId) + (if DeLOperateur(ps[|ps| - 1], operateurId) then [ps[|ps| - 1]] else [])
  }

  /** The operator performances the page shows. */
  function PerformancesAffichees(ps: seq<AreServices.PerformanceOperateur>, operateurId: Option<int>)
    : seq<AreServices.PerformanceOperateur>
  {
    if Filtre(operateurId) then PerformancesDe(ps, operateurId.value) else ps
  }

  /** The province data the page shows: that of the year, and only in the national view. */
  function ProvincesAffichees(ds: seq<AreServices.DonneesProvince>, annee: int, operateurId: Option<int>)
    : seq<AreServices.DonneesProvince>
  {
    if Filtre(operateurId) then [] else ProvincesDeLAnnee(ds, annee)
  }

  function ProvincesDeLAnnee(ds: seq<AreServices.DonneesProvince>, annee: int): seq<AreServices.DonneesProvince>
  {
    if ds == [] then []
    else ProvincesDeLAnnee(ds[..|ds| - 1], annee) + (if ds[|ds| - 1].annee == annee then [ds[|ds| - 1]] else [])
  }

  /**
   * With a filter, exactly the chosen operator's performances are shown; without one, all of
   * them. Province data appears only without a filter, and then exactly the year's.
   */
  lemma {:induction false} PerformancesMeaning(ps: seq<AreServices.PerformanceOperateur>, operateurId: int)
    ensures forall p :: p in PerformancesDe(ps, operateurId) <==> p in ps && p.operateurId == operateurId
    ensures |PerformancesDe(ps, operateurId)| <= |ps|
  {
    if ps != [] {
      PerformancesMeaning(ps[..|ps| - 1], operateurId);
      assert ps == ps[..|ps| - 1] + [ps[|ps| - 1]];
    }
  }

  lemma {:induction false} ProvincesMeaning(ds: seq<AreServices.DonneesProvince>, annee: int)
    ensures forall d :: d in ProvincesDeLAnnee(ds, annee) <==> d in ds && d.annee == annee
  {
    if ds != [] {
      ProvincesMeaning(ds[..|ds| - 1], annee);
      assert ds == ds[..|ds| - 1] + [ds[|ds| - 1]];
    }
  }

  lemma {:induction false} IndexMeaning(ps: seq<AreServices.PerformanceOperateur>, ds: seq<AreServices.DonneesProvince>, annee: int,
                     operateurId: Option<int>)
    ensures !Filtre(operateurId) ==> PerformancesAffichees(ps, operateurId) == ps
    ensures Filtre(operateurId) ==>
      forall p :: p in PerformancesAffichees(ps, operateurId) <==> p in ps && p.operateurId == operateurId.value
    ensures Filtre(operateurId) ==> ProvincesAffichees(ds, annee, operateurId) == []
    ensures !Filtre(operateurId) ==>
      forall d :: d in ProvincesAffichees(ds, annee, operateurId) <==> d in ds && d.annee == annee
  {
    if Filtre(operateurId) {
      PerformancesMeaning(ps, operateurId.value);
    } else {
      ProvincesMeaning(ds, annee);
    }
  }

  // ---------------------------------------------------------------------------------------
  // The KPIs page: grouping in a dictionary, whose keys keep their order of first insertion.

  /** One entry of the dictionary: its key and the list appended to under it. */
  datatype Groupe<T> = Groupe(cle: string, membres: seq<T>)

  function CleDe<T>(g: Groupe<T>): string
  {
    g.cle
  }

  /** Where key `c` sits among the groups, if it does. */
  function IndexGroupe<T>(gs: seq<Groupe<T>>, c: string): (r: Option<nat>)
    ensures r.Some? ==> r.value < |gs| && gs[r.value].cle == c
    ensures r.None? ==> forall k :: 0 <= k < |gs| ==> gs[k].cle != c
  {
    if gs == [] then None
    else if gs[|gs| - 1].cle == c then Some(|gs| - 1)
    else IndexGroupe(gs[..|gs| - 1], c)
  }

  /** One turn of the loop: create the key's list if it is new, then append. */
  function Ajouter<T>(gs: seq<Groupe<T>>, c: string, x: T): seq<Groupe<T>>
  {
    match IndexGroupe(gs, c)
    case None => gs + [Groupe(c, [x])]
    case Some(i) => gs[i := Groupe(c, gs[i].membres + [x])]
  }

  /** The dictionary after the loop over `xs`. */
  function Regrouper<T>(xs: seq<T>, cle: T -> string): seq<Groupe<T>>
  {
    if xs == [] then [] else Ajouter(Regrouper(xs[..|xs| - 1], cle), cle(xs[|xs| - 1]), xs[|xs| - 1])
  }

  /** The loop that builds the dictionary. */
  method Grouper<T>(xs: seq<T>, cle: T -> string) returns (gs: seq<Groupe<T>>)
    ensures gs == Regrouper(xs, cle)
  {
    gs := [];
    for i := 0 to |xs|
      invariant gs == Regrouper(xs[..i], cle)
    {
      assert xs[..i + 1][..i] == xs[..i];
      var c := cle(xs[i]);
      var j := IndexGroupe(gs, c);
      if j.None? {
        gs := gs + [Groupe(c, [xs[i]])];
      } else {
        gs := gs[j.value := Groupe(c, gs[j.value].membres + [xs[i]])];
      }
    }
    assert xs[..|xs|] == xs;
  }

  function Avec<T>(cle: T -> string, c: string): T -> bool
  {
    x => cle(x) == c
  }

  /** Each group holds exactly the elements of `xs` with its key, in order. */
  ghost predicate Regroupe<T>(gs: seq<Groupe<T>>, xs: seq<T>, cle: T -> string)
  {
    forall k :: 0 <= k < |gs| ==> gs[k].membres == Collections.Filter(Avec(cle, gs[k].cle), xs)
  }

  lemma {:induction false} FilterSnoc<T>(p: T -> bool, s: seq<T>, x: T)
    ensures Collections.Filter(p, s + [x]) == Collections.Filter(p, s) + (if p(x) then [x] else [])
  {
    assert (s + [x])[..|s|] == s;
  }

  lemma {:induction false} FilterVide<T>(p: T -> bool, xs: seq<T>)
    requires forall k :: 0 <= k < |xs| ==> !p(xs[k])
    ensures Collections.Filter(p, xs) == []
  {
    if xs != [] {
      FilterVide(p, xs[..|xs| - 1]);
    }
  }

  /** The keys after one turn: unchanged when the key is known, extended by it otherwise. */
  lemma {:induction false} AjouterCles<T>(gs: seq<Groupe<T>>, c: string, x: T)
    ensures Collections.MapSeq(CleDe, Ajouter(gs, c, x))
         == (if c in Collections.MapSeq(CleDe, gs) then Collections.MapSeq(CleDe, gs) else Collections.MapSeq(CleDe, gs) + [c])
  {
    var keys := Collections.MapSeq(CleDe, gs);
    match IndexGroupe(gs, c)
    case None =>
      assert c !in keys;
      assert Collections.MapSeq(CleDe, Ajouter(gs, c, x)) == keys + [c];
    case Some(i) =>
      assert keys[i] == c;
      assert Collections.MapSeq(CleDe, Ajouter(gs, c, x)) == keys;
  }

  lemma {:induction false} MapSeqPrefixe<T>(xs: seq<T>, cle: T -> string)
    requires xs != []
    ensures Collections.MapSeq(cle, xs)[..|xs| - 1] == Collections.MapSeq(cle, xs[..|xs| - 1])
    ensures Collections.MapSeq(cle, xs)[|xs| - 1] == cle(xs[|xs| - 1])
  {
  }

  /** The dictionary's keys are the distinct keys of `xs`, in order of first appearance. */
  lemma {:induction false} RegrouperCles<T>(xs: seq<T>, cle: T -> string)
    ensures Collections.MapSeq(CleDe, Regrouper(xs, cle)) == Collections.Distinct(Collections.MapSeq(cle, xs))
  {
    if xs != [] {
      var p := xs[..|xs| - 1];
      RegrouperCles(p, cle);
      MapSeqPrefixe(xs, cle);
      AjouterCles(Regrouper(p, cle), cle(xs[|xs| - 1]), xs[|xs| - 1]);
    }
  }

  /** One turn keeps every group exact, given distinct keys and a key that is new only if no earlier element has it. */
  lemma {:induction false} AjouterMembres<T>(gs: seq<Groupe<T>>, p: seq<T>, cle: T -> string, x: T)
    requires Regroupe(gs, p, cle)
    requires forall i, j :: 0 <= i < j < |gs| ==> gs[i].cle != gs[j].cle
    requires IndexGroupe(gs, cle(x)).None? ==> forall j :: 0 <= j < |p| ==> cle(p[j]) != cle(x)
    ensures Regroupe(Ajouter(gs, cle(x), x), p + [x], cle)
  {
    var r := Ajouter(gs, cle(x), x);
    forall k | 0 <= k < |r|
      ensures r[k].membres == Collections.Filter(Avec(cle, r[k].cle), p + [x])
    {
      FilterSnoc(Avec(cle, r[k].cle), p, x);
      match IndexGroupe(gs, cle(x))
      case None =>
        if k == |gs| {
          FilterVide(Avec(cle, cle(x)), p);
        }
      case Some(i) =>
    }
  }

  /** Each key's list is exactly the elements with that key, in their order: every element lands in exactly one group. */
  lemma {:induction false} RegrouperMembres<T>(xs: seq<T>, cle: T -> string)
    ensures Regroupe(Regrouper(xs, cle), xs, cle)
  {
    if xs != [] {
      var p := xs[..|xs| - 1];
      var x := xs[|xs| - 1];
      assert xs == p + [x];
      var gs := Regrouper(p, cle);
      RegrouperMembres(p, cle);
      RegrouperDistincts(p, cle, x);
      AjouterMembres(gs, p, cle, x);
    }
  }

  /** After any prefix the groups have distinct keys, and a key with no group is carried by no element yet. */
  lemma {:induction false} RegrouperDistincts<T>(p: seq<T>, cle: T -> string, x: T)
    ensures forall i, j :: 0 <= i < j < |Regrouper(p, cle)| ==> Regrouper(p, cle)[i].cle != Regrouper(p, cle)[j].cle
    ensures IndexGroupe(Regrouper(p, cle), cle(x)).None? ==> forall j :: 0 <= j < |p| ==> cle(p[j]) != cle(x)
  {
    var gs := Regrouper(p, cle);
    RegrouperCles(p, cle);
    var keys := Collections.MapSeq(CleDe, gs);
    assert forall i, j :: 0 <= i < j < |gs| ==> keys[i] != keys[j];
    if IndexGroupe(gs, cle(x)).None? {
      forall j | 0 <= j < |p| ensures cle(p[j]) != cle(x) {
        assert Collections.MapSeq(cle, p)[j] == cle(p[j]);
        assert cle(p[j]) in keys;
      }
    }
  }

  /** The text before the first '_' of a KPI code (`code.split('_')[0]`). */
  function Prefixe(code: string): string
  {
    Split(code, '_')[0]
  }

  /** The prefix is the longest start of the code without '_'; the code continues with '_' if at all. */
  lemma {:induction false} PrefixeMeaning(code: string)
    ensures Prefixe(code) == BeforeFirst(code, '_')
    ensures Prefixe(code) <= code && '_' !in Prefixe(code)
    ensures |Prefixe(code)| < |code| ==> code[|Prefixe(code)|] == '_'
    decreases |code|
  {
    if code != [] && code[0] != '_' {
      PrefixeMeaning(code[1..]);
    }
  }

  function PrefixeKpi(k: AreServices.Kpi): string
  {
    Prefixe(k.code)
  }

  /** The KPIs the page lists: the year's active ones, of the chosen operator if there is one. */
  predicate KpiRetenu(k: AreServices.Kpi, annee: int, operateurId: Option<int>)
  {
    k.annee == annee && k.actif && (Filtre(operateurId) ==> k.operateurId == operateurId)
  }

  function KpisRetenus(ks: seq<AreServices.Kpi>, annee: int, operateurId: Option<int>): (r: seq<AreServices.Kpi>)
    ensures forall k :: k in r <==> k in ks && KpiRetenu(k, annee, operateurId)
  {
    if ks == [] then []
    else
      assert ks == ks[..|ks| - 1] + [ks[|ks| - 1]];
      KpisRetenus(ks[..|ks| - 1], annee, operateurId) + (if KpiRetenu(ks[|ks| - 1], annee, operateurId) then [ks[|ks| - 1]] else [])
  }

  /** `order_by(KPIStrategic.code)`. */
  predicate ParCode(a: AreServices.Kpi, b: AreServices.Kpi)
  {
    Collections.LexLe(a.code, b.code)
  }

  lemma {:induction false} ParCodeTotal()
    ensures Collections.TotalPreorder(ParCode)
  {
    Collections.LexLeIsTotalPreorder();
    forall a, b, c | ParCode(a, b) && ParCode(b, c) ensures ParCode(a, c) {
      Collections.LexLeTrans(a.code, b.code, c.code);
    }
    forall a, b ensures ParCode(a, b) || ParCode(b, a) {
      Collections.LexLeTotal(a.code, b.code);
    }
  }

  /** The categories of the sector indicators and their stored values. */
  datatype CategorieIndicateur = Production | Transport | Distribution | Acces | Qualite | Financier | Environnemental

  function ValeurCategorie(c: CategorieIndicateur): string
  {
    match c
    case Production => "production"
    case Transport => "transport"
    case Distribution => "distribution"
    case Acces => "acces"
    case Qualite => "qualite"
    case Financier => "financier"
    case Environnemental => "environnemental"
  }

  /** The columns of `IndicateurSectoriel` the page filters and groups on. */
  datatype Indicateur = Indicateur(categorie: CategorieIndicateur, annee: int, actif: bool, operateurId: Option<int>)

  function CategorieDe(i: Indicateur): string
  {
    ValeurCategorie(i.categorie)
  }

  predicate IndicateurRetenu(i: Indicateur, annee: int, operateurId: Option<int>)
  {
    i.annee == annee && i.actif && (Filtre(operateurId) ==> i.operateurId == operateurId)
  }

  function IndicateursRetenus(inds: seq<Indicateur>, annee: int, operateurId: Option<int>): (r: seq<Indicateur>)
    ensures forall i :: i in r <==> i in inds && IndicateurRetenu(i, annee, operateurId)
  {
    if inds == [] then []
    else
      assert inds == inds[..|inds| - 1] + [inds[|inds| - 1]];
      IndicateursRetenus(inds[..|inds| - 1], annee, operateurId)
      + (if IndicateurRetenu(inds[|inds| - 1], annee, operateurId) then [inds[|inds| - 1]] else [])
  }

  /**
   * The KPIs page: the retained KPIs sorted by code and grouped by prefix, the retained
   * indicators grouped by category.
   */
  method PageKpis(ks: seq<AreServices.Kpi>, inds: seq<Indicateur>, annee: int, operateurId: Option<int>)
    returns (kpisGroupes: seq<Groupe<AreServices.Kpi>>, indicateursGroupes: seq<Groupe<Indicateur>>)
    ensures kpisGroupes == Regrouper(Collections.SortBy(ParCode, KpisRetenus(ks, annee, operateurId)), PrefixeKpi)
    ensures indicateursGroupes == Regrouper(IndicateursRetenus(inds, annee, operateurId), CategorieDe)
  {
    var kpis := Collections.SortBy(ParCode, KpisRetenus(ks, annee, operateurId));
    kpisGroupes := Grouper(kpis, PrefixeKpi);
    indicateursGroupes := Grouper(IndicateursRetenus(inds, annee, operateurId), CategorieDe);
  }

  /**
   * The listed KPIs are the retained ones sorted by code; every group holds exactly the
   * listed KPIs of its prefix, in code order, and its prefix starts each of their codes.
   */
  lemma {:induction false} PageKpisMeaning(ks: seq<AreServices.Kpi>, annee: int, operateurId: Option<int>)
    ensures var kpis := Collections.SortBy(ParCode, KpisRetenus(ks, annee, operateurId));
      && Collections.SortedBy(ParCode, kpis)
      && multiset(kpis) == multiset(KpisRetenus(ks, annee, operateurId))
      && Collections.MapSeq(CleDe, Regrouper(kpis, PrefixeKpi)) == Collections.Distinct(Collections.MapSeq(PrefixeKpi, kpis))
      && Regroupe(Regrouper(kpis, PrefixeKpi), kpis, PrefixeKpi)
  {
    var kpis := Collections.SortBy(ParCode, KpisRetenus(ks, annee, operateurId));
    ParCodeTotal();
    Collections.SortByCorrect(ParCode, KpisRetenus(ks, annee, operateurId));
    RegrouperCles(kpis, PrefixeKpi);
    RegrouperMembres(kpis, PrefixeKpi);
  }
}
