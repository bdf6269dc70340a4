// The administration module's analytics (app/admin/utils.py): the dashboard's month-on-month
// production variation and report filling rate, the report analysis (totals, load factors,
// status counts, the five most productive plants, incident rate) and the backup history.
module AdminUtils {
  import opened Wrappers
  import opened Ratios
  import opened Python
  import opened Text
  import Collections
  import AreDashboardRoutes

  // ---------------------------------------------------------------------------------------
  // The dashboard (`get_dashboard_stats`).

  /** One row of the monthly evolution query: a calendar month and its production (SUM, possibly NULL). */
  datatype ProductionMois = ProductionMois(annee: int, mois: int, production: Option<real>)

  /** The variation of the last row over the one before, in percent; 0 unless there are two rows and the earlier one is positive. */
  function Variation(ev: seq<ProductionMois>): real
  {
    if |ev| >= 2 then
      var derniere := OrZeroR(ev[|ev| - 1].production);
      var avantDerniere := OrZeroR(ev[|ev| - 2].production);
      if avantDerniere > 0.0 then Percent(derniere - avantDerniere, avantDerniere) else 0.0
    else 0.0
  }

  lemma {:induction false} VariationMeaning(ev: seq<ProductionMois>)
    ensures |ev| < 2 ==> Variation(ev) == 0.0
    ensures |ev| >= 2 && OrZeroR(ev[|ev| - 2].production) <= 0.0 ==> Variation(ev) == 0.0
    ensures |ev| >= 2 && OrZeroR(ev[|ev| - 2].production) > 0.0 ==>
      var d := OrZeroR(ev[|ev| - 1].production);
      var a := OrZeroR(ev[|ev| - 2].production);
      && Variation(ev) * a / 100.0 == d - a
      && (Variation(ev) > 0.0 <==> d > a)
      && (Variation(ev) < 0.0 <==> d < a)
  {
    if |ev| >= 2 && OrZeroR(ev[|ev| - 2].production) > 0.0 {
      var d := OrZeroR(ev[|ev| - 1].production);
      var a := OrZeroR(ev[|ev| - 2].production);
      PercentOfShare(d - a, a);
    }
  }

  /** `order_by('mois')`: by month number alone. */
  predicate ParMois(x: ProductionMois, y: ProductionMois)
  {
    x.mois <= y.mois
  }

  /** Calendar order: by year, then month. */
  predicate Chronologique(x: ProductionMois, y: ProductionMois)
  {
    x.annee < y.annee || (x.annee == y.annee && x.mois <= y.mois)
  }

  /** The variation as written: the last six months' rows ordered by month number. */
  function VariationProductionAsWritten(ms: seq<ProductionMois>): real
  {
    Variation(Collections.SortBy(ParMois, ms))
  }

  /** The variation the dashboard means: the latest month over the month before it. */
  function VariationProduction(ms: seq<ProductionMois>): real
  {
    Variation(Collections.SortBy(Chronologique, ms))
  }

  /**
   * Over a window that spans the new year, ordering by month number puts December last:
   * with December 2024 at 100 and January 2025 at 50, the dashboard shows +100% where the
   * production actually halved.
   */
  lemma {:induction false} VariationAsWrittenContreExemple()
    ensures VariationProductionAsWritten([ProductionMois(2024, 12, Some(100.0)), ProductionMois(2025, 1, Some(50.0))]) == 100.0
    ensures VariationProduction([ProductionMois(2024, 12, Some(100.0)), ProductionMois(2025, 1, Some(50.0))]) == -50.0
  {
    var dec := ProductionMois(2024, 12, Some(100.0));
    var jan := ProductionMois(2025, 1, Some(50.0));
    assert [dec, jan][1..] == [jan];
    assert Collections.SortBy(ParMois, [jan]) == [jan];
    assert Collections.SortBy(ParMois, [dec, jan]) == [jan, dec];
    assert Collections.SortBy(Chronologique, [jan]) == [jan];
    assert Collections.SortBy(Chronologique, [dec, jan]) == [dec, jan];
  }

  lemma {:induction false} ChronologiqueTotal()
    ensures Collections.TotalPreorder(Chronologique)
  {
  }

  /**
   * Ordered chronologically, the rows are the same rows, the last is the latest month and the
   * one before it the latest of the others, so the variation compares the two most recent months.
   */
  lemma {:induction false} VariationProductionMeaning(ms: seq<ProductionMois>)
    ensures var ev := Collections.SortBy(Chronologique, ms);
      && multiset(ev) == multiset(ms)
      && Collections.SortedBy(Chronologique, ev)
      && (|ev| >= 2 ==> forall k :: 0 <= k < |ev| - 1 ==> Chronologique(ev[k], ev[|ev| - 2]) || k == |ev| - 2)
      && (|ev| >= 1 ==> forall x :: x in ms ==> Chronologique(x, ev[|ev| - 1]))
  {
    ChronologiqueTotal();
    Collections.SortByCorrect(Chronologique, ms);
    var ev := Collections.SortBy(Chronologique, ms);
    forall x | x in ms && |ev| >= 1 ensures Chronologique(x, ev[|ev| - 1]) {
      assert x in multiset(ev);
      var k :| 0 <= k < |ev| && ev[k] == x;
      if k < |ev| - 1 {
        assert Chronologique(ev[k], ev[|ev| - 1]);
      }
    }
  }

  /** The columns of a hydro report (joined with its plant) the administration reads. */
  datatype RapportHydro = RapportHydro(
    anneeCreation: int, moisCreation: int, operateurId: int, centrale: string,
    energie: Option<real>, facteurCharge: Option<real>, statut: Option<string>,
    incidents: Option<int>, preventives: Option<int>, correctives: Option<int>)

  function DuMois(annee: int, mois: int): RapportHydro -> bool
  {
    (r: RapportHydro) => r.anneeCreation == annee && r.moisCreation == mois
  }

  function Active(actif: bool): bool
  {
    actif
  }

  /** The reports of the month per active plant, in percent; 0 without an active plant. */
  function TauxRemplissage(rapports: nat, centrales: nat): real
  {
    if centrales > 0 then Percent(rapports as real, centrales as real) else 0.0
  }

  /** The filling rate of the dashboard: this month's reports against the active plants. */
  function Remplissage(rs: seq<RapportHydro>, actives: seq<bool>, annee: int, mois: int): real
  {
    TauxRemplissage(Collections.Count(DuMois(annee, mois), rs), Collections.Count(Active, actives))
  }

  lemma {:induction false} TauxRemplissageMeaning(rapports: nat, centrales: nat)
    ensures centrales == 0 ==> TauxRemplissage(rapports, centrales) == 0.0
    ensures centrales > 0 ==> TauxRemplissage(rapports, centrales) * centrales as real / 100.0 == rapports as real
    ensures TauxRemplissage(rapports, centrales) >= 0.0
    ensures 0 < centrales && rapports <= centrales ==> TauxRemplissage(rapports, centrales) <= 100.0
  {
    if centrales > 0 {
      PercentOfShare(rapports as real, centrales as real);
    }
  }

  // ---------------------------------------------------------------------------------------
  // The report analysis (`generate_report_analytics`).

  /** The optional filters: a value that is 0 or absent filters nothing. */
  predicate Retenu(r: RapportHydro, annee: Option<int>, mois: Option<int>, operateurId: Option<int>)
  {
    && (TruthyInt(annee) ==> r.anneeCreation == annee.value)
    && (TruthyInt(mois) ==> r.moisCreation == mois.value)
    && (TruthyInt(operateurId) ==> r.operateurId == operateurId.value)
  }

  function Retenus(rs: seq<RapportHydro>, annee: Option<int>, mois: Option<int>, operateurId: Option<int>)
    : (r: seq<RapportHydro>)
    ensures forall x :: x in r <==> x in rs && Retenu(x, annee, mois, operateurId)
  {
    if rs == [] then []
    else
      assert rs == rs[..|rs| - 1] + [rs[|rs| - 1]];
      Retenus(rs[..|rs| - 1], annee, mois, operateurId)
      + (if Retenu(rs[|rs| - 1], annee, mois, operateurId) then [rs[|rs| - 1]] else [])
  }

  function EnergieDe(r: RapportHydro): real
  {
    OrZeroR(r.energie)
  }

  function IncidentsDe(r: RapportHydro): int
  {
    OrZero(r.incidents)
  }

  function MaintenancesDe(r: RapportHydro): int
  {
    OrZero(r.preventives) + OrZero(r.correctives)
  }

  function StatutDe(r: RapportHydro): Option<string>
  {
    r.statut
  }

  function SommeInt(f: RapportHydro -> int, rs: seq<RapportHydro>): int
  {
    if rs == [] then 0 else SommeInt(f, rs[..|rs| - 1]) + f(rs[|rs| - 1])
  }

  /** The load factors that are not NULL, in order. */
  function Facteurs(rs: seq<RapportHydro>): (r: seq<real>)
    ensures forall k :: 0 <= k < |r| ==> exists j :: 0 <= j < |rs| && rs[j].facteurCharge == Some(r[k])
    ensures forall j :: 0 <= j < |rs| && rs[j].facteurCharge.Some? ==> rs[j].facteurCharge.value in r
  {
    if rs == [] then []
    else
      var p := rs[..|rs| - 1];
      assert forall j :: 0 <= j < |p| ==> p[j] == rs[j];
      var f := rs[|rs| - 1].facteurCharge;
      Facteurs(p) + (if f.Some? then [f.value] else [])
  }

  function MinSeq(xs: seq<real>): (r: real)
    requires xs != []
    ensures r in xs && forall k :: 0 <= k < |xs| ==> r <= xs[k]
  {
    if |xs| == 1 then xs[0]
    else
      var m := MinSeq(xs[..|xs| - 1]);
      assert forall k :: 0 <= k < |xs| - 1 ==> xs[..|xs| - 1][k] == xs[k];
      if xs[|xs| - 1] < m then xs[|xs| - 1] else m
  }

  function MaxSeq(xs: seq<real>): (r: real)
    requires xs != []
    ensures r in xs && forall k :: 0 <= k < |xs| ==> xs[k] <= r
  {
    if |xs| == 1 then xs[0]
    else
      var m := MaxSeq(xs[..|xs| - 1]);
      assert forall k :: 0 <= k < |xs| - 1 ==> xs[..|xs| - 1][k] == xs[k];
      if xs[|xs| - 1] > m then xs[|xs| - 1] else m
  }

  function Identite(x: real): real
  {
    x
  }

  /** Mean, minimum and maximum of the load factors; all 0 when there is none. */
  datatype StatsFacteur = StatsFacteur(moyen: real, min: real, max: real)

  function StatsFacteurs(fs: seq<real>): StatsFacteur
  {
    if fs == [] then StatsFacteur(0.0, 0.0, 0.0)
    else StatsFacteur(Moyenne(Collections.SumOf(Identite, fs), |fs|), MinSeq(fs), MaxSeq(fs))
  }

  /** The mean lies between the minimum and the maximum, each of which is one of the values. */
  lemma {:induction false} StatsFacteursMeaning(fs: seq<real>)
    ensures fs == [] ==> StatsFacteurs(fs) == StatsFacteur(0.0, 0.0, 0.0)
    ensures fs != [] ==>
      var s := StatsFacteurs(fs);
      && s.min in fs && s.max in fs
      && (forall k :: 0 <= k < |fs| ==> s.min <= fs[k] <= s.max)
      && s.moyen == Moyenne(Collections.SumOf(Identite, fs), |fs|)
      && s.min <= s.moyen <= s.max
  {
    if fs != [] {
      MoyenneEntreBornes(fs, MinSeq(fs), MaxSeq(fs));
    }
  }

  /** Values within bounds have their mean within those bounds. */
  lemma {:induction false} MoyenneEntreBornes(fs: seq<real>, lo: real, hi: real)
    requires fs != [] && forall k :: 0 <= k < |fs| ==> lo <= fs[k] <= hi
    ensures lo <= Moyenne(Collections.SumOf(Identite, fs), |fs|) <= hi
  {
    SommeEncadree(fs, lo, hi);
    MoyenneEncadree(Collections.SumOf(Identite, fs), |fs|, lo, hi);
  }

  /** `total / n`. */
  function Moyenne(total: real, n: nat): real
    requires n > 0
  {
    total / n as real
  }

  /** The mean times the count gives back the total. */
  lemma {:induction false} MoyenneMeaning(total: real, n: nat)
    requires n > 0
    ensures Moyenne(total, n) * n as real == total
    ensures total >= 0.0 ==> Moyenne(total, n) >= 0.0
  {
  }

  /** A sum between `n * lo` and `n * hi` has its mean between `lo` and `hi`. */
  lemma {:induction false} MoyenneEncadree(somme: real, n: nat, lo: real, hi: real)
    requires n > 0 && n as real * lo <= somme <= n as real * hi
    ensures lo <= Moyenne(somme, n) <= hi
  {
    MoyenneMeaning(somme, n);
    var m := Moyenne(somme, n);
    assert lo * n as real <= m * n as real;
    assert m * n as real <= hi * n as real;
  }

  lemma {:induction false} SommeEncadree(fs: seq<real>, lo: real, hi: real)
    requires forall k :: 0 <= k < |fs| ==> lo <= fs[k] <= hi
    ensures |fs| as real * lo <= Collections.SumOf(Identite, fs) <= |fs| as real * hi
  {
    if fs != [] {
      SommeEncadree(fs[..|fs| - 1], lo, hi);
    }
  }

  // The per-plant production dictionary, keyed by plant name in order of first appearance.

  function IndexNom(ps: seq<(string, real)>, nom: string): (r: Option<nat>)
    ensures r.Some? ==> r.value < |ps| && ps[r.value].0 == nom
    ensures r.None? ==> forall k :: 0 <= k < |ps| ==> ps[k].0 != nom
  {
    if ps == [] then None
    else if ps[|ps| - 1].0 == nom then Some(|ps| - 1)
    else IndexNom(ps[..|ps| - 1], nom)
  }

  /** `if nom not in d: d[nom] = 0` then `d[nom] += energie`. */
  function Cumuler(ps: seq<(string, real)>, nom: string, e: real): seq<(string, real)>
  {
    match IndexNom(ps, nom)
    case None => ps + [(nom, 0.0 + e)]
    case Some(i) => ps[i := (nom, ps[i].1 + e)]
  }

  function ProductionsParCentrale(rs: seq<RapportHydro>): seq<(string, real)>
  {
    if rs == [] then [] else Cumuler(ProductionsParCentrale(rs[..|rs| - 1]), rs[|rs| - 1].centrale, EnergieDe(rs[|rs| - 1]))
  }

  method CumulerProductions(rs: seq<RapportHydro>) returns (ps: seq<(string, real)>)
    ensures ps == ProductionsParCentrale(rs)
  {
    ps := [];
    for i := 0 to |rs|
      invariant ps == ProductionsParCentrale(rs[..i])
    {
      assert rs[..i + 1][..i] == rs[..i];
      ghost var avant := ps;
      var nom := rs[i].centrale;
      var e := EnergieDe(rs[i]);
      var j := IndexNom(ps, nom);
      if j.None? {
        ps := ps + [(nom, 0.0)];
        j := Some(|ps| - 1);
      }
      ps := ps[j.value := (nom, ps[j.value].1 + e)];
      if IndexNom(avant, nom).None? {
        assert ps == avant + [(nom, 0.0 + e)];
      }
    }
    assert rs[..|rs|] == rs;
  }

  function CentraleDe(r: RapportHydro): string
  {
    r.centrale
  }

  /** A group of the plant's reports, as its name and total production. */
  function TotalGroupe(g: AreDashboardRoutes.Groupe<RapportHydro>): (string, real)
  {
    (g.cle, Collections.SumOf(EnergieDe, g.membres))
  }

  lemma {:induction false} IndexAccord(gs: seq<AreDashboardRoutes.Groupe<RapportHydro>>, nom: string)
    ensures IndexNom(Collections.MapSeq(TotalGroupe, gs), nom) == AreDashboardRoutes.IndexGroupe(gs, nom)
  {
    if gs != [] {
      IndexAccord(gs[..|gs| - 1], nom);
      assert Collections.MapSeq(TotalGroupe, gs)[..|gs| - 1] == Collections.MapSeq(TotalGroupe, gs[..|gs| - 1]);
    }
  }

  lemma {:induction false} SommeSnoc(m: seq<RapportHydro>, x: RapportHydro)
    ensures Collections.SumOf(EnergieDe, m + [x]) == Collections.SumOf(EnergieDe, m) + EnergieDe(x)
  {
    assert (m + [x])[..|m|] == m;
  }

  /** A new plant: its group holds the one report, and its entry is appended with that energy. */
  lemma {:induction false} CumulerNouveau(gs: seq<AreDashboardRoutes.Groupe<RapportHydro>>, x: RapportHydro)
    requires AreDashboardRoutes.IndexGroupe(gs, x.centrale).None?
    ensures Collections.MapSeq(TotalGroupe, gs + [AreDashboardRoutes.Groupe(x.centrale, [x])])
      == Collections.MapSeq(TotalGroupe, gs) + [(x.centrale, 0.0 + EnergieDe(x))]
  {
    var g := AreDashboardRoutes.Groupe(x.centrale, [x]);
    SommeSnoc([], x);
    assert [] + [x] == [x];
    assert Collections.SumOf(EnergieDe, []) == 0.0;
    var m := Collections.MapSeq(TotalGroupe, gs + [g]);
    var n := Collections.MapSeq(TotalGroupe, gs) + [TotalGroupe(g)];
    assert |m| == |n|;
    assert forall k :: 0 <= k < |m| ==> m[k] == n[k];
  }

  /** A known plant: its group gains the report, and its entry gains the energy. */
  lemma {:induction false} CumulerConnu(gs: seq<AreDashboardRoutes.Groupe<RapportHydro>>, x: RapportHydro, i: nat)
    requires i < |gs| && gs[i].cle == x.centrale
    ensures Collections.MapSeq(TotalGroupe, gs[i := AreDashboardRoutes.Groupe(x.centrale, gs[i].membres + [x])])
      == Collections.MapSeq(TotalGroupe, gs)[i := (x.centrale, TotalGroupe(gs[i]).1 + EnergieDe(x))]
  {
    SommeSnoc(gs[i].membres, x);
    var m := Collections.MapSeq(TotalGroupe, gs[i := AreDashboardRoutes.Groupe(x.centrale, gs[i].membres + [x])]);
    var n := Collections.MapSeq(TotalGroupe, gs)[i := (x.centrale, TotalGroupe(gs[i]).1 + EnergieDe(x))];
    assert |m| == |n|;
    assert forall k :: 0 <= k < |m| ==> m[k] == n[k];
  }

  /** Adding a report to its plant's group adds its energy to that plant's entry. */
  lemma {:induction false} CumulerAccord(gs: seq<AreDashboardRoutes.Groupe<RapportHydro>>, x: RapportHydro)
    ensures Collections.MapSeq(TotalGroupe, AreDashboardRoutes.Ajouter(gs, x.centrale, x))
      == Cumuler(Collections.MapSeq(TotalGroupe, gs), x.centrale, EnergieDe(x))
  {
    IndexAccord(gs, x.centrale);
    match AreDashboardRoutes.IndexGroupe(gs, x.centrale)
    case None =>
      CumulerNouveau(gs, x);
    case Some(i) =>
      CumulerConnu(gs, x, i);
  }

  /** The dictionary is the reports grouped by plant, each group summed. */
  lemma {:induction false} ProductionsGroupees(rs: seq<RapportHydro>)
    ensures ProductionsParCentrale(rs) == Collections.MapSeq(TotalGroupe, AreDashboardRoutes.Regrouper(rs, CentraleDe))
  {
    if rs != [] {
      var p := rs[..|rs| - 1];
      ProductionsGroupees(p);
      CumulerAccord(AreDashboardRoutes.Regrouper(p, CentraleDe), rs[|rs| - 1]);
    }
  }

  /** One entry per distinct plant name. */
  lemma {:induction false} ProductionsParCentraleTaille(rs: seq<RapportHydro>)
    ensures |ProductionsParCentrale(rs)| == |Collections.Distinct(Collections.MapSeq(CentraleDe, rs))|
  {
    ProductionsGroupees(rs);
    AreDashboardRoutes.RegrouperCles(rs, CentraleDe);
  }

  /**
   * The `k`-th entry is the `k`-th plant in order of first appearance, holding the sum of the
   * energies (NULL as 0) of exactly that plant's reports.
   */
  lemma {:induction false} ProductionsParCentraleMeaning(rs: seq<RapportHydro>, k: nat)
    requires k < |ProductionsParCentrale(rs)|
    ensures |ProductionsParCentrale(rs)| == |Collections.Distinct(Collections.MapSeq(CentraleDe, rs))|
    ensures ProductionsParCentrale(rs)[k].0 == Collections.Distinct(Collections.MapSeq(CentraleDe, rs))[k]
    ensures ProductionsParCentrale(rs)[k].1
      == Collections.SumOf(EnergieDe, Collections.Filter(AreDashboardRoutes.Avec(CentraleDe, ProductionsParCentrale(rs)[k].0), rs))
  {
    ProductionsGroupees(rs);
    AreDashboardRoutes.RegrouperCles(rs, CentraleDe);
    AreDashboardRoutes.RegrouperMembres(rs, CentraleDe);
    var gs := AreDashboardRoutes.Regrouper(rs, CentraleDe);
    assert ProductionsParCentrale(rs)[k] == TotalGroupe(gs[k]);
    assert Collections.MapSeq(AreDashboardRoutes.CleDe, gs)[k] == gs[k].cle;
    assert gs[k].membres == Collections.Filter(AreDashboardRoutes.Avec(CentraleDe, gs[k].cle), rs);
  }

  function ProductionDe(p: (string, real)): real
  {
    p.1
  }

  /** `sorted(d.items(), key=production, reverse=True)[:5]`. */
  function Top5(ps: seq<(string, real)>): (r: seq<(string, real)>)
    ensures |r| == if |ps| < 5 then |ps| else 5
  {
    var trie := Collections.SortDescBy(ProductionDe, ps);
    trie[..if |ps| < 5 then |ps| else 5]
  }

  /**
   * At most five entries, taken from the dictionary, in descending order of production, and
   * no entry left out produced more than any entry kept.
   */
  lemma {:induction false} Top5Meaning(ps: seq<(string, real)>)
    ensures |Top5(ps)| <= 5
    ensures Collections.DescendingBy(ProductionDe, Top5(ps))
    ensures forall x :: x in Top5(ps) ==> x in ps
    ensures forall x :: x in ps && x !in Top5(ps) ==> forall i :: 0 <= i < |Top5(ps)| ==> x.1 <= Top5(ps)[i].1
  {
    Collections.SortDescByCorrect(ProductionDe, ps);
    assert Top5(ps) == Collections.SortDescBy(ProductionDe, ps)[..|Top5(ps)|];
    Top5Pris(ps);
    Top5Laisses(ps);
  }

  /** Every entry kept comes from the dictionary. */
  lemma {:induction false} Top5Pris(ps: seq<(string, real)>)
    ensures forall x :: x in Top5(ps) ==> x in ps
  {
    var trie := Collections.SortDescBy(ProductionDe, ps);
    Collections.SortDescByCorrect(ProductionDe, ps);
    var top := Top5(ps);
    assert top == trie[..|top|];
    forall x | x in top ensures x in ps {
      assert x in multiset(trie);
    }
  }

  /** No entry left out produced more than any entry kept. */
  lemma {:induction false} Top5Laisses(ps: seq<(string, real)>)
    ensures forall x :: x in ps && x !in Top5(ps) ==> forall i :: 0 <= i < |Top5(ps)| ==> x.1 <= Top5(ps)[i].1
  {
    var trie := Collections.SortDescBy(ProductionDe, ps);
    Collections.SortDescByCorrect(ProductionDe, ps);
    var top := Top5(ps);
    assert top == trie[..|top|];
    forall x | x in ps && x !in top
      ensures forall i :: 0 <= i < |top| ==> x.1 <= top[i].1
    {
      assert x in multiset(trie);
      var j :| 0 <= j < |trie| && trie[j] == x;
      Top5Laisse(trie, |top|, j);
    }
  }

  /** An entry past the cut of a descending list produced no more than any entry before it. */
  lemma {:induction false} Top5Laisse(trie: seq<(string, real)>, n: nat, j: int)
    requires Collections.DescendingBy(ProductionDe, trie)
    requires n <= |trie| && 0 <= j < |trie|
    ensures trie[j] !in trie[..n] ==> forall i :: 0 <= i < n ==> trie[j].1 <= trie[..n][i].1
  {
    if j < n {
      assert trie[..n][j] == trie[j];
    } else {
      forall i | 0 <= i < n ensures trie[j].1 <= trie[..n][i].1 {
        assert trie[..n][i] == trie[i];
        assert ProductionDe(trie[i]) >= ProductionDe(trie[j]);
      }
    }
  }

  /** `repartition_statuts`: `d[s] = d.get(s, 0) + 1` over the reports. */
  method RepartitionStatuts(rs: seq<RapportHydro>) returns (m: map<Option<string>, nat>)
    ensures m == Collections.CountsBy(StatutDe, rs)
  {
    m := map[];
    for i := 0 to |rs|
      invariant m == Collections.CountsBy(StatutDe, rs[..i])
    {
      Collections.CountsByPrefix(StatutDe, rs, i);
      var s := rs[i].statut;
      m := m[s := (if s in m then m[s] else 0) + 1];
    }
    assert rs[..|rs|] == rs;
  }

  /** The analysis dictionary. */
  datatype Analyse = Analyse(
    totalRapports: nat, energieTotale: real, energieMoyenne: real, facteurs: StatsFacteur,
    statuts: map<Option<string>, nat>, topCentrales: seq<(string, real)>,
    totalIncidents: int, totalMaintenances: int, tauxIncidents: real)

  const AnalyseVide := Analyse(0, 0.0, 0.0, StatsFacteur(0.0, 0.0, 0.0), map[], [], 0, 0, 0.0)

  method GenererAnalyse(tous: seq<RapportHydro>, annee: Option<int>, mois: Option<int>, operateurId: Option<int>)
    returns (d: Analyse)
    ensures var rs := Retenus(tous, annee, mois, operateurId);
      rs == [] ==> d == AnalyseVide
    ensures var rs := Retenus(tous, annee, mois, operateurId);
      rs != [] ==>
        && d.totalRapports == |rs|
        && d.energieTotale == Collections.SumOf(EnergieDe, rs)
        && d.energieMoyenne == Moyenne(d.energieTotale, |rs|)
        && d.facteurs == StatsFacteurs(Facteurs(rs))
        && d.statuts == Collections.CountsBy(StatutDe, rs)
        && d.topCentrales == Top5(ProductionsParCentrale(rs))
        && d.totalIncidents == SommeInt(IncidentsDe, rs)
        && d.totalMaintenances == SommeInt(MaintenancesDe, rs)
        && d.tauxIncidents == Moyenne(d.totalIncidents as real, |rs|)
  {
    var rs := Retenus(tous, annee, mois, operateurId);
    if rs == [] {
      return AnalyseVide;
    }
    var energie := Collections.SumOf(EnergieDe, rs);
    var statuts := RepartitionStatuts(rs);
    var productions := CumulerProductions(rs);
    var incidents := SommeInt(IncidentsDe, rs);
    d := Analyse(|rs|, energie, Moyenne(energie, |rs|), StatsFacteurs(Facteurs(rs)), statuts, Top5(productions), incidents,
      SommeInt(MaintenancesDe, rs), Moyenne(incidents as real, |rs|));
  }

  /** The status counts add up to the number of reports analysed. */
  lemma {:induction false} StatutsMeaning(rs: seq<RapportHydro>)
    ensures Collections.MapTotal(Collections.CountsBy(StatutDe, rs)) == |rs|
    ensures forall s :: s in Collections.CountsBy(StatutDe, rs) <==> exists i :: 0 <= i < |rs| && rs[i].statut == s
  {
    Collections.CountsByTotal(StatutDe, rs);
    Collections.CountsByKeys(StatutDe, rs);
  }

  // ---------------------------------------------------------------------------------------
  // The backup history (`get_backup_history`).

  /** A directory entry: its name, its size in bytes and its modification time. */
  datatype Fichier = Fichier(nom: string, taille: nat, mtime: int)

  datatype TypeSauvegarde = Complete | BaseDeDonnees | Fichiers

  function Libelle(t: TypeSauvegarde): string
  {
    match t
    case Complete => "Complète"
    case BaseDeDonnees => "Base de données"
    case Fichiers => "Fichiers"
  }

  /** 'complete' in the name wins over 'database'; anything else is a file backup. */
  function TypeDe(nom: string): TypeSauvegarde
  {
    if Contains(nom, "complete") then Complete else if Contains(nom, "database") then BaseDeDonnees else Fichiers
  }

  datatype Sauvegarde = Sauvegarde(nom: string, tailleMo: real, date: int, typeSauvegarde: TypeSauvegarde)

  function Entree(f: Fichier): Sauvegarde
  {
    Sauvegarde(f.nom, f.taille as real / (1024.0 * 1024.0), f.mtime, TypeDe(f.nom))
  }

  predicate EstSauvegarde(f: Fichier)
  {
    StartsWith(f.nom, "backup_")
  }

  /** The entries of the backup files, in directory order. */
  function Entrees(fs: seq<Fichier>): seq<Sauvegarde>
  {
    if fs == [] then []
    else Entrees(fs[..|fs| - 1]) + (if EstSauvegarde(fs[|fs| - 1]) then [Entree(fs[|fs| - 1])] else [])
  }

  function DateDe(s: Sauvegarde): real
  {
    s.date as real
  }

  /** The history: nothing when the directory does not exist, else the backups newest first. */
  method HistoriqueSauvegardes(repertoire: Option<seq<Fichier>>) returns (r: seq<Sauvegarde>)
    ensures repertoire.None? ==> r == []
    ensures repertoire.Some? ==> r == Collections.SortDescBy(DateDe, Entrees(repertoire.value))
  {
    if repertoire.None? {
      return [];
    }
    var fs := repertoire.value;
    var backups: seq<Sauvegarde> := [];
    for i := 0 to |fs|
      invariant backups == Entrees(fs[..i])
    {
      assert fs[..i + 1][..i] == fs[..i];
      if StartsWith(fs[i].nom, "backup_") {
        backups := backups + [Entree(fs[i])];
      }
    }
    assert fs[..|fs|] == fs;
    r := Collections.SortDescBy(DateDe, backups);
  }

  lemma {:induction false} EntreesMeaning(fs: seq<Fichier>)
    ensures forall s :: s in Entrees(fs) <==> exists f :: f in fs && EstSauvegarde(f) && s == Entree(f)
  {
    if fs != [] {
      EntreesMeaning(fs[..|fs| - 1]);
      assert fs == fs[..|fs| - 1] + [fs[|fs| - 1]];
      assert forall f :: f in fs <==> f in fs[..|fs| - 1] || f == fs[|fs| - 1];
    }
  }

  /**
   * Exactly the 'backup_' files are listed, newest first, each with its size in MiB and the
   * type its name says.
   */
  lemma {:induction false} HistoriqueMeaning(fs: seq<Fichier>)
    ensures Collections.DescendingBy(DateDe, Collections.SortDescBy(DateDe, Entrees(fs)))
    ensures forall s :: s in Collections.SortDescBy(DateDe, Entrees(fs)) <==>
      exists f :: f in fs && StartsWith(f.nom, "backup_") && s == Entree(f)
    ensures forall f :: f in fs && StartsWith(f.nom, "backup_") ==>
      && Entree(f).tailleMo * 1048576.0 == f.taille as real
      && (Contains(f.nom, "complete") ==> Entree(f).typeSauvegarde == Complete)
      && (!Contains(f.nom, "complete") && Contains(f.nom, "database") ==> Entree(f).typeSauvegarde == BaseDeDonnees)
      && (!Contains(f.nom, "complete") && !Contains(f.nom, "database") ==> Entree(f).typeSauvegarde == Fichiers)
  {
    Collections.SortDescByCorrect(DateDe, Entrees(fs));
    EntreesMeaning(fs);
    var t := Collections.SortDescBy(DateDe, Entrees(fs));
    forall s ensures s in t <==> s in Entrees(fs) {
      assert s in t <==> s in multiset(t);
    }
  }
}
