// The ARE dashboard script: the DashboardARE object with its auto-refresh timer,
// the energy-mix doughnut and its residual share, the KPI cards and the number
// formatting they use. Network responses are parameters of the methods (None when
// the fetch or the JSON decoding fails); the DOM nodes the script looks up are
// modelled by whether they exist.
module AreDashboardScript {
  import opened Wrappers
  import opened Text
  import opened JsNumbers

  // ---------------------------------------------------------------------------
  // The energy mix

  /** A share as the JSON decoder hands it over: missing, null or a number. */
  datatype MixValue = Undefined | Null | Num(n: JsNumber)

  datatype MixData = MixData(hydro: MixValue, thermique: MixValue, solaire: MixValue)

  /** The number `+` sees: undefined is NaN, null is 0. */
  function ToNumber(v: MixValue): JsNumber
  {
    match v
    case Undefined => NaN
    case Null => Finite(0.0)
    case Num(n) => n
  }

  /** `v || 0`. */
  function ShareOrZero(v: MixValue): (r: JsNumber)
    ensures r != NaN
    ensures v.Num? && Truthy(v.n) ==> r == v.n
  {
    match v
    case Num(n) => OrZero(n)
    case _ => Finite(0.0)
  }

  /** The "Autres" slice: `Math.max(0, 100 - (hydro + thermique + solaire))`. */
  function Residual(d: MixData): JsNumber
  {
    Max(Finite(0.0), Sub(Finite(100.0), Add(Add(ToNumber(d.hydro), ToNumber(d.thermique)), ToNumber(d.solaire))))
  }

  /** The residual is never negative; it is NaN exactly when the total is. */
  lemma {:induction false} ResidualNonNegative(d: MixData)
    ensures Residual(d) != NaN ==> LessEq(Finite(0.0), Residual(d))
    ensures Residual(d) == NaN <==> Add(Add(ToNumber(d.hydro), ToNumber(d.thermique)), ToNumber(d.solaire)) == NaN
  {
  }

  /** The four values of the doughnut, in the order of its labels. */
  function MixSeries(d: MixData): (r: seq<JsNumber>)
    ensures |r| == 4
  {
    [ShareOrZero(d.hydro), ShareOrZero(d.thermique), ShareOrZero(d.solaire), Residual(d)]
  }

  /** The data the template hands over before any refresh: `{hydro: 0, thermique: 0, solaire: 0}` by default. */
  const NoMix := MixData(Num(Finite(0.0)), Num(Finite(0.0)), Num(Finite(0.0)))

  function RealMax(a: real, b: real): real
  {
    if a < b then b else a
  }

  /** A finite total `x` leaves a residual of `max(0, 100 - x)`. */
  lemma {:induction false} ResidualOfSum(d: MixData, x: real)
    requires Add(Add(ToNumber(d.hydro), ToNumber(d.thermique)), ToNumber(d.solaire)) == Finite(x)
    ensures Residual(d) == Finite(RealMax(0.0, 100.0 - x))
  {
    FiniteArithmetic(100.0, x);
    FiniteArithmetic(0.0, 100.0 - x);
  }

  /** With shares that convert to finite numbers (numbers or null) the residual is the non-negative remainder of 100. */
  lemma {:induction false} ResidualFinite(d: MixData, h: real, t: real, s: real)
    requires ToNumber(d.hydro) == Finite(h) && ToNumber(d.thermique) == Finite(t) && ToNumber(d.solaire) == Finite(s)
    ensures Residual(d) == Finite(RealMax(0.0, 100.0 - (h + t + s)))
  {
    FiniteArithmetic(h, t);
    FiniteArithmetic(h + t, s);
    ResidualOfSum(d, h + t + s);
  }

  /** A missing share makes the residual NaN (Math.max propagates it). */
  lemma {:induction false} ResidualUndefined(d: MixData)
    requires d.hydro.Undefined? || d.thermique.Undefined? || d.solaire.Undefined?
    ensures Residual(d) == NaN
  {
  }

  function Value(x: JsNumber): real
  {
    if x.Finite? then x.r else 0.0
  }

  /** Non-negative finite shares that do not exceed 100 in total fill the doughnut to exactly 100. */
  lemma {:induction false} MixSeriesTotal(d: MixData)
    requires d.hydro.Num? && d.thermique.Num? && d.solaire.Num?
    requires d.hydro.n.Finite? && d.thermique.n.Finite? && d.solaire.n.Finite?
    requires d.hydro.n.r >= 0.0 && d.thermique.n.r >= 0.0 && d.solaire.n.r >= 0.0
    requires d.hydro.n.r + d.thermique.n.r + d.solaire.n.r <= 100.0
    ensures var r := MixSeries(d);
      r[3].Finite? && Value(r[0]) + Value(r[1]) + Value(r[2]) + Value(r[3]) == 100.0
  {
    var h, t, s := d.hydro.n.r, d.thermique.n.r, d.solaire.n.r;
    ResidualFinite(d, h, t, s);
    assert Value(ShareOrZero(d.hydro)) == h;
    assert Value(ShareOrZero(d.thermique)) == t;
    assert Value(ShareOrZero(d.solaire)) == s;
    assert Value(Residual(d)) == 100.0 - (h + t + s);
  }

  /**
   * With numeric finite shares the doughnut shows hydro, thermal and solar as they are and
   * "Autres" as `max(0, 100 - (hydro + thermique + solaire))`.
   */
  lemma {:induction false} MixSeriesValues(d: MixData, h: real, t: real, s: real)
    requires d.hydro == Num(Finite(h)) && d.thermique == Num(Finite(t)) && d.solaire == Num(Finite(s))
    ensures MixSeries(d) == [Finite(h), Finite(t), Finite(s), Finite(RealMax(0.0, 100.0 - (h + t + s)))]
  {
    ResidualFinite(d, h, t, s);
  }

  /** Shares that already reach 100 leave nothing for "Autres". */
  lemma {:induction false} ResidualSaturates(d: MixData, h: real, t: real, s: real)
    requires ToNumber(d.hydro) == Finite(h) && ToNumber(d.thermique) == Finite(t) && ToNumber(d.solaire) == Finite(s)
    requires h + t + s >= 100.0
    ensures Residual(d) == Finite(0.0)
  {
    ResidualFinite(d, h, t, s);
  }

  // ---------------------------------------------------------------------------
  // Number formatting and KPI cards

  /** The unit `formatNumber` scales a finite value by. */
  function Magnitude(r: real): (m: real)
    ensures m > 0.0
  {
    if r >= 1000000.0 then 1000000.0 else if r >= 1000.0 then 1000.0 else 1.0
  }

  /** `formatNumber`: millions with 'M', thousands with 'K', one decimal. */
  function FormatNumber(v: JsNumber): string
  {
    if LessEq(Finite(1000000.0), v) then ToFixed(Div(v, Finite(1000000.0)), 1) + "M"
    else if LessEq(Finite(1000.0), v) then ToFixed(Div(v, Finite(1000.0)), 1) + "K"
    else ToFixed(v, 1)
  }

  /** Millions end in 'M', thousands below a million in 'K'. */
  lemma {:induction false} FormatNumberSuffix(v: JsNumber)
    ensures LessEq(Finite(1000000.0), v) ==> EndsWith(FormatNumber(v), "M")
    ensures !LessEq(Finite(1000000.0), v) && LessEq(Finite(1000.0), v) ==> EndsWith(FormatNumber(v), "K")
  {
  }

  lemma {:induction false} MultiplyBounds(y: real, lo: real, hi: real, m: real)
    requires m > 0.0 && lo <= y <= hi
    ensures lo * m <= y * m <= hi * m
  {
  }

  /** The text `formatNumber` appends after the digits of a finite value. */
  function Suffix(r: real): string
  {
    if r >= 1000000.0 then "M" else if r >= 1000.0 then "K" else ""
  }

  /** A finite value is formatted as its quotient by the magnitude, to one decimal, then the suffix. */
  lemma {:induction false} FormatNumberText(r: real)
    ensures FormatNumber(Finite(r)) == ToFixed(Finite(r / Magnitude(r)), 1) + Suffix(r)
  {
    if r >= 1000000.0 {
      FormatScaled(r, 1000000.0, "M");
    } else if r >= 1000.0 {
      FormatScaled(r, 1000.0, "K");
    } else {
      assert r / 1.0 == r;
      assert FormatNumber(Finite(r)) == ToFixed(Finite(r), 1);
      assert ToFixed(Finite(r), 1) + "" == ToFixed(Finite(r), 1);
    }
  }

  lemma {:induction false} FormatScaled(r: real, m: real, suffix: string)
    requires (m == 1000000.0 && r >= m && suffix == "M") || (m == 1000.0 && m <= r < 1000000.0 && suffix == "K")
    ensures FormatNumber(Finite(r)) == ToFixed(Finite(r / m), 1) + suffix
  {
    assert Div(Finite(r), Finite(m)) == Finite(r / m);
  }

  lemma {:induction false} ScaleBack(y: real, m: real, r: real, v: real)
    requires m > 0.0 && y == r / m && y - 0.05 <= v <= y + 0.05
    ensures r - 0.05 * m <= v * m <= r + 0.05 * m
  {
    MultiplyBounds(v, y - 0.05, y + 0.05, m);
    assert (y - 0.05) * m == r - 0.05 * m;
    assert (y + 0.05) * m == r + 0.05 * m;
  }

  /** `parseFloat` reads a formatted number back as its quotient rounded to one decimal. */
  lemma {:induction false} FormatNumberParses(r: real)
    ensures ParseFloat(FormatNumber(Finite(r))) == Finite(Rounded(r / Magnitude(r), 1))
  {
    FormatNumberText(r);
    assert ToFixed(Finite(r / Magnitude(r)), 1) == FiniteFixed(r / Magnitude(r), 1);
    ParseToFixed(r / Magnitude(r), 1, Suffix(r));
  }

  /** One decimal is within 0.05 of the value it rounds. */
  lemma {:induction false} RoundedOneDecimal(y: real)
    ensures y - 0.05 <= Rounded(y, 1) <= y + 0.05
  {
    RoundedClose(y, 1);
    assert Pow10(1) == 10;
    assert 0.5 / 10.0 == 0.05;
  }

  /** The number read back from a formatted value, times its unit, is within 0.05 units of the value. */
  lemma {:induction false} ReadBackClose(r: real)
    ensures var m := Magnitude(r); var v := Rounded(r / m, 1);
      r - 0.05 * m <= v * m <= r + 0.05 * m
  {
    var m := Magnitude(r);
    var y := r / m;
    RoundedOneDecimal(y);
    ScaleBack(y, m, r, Rounded(y, 1));
  }

  /** A KPI as the API returns it; a missing `tendance` is None. */
  datatype Kpi = Kpi(nom: string, valeur: JsNumber, unite: string, objectif: JsNumber,
                     seuilAlerte: JsNumber, tendance: Option<string>)

  /** What a rendered card shows. */
  datatype Card = Card(nom: string, valeur: JsNumber, unite: string, objectif: Option<JsNumber>, icon: string, alerte: bool)

  /** The value line of a card: the formatted number and its unit. */
  function CardValueText(c: Card): string
  {
    FormatNumber(c.valeur) + " " + c.unite
  }

  /** The target line of a card, shown only when the KPI has a truthy target. */
  function CardTargetText(c: Card): Option<string>
  {
    match c.objectif
    case None => None
    case Some(o) => Some(FormatNumber(o) + " " + c.unite)
  }

  const IconHausse := "<i class=\"fas fa-arrow-up text-success\"></i>"
  const IconBaisse := "<i class=\"fas fa-arrow-down text-danger\"></i>"
  const IconStable := "<i class=\"fas fa-minus text-warning\"></i>"

  /** `getTendanceIcon`: nothing for a falsy trend, an arrow for 'hausse' and 'baisse', a dash otherwise. */
  function TendanceIcon(t: Option<string>): string
  {
    match t
    case None => ""
    case Some(v) =>
      if v == "" then "" else if v == "hausse" then IconHausse else if v == "baisse" then IconBaisse else IconStable
  }

  /** The icon is empty exactly for a falsy trend, and each known trend has its own. */
  lemma {:induction false} TendanceIconCases(t: Option<string>)
    ensures TendanceIcon(t) == "" <==> (t.None? || t.value == "")
    ensures t == Some("hausse") ==> TendanceIcon(t) == IconHausse
    ensures t == Some("baisse") ==> TendanceIcon(t) == IconBaisse
    ensures t.Some? && t.value != "" && t.value != "hausse" && t.value != "baisse" ==> TendanceIcon(t) == IconStable
  {
  }

  /** `kpi.seuil_alerte && kpi.valeur < kpi.seuil_alerte`. */
  predicate Alerte(k: Kpi)
  {
    Truthy(k.seuilAlerte) && Less(k.valeur, k.seuilAlerte)
  }

  function CardOf(k: Kpi): Card
  {
    Card(k.nom, k.valeur, k.unite, if Truthy(k.objectif) then Some(k.objectif) else None,
         TendanceIcon(k.tendance), Alerte(k))
  }

  /** The cards `renderKPICards` draws: the first six KPIs, in order. */
  function Cards(kpis: seq<Kpi>): (r: seq<Card>)
    ensures |r| == if |kpis| < 6 then |kpis| else 6
    ensures forall i :: 0 <= i < |r| ==> r[i] == CardOf(kpis[i])
  {
    var n := if |kpis| < 6 then |kpis| else 6;
    seq(n, i requires 0 <= i < n => CardOf(kpis[i]))
  }

  /** A card is styled as an alert exactly when a truthy threshold is not reached. */
  lemma {:induction false} CardAlerte(kpis: seq<Kpi>, i: nat)
    requires i < |kpis| && i < 6
    ensures Cards(kpis)[i].alerte <==> kpis[i].seuilAlerte != Finite(0.0) && Less(kpis[i].valeur, kpis[i].seuilAlerte)
  {
  }

  /** A row of the operators' comparison chart. */
  datatype Performance = Performance(operateur: string, productionAnnuelle: JsNumber, facteurCharge: JsNumber)

  datatype PerformanceChart = PerformanceChart(labels: seq<string>, production: seq<JsNumber>, facteur: seq<JsNumber>)

  /** The chart data for the first ten operators. */
  function TopPerformance(ps: seq<Performance>): (c: PerformanceChart)
    ensures |c.labels| == |c.production| == |c.facteur| <= 10
    ensures |ps| <= 10 ==> |c.labels| == |ps|
    ensures forall i :: 0 <= i < |c.labels| ==>
      c.labels[i] == ps[i].operateur && c.production[i] == ps[i].productionAnnuelle &&
      c.facteur[i] == ps[i].facteurCharge
  {
    var n := if |ps| < 10 then |ps| else 10;
    PerformanceChart(seq(n, i requires 0 <= i < n => ps[i].operateur),
                     seq(n, i requires 0 <= i < n => ps[i].productionAnnuelle),
                     seq(n, i requires 0 <= i < n => ps[i].facteurCharge))
  }

  /** The text of a share in `#mixStats`. */
  function StatText(x: JsNumber): string
  {
    ToFixed(x, 1)
  }

  /** The three shares toFixed(1) reads; they throw unless each is a number. */
  predicate MixStatsReadable(d: MixData)
  {
    d.hydro.Num? && d.thermique.Num? && d.solaire.Num?
  }

  const MessageActive := "Actualisation automatique activée (5 min)"
  const MessageInactive := "Actualisation automatique désactivée"
  const MessageRefreshed := "Données actualisées"
  const MessageRefreshFailed := "Erreur lors de l'actualisation"

  // ---------------------------------------------------------------------------
  // The dashboard object

  class DashboardAre {
    /** The handle of the interval this object started, `null` once stopped. */
    var autoRefreshInterval: Option<nat>
    var isAutoRefreshEnabled: bool
    /** The intervals the browser is running for this page. */
    var timers: set<nat>
    /** The handle the browser's next `setInterval` returns; handles are positive. */
    var nextHandle: nat
    /** `this.data?.operateurId`. */
    var operateurId: Option<int>
    var loading: bool
    /** The data the doughnut was last drawn from; its four values are `MixSeries` of it. */
    var mixChart: Option<MixData>
    /** The three shares `#mixStats` shows, each written with `toFixed(1)` (`StatText`);
        None when the page has no such node. */
    var mixStats: Option<seq<JsNumber>>
    /** The cards in `#kpiContainer`, None when the page has no such node. */
    var kpiCards: Option<seq<Card>>
    var performanceChart: Option<PerformanceChart>
    var notifications: seq<string>

    /** At most one interval runs, and it is the one the object holds. */
    predicate Valid()
      reads this
    {
      nextHandle > 0 &&
      (autoRefreshInterval.None? ==> timers == {}) &&
      (autoRefreshInterval.Some? ==> 0 < autoRefreshInterval.value < nextHandle && timers == {autoRefreshInterval.value})
    }

    /** `new DashboardARE()`: no data, no charts, and the timer started with refreshing disabled. */
    constructor(hasMixStats: bool, hasKpiContainer: bool)
      ensures Valid()
      ensures !isAutoRefreshEnabled && autoRefreshInterval == Some(1) && timers == {1}
      ensures operateurId == None && !loading && notifications == []
      ensures mixChart == None && performanceChart == None
      ensures mixStats == (if hasMixStats then Some([]) else None)
      ensures kpiCards == (if hasKpiContainer then Some([]) else None)
    {
      autoRefreshInterval := None;
      isAutoRefreshEnabled := false;
      timers := {};
      nextHandle := 1;
      operateurId := None;
      loading := false;
      mixChart := None;
      mixStats := if hasMixStats then Some([]) else None;
      kpiCards := if hasKpiContainer then Some([]) else None;
      performanceChart := None;
      notifications := [];
      new;
      StartAutoRefresh();
    }

    /** `initWithData`: keep the data and create the charts whose canvas exists. */
    method InitWithData(id: Option<int>, mix: Option<MixData>, hasMixCanvas: bool, hasPerformanceCanvas: bool)
      modifies this
      ensures operateurId == id
      ensures mixChart == (if hasMixCanvas then Some(mix.GetOr(NoMix)) else old(mixChart))
      ensures performanceChart == (if hasPerformanceCanvas then Some(PerformanceChart([], [], []))
                                   else old(performanceChart))
      ensures autoRefreshInterval == old(autoRefreshInterval) && timers == old(timers)
      ensures nextHandle == old(nextHandle) && isAutoRefreshEnabled == old(isAutoRefreshEnabled)
      ensures loading == old(loading) && mixStats == old(mixStats) && kpiCards == old(kpiCards)
      ensures notifications == old(notifications)
    {
      operateurId := id;
      if hasMixCanvas {
        mixChart := Some(mix.GetOr(NoMix));
      }
      if hasPerformanceCanvas {
        performanceChart := Some(PerformanceChart([], [], []));
      }
    }

    /** `startAutoRefresh`: clear the running interval, if any, then start a new one. */
    method StartAutoRefresh()
      requires nextHandle > 0 && (autoRefreshInterval.None? ==> timers == {})
      requires autoRefreshInterval.Some? ==> timers == {autoRefreshInterval.value}
      modifies this
      ensures Valid()
      ensures autoRefreshInterval == Some(old(nextHandle)) && timers == {old(nextHandle)}
      ensures nextHandle == old(nextHandle) + 1
      ensures isAutoRefreshEnabled == old(isAutoRefreshEnabled) && operateurId == old(operateurId)
      ensures loading == old(loading) && mixChart == old(mixChart) && mixStats == old(mixStats)
      ensures kpiCards == old(kpiCards) && performanceChart == old(performanceChart)
      ensures notifications == old(notifications)
    {
      if autoRefreshInterval.Some? && autoRefreshInterval.value != 0 {
        timers := timers - {autoRefreshInterval.value};
      }
      timers := {nextHandle};
      autoRefreshInterval := Some(nextHandle);
      nextHandle := nextHandle + 1;
    }

    /** `stopAutoRefresh`: clear the running interval; nothing to do when there is none. */
    method StopAutoRefresh()
      requires Valid()
      modifies this
      ensures Valid()
      ensures autoRefreshInterval == None && timers == {}
      ensures nextHandle == old(nextHandle) && isAutoRefreshEnabled == old(isAutoRefreshEnabled)
      ensures operateurId == old(operateurId) && loading == old(loading) && mixChart == old(mixChart)
      ensures mixStats == old(mixStats) && kpiCards == old(kpiCards)
      ensures performanceChart == old(performanceChart) && notifications == old(notifications)
    {
      if autoRefreshInterval.Some? {
        timers := timers - {autoRefreshInterval.value};
        autoRefreshInterval := None;
      }
    }

    /** `toggleAutoRefresh(enabled)`: set the flag, start or stop the timer, and say so. */
    method ToggleAutoRefresh(enabled: bool)
      requires Valid()
      modifies this
      ensures Valid()
      ensures isAutoRefreshEnabled == enabled
      ensures enabled ==> autoRefreshInterval == Some(old(nextHandle)) && timers == {old(nextHandle)}
      ensures !enabled ==> autoRefreshInterval == None && timers == {}
      ensures notifications == old(notifications) + [if enabled then MessageActive else MessageInactive]
      ensures operateurId == old(operateurId) && loading == old(loading) && mixChart == old(mixChart)
      ensures mixStats == old(mixStats) && kpiCards == old(kpiCards)
      ensures performanceChart == old(performanceChart)
    {
      isAutoRefreshEnabled := enabled;
      if enabled {
        StartAutoRefresh();
        notifications := notifications + [MessageActive];
      } else {
        StopAutoRefresh();
        notifications := notifications + [MessageInactive];
      }
    }

    /** Whether `refreshAllData` ends in its catch branch for these responses. */
    predicate RefreshFails(mix: Option<MixData>, kpis: Option<Option<seq<Kpi>>>)
      reads this
    {
      mix.None? ||
      (mixChart.Some? && mixStats.Some? && !MixStatsReadable(mix.value)) ||
      kpis.None?
    }

    /** The state `refreshAllData` leaves, given the three responses. */
    twostate predicate Refreshed(mix: Option<MixData>, kpis: Option<Option<seq<Kpi>>>,
                                 performance: Option<Option<seq<Performance>>>)
      reads this
    {
      && !loading
      && notifications == old(notifications) +
        [if old(RefreshFails(mix, kpis)) then MessageRefreshFailed else MessageRefreshed]
      && mixChart == (if mix.Some? && old(mixChart).Some? then Some(mix.value) else old(mixChart))
      && mixStats == (if mix.Some? && old(mixChart).Some? && old(mixStats).Some? && MixStatsReadable(mix.value)
                      then Some([mix.value.hydro.n, mix.value.thermique.n, mix.value.solaire.n])
                      else old(mixStats))
      && kpiCards == (if !old(RefreshFails(mix, kpis)) && old(kpiCards).Some? && kpis.value.Some?
                      then Some(Cards(kpis.value.value)) else old(kpiCards))
      && performanceChart ==
        (if !old(RefreshFails(mix, kpis)) && !(operateurId.Some? && operateurId.value != 0) &&
            performance.Some? && performance.value.Some? && old(performanceChart).Some?
         then Some(TopPerformance(performance.value.value)) else old(performanceChart))
      && autoRefreshInterval == old(autoRefreshInterval) && timers == old(timers)
      && nextHandle == old(nextHandle) && isAutoRefreshEnabled == old(isAutoRefreshEnabled)
      && operateurId == old(operateurId)
    }

    /**
     * `refreshAllData`: the mix, then the KPIs, then the operators' chart; the first
     * failure skips the rest, and the loading indicator is off at the end either way.
     * A response is None when its fetch or decoding throws; `Some(None)` is a response
     * without the list.
     */
    method RefreshAllData(mix: Option<MixData>, kpis: Option<Option<seq<Kpi>>>,
                          performance: Option<Option<seq<Performance>>>)
      requires Valid()
      modifies this
      ensures Valid()
      ensures Refreshed(mix, kpis, performance)
    {
      loading := true;
      var failed := UpdateMixEnergetique(mix);
      if !failed {
        failed := UpdateKpis(kpis);
      }
      if !failed {
        UpdatePerformanceOperateurs(performance);
        notifications := notifications + [MessageRefreshed];
      } else {
        notifications := notifications + [MessageRefreshFailed];
      }
      loading := false;
    }

    /**
     * `updateMixEnergetique` and `updateMixStats`: redraw the doughnut, then the shares;
     * `failed` when the fetch throws or a share has no `toFixed`, after the doughnut.
     */
    method UpdateMixEnergetique(mix: Option<MixData>) returns (failed: bool)
      modifies this
      ensures failed == (mix.None? || (old(mixChart).Some? && old(mixStats).Some? && !MixStatsReadable(mix.value)))
      ensures mixChart == (if mix.Some? && old(mixChart).Some? then Some(mix.value) else old(mixChart))
      ensures mixStats == (if mix.Some? && old(mixChart).Some? && old(mixStats).Some? && MixStatsReadable(mix.value)
                           then Some([mix.value.hydro.n, mix.value.thermique.n, mix.value.solaire.n])
                           else old(mixStats))
      ensures autoRefreshInterval == old(autoRefreshInterval) && timers == old(timers)
      ensures nextHandle == old(nextHandle) && isAutoRefreshEnabled == old(isAutoRefreshEnabled)
      ensures operateurId == old(operateurId) && loading == old(loading) && kpiCards == old(kpiCards)
      ensures performanceChart == old(performanceChart) && notifications == old(notifications)
    {
      failed := false;
      if mix.None? {
        failed := true;
      } else if mixChart.Some? {
        mixChart := Some(mix.value);
        if mixStats.Some? {
          if MixStatsReadable(mix.value) {
            mixStats := Some([mix.value.hydro.n, mix.value.thermique.n, mix.value.solaire.n]);
          } else {
            failed := true;
          }
        }
      }
    }

    /** `updateKPIs`: redraw the cards when the page has their container and the response its list. */
    method UpdateKpis(kpis: Option<Option<seq<Kpi>>>) returns (failed: bool)
      modifies this
      ensures failed == kpis.None?
      ensures kpiCards == (if kpis.Some? && old(kpiCards).Some? && kpis.value.Some?
                           then Some(Cards(kpis.value.value)) else old(kpiCards))
      ensures autoRefreshInterval == old(autoRefreshInterval) && timers == old(timers)
      ensures nextHandle == old(nextHandle) && isAutoRefreshEnabled == old(isAutoRefreshEnabled)
      ensures operateurId == old(operateurId) && loading == old(loading) && mixChart == old(mixChart)
      ensures mixStats == old(mixStats) && performanceChart == old(performanceChart)
      ensures notifications == old(notifications)
    {
      failed := kpis.None?;
      if kpis.Some? && kpiCards.Some? && kpis.value.Some? {
        RenderKpiCards(kpis.value.value);
      }
    }

    /** `renderKPICards`: empty the container, then append one card per KPI, six at most. */
    method RenderKpiCards(kpis: seq<Kpi>)
      requires kpiCards.Some?
      modifies this
      ensures kpiCards == Some(Cards(kpis))
      ensures autoRefreshInterval == old(autoRefreshInterval) && timers == old(timers)
      ensures nextHandle == old(nextHandle) && isAutoRefreshEnabled == old(isAutoRefreshEnabled)
      ensures operateurId == old(operateurId) && loading == old(loading) && mixChart == old(mixChart)
      ensures mixStats == old(mixStats) && performanceChart == old(performanceChart)
      ensures notifications == old(notifications)
    {
      var n := if |kpis| < 6 then |kpis| else 6;
      var cards: seq<Card> := [];
      var i := 0;
      while i < n
        invariant 0 <= i <= n
        invariant |cards| == i
        invariant forall j :: 0 <= j < i ==> cards[j] == CardOf(kpis[j])
      {
        cards := cards + [CardOf(kpis[i])];
        i := i + 1;
      }
      assert cards == Cards(kpis);
      kpiCards := Some(cards);
    }

    /** `updatePerformanceOperateurs`: skipped for a selected operator; its own errors are swallowed. */
    method UpdatePerformanceOperateurs(performance: Option<Option<seq<Performance>>>)
      modifies this
      ensures performanceChart ==
        (if !(operateurId.Some? && operateurId.value != 0) && performance.Some? && performance.value.Some? &&
            old(performanceChart).Some?
         then Some(TopPerformance(performance.value.value)) else old(performanceChart))
      ensures autoRefreshInterval == old(autoRefreshInterval) && timers == old(timers)
      ensures nextHandle == old(nextHandle) && isAutoRefreshEnabled == old(isAutoRefreshEnabled)
      ensures operateurId == old(operateurId) && loading == old(loading) && mixChart == old(mixChart)
      ensures mixStats == old(mixStats) && kpiCards == old(kpiCards)
      ensures notifications == old(notifications)
    {
      if operateurId.Some? && operateurId.value != 0 {
        return;
      }
      if performance.Some? && performance.value.Some? && performanceChart.Some? {
        performanceChart := Some(TopPerformance(performance.value.value));
      }
    }

    /** A tick of the interval `h`: refresh only while refreshing is enabled. */
    method Tick(h: nat, mix: Option<MixData>, kpis: Option<Option<seq<Kpi>>>,
                performance: Option<Option<seq<Performance>>>)
      requires Valid()
      modifies this
      ensures Valid()
      ensures !(h in old(timers) && old(isAutoRefreshEnabled)) ==>
        notifications == old(notifications) && mixChart == old(mixChart) && kpiCards == old(kpiCards) &&
        mixStats == old(mixStats) && performanceChart == old(performanceChart) && loading == old(loading)
      ensures h in old(timers) && old(isAutoRefreshEnabled) ==> Refreshed(mix, kpis, performance)
      ensures autoRefreshInterval == old(autoRefreshInterval) && timers == old(timers)
      ensures isAutoRefreshEnabled == old(isAutoRefreshEnabled)
    {
      if h in timers && isAutoRefreshEnabled {
        RefreshAllData(mix, kpis, performance);
      }
    }
  }
}
