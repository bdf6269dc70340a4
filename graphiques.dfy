// The reusable chart helpers: the page-wide registry of Chart.js instances keyed by
// canvas id (creation from JSON configuration scripts, update, destruction, CSV
// export), the gauge colour, the colour palettes, the hex colour parser and the
// colour gradient. Drawing on the canvas, downloads and full-screen handling are
// browser effects and are not modelled; JSON parsing is a parameter.
module Graphiques {
  import opened Wrappers
  import opened Text
  import opened JsNumbers
  import opened Collections

  // ---------------------------------------------------------------------------
  // Chart data

  /** A label or data cell as JSON can carry it. Non-integer numbers are left out. */
  datatype Value = Undefined | Null | Bool(b: bool) | Int(i: int) | Str(s: string)

  predicate Falsy(v: Value)
  {
    v.Undefined? || v.Null? || v == Bool(false) || v == Int(0) || v == Str("")
  }

  /** The text a template literal `${v}` produces. */
  function ValueText(v: Value): string
  {
    match v
    case Undefined => "undefined"
    case Null => "null"
    case Bool(b) => if b then "true" else "false"
    case Int(i) => IntToString(i)
    case Str(s) => s
  }

  /** `${v || fallback}` with a string fallback. */
  function OrText(v: Value, fallback: string): (s: string)
    ensures Falsy(v) ==> s == fallback
    ensures !Falsy(v) ==> s == ValueText(v)
  {
    if Falsy(v) then fallback else ValueText(v)
  }

  datatype Dataset = Dataset(legend: Value, data: seq<Value>)

  /** The part of a Chart.js instance the helpers read and write. */
  datatype ChartData = ChartData(labels: seq<Value>, datasets: seq<Dataset>, options: map<string, Value>)

  /** `dataset.data[index]`: undefined past the end. */
  function DataAt(d: Dataset, index: nat): Value
  {
    if index < |d.data| then d.data[index] else Undefined
  }

  // ---------------------------------------------------------------------------
  // CSV export

  function HeaderCells(ds: seq<Dataset>): (cells: seq<string>)
    ensures |cells| == |ds|
    ensures forall j :: 0 <= j < |ds| ==> cells[j] == OrText(ds[j].legend, "Dataset")
  {
    seq(|ds|, j requires 0 <= j < |ds| => OrText(ds[j].legend, "Dataset"))
  }

  function RowCells(ds: seq<Dataset>, index: nat): (cells: seq<string>)
    ensures |cells| == |ds|
    ensures forall j :: 0 <= j < |ds| ==> cells[j] == OrText(DataAt(ds[j], index), "")
  {
    seq(|ds|, j requires 0 <= j < |ds| => OrText(DataAt(ds[j], index), ""))
  }

  function HeaderLine(ds: seq<Dataset>): string
  {
    "Label" + Prefixed(HeaderCells(ds), ',')
  }

  /** `chart.data.labels[index]`: undefined past the end. */
  function LabelAt(c: ChartData, index: nat): Value
  {
    if index < |c.labels| then c.labels[index] else Undefined
  }

  function RowLine(c: ChartData, index: nat): string
  {
    ValueText(LabelAt(c, index)) + Prefixed(RowCells(c.datasets, index), ',')
  }

  /** `f(0)`, ..., `f(k - 1)`. */
  function Tabulate<B>(f: nat -> B, k: nat): (r: seq<B>)
    ensures |r| == k
    ensures forall i :: 0 <= i < k ==> r[i] == f(i)
  {
    if k == 0 then [] else Tabulate(f, k - 1) + [f(k - 1)]
  }

  /** The header line, then the lines of the first `k` labels. */
  function LinesUpTo(c: ChartData, k: nat): seq<string>
    requires k <= |c.labels|
  {
    [HeaderLine(c.datasets)] + Tabulate((i: nat) => RowLine(c, i), k)
  }

  /** The header line, then one line per label. */
  function CsvLines(c: ChartData): seq<string>
  {
    LinesUpTo(c, |c.labels|)
  }

  lemma {:induction false} CsvLinesAt(c: ChartData)
    ensures |CsvLines(c)| == |c.labels| + 1 && CsvLines(c)[0] == HeaderLine(c.datasets)
    ensures forall i :: 0 <= i < |c.labels| ==> CsvLines(c)[i + 1] == RowLine(c, i)
  {
    HeadTabulateAt(HeaderLine(c.datasets), (i: nat) => RowLine(c, i), |c.labels|);
  }

  lemma {:induction false} HeadTabulateAt<B>(h: B, f: nat -> B, k: nat)
    ensures var r := [h] + Tabulate(f, k);
      |r| == k + 1 && r[0] == h && forall i :: 0 <= i < k ==> r[i + 1] == f(i)
  {
  }

  lemma {:induction false} HeadTabulateSnoc<B>(h: B, f: nat -> B, k: nat)
    requires k > 0
    ensures [h] + Tabulate(f, k) == ([h] + Tabulate(f, k - 1)) + [f(k - 1)]
  {
  }

  /** Adding a label adds its line at the end. */
  lemma {:induction false} LinesUpToSnoc(c: ChartData, k: nat)
    requires 0 < k <= |c.labels|
    ensures LinesUpTo(c, k) == LinesUpTo(c, k - 1) + [RowLine(c, k - 1)]
  {
    HeadTabulateSnoc(HeaderLine(c.datasets), (i: nat) => RowLine(c, i), k);
  }

  /** The header line and the lines of the first `k` labels, each ended by a newline. */
  function CsvUpTo(c: ChartData, k: nat): string
    requires k <= |c.labels|
    decreases k
  {
    if k == 0 then HeaderLine(c.datasets) + "\n" else CsvUpTo(c, k - 1) + RowLine(c, k - 1) + "\n"
  }

  /** The text `exporterGraphiqueCSV` hands to the download. */
  function CsvText(c: ChartData): string
  {
    CsvUpTo(c, |c.labels|)
  }

  /** The CSV text is its lines, each followed by a newline. */
  lemma {:induction false} CsvUpToLines(c: ChartData, k: nat)
    requires k <= |c.labels|
    ensures CsvUpTo(c, k) == Terminated(LinesUpTo(c, k), '\n')
    decreases k
  {
    if k == 0 {
      assert [HeaderLine(c.datasets)][1..] == [];
    } else {
      CsvUpToLines(c, k - 1);
      LinesUpToSnoc(c, k);
      TerminatedSnoc(LinesUpTo(c, k - 1), RowLine(c, k - 1), '\n');
    }
  }

  /** No cell of the chart, once rendered, contains `ch`. */
  predicate CellsFree(c: ChartData, ch: char)
  {
    (forall i :: 0 <= i < |c.labels| ==> ch !in ValueText(c.labels[i])) &&
    (forall j :: 0 <= j < |c.datasets| ==> ch !in ValueText(c.datasets[j].legend)) &&
    (forall j, k :: 0 <= j < |c.datasets| && 0 <= k < |c.datasets[j].data| ==> ch !in ValueText(c.datasets[j].data[k]))
  }

  lemma {:induction false} HeaderFree(c: ChartData, ch: char)
    requires CellsFree(c, ch) && ch !in "Label" && ch !in "Dataset"
    ensures forall j :: 0 <= j < |c.datasets| ==> ch !in HeaderCells(c.datasets)[j]
  {
  }

  lemma {:induction false} RowFree(c: ChartData, ch: char, index: nat)
    requires CellsFree(c, ch)
    ensures forall j :: 0 <= j < |c.datasets| ==> ch !in RowCells(c.datasets, index)[j]
  {
    forall j | 0 <= j < |c.datasets|
      ensures ch !in RowCells(c.datasets, index)[j]
    {
      var d := c.datasets[j];
      if index < |d.data| {
        assert ch !in ValueText(d.data[index]);
      }
    }
  }

  /** With no newline in any cell, no line of the CSV holds one. */
  lemma {:induction false} LinesFree(c: ChartData, k: nat)
    requires k <= |c.labels| && CellsFree(c, '\n')
    ensures forall i :: 0 <= i < |LinesUpTo(c, k)| ==> '\n' !in LinesUpTo(c, k)[i]
    decreases k
  {
    if k == 0 {
      HeaderFree(c, '\n');
      PrefixedFree("Label", HeaderCells(c.datasets), ',', '\n');
    } else {
      LinesFree(c, k - 1);
      LineFreeSnoc(c, k, LinesUpTo(c, k - 1));
    }
  }

  /** One more data line free of newlines, after lines that are, keeps every line free of them. */
  lemma {:induction false} LineFreeSnoc(c: ChartData, k: nat, avant: seq<string>)
    requires 0 < k <= |c.labels| && CellsFree(c, '\n') && avant == LinesUpTo(c, k - 1)
    requires forall i :: 0 <= i < |avant| ==> '\n' !in avant[i]
    ensures forall i :: 0 <= i < |LinesUpTo(c, k)| ==> '\n' !in LinesUpTo(c, k)[i]
  {
    LinesUpToSnoc(c, k);
    RowFree(c, '\n', k - 1);
    assert '\n' !in ValueText(LabelAt(c, k - 1)) by {
      assert LabelAt(c, k - 1) == c.labels[k - 1];
    }
    PrefixedFree(ValueText(LabelAt(c, k - 1)), RowCells(c.datasets, k - 1), ',', '\n');
    forall i | 0 <= i < |LinesUpTo(c, k)| ensures '\n' !in LinesUpTo(c, k)[i] {
      if i < |avant| {
        assert LinesUpTo(c, k)[i] == avant[i];
      } else {
        assert LinesUpTo(c, k)[i] == RowLine(c, k - 1);
      }
    }
  }

  /** With no comma in any cell, a data line cuts into the label and one cell per dataset. */
  lemma {:induction false} RowReadBack(c: ChartData, i: nat)
    requires i < |c.labels| && CellsFree(c, ',')
    ensures Split(RowLine(c, i), ',') == [ValueText(c.labels[i])] + RowCells(c.datasets, i)
  {
    RowFree(c, ',', i);
    SplitPrefixed(ValueText(LabelAt(c, i)), RowCells(c.datasets, i), ',');
  }

  /** With no comma and no newline in any cell, the CSV reads back as a header line and one
      line per label, each cut by commas into the label and one cell per dataset. */
  lemma {:induction false} CsvReadBack(c: ChartData)
    requires CellsFree(c, ',') && CellsFree(c, '\n')
    ensures Split(CsvText(c), '\n') == CsvLines(c) + [""]
    ensures Split(HeaderLine(c.datasets), ',') == ["Label"] + HeaderCells(c.datasets)
    ensures forall i :: 0 <= i < |c.labels| ==>
      Split(RowLine(c, i), ',') == [ValueText(c.labels[i])] + RowCells(c.datasets, i)
  {
    HeaderFree(c, ',');
    SplitPrefixed("Label", HeaderCells(c.datasets), ',');
    forall i | 0 <= i < |c.labels|
      ensures Split(RowLine(c, i), ',') == [ValueText(c.labels[i])] + RowCells(c.datasets, i)
    {
      RowReadBack(c, i);
    }
    LinesFree(c, |c.labels|);
    CsvUpToLines(c, |c.labels|);
    SplitTerminated(CsvLines(c), '\n');
  }

  lemma {:induction false} PrefixedFree(head: string, parts: seq<string>, sep: char, ch: char)
    requires ch != sep && ch !in head
    requires forall i :: 0 <= i < |parts| ==> ch !in parts[i]
    ensures ch !in head + Prefixed(parts, sep)
    decreases |parts|
  {
    if parts != [] {
      PrefixedFree(parts[0], parts[1..], sep, ch);
      assert head + Prefixed(parts, sep) == head + [sep] + (parts[0] + Prefixed(parts[1..], sep));
    }
  }

  /** A falsy data value, zero included, leaves its cell empty. */
  lemma {:induction false} FalsyCellEmpty(c: ChartData, index: nat, j: nat)
    requires j < |c.datasets| && Falsy(DataAt(c.datasets[j], index))
    ensures RowCells(c.datasets, index)[j] == ""
  {
  }

  // ---------------------------------------------------------------------------
  // The registry `window.chartInstances`

  /** A `<script type="application/json">` element: its id, its text and what parsing it
      (and building the chart from it) gives, None when that throws. */
  datatype ConfigElement = ConfigElement(id: string, text: string, parsed: Option<ChartData>)

  /** The chart id of a configuration element: its id with the first `suffix` removed. */
  function ChartId(id: string, suffix: string): string
  {
    ReplaceFirst(id, suffix, "")
  }

  /** The element yields a chart: its id ends with the suffix, the canvas exists, its text is
      non-empty and it parses. */
  predicate Registers(e: ConfigElement, suffix: string, canvases: set<string>)
  {
    EndsWith(e.id, suffix) && ChartId(e.id, suffix) in canvases && e.text != "" && e.parsed.Some?
  }

  function Register(m: map<string, ChartData>, e: ConfigElement, suffix: string, canvases: set<string>): map<string, ChartData>
  {
    if Registers(e, suffix, canvases) then m[ChartId(e.id, suffix) := e.parsed.value] else m
  }

  /** The registry after the elements are handled in document order. */
  function Registered(m: map<string, ChartData>, els: seq<ConfigElement>, suffix: string, canvases: set<string>): map<string, ChartData>
    decreases |els|
  {
    if els == [] then m
    else Register(Registered(m, els[..|els| - 1], suffix, canvases), els[|els| - 1], suffix, canvases)
  }

  /** The chart id of `p-config` is `p` when `p` holds no `-config` of its own. */
  lemma {:induction false} ChartIdOfConfig(p: string)
    requires !Contains(p, "-config")
    ensures ChartId(p + "-config", "-config") == p
  {
    ReplaceFirstSuffix(p, "-config", "");
    assert p + "" == p;
  }

  lemma {:induction false} RegisteredAppend(m: map<string, ChartData>, a: seq<ConfigElement>, b: seq<ConfigElement>,
                                            suffix: string, canvases: set<string>)
    ensures Registered(m, a + b, suffix, canvases) == Registered(Registered(m, a, suffix, canvases), b, suffix, canvases)
    decreases |b|
  {
    if b == [] {
      assert a + b == a;
    } else {
      assert (a + b)[..|a + b| - 1] == a + b[..|b| - 1];
      RegisteredAppend(m, a, b[..|b| - 1], suffix, canvases);
    }
  }

  /** An element that fails to parse is skipped; the other charts are created as without it. */
  lemma {:induction false} ParseFailureSkipsOnlyIt(m: map<string, ChartData>, a: seq<ConfigElement>, e: ConfigElement, b: seq<ConfigElement>,
                                suffix: string, canvases: set<string>)
    requires e.parsed.None?
    ensures Registered(m, a + [e] + b, suffix, canvases) == Registered(m, a + b, suffix, canvases)
  {
    RegisteredAppend(m, a + [e], b, suffix, canvases);
    RegisteredAppend(m, a, b, suffix, canvases);
    assert (a + [e])[..|a + [e]| - 1] == a;
  }

  /** The chart ids the elements register, in any order. */
  function RegisteredIds(els: seq<ConfigElement>, suffix: string, canvases: set<string>): set<string>
    decreases |els|
  {
    if els == [] then {}
    else
      var last := els[|els| - 1];
      RegisteredIds(els[..|els| - 1], suffix, canvases) + (if Registers(last, suffix, canvases) then {ChartId(last.id, suffix)} else {})
  }

  /** The registry afterwards holds exactly the ids it held before and those the elements register. */
  lemma {:induction false} RegisteredKeys(m: map<string, ChartData>, els: seq<ConfigElement>, suffix: string,
                                          canvases: set<string>)
    ensures Registered(m, els, suffix, canvases).Keys == m.Keys + RegisteredIds(els, suffix, canvases)
    decreases |els|
  {
    if els != [] {
      RegisteredKeys(m, els[..|els| - 1], suffix, canvases);
    }
  }

  /** Every element that registers contributes its chart id. */
  lemma {:induction false} RegisteredIdsComplete(els: seq<ConfigElement>, suffix: string, canvases: set<string>, i: nat)
    requires i < |els| && Registers(els[i], suffix, canvases)
    ensures ChartId(els[i].id, suffix) in RegisteredIds(els, suffix, canvases)
    decreases |els|
  {
    if i < |els| - 1 {
      var init := els[..|els| - 1];
      assert init[i] == els[i];
      RegisteredIdsComplete(init, suffix, canvases, i);
    }
  }

  /** Every registered id comes from an element that registers. */
  lemma {:induction false} RegisteredIdsSound(els: seq<ConfigElement>, suffix: string, canvases: set<string>, k: string)
    requires k in RegisteredIds(els, suffix, canvases)
    ensures exists i :: 0 <= i < |els| && Registers(els[i], suffix, canvases) && ChartId(els[i].id, suffix) == k
    decreases |els|
  {
    var init := els[..|els| - 1];
    if k in RegisteredIds(init, suffix, canvases) {
      RegisteredIdsSound(init, suffix, canvases, k);
      var i :| 0 <= i < |init| && Registers(init[i], suffix, canvases) && ChartId(init[i].id, suffix) == k;
      assert els[i] == init[i];
    } else {
      assert Registers(els[|els| - 1], suffix, canvases) && ChartId(els[|els| - 1].id, suffix) == k;
    }
  }

  /** The last element registering an id decides its chart. */
  lemma {:induction false} RegisteredLastWins(m: map<string, ChartData>, els: seq<ConfigElement>, suffix: string,
                                              canvases: set<string>, i: nat)
    requires i < |els| && Registers(els[i], suffix, canvases)
    requires forall j :: i < j < |els| ==> !(Registers(els[j], suffix, canvases) && ChartId(els[j].id, suffix) == ChartId(els[i].id, suffix))
    ensures var k := ChartId(els[i].id, suffix);
      k in Registered(m, els, suffix, canvases) && Registered(m, els, suffix, canvases)[k] == els[i].parsed.value
    decreases |els|
  {
    if i < |els| - 1 {
      var init := els[..|els| - 1];
      assert init[i] == els[i];
      forall j | i < j < |init|
        ensures !(Registers(init[j], suffix, canvases) && ChartId(init[j].id, suffix) == ChartId(init[i].id, suffix))
      {
        assert init[j] == els[j];
      }
      RegisteredLastWins(m, init, suffix, canvases, i);
    }
  }

  /** `chart.data` and `chart.options` after `mettreAJourGraphique`: labels and datasets are
      replaced only when given, options are merged with `Object.assign`. */
  function Updated(c: ChartData, labels: Option<seq<Value>>, datasets: Option<seq<Dataset>>,
                   options: Option<map<string, Value>>): (u: ChartData)
    ensures u.labels == labels.GetOr(c.labels) && u.datasets == datasets.GetOr(c.datasets)
    ensures options.None? ==> u.options == c.options
    ensures options.Some? ==> u.options.Keys == c.options.Keys + options.value.Keys
    ensures options.Some? ==> forall k :: k in options.value ==> u.options[k] == options.value[k]
    ensures options.Some? ==> forall k :: k in c.options && k !in options.value ==> u.options[k] == c.options[k]
  {
    ChartData(labels.GetOr(c.labels), datasets.GetOr(c.datasets),
              if options.Some? then c.options + options.value else c.options)
  }

  /** Updating with nothing new leaves the chart as it is. */
  lemma {:induction false} UpdatedNothing(c: ChartData)
    ensures Updated(c, None, None, None) == c
  {
  }

  /**
   * `window.chartInstances` is a plain object literal: an id the registry does not hold but
   * `Object.prototype` does finds that inherited member, which is truthy and has no `data`,
   * `options`, `update` or `destroy`, so the handlers below throw a `TypeError` on it.
   */
  predicate InheritedOnly(charts: map<string, ChartData>, chartId: string)
  {
    chartId !in charts && chartId in InheritedKeys
  }

  /** On a fresh page 'constructor' is such an id, while a registered id never is. */
  lemma {:induction false} InheritedOnlyCases(charts: map<string, ChartData>, chartId: string)
    ensures InheritedOnly(map[], "constructor")
    ensures chartId in charts ==> !InheritedOnly(charts, chartId)
    ensures chartId !in InheritedKeys ==> !InheritedOnly(charts, chartId)
  {
    assert "constructor" in InheritedKeys;
  }

  class ChartRegistry {
    var charts: map<string, ChartData>

    /** `window.chartInstances = window.chartInstances || {}` on a fresh page. */
    constructor()
      ensures charts == map[]
    {
      charts := map[];
    }

    /** `initAllCharts` (suffix "-config") and `initAllMiniCharts` (suffix "-mini-config"). */
    method InitCharts(els: seq<ConfigElement>, suffix: string, canvases: set<string>)
      modifies this
      ensures charts == Registered(old(charts), els, suffix, canvases)
    {
      var i := 0;
      while i < |els|
        invariant 0 <= i <= |els|
        invariant charts == Registered(old(charts), els[..i], suffix, canvases)
      {
        var e := els[i];
        assert els[..i + 1][..i] == els[..i];
        if EndsWith(e.id, suffix) {
          var chartId := ChartId(e.id, suffix);
          if chartId in canvases && e.text != "" {
            match e.parsed
            case Some(config) =>
              charts := charts[chartId := config];
            case None =>
          }
        }
        i := i + 1;
      }
      assert els[..i] == els;
    }

    /**
     * `mettreAJourGraphique`: a no-op for an unknown id; an inherited id throws on its first
     * access to `chart.data`, `chart.options` or `chart.update`, before any change.
     */
    method MettreAJour(chartId: string, labels: Option<seq<Value>>, datasets: Option<seq<Dataset>>,
                       options: Option<map<string, Value>>) returns (thrown: bool)
      modifies this
      ensures thrown <==> InheritedOnly(old(charts), chartId)
      ensures chartId !in old(charts) ==> charts == old(charts)
      ensures chartId in old(charts) ==> charts == old(charts)[chartId := Updated(old(charts)[chartId], labels, datasets, options)]
    {
      thrown := InheritedOnly(charts, chartId);
      if chartId in charts {
        var c := charts[chartId];
        if labels.Some? {
          c := c.(labels := labels.value);
        }
        if datasets.Some? {
          c := c.(datasets := datasets.value);
        }
        if options.Some? {
          c := c.(options := c.options + options.value);
        }
        charts := charts[chartId := c];
      }
    }

    /**
     * `detruireGraphique`: the id leaves the registry, every other chart stays; an inherited id
     * throws at `chart.destroy()`, which leaves the registry as it was.
     */
    method Detruire(chartId: string) returns (thrown: bool)
      modifies this
      ensures thrown <==> InheritedOnly(old(charts), chartId)
      ensures charts == old(charts) - {chartId}
      ensures chartId !in charts && forall k :: k in old(charts) && k != chartId ==> k in charts && charts[k] == old(charts)[k]
    {
      thrown := InheritedOnly(charts, chartId);
      if chartId in charts {
        charts := charts - {chartId};
      }
    }

    /** `creerGraphiqueDynamique`: a canvas `<container>-chart` is added and its chart registered;
        nothing happens when the container is missing. */
    method CreerDynamique(containerId: string, containers: set<string>, config: ChartData) returns (canvasId: Option<string>)
      modifies this
      ensures containerId !in containers ==> canvasId == None && charts == old(charts)
      ensures containerId in containers ==>
        canvasId == Some(containerId + "-chart") && charts == old(charts)[containerId + "-chart" := config]
    {
      if containerId !in containers {
        return None;
      }
      var id := containerId + "-chart";
      charts := charts[id := config];
      return Some(id);
    }

    /**
     * `exporterGraphiqueCSV`: the CSV text of a registered chart, nothing for an unknown id; an
     * inherited id throws at `data.datasets`, so no text is built.
     */
    method ExporterCsv(chartId: string) returns (csv: Option<string>, thrown: bool)
      ensures thrown <==> InheritedOnly(charts, chartId)
      ensures chartId !in charts ==> csv == None
      ensures chartId in charts ==> csv == Some(CsvText(charts[chartId]))
    {
      thrown := InheritedOnly(charts, chartId);
      if chartId !in charts {
        return None, thrown;
      }
      var c := charts[chartId];
      var out := BuildHeader(c.datasets);
      out := out + "\n";
      var i := 0;
      while i < |c.labels|
        invariant 0 <= i <= |c.labels|
        invariant out == CsvUpTo(c, i)
      {
        var row := BuildRow(c, i);
        out := out + row + "\n";
        i := i + 1;
      }
      return Some(out), thrown;
    }
  }

  /** The header line: 'Label', then each dataset's label or 'Dataset'. */
  method BuildHeader(ds: seq<Dataset>) returns (out: string)
    ensures out == HeaderLine(ds)
  {
    out := "Label";
    var cells := HeaderCells(ds);
    var j := 0;
    while j < |ds|
      invariant 0 <= j <= |ds|
      invariant out == "Label" + Prefixed(cells[..j], ',')
    {
      PrefixedSnoc(cells[..j], cells[j], ',');
      assert cells[..j + 1] == cells[..j] + [cells[j]];
      out := out + "," + OrText(ds[j].legend, "Dataset");
      j := j + 1;
    }
    assert cells[..j] == cells;
  }

  /** The line of label `i`: the label, then each dataset's value at `i` or nothing. */
  method BuildRow(c: ChartData, i: nat) returns (row: string)
    requires i < |c.labels|
    ensures row == RowLine(c, i)
  {
    row := ValueText(c.labels[i]);
    var cells := RowCells(c.datasets, i);
    var j := 0;
    while j < |c.datasets|
      invariant 0 <= j <= |c.datasets|
      invariant row == ValueText(c.labels[i]) + Prefixed(cells[..j], ',')
    {
      PrefixedSnoc(cells[..j], cells[j], ',');
      assert cells[..j + 1] == cells[..j] + [cells[j]];
      row := row + "," + OrText(DataAt(c.datasets[j], i), "");
      j := j + 1;
    }
    assert cells[..j] == cells;
  }

  // ---------------------------------------------------------------------------
  // The gauge colour

  /** A `color_ranges` entry: bounds in percent. */
  datatype ColorRange = ColorRange(min: JsNumber, max: JsNumber, color: string)

  const Rouge := "#dc3545"
  const Jaune := "#ffc107"
  const Vert := "#28a745"

  /** `percentage >= range.min / 100 && percentage <= range.max / 100`. */
  predicate InRange(p: JsNumber, range: ColorRange)
  {
    LessEq(Div(range.min, Finite(100.0)), p) && LessEq(p, Div(range.max, Finite(100.0)))
  }

  /** The colour of the last range containing `p`. */
  function LastMatch(p: JsNumber, ranges: seq<ColorRange>): Option<string>
    decreases |ranges|
  {
    if ranges == [] then None
    else if InRange(p, ranges[|ranges| - 1]) then Some(ranges[|ranges| - 1].color)
    else LastMatch(p, ranges[..|ranges| - 1])
  }

  /** The fallback scale: red below one half, yellow below 0.8, green otherwise. */
  function Threshold(p: JsNumber): string
  {
    if Less(p, Finite(0.5)) then Rouge else if Less(p, Finite(0.8)) then Jaune else Vert
  }

  function GaugeColourOf(p: JsNumber, ranges: Option<seq<ColorRange>>): string
  {
    if ranges.Some? && |ranges.value| > 0 then LastMatch(p, ranges.value).GetOr(Vert) else Threshold(p)
  }

  /** The stroke colour `drawGauge` picks for `valeur / max_value`. */
  method GaugeColour(valeur: JsNumber, maxValue: JsNumber, ranges: Option<seq<ColorRange>>) returns (colour: string)
    ensures colour == GaugeColourOf(Div(valeur, maxValue), ranges)
  {
    var percentage := Div(valeur, maxValue);
    colour := Vert;
    if ranges.Some? && |ranges.value| > 0 {
      var rs := ranges.value;
      var i := 0;
      while i < |rs|
        invariant 0 <= i <= |rs|
        invariant colour == LastMatch(percentage, rs[..i]).GetOr(Vert)
      {
        assert rs[..i + 1][..i] == rs[..i];
        if InRange(percentage, rs[i]) {
          colour := rs[i].color;
        }
        i := i + 1;
      }
      assert rs[..i] == rs;
    } else {
      if Less(percentage, Finite(0.5)) {
        colour := Rouge;
      } else if Less(percentage, Finite(0.8)) {
        colour := Jaune;
      } else {
        colour := Vert;
      }
    }
  }

  /** Some range contains `p` iff a colour is found, and then it is the last such range's colour. */
  lemma {:induction false} LastMatchIsLast(p: JsNumber, ranges: seq<ColorRange>)
    ensures LastMatch(p, ranges).Some? <==> exists i :: 0 <= i < |ranges| && InRange(p, ranges[i])
    ensures forall i ::
              (0 <= i < |ranges| && InRange(p, ranges[i]) && forall j :: i < j < |ranges| ==> !InRange(p, ranges[j])) ==>
                LastMatch(p, ranges) == Some(ranges[i].color)
    decreases |ranges|
  {
    if ranges != [] {
      var init := ranges[..|ranges| - 1];
      LastMatchIsLast(p, init);
      assert forall i :: 0 <= i < |init| ==> init[i] == ranges[i];
    }
  }

  /** Rank of a fallback colour on the red-yellow-green scale. */
  function Rank(c: string): nat
  {
    if c == Rouge then 0 else if c == Jaune then 1 else 2
  }

  /** A larger finite percentage never gets a worse fallback colour; NaN (0 / 0) shows green. */
  lemma {:induction false} ThresholdMonotone(x: real, y: real)
    requires x <= y
    ensures Rank(Threshold(Finite(x))) <= Rank(Threshold(Finite(y)))
    ensures Threshold(NaN) == Vert
  {
  }

  // ---------------------------------------------------------------------------
  // Palettes

  const Defaut := ["#FF6384", "#36A2EB", "#FFCE56", "#4BC0C0", "#9966FF", "#FF9F40"]

  const Palettes: map<string, seq<string>> := map[
    "defaut" := Defaut,
    "pastel" := ["#FFB6C1", "#87CEEB", "#DDA0DD", "#98FB98", "#F0E68C", "#FFA07A"],
    "vive" := ["#FF4500", "#32CD32", "#FF1493", "#00CED1", "#FFD700", "#8A2BE2"],
    "professionnelle" := ["#2E86AB", "#A23B72", "#F18F01", "#C73E1D", "#3D1A78", "#4F5902"]
  ]

  /** JavaScript's `a % n` on integers: the remainder takes the sign of `a`. */
  function JsRemainder(a: int, n: nat): (r: int)
    requires n > 0
    ensures a >= 0 ==> r == a % n
    ensures -(n as int) < r < n
  {
    if a >= 0 then a % n else -((-a) % n)
  }

  /**
   * The names a plain object literal inherits from `Object.prototype`. Looking one of them up
   * finds a function (or, for `__proto__`, the prototype itself): truthy, so `||` keeps it, and
   * without the indexed colours a palette has.
   */
  const InheritedKeys: set<string> := {
    "constructor", "hasOwnProperty", "isPrototypeOf", "propertyIsEnumerable", "toLocaleString",
    "toString", "valueOf", "__defineGetter__", "__defineSetter__", "__lookupGetter__",
    "__lookupSetter__", "__proto__"}

  /** What `PALETTES_COULEURS[palette] || PALETTES_COULEURS.defaut` evaluates to. */
  datatype PaletteLookup = Colours(colours: seq<string>) | InheritedMember

  /** A listed palette, an inherited member, or the default palette for any other name. */
  function PaletteOf(name: string): (p: PaletteLookup)
    ensures p.InheritedMember? <==> name in InheritedKeys
    ensures p.Colours? ==> |p.colours| == 6
    ensures name in Palettes ==> p == Colours(Palettes[name])
    ensures name !in Palettes && name !in InheritedKeys ==> p == Colours(Defaut)
  {
    if name in Palettes then Colours(Palettes[name])
    else if name in InheritedKeys then InheritedMember
    else Colours(Defaut)
  }

  /**
   * `obtenirCouleur(index, palette)`: undefined (None) for a negative index that is not a multiple
   * of 6, and for an inherited member, which has no property at `index % length` (its `length` is
   * a function's arity or missing, so the index is NaN or a number the function has no entry for).
   */
  function ObtenirCouleur(index: int, palette: string): (c: Option<string>)
    ensures index >= 0 && palette !in InheritedKeys ==> c == Some(PaletteOf(palette).colours[index % 6])
    ensures c.None? <==> palette in InheritedKeys || JsRemainder(index, 6) < 0
  {
    match PaletteOf(palette)
    case InheritedMember => None
    case Colours(couleurs) =>
      var k := JsRemainder(index, |couleurs|);
      if 0 <= k then Some(couleurs[k]) else None
  }

  /**
   * The colours repeat every six indices, an unknown palette name means the default one, and a
   * name inherited from `Object.prototype` gives no colour at all.
   */
  lemma {:induction false} ObtenirCouleurCycles(index: nat, palette: string)
    ensures ObtenirCouleur(index + 6, palette) == ObtenirCouleur(index, palette)
    ensures palette !in Palettes && palette !in InheritedKeys ==>
      ObtenirCouleur(index, palette) == ObtenirCouleur(index, "defaut")
    ensures palette in InheritedKeys ==> ObtenirCouleur(index, palette).None?
  {
  }

  // ---------------------------------------------------------------------------
  // Hex colours

  datatype Rgb = Rgb(r: nat, g: nat, b: nat)

  predicate IsHexDigit(c: char)
  {
    ('0' <= c <= '9') || ('a' <= c <= 'f') || ('A' <= c <= 'F')
  }

  function HexValue(c: char): (v: nat)
    requires IsHexDigit(c)
    ensures v < 16
  {
    if '0' <= c <= '9' then (c as int - '0' as int) as nat
    else if 'a' <= c <= 'f' then (c as int - 'a' as int + 10) as nat
    else (c as int - 'A' as int + 10) as nat
  }

  /** `/^#?([a-f\d]{2})([a-f\d]{2})([a-f\d]{2})$/i`: an optional '#' then exactly six hex digits. */
  predicate IsHexColour(s: string)
  {
    (|s| == 6 && forall i :: 0 <= i < 6 ==> IsHexDigit(s[i])) ||
    (|s| == 7 && s[0] == '#' && forall i :: 1 <= i < 7 ==> IsHexDigit(s[i]))
  }

  /** The six digits of a hex colour. */
  function HexBody(s: string): (d: string)
    requires IsHexColour(s)
    ensures |d| == 6 && forall i :: 0 <= i < 6 ==> IsHexDigit(d[i])
  {
    if |s| == 7 then s[1..] else s
  }

  function PairValue(a: char, b: char): (v: nat)
    requires IsHexDigit(a) && IsHexDigit(b)
    ensures v < 256
  {
    HexValue(a) * 16 + HexValue(b)
  }

  /** `hexVersRgb`: the three channels of a hex colour, black for anything else. */
  function HexVersRgb(hex: string): (c: Rgb)
    ensures c.r < 256 && c.g < 256 && c.b < 256
    ensures !IsHexColour(hex) ==> c == Rgb(0, 0, 0)
  {
    if IsHexColour(hex) then
      var d := HexBody(hex);
      Rgb(PairValue(d[0], d[1]), PairValue(d[2], d[3]), PairValue(d[4], d[5]))
    else Rgb(0, 0, 0)
  }

  function HexDigit(v: nat): (c: char)
    requires v < 16
    ensures IsHexDigit(c) && HexValue(c) == v
  {
    "0123456789abcdef"[v]
  }

  function HexPair(v: nat): (s: string)
    requires v < 256
    ensures |s| == 2 && IsHexDigit(s[0]) && IsHexDigit(s[1]) && PairValue(s[0], s[1]) == v
  {
    [HexDigit(v / 16), HexDigit(v % 16)]
  }

  /** `#rrggbb` in lower case. */
  function RgbToHex(c: Rgb): string
    requires c.r < 256 && c.g < 256 && c.b < 256
  {
    "#" + HexPair(c.r) + HexPair(c.g) + HexPair(c.b)
  }

  /** Parsing a rendered colour gives the colour back, with or without the '#'. */
  lemma {:induction false} HexRoundTrip(c: Rgb)
    requires c.r < 256 && c.g < 256 && c.b < 256
    ensures HexVersRgb(RgbToHex(c)) == c
    ensures HexVersRgb(RgbToHex(c)[1..]) == c
  {
    var h := RgbToHex(c);
    assert h[1..] == HexPair(c.r) + HexPair(c.g) + HexPair(c.b);
    assert IsHexColour(h);
    assert IsHexColour(h[1..]);
  }

  /** Rendering a parsed colour gives the input's digits in lower case. */
  lemma {:induction false} HexCanonical(hex: string)
    requires IsHexColour(hex)
    ensures RgbToHex(HexVersRgb(hex)) == "#" + LowerHex(HexBody(hex))
  {
    var d := HexBody(hex);
    PairDigits(d[0], d[1]);
    PairDigits(d[2], d[3]);
    PairDigits(d[4], d[5]);
    var l := LowerHex(d);
    assert l == [l[0], l[1]] + [l[2], l[3]] + [l[4], l[5]];
  }

  /** The lower-case form of a hex digit string. */
  function LowerHex(d: string): (l: string)
    ensures |l| == |d| && forall i :: 0 <= i < |d| ==> l[i] == LowerChar(d[i])
  {
    Lower(d)
  }

  lemma {:induction false} DivMod16(h: nat, l: nat)
    requires h < 16 && l < 16
    ensures (h * 16 + l) / 16 == h && (h * 16 + l) % 16 == l
  {
  }

  /** The digit rendered for a hex digit's value is that digit in lower case. */
  lemma {:induction false} HexDigitLower(c: char)
    requires IsHexDigit(c)
    ensures HexDigit(HexValue(c)) == LowerChar(c)
  {
  }

  lemma {:induction false} PairDigits(a: char, b: char)
    requires IsHexDigit(a) && IsHexDigit(b)
    ensures HexPair(PairValue(a, b)) == [LowerChar(a), LowerChar(b)]
  {
    var h, l := HexValue(a), HexValue(b);
    DivMod16(h, l);
    var v := PairValue(a, b);
    assert v == h * 16 + l;
    assert v / 16 == h && v % 16 == l;
    assert HexPair(v) == [HexDigit(h), HexDigit(l)];
    HexDigitLower(a);
    HexDigitLower(b);
  }

  // ---------------------------------------------------------------------------
  // Gradients

  /** `Math.round(x)`: the nearest integer, halves upwards. */
  function JsRound(x: real): int
  {
    (x + 0.5).Floor
  }

  /** The factor of the `i`-th of `n` gradient colours. */
  function Facteur(i: nat, n: int): real
    requires n > 0
  {
    0.8 + 0.4 * ((i as real) / (n as real))
  }

  /** `Math.round(channel * facteur)`. */
  function Scaled(channel: nat, facteur: real): int
  {
    JsRound(channel as real * facteur)
  }

  /** The three rounded channels of a gradient colour. */
  datatype Channels = Channels(r: int, g: int, b: int)

  function RgbText(c: Channels): string
  {
    "rgb(" + IntToString(c.r) + ", " + IntToString(c.g) + ", " + IntToString(c.b) + ")"
  }

  function Tint(base: Rgb, i: nat, n: int): Channels
    requires n > 0
  {
    var facteur := Facteur(i, n);
    Channels(Scaled(base.r, facteur), Scaled(base.g, facteur), Scaled(base.b, facteur))
  }

  function DegradeColour(base: Rgb, i: nat, n: int): string
    requires n > 0
  {
    RgbText(Tint(base, i, n))
  }

  /** `genererDegrade`: `nombre` colours (none when it is not positive). */
  method GenererDegrade(couleurBase: string, nombre: int) returns (couleurs: seq<string>)
    ensures |couleurs| == if nombre > 0 then nombre else 0
    ensures forall i :: 0 <= i < |couleurs| ==> nombre > 0 && couleurs[i] == DegradeColour(HexVersRgb(couleurBase), i, nombre)
  {
    var base := HexVersRgb(couleurBase);
    couleurs := Degrade(base, nombre);
  }

  /** The loop of `genererDegrade` over the parsed base colour. */
  method Degrade(base: Rgb, nombre: int) returns (couleurs: seq<string>)
    ensures |couleurs| == if nombre > 0 then nombre else 0
    ensures forall i :: 0 <= i < |couleurs| ==> nombre > 0 && couleurs[i] == DegradeColour(base, i, nombre)
  {
    couleurs := [];
    ghost var tints: seq<Channels> := [];
    var i: nat := 0;
    while i < nombre
      invariant 0 <= i && (nombre > 0 ==> i <= nombre) && (nombre <= 0 ==> i == 0)
      invariant |tints| == i && couleurs == MapSeq(RgbText, tints)
      invariant nombre > 0 ==> tints == TintList(base, i, nombre)
    {
      var c := TintStep(base, i, nombre);
      assert (tints + [c])[..|tints|] == tints;
      couleurs := couleurs + [RgbText(c)];
      tints := tints + [c];
      i := i + 1;
    }
    if nombre > 0 {
      TintListAt(base, i, nombre);
    }
  }

  /** One step of the loop: the factor, then the three rounded channels. */
  method TintStep(base: Rgb, i: nat, nombre: int) returns (c: Channels)
    requires nombre > 0
    ensures c == Tint(base, i, nombre)
  {
    var facteur := 0.8 + 0.4 * ((i as real) / (nombre as real));
    var r := JsRound(base.r as real * facteur);
    var g := JsRound(base.g as real * facteur);
    var b := JsRound(base.b as real * facteur);
    c := Channels(r, g, b);
  }

  /** The channels of the first `k` gradient colours. */
  function TintList(base: Rgb, k: nat, n: int): seq<Channels>
    requires n > 0
  {
    if k == 0 then [] else TintList(base, k - 1, n) + [Tint(base, k - 1, n)]
  }

  lemma {:induction false} TintListAt(base: Rgb, k: nat, n: int)
    requires n > 0
    ensures |TintList(base, k, n)| == k
    ensures forall i :: 0 <= i < k ==> TintList(base, k, n)[i] == Tint(base, i, n)
  {
    if k > 0 {
      TintListAt(base, k - 1, n);
    }
  }

  lemma {:induction false} FloorMonotone(x: real, y: real)
    requires x <= y
    ensures x.Floor <= y.Floor
  {
  }

  lemma {:induction false} MulMonotone(c: real, a: real, b: real)
    requires c >= 0.0 && a <= b
    ensures c * a <= c * b
  {
  }

  /** Rounding a scaled channel is monotone in the factor. */
  lemma {:induction false} RoundMonotone(c: real, a: real, b: real)
    requires c >= 0.0 && a <= b
    ensures JsRound(c * a) <= JsRound(c * b)
  {
    MulMonotone(c, a, b);
    FloorMonotone(c * a + 0.5, c * b + 0.5);
  }

  lemma {:induction false} DivideStrict(a: real, b: real, q: real)
    requires q > 0.0 && a < b
    ensures a / q < b / q
  {
    var x, y := a / q, b / q;
    assert x * q == a && y * q == b;
    if x >= y {
      MulMonotone(q, y, x);
      assert false;
    }
  }

  lemma {:induction false} FractionBounds(i: nat, j: nat, n: int)
    requires 0 < n && i <= j < n
    ensures (i as real) / (n as real) <= (j as real) / (n as real) < 1.0
  {
    var q := n as real;
    DivideBounds(i as real, i as real, j as real, q);
    DivideStrict(j as real, q, q);
    assert q / q == 1.0;
  }

  /** The first colour of a gradient is the base colour scaled by 0.8. */
  lemma {:induction false} DegradeFirst(n: int)
    requires 0 < n
    ensures Facteur(0, n) == 0.8
  {
    assert (0 as real) / (n as real) == 0.0;
  }

  /** A channel never decreases along the gradient. */
  lemma {:induction false} DegradeMonotone(channel: nat, i: nat, j: nat, n: int)
    requires 0 < n && i <= j < n
    ensures Scaled(channel, Facteur(i, n)) <= Scaled(channel, Facteur(j, n))
  {
    FractionBounds(i, j, n);
    RoundMonotone(channel as real, Facteur(i, n), Facteur(j, n));
  }

  /** Every channel of the gradient stays at most the base channel scaled by 1.2. */
  lemma {:induction false} DegradeBelow(channel: nat, j: nat, n: int)
    requires 0 < n && j < n
    ensures Scaled(channel, Facteur(j, n)) <= Scaled(channel, 1.2)
  {
    FractionBounds(j, j, n);
    RoundMonotone(channel as real, Facteur(j, n), 1.2);
  }
}
