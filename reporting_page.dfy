/**
 * The chart series the reporting page builds from a report: a two-series bar
 * chart by priority and a pie chart of completions by category.
 */
module ReportingPage {
  import opened Wrappers

  /** `{ created, completed }` for one key. */
  datatype Counts = Counts(created: real, completed: real)

  /** A `Record<string, { created, completed }>`, its members in `Object.keys` order. */
  type CountsRecord = seq<(string, Counts)>

  /** The part of a report the two charts read. */
  datatype ChartReport = ChartReport(tasksByPriority: CountsRecord, tasksByCategory: CountsRecord)

  /** A dataset's `backgroundColor`: one colour for every bar, or one per slice. */
  datatype Background = OneColour(colour: string) | Colours(colours: seq<string>)

  datatype Dataset = Dataset(seriesLabel: Option<string>, data: seq<real>, backgroundColor: Background, hoverOffset: Option<int>)

  datatype ChartData = ChartData(labels: seq<string>, datasets: seq<Dataset>)

  const CreatedColour: string := "rgba(75, 192, 192, 0.6)"
  const CompletedColour: string := "rgba(153, 102, 255, 0.6)"
  const PieHoverOffset: int := 4

  const Palette: seq<string> := ["#FF6384", "#36A2EB", "#FFCE56", "#4BC0C0", "#9966FF", "#FF9F40", "#50C878", "#C0C0C0"]

  /** A JavaScript object never has two members with one key. */
  ghost predicate DistinctKeys(r: CountsRecord) {
    forall i, j :: 0 <= i < j < |r| ==> r[i].0 != r[j].0
  }

  /** `Object.keys(record)`. */
  function Keys(r: CountsRecord): (keys: seq<string>)
    ensures |keys| == |r|
    ensures forall i :: 0 <= i < |r| ==> keys[i] == r[i].0
  {
    seq(|r|, i requires 0 <= i < |r| => r[i].0)
  }

  /** `record[key]` for a key the record has. */
  function CountsOf(r: CountsRecord, key: string): Counts
    requires exists i :: 0 <= i < |r| && r[i].0 == key
  {
    if r[0].0 == key then r[0].1
    else
      assert forall i :: 1 <= i < |r| ==> r[i] == r[1..][i - 1];
      CountsOf(r[1..], key)
  }

  /** Reading a record at one of its own keys gives that member's counts. */
  lemma {:induction false} CountsOfAt(r: CountsRecord, i: nat)
    requires i < |r| && DistinctKeys(r)
    ensures CountsOf(r, r[i].0) == r[i].1
  {
    if i > 0 {
      assert r[0].0 != r[i].0;
      CountsOfAt(r[1..], i - 1);
    }
  }

  /** `labels.map(k => record[k].created)`. */
  function CreatedSeries(r: CountsRecord, labels: seq<string>): (data: seq<real>)
    requires labels == Keys(r)
    ensures |data| == |labels|
    ensures forall i :: 0 <= i < |labels| ==> data[i] == CountsOf(r, labels[i]).created
  {
    seq(|labels|, i requires 0 <= i < |labels| => CountsOf(r, labels[i]).created)
  }

  /** `labels.map(k => record[k].completed)`. */
  function CompletedSeries(r: CountsRecord, labels: seq<string>): (data: seq<real>)
    requires labels == Keys(r)
    ensures |data| == |labels|
    ensures forall i :: 0 <= i < |labels| ==> data[i] == CountsOf(r, labels[i]).completed
  {
    seq(|labels|, i requires 0 <= i < |labels| => CountsOf(r, labels[i]).completed)
  }

  function EmptyChart(): ChartData {
    ChartData([], [])
  }

  /** `getPriorityChartData`: one label per priority key, a "Created" and a "Completed" series over them. */
  function PriorityChartData(report: Option<ChartReport>): (r: ChartData)
    ensures report.None? ==> r == EmptyChart()
    ensures report.Some? ==>
      && r.labels == Keys(report.value.tasksByPriority)
      && |r.datasets| == 2
      && r.datasets[0] == Dataset(Some("Created"), CreatedSeries(report.value.tasksByPriority, r.labels), OneColour(CreatedColour), None)
      && r.datasets[1] == Dataset(Some("Completed"), CompletedSeries(report.value.tasksByPriority, r.labels), OneColour(CompletedColour), None)
  {
    match report
    case None => EmptyChart()
    case Some(rep) =>
      var labels := Keys(rep.tasksByPriority);
      ChartData(labels, [
        Dataset(Some("Created"), CreatedSeries(rep.tasksByPriority, labels), OneColour(CreatedColour), None),
        Dataset(Some("Completed"), CompletedSeries(rep.tasksByPriority, labels), OneColour(CompletedColour), None)
      ])
  }

  /** Bar i of each series shows the counts of the priority at label i. */
  lemma {:induction false} PriorityBarsMatchLabels(rep: ChartReport)
    requires DistinctKeys(rep.tasksByPriority)
    ensures var chart := PriorityChartData(Some(rep));
      && |chart.datasets[0].data| == |chart.labels| == |chart.datasets[1].data|
      && forall i :: 0 <= i < |chart.labels| ==>
           && chart.labels[i] == rep.tasksByPriority[i].0
           && chart.datasets[0].data[i] == rep.tasksByPriority[i].1.created
           && chart.datasets[1].data[i] == rep.tasksByPriority[i].1.completed
  {
    forall i | 0 <= i < |rep.tasksByPriority| {
      CountsOfAt(rep.tasksByPriority, i);
    }
  }

  /** `backgroundColors.slice(0, n)`. */
  function PaletteFor(n: nat): (colours: seq<string>)
    ensures |colours| == if n < |Palette| then n else |Palette|
    ensures colours <= Palette
  {
    if n < |Palette| then Palette[..n] else Palette
  }

  /** `getCategoryPieChartData`: one slice per category key, sized by its completions, coloured from the palette. */
  function CategoryPieChartData(report: Option<ChartReport>): (r: ChartData)
    ensures report.None? ==> r == EmptyChart()
    ensures report.Some? ==>
      && r.labels == Keys(report.value.tasksByCategory)
      && |r.datasets| == 1
      && r.datasets[0] == Dataset(None, CompletedSeries(report.value.tasksByCategory, r.labels), Colours(PaletteFor(|r.labels|)), Some(PieHoverOffset))
  {
    match report
    case None => EmptyChart()
    case Some(rep) =>
      var labels := Keys(rep.tasksByCategory);
      ChartData(labels, [Dataset(None, CompletedSeries(rep.tasksByCategory, labels), Colours(PaletteFor(|labels|)), Some(PieHoverOffset))])
  }

  /**
   * Slice i shows the completions of the category at label i; up to eight
   * categories get distinct colours, and from the ninth on the palette is exhausted.
   */
  lemma {:induction false} PieSlicesMatchLabels(rep: ChartReport)
    requires DistinctKeys(rep.tasksByCategory)
    ensures var pie := CategoryPieChartData(Some(rep));
      && |pie.datasets[0].data| == |pie.labels|
      && (forall i :: 0 <= i < |pie.labels| ==> pie.datasets[0].data[i] == rep.tasksByCategory[i].1.completed)
      && (forall i, j :: 0 <= i < j < |pie.datasets[0].backgroundColor.colours| ==>
            pie.datasets[0].backgroundColor.colours[i] != pie.datasets[0].backgroundColor.colours[j])
      && (|pie.labels| <= 8 <==> |pie.datasets[0].backgroundColor.colours| == |pie.labels|)
  {
    forall i | 0 <= i < |rep.tasksByCategory| {
      CountsOfAt(rep.tasksByCategory, i);
    }
  }
}
