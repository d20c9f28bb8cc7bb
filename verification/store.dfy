/** The application store: the selected chart, the registered generators,
    the sample size and the sample the chart draws. */
module Store {
  import opened Values

  /** The chart kinds the application names. */
  datatype ChartType = LinePlot | BarChart | ScatterPlot | PieChart | Histogram | AreaChart | BoxPlot | Heatmap

  /** What a generator card records about itself when it mounts. */
  datatype GeneratorConfig =
    | LinearConfig(id: string, start: int, steps: int)
    | UniformConfig(id: string, min: int, max: int)

  /** The sample size the store starts with; nothing changes it. */
  const DefaultSampleSize: nat := 50

  class DGStore {
    var chart: ChartType
    /** Each entry is the array a card passed to `setNewGenerator`. */
    var generators: seq<seq<GeneratorConfig>>
    var sampleSize: nat
    var sample: Sample

    constructor ()
      ensures chart == LinePlot && generators == [] && sampleSize == DefaultSampleSize
      ensures sample == Sample([], [])
    {
      chart := LinePlot;
      generators := [];
      sampleSize := DefaultSampleSize;
      sample := Sample([], []);
    }

    method SetChart(newChart: ChartType)
      modifies this
      ensures chart == newChart
      ensures generators == old(generators) && sampleSize == old(sampleSize) && sample == old(sample)
    {
      chart := newChart;
    }

    /** Append the new entry, as one element, after the earlier ones. */
    method SetNewGenerator(newGenerator: seq<GeneratorConfig>)
      modifies this
      ensures |generators| == |old(generators)| + 1
      ensures generators[..|old(generators)|] == old(generators)
      ensures generators[|old(generators)|] == newGenerator
      ensures chart == old(chart) && sampleSize == old(sampleSize) && sample == old(sample)
    {
      var gen := generators;
      gen := gen + [newGenerator];
      generators := gen;
    }

    method SetSample(newSample: Sample)
      modifies this
      ensures sample == newSample
      ensures chart == old(chart) && generators == old(generators) && sampleSize == old(sampleSize)
    {
      sample := newSample;
    }
  }

  /** A client's view: no sequence of setter calls moves the sample size off
      its initial value, and generators accumulate in call order. */
  method SettersKeepSampleSize(a: seq<GeneratorConfig>, b: seq<GeneratorConfig>, s: Sample, c: ChartType)
  {
    var store := new DGStore();
    store.SetNewGenerator(a);
    store.SetChart(c);
    store.SetNewGenerator(b);
    store.SetSample(s);
    assert store.generators == [a, b];
    assert store.sampleSize == DefaultSampleSize;
    assert store.chart == c && store.sample == s;
  }
}
