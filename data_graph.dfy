/**
 * The live power graph (`DataGraph`, src/views/graphs.js:29-75). Every sample that arrives
 * becomes one bar, one unit wide, classified against the threshold metric stored at that
 * moment and scaled against a fixed scale. The graph shows at most as many bars as its
 * measured width holds: once that many samples have been drawn, each new bar first pushes
 * the oldest one out.
 */
module DataGraphs {
  import opened Options
  import opened Zones
  import opened Heights

  /** One bar of the graph: its zone, its height in percent and its width in pixels. */
  datatype Bar = Bar(zone: Zone, height: Number, width: nat)

  /** A sample as it was drawn: its value and the threshold metric stored when it arrived. */
  datatype Arrival = Arrival(value: real, metric: real)

  /** The scale used when the element carries no (or an empty) `scale` attribute. */
  const DefaultScale: real := 400.0

  /** The element's scale: its `scale` attribute when present and non-empty, else the default. */
  function ScaleOf(attribute: Option<real>): (scale: real)
    ensures attribute.None? ==> scale == 400.0
    ensures attribute.Some? ==> scale == attribute.value
  {
    match attribute
    case Some(s) => s
    case None => DefaultScale
  }

  /**
   * The bar drawn for one arrival: one unit wide, classified against the metric stored when
   * the sample arrived, and as tall as the sample against the scale. Before any metric has
   * arrived (metric zero), a non-negative sample lands in zone seven.
   */
  function BarOf(scale: real, a: Arrival): (bar: Bar)
    ensures bar.width == 1
    ensures bar.zone == PowerToZone(a.value, a.metric)
    ensures a.metric == 0.0 && a.value >= 0.0 ==> bar.zone == Seven
    ensures scale != 0.0 ==> bar.height.Finite? && bar.height.value * scale == 100.0 * a.value
  {
    Bar(PowerToZone(a.value, a.metric), ValueToHeight(scale, a.value), 1)
  }

  /** The bars of a run of arrivals, drawn one after another; bar `i` belongs to arrival `i`. */
  function BarsOf(scale: real, arrivals: seq<Arrival>): (drawn: seq<Bar>)
    ensures |drawn| == |arrivals|
    ensures forall i :: 0 <= i < |arrivals| ==> drawn[i] == BarOf(scale, arrivals[i])
    decreases |arrivals|
  {
    if arrivals == [] then []
    else BarsOf(scale, arrivals[..|arrivals| - 1]) + [BarOf(scale, arrivals[|arrivals| - 1])]
  }

  function Min(a: nat, b: nat): nat
  {
    if a <= b then a else b
  }

  /**
   * What the graph shows after drawing `history` one item at a time: before each item is
   * appended, the oldest shown item is removed when the number already drawn has reached the
   * width. The number shown never exceeds the width.
   */
  function Slide<T>(history: seq<T>, width: nat): (shown: seq<T>)
    requires width >= 1
    ensures |shown| == Min(|history|, width)
    decreases |history|
  {
    if history == [] then []
    else
      var earlier := Slide(history[..|history| - 1], width);
      (if |history| - 1 >= width then earlier[1..] else earlier) + [history[|history| - 1]]
  }

  /**
   * Eviction is first-in first-out: what is shown is exactly the newest `min(n, width)`
   * items of the `n` drawn, in the order they arrived.
   */
  lemma {:induction false} SlideKeepsNewest<T>(history: seq<T>, width: nat)
    requires width >= 1
    ensures Slide(history, width) == history[|history| - Min(|history|, width)..]
    decreases |history|
  {
    if history != [] {
      var n := |history|;
      var prefix := history[..n - 1];
      var last := history[n - 1];
      SlideKeepsNewest(prefix, width);
      assert Slide(history, width)
          == (if n - 1 >= width then Slide(prefix, width)[1..] else Slide(prefix, width)) + [last];
      if n - 1 >= width {
        assert Slide(prefix, width)[1..] == prefix[n - width..];
        assert prefix[n - width..] + [last] == history[n - width..];
      } else {
        assert Slide(prefix, width) == prefix;
        assert prefix + [last] == history;
      }
    }
  }

  /** Drawing one more item: the step the renderer takes, stated on the whole history. */
  lemma SlidePush<T>(history: seq<T>, width: nat, item: T)
    requires width >= 1
    ensures Slide(history + [item], width)
         == (if |history| >= width then Slide(history, width)[1..] else Slide(history, width)) + [item]
  {
    assert (history + [item])[..|history|] == history;
  }

  /** One more arrival adds its bar at the end. */
  lemma BarsOfPush(scale: real, arrivals: seq<Arrival>, a: Arrival)
    ensures BarsOf(scale, arrivals + [a]) == BarsOf(scale, arrivals) + [BarOf(scale, a)]
  {
    assert (arrivals + [a])[..|arrivals|] == arrivals;
  }

  /**
   * After `n` samples with width `w`, the graph shows `min(n, w)` bars, and its `i`-th bar
   * is the bar of sample `n - min(n, w) + i`, classified with the metric of that sample's
   * arrival.
   */
  lemma ShownBars(scale: real, arrivals: seq<Arrival>, width: nat, i: nat)
    requires width >= 1
    requires i < Min(|arrivals|, width)
    ensures |Slide(BarsOf(scale, arrivals), width)| == Min(|arrivals|, width)
    ensures Slide(BarsOf(scale, arrivals), width)[i]
         == BarOf(scale, arrivals[|arrivals| - Min(|arrivals|, width) + i])
  {
    SlideAt(BarsOf(scale, arrivals), width, i);
  }

  /** Position `i` of what is shown holds item `n - min(n, width) + i` of the `n` drawn. */
  lemma SlideAt<T>(history: seq<T>, width: nat, i: nat)
    requires width >= 1 && i < Min(|history|, width)
    ensures Slide(history, width)[i] == history[|history| - Min(|history|, width) + i]
  {
    SlideKeepsNewest(history, width);
  }

  /**
   * The element. `value`, `metricValue` and `bars` are the source's fields; `children` is the
   * element's list of bar nodes; `arrivals` records, for the proofs, every sample drawn so far.
   * The constructor also does the work of `connectedCallback`: it fixes the scale and the
   * width measured when the element is attached, before any event can arrive.
   */
  class DataGraph {
    var value: real
    var metricValue: real
    var bars: nat
    const scale: real
    const width: nat
    var children: seq<Bar>
    ghost var arrivals: seq<Arrival>

    /** The shown bars are the sliding window over the bars of every sample drawn so far. */
    ghost predicate Valid()
      reads this`bars, this`children, this`arrivals
    {
      && width >= 1
      && bars == |arrivals|
      && children == Slide(BarsOf(scale, arrivals), width)
    }

    constructor (measuredWidth: nat, scaleAttribute: Option<real>)
      requires measuredWidth >= 1
      ensures Valid()
      ensures value == 0.0 && metricValue == 0.0 && bars == 0
      ensures width == measuredWidth && scale == ScaleOf(scaleAttribute)
      ensures children == [] && arrivals == []
    {
      value := 0.0;
      metricValue := 0.0;
      bars := 0;
      scale := ScaleOf(scaleAttribute);
      width := measuredWidth;
      children := [];
      arrivals := [];
    }

    /** A sample arrives: it is stored and drawn. */
    method OnUpdate(sample: real)
      requires Valid()
      modifies this`value, this`children, this`bars, this`arrivals
      ensures Valid()
      ensures value == sample && metricValue == old(metricValue)
      ensures bars == old(bars) + 1
      ensures arrivals == old(arrivals) + [Arrival(sample, metricValue)]
      ensures children == (if old(bars) >= width then old(children)[1..] else old(children))
                          + [BarOf(scale, Arrival(sample, metricValue))]
    {
      ghost var arrival := Arrival(sample, metricValue);
      value := sample;
      assert Arrival(value, metricValue) == arrival;
      Render();
    }

    /** A new threshold metric arrives: it is only stored; bars already drawn keep their zone. */
    method OnMetric(metric: real)
      requires Valid()
      modifies this`metricValue
      ensures Valid()
      ensures metricValue == metric
    {
      metricValue := metric;
    }

    /** Removes the oldest bar. */
    method Shift()
      requires |children| > 0
      modifies this`children
      ensures children == old(children)[1..]
    {
      children := children[1..];
    }

    /**
     * Draws the stored sample: evicts the oldest bar when the number of bars drawn so far has
     * reached the width, then appends a one-unit bar classified with the current metric and
     * scaled against the element's scale.
     */
    method Render()
      requires Valid()
      modifies this`children, this`bars, this`arrivals
      ensures Valid()
      ensures bars == old(bars) + 1
      ensures arrivals == old(arrivals) + [Arrival(value, metricValue)]
      ensures children == (if old(bars) >= width then old(children)[1..] else old(children))
                          + [BarOf(scale, Arrival(value, metricValue))]
    {
      var zone := PowerToZone(value, metricValue);
      var barHeight := ValueToHeight(scale, value);
      if bars >= width {
        Shift();
      }
      children := children + [Bar(zone, barHeight, 1)];
      bars := bars + 1;
      BarsOfPush(scale, arrivals, Arrival(value, metricValue));
      SlidePush(BarsOf(scale, arrivals), width, BarOf(scale, Arrival(value, metricValue)));
      arrivals := arrivals + [Arrival(value, metricValue)];
    }
  }

  /**
   * A graph two bars wide. The first sample arrives before any metric, so it is classified
   * against a metric of zero (zone seven, not the classifier's default FTP); the metric that
   * arrives later changes only the bars drawn after it; the third sample evicts the first.
   */
  method TwoBarGraph() returns (shown: seq<Bar>, drawn: nat)
    ensures drawn == 3
    ensures shown == [Bar(Two, Finite(37.5), 1), Bar(Five, Finite(50.0), 1)]
  {
    var graph := new DataGraph(2, None);
    graph.OnUpdate(100.0);
    assert graph.children == [Bar(Seven, Finite(25.0), 1)];
    graph.OnMetric(200.0);
    assert graph.children == [Bar(Seven, Finite(25.0), 1)];
    graph.OnUpdate(150.0);
    graph.OnUpdate(200.0);
    shown, drawn := graph.children, graph.bars;
  }
}
