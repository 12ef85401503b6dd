/**
 * The planned-workout graph (`intervalsToGraph`, src/views/graphs.js:81-105, and the element
 * `WorkoutGraph`, src/views/graphs.js:107-151). A workout is a list of intervals, each a list
 * of steps whose power is a fraction of the rider's FTP. Every interval becomes a group as
 * wide as its duration in seconds, and every step a segment of that group: an equal share of
 * the group's width, as tall as its wattage against 1.6 times the FTP, coloured by its zone.
 * The element rebuilds the whole graph whenever the workout or the FTP changes.
 */
module WorkoutGraphs {
  import opened Options
  import opened Zones
  import opened Heights

  /** A step: its power as a fraction of FTP (0 for a free ride) and its duration in seconds. */
  datatype Step = Step(power: real, duration: real)

  /** An interval: its duration in seconds and its steps, in order. */
  datatype Interval = Interval(duration: real, steps: seq<Step>)

  datatype Workout = Workout(intervals: seq<Interval>)

  /** The power shown on a segment: "Free ride", or a whole number of watts. */
  datatype PowerLabel = FreeRide | Watts(watts: int)

  /**
   * One step as drawn: zone, height (percent of the group), width (percent of the group),
   * power label and unit, and the step's duration in seconds, which the renderer formats.
   */
  datatype Segment = Segment(
    zone: Zone,
    height: Number,
    width: real,
    infoPower: PowerLabel,
    infoPowerUnit: string,
    seconds: real)

  /** One interval as drawn: its width in pixels and its segments, in step order. */
  datatype Group = Group(width: int, segments: seq<Segment>)

  /** The graph's full height corresponds to this multiple of FTP, so hard steps do not clip. */
  const Headroom: real := 1.6

  /** The value whose height a free-ride step is drawn at, to keep it visible. */
  const FreeRideValue: real := 80.0

  /** `parseInt` applied to a number: its integer part, cutting towards zero. */
  function Truncate(x: real): (n: int)
    ensures x >= 0.0 ==> 0 <= n && n as real <= x < n as real + 1.0
    ensures x < 0.0 ==> n <= 0 && n as real - 1.0 < x <= n as real
  {
    if x >= 0.0 then x.Floor else -((-x).Floor)
  }

  /** `Math.round`: the nearest integer, halves going up. */
  function Round(x: real): (n: int)
    ensures n as real - 0.5 <= x < n as real + 0.5
  {
    (x + 0.5).Floor
  }

  /**
   * The width of an interval's group: at least one pixel, and otherwise the duration rounded
   * to the nearest whole second.
   */
  function GroupWidth(duration: real): (w: int)
    ensures w >= 1
    ensures duration < 1.0 ==> w == 1
    ensures duration >= 1.0 ==> w as real - 0.5 <= duration < w as real + 0.5
  {
    if duration < 1.0 then 1 else Round(duration)
  }

  /** The integer part is zero exactly for the numbers strictly between -1 and 1. */
  lemma TruncateZero(x: real)
    ensures Truncate(x) == 0 <==> -1.0 < x < 1.0
  {
    var n := Truncate(x);
    if x < 0.0 && n != 0 {
      assert n <= -1;
    }
  }

  /** The wattage of a step: FTP times the step's fraction, cut to a whole number. */
  function StepWatts(step: Step, ftp: real): (watts: int)
    ensures ftp * step.power >= 0.0 ==> 0 <= watts && watts as real <= ftp * step.power < watts as real + 1.0
    ensures ftp * step.power < 0.0 ==> watts <= 0 && watts as real - 1.0 < ftp * step.power <= watts as real
  {
    Truncate(ftp * step.power)
  }

  /**
   * A step's height: its wattage (80 for a free ride) against 1.6 times the FTP. With no FTP
   * yet (zero), the division by a zero scale makes every step infinitely tall.
   */
  function StepHeight(step: Step, ftp: real): (h: Number)
    ensures ftp != 0.0 ==> (h.Finite? &&
      h.value * (ftp * 1.6) == 100.0 * (if StepWatts(step, ftp) == 0 then 80.0 else StepWatts(step, ftp) as real))
    ensures ftp == 0.0 ==> h == PositiveInfinity
  {
    var power := StepWatts(step, ftp);
    ValueToHeight(ftp * Headroom, if power == 0 then FreeRideValue else power as real)
  }

  /**
   * A step's power label: "Free ride" exactly when FTP times the fraction is strictly between
   * -1 and 1 W; otherwise its non-zero wattage.
   */
  function StepLabel(step: Step, ftp: real): (shown: PowerLabel)
    ensures shown == FreeRide <==> -1.0 < ftp * step.power < 1.0
    ensures shown.Watts? ==> shown.watts == StepWatts(step, ftp) != 0
  {
    TruncateZero(ftp * step.power);
    var power := StepWatts(step, ftp);
    if power == 0 then FreeRide else Watts(power)
  }

  /**
   * The segment drawn for one of `stepsCount` steps of an interval: `stepsCount` of them fill
   * the group; its zone is that of the whole-watt power; its unit is empty for a free ride and
   * "W" otherwise; it carries the step's duration.
   */
  function StepToSegment(step: Step, stepsCount: nat, ftp: real): (segment: Segment)
    requires stepsCount > 0
    ensures segment.width * stepsCount as real == 100.0
    ensures segment.zone == PowerToZone(StepWatts(step, ftp) as real, ftp)
    ensures segment.height == StepHeight(step, ftp) && segment.infoPower == StepLabel(step, ftp)
    ensures segment.infoPowerUnit == (if segment.infoPower == FreeRide then "" else "W")
    ensures segment.seconds == step.duration
  {
    var power := StepWatts(step, ftp);
    Segment(
      PowerToZone(power as real, ftp),
      StepHeight(step, ftp),
      100.0 / stepsCount as real,
      StepLabel(step, ftp),
      if power == 0 then "" else "W",
      step.duration)
  }

  /**
   * The segments of `steps`, drawn one after another, each one of `stepsCount` equal shares;
   * segment `i` is drawn from step `i`.
   */
  function StepsToSegments(steps: seq<Step>, stepsCount: nat, ftp: real): (segments: seq<Segment>)
    requires stepsCount > 0 || steps == []
    ensures |segments| == |steps|
    ensures forall i :: 0 <= i < |steps| ==> segments[i] == StepToSegment(steps[i], stepsCount, ftp)
    decreases |steps|
  {
    if steps == [] then []
    else StepsToSegments(steps[..|steps| - 1], stepsCount, ftp)
         + [StepToSegment(steps[|steps| - 1], stepsCount, ftp)]
  }

  /**
   * The group drawn for one interval: at least one pixel wide, with one segment per step in
   * step order, each an equal share of the group.
   */
  function IntervalToGroup(interval: Interval, ftp: real): (group: Group)
    ensures group.width == GroupWidth(interval.duration) && group.width >= 1
    ensures |group.segments| == |interval.steps|
    ensures forall j :: 0 <= j < |interval.steps| ==>
      group.segments[j] == StepToSegment(interval.steps[j], |interval.steps|, ftp)
  {
    Group(GroupWidth(interval.duration),
          StepsToSegments(interval.steps, |interval.steps|, ftp))
  }

  /**
   * The whole graph, built interval after interval: one group per interval and one segment
   * per step, both in the workout's order.
   */
  function IntervalsToGraph(intervals: seq<Interval>, ftp: real): (graph: seq<Group>)
    ensures |graph| == |intervals|
    ensures forall i :: 0 <= i < |intervals| ==> graph[i] == IntervalToGroup(intervals[i], ftp)
    decreases |intervals|
  {
    if intervals == [] then []
    else IntervalsToGraph(intervals[..|intervals| - 1], ftp)
         + [IntervalToGroup(intervals[|intervals| - 1], ftp)]
  }

  /** Sum of the widths of a run of segments. */
  function TotalWidth(segments: seq<Segment>): real
    decreases |segments|
  {
    if segments == [] then 0.0
    else TotalWidth(segments[..|segments| - 1]) + segments[|segments| - 1].width
  }

  /** Every segment of an interval takes the same share of the group's width. */
  lemma SegmentWidth(step: Step, stepsCount: nat, ftp: real)
    requires stepsCount > 0
    ensures StepToSegment(step, stepsCount, ftp).width == 100.0 / stepsCount as real
  {
  }

  /** A run of segments of equal width `share` adds up to their number times `share`. */
  lemma {:induction false} TotalWidthOfShares(segments: seq<Segment>, share: real)
    requires forall i :: 0 <= i < |segments| ==> segments[i].width == share
    ensures TotalWidth(segments) == |segments| as real * share
    decreases |segments|
  {
    if segments != [] {
      var earlier := segments[..|segments| - 1];
      TotalWidthOfShares(earlier, share);
      assert TotalWidth(segments) == (|segments| - 1) as real * share + share;
    }
  }

  /** The segments of an interval with at least one step fill exactly the whole group. */
  lemma SegmentsFillGroup(interval: Interval, ftp: real)
    requires |interval.steps| > 0
    ensures TotalWidth(IntervalToGroup(interval, ftp).segments) == 100.0
  {
    var n := |interval.steps|;
    var segments := IntervalToGroup(interval, ftp).segments;
    forall i | 0 <= i < |segments|
      ensures segments[i].width == 100.0 / n as real
    {
      SegmentWidth(interval.steps[i], n, ftp);
    }
    TotalWidthOfShares(segments, 100.0 / n as real);
    EqualSharesFill(n);
  }

  /** `n` shares of `100 / n` make 100. */
  lemma EqualSharesFill(n: nat)
    requires n > 0
    ensures n as real * (100.0 / n as real) == 100.0
  {
  }

  /**
   * The power label of a segment: "Free ride" with no unit exactly when the step's wattage is
   * below one watt in size (a zero fraction, but also a tiny one); otherwise the wattage cut
   * to whole watts, in "W".
   */
  lemma SegmentLabel(step: Step, stepsCount: nat, ftp: real)
    requires stepsCount > 0
    ensures var s := StepToSegment(step, stepsCount, ftp);
      && (s.infoPower == FreeRide <==> -1.0 < ftp * step.power < 1.0)
      && (s.infoPower == FreeRide <==> s.infoPowerUnit == "")
      && (s.infoPower.Watts? ==> s.infoPowerUnit == "W")
      && (s.infoPower.Watts? && ftp * step.power > 0.0 ==>
            s.infoPower.watts as real <= ftp * step.power < s.infoPower.watts as real + 1.0)
  {
    TruncateZero(ftp * step.power);
  }

  /** A step with zero power is a free ride, whatever the FTP. */
  lemma ZeroPowerIsFreeRide(duration: real, stepsCount: nat, ftp: real)
    requires stepsCount > 0
    ensures StepToSegment(Step(0.0, duration), stepsCount, ftp).infoPower == FreeRide
  {
  }

  /**
   * A free ride is drawn at the height of 80 W against 1.6 times the FTP: the height times
   * the FTP is 5000. It fits the graph exactly when the FTP is at least 50 W.
   */
  lemma FreeRideHeight(step: Step, ftp: real)
    requires ftp > 0.0 && StepLabel(step, ftp) == FreeRide
    ensures StepHeight(step, ftp).Finite?
    ensures StepHeight(step, ftp).value * ftp == 5000.0
    ensures StepHeight(step, ftp).value <= 100.0 <==> ftp >= 50.0
  {
    var h := StepHeight(step, ftp).value;
    assert h * (ftp * 1.6) == 8000.0;
    assert h * ftp == 5000.0;
    if ftp >= 50.0 {
      HeightWithinBounds(ftp * Headroom, FreeRideValue);
    } else {
      assert h * 50.0 > h * ftp;
    }
  }

  /**
   * Headroom: for a positive FTP, a step planned between 0 and 160 % of FTP that is not a free
   * ride is drawn with a finite height above 0 and at most 100 percent.
   */
  lemma StepFitsGraph(step: Step, ftp: real)
    requires ftp > 0.0 && 0.0 <= step.power <= Headroom
    requires StepLabel(step, ftp) != FreeRide
    ensures StepHeight(step, ftp).Finite?
    ensures 0.0 < StepHeight(step, ftp).value <= 100.0
  {
    var power := StepWatts(step, ftp);
    ScaledFraction(ftp, step.power, Headroom);
    var planned, max := ftp * step.power, ftp * Headroom;
    assert 0 < power && power as real <= planned <= max;
    HeightWithinBounds(max, power as real);
  }

  /** For a positive FTP, a fraction between 0 and `top` gives between 0 and `top` times FTP. */
  lemma ScaledFraction(ftp: real, fraction: real, top: real)
    requires ftp > 0.0 && 0.0 <= fraction <= top
    ensures 0.0 <= ftp * fraction <= ftp * top
    ensures 0.0 < top ==> 0.0 < ftp * top
  {
  }

  /**
   * Cutting the wattage to whole watts can only lower the zone: a segment's zone is never above
   * the zone of the step's exact planned power.
   */
  lemma TruncationLowersZone(step: Step, stepsCount: nat, ftp: real)
    requires stepsCount > 0 && ftp > 0.0
    ensures Rank(StepToSegment(step, stepsCount, ftp).zone)
         <= Rank(PowerToZone(ftp * step.power, ftp))
  {
    if ftp * step.power >= 0.0 {
      Monotone(StepWatts(step, ftp) as real, ftp * step.power, ftp);
    } else {
      assert StepWatts(step, ftp) as real < ftp * 0.55;
    }
  }

  /**
   * The drop is real: a step planned exactly at the start of zone two (55 % of FTP) is drawn in
   * zone one when FTP times 0.55 is not a whole number.
   */
  lemma BoundaryStepDropsZone()
    ensures PowerToZone(250.0 * 0.55, 250.0) == Two
    ensures StepToSegment(Step(0.55, 60.0), 1, 250.0).zone == One
  {
    assert StepWatts(Step(0.55, 60.0), 250.0) == 137;
  }

  /**
   * Before any FTP has arrived the stored metric is zero: every step is then labelled a free
   * ride, drawn at an infinite height (80 divided by a zero scale) in zone seven.
   */
  lemma {:induction false} ZeroFtpGraph(intervals: seq<Interval>, i: nat, j: nat)
    requires i < |intervals| && j < |intervals[i].steps|
    ensures var s := IntervalsToGraph(intervals, 0.0)[i].segments[j];
      s.infoPower == FreeRide && s.height == PositiveInfinity && s.zone == Seven
  {
    var steps := intervals[i].steps;
    assert IntervalsToGraph(intervals, 0.0)[i].segments[j] == StepToSegment(steps[j], |steps|, 0.0);
    assert StepWatts(steps[j], 0.0) == 0;
  }

  /**
   * The layout of the graph does not depend on the FTP: rebuilding after an FTP change keeps
   * the number of groups, each group's width, the number of segments in each group and each
   * segment's width and duration; only zones, heights and labels change.
   */
  lemma LayoutIndependentOfFtp(intervals: seq<Interval>, ftp1: real, ftp2: real)
    ensures var g1, g2 := IntervalsToGraph(intervals, ftp1), IntervalsToGraph(intervals, ftp2);
      && |g1| == |g2| == |intervals|
      && forall i :: 0 <= i < |intervals| ==>
           && g1[i].width == g2[i].width
           && |g1[i].segments| == |g2[i].segments| == |intervals[i].steps|
           && forall j :: 0 <= j < |intervals[i].steps| ==>
                && g1[i].segments[j].width == g2[i].segments[j].width
                && g1[i].segments[j].seconds == g2[i].segments[j].seconds == intervals[i].steps[j].duration
  {
  }

  /** One ten-second interval of two steps: a group ten pixels wide, each step half of it. */
  lemma TwoStepExample(ftp: real)
    ensures var g := IntervalsToGraph([Interval(10.0, [Step(0.5, 5.0), Step(1.0, 5.0)])], ftp);
      && |g| == 1 && g[0].width == 10 && |g[0].segments| == 2
      && g[0].segments[0].width == 50.0 && g[0].segments[1].width == 50.0
  {
    var g := IntervalsToGraph([Interval(10.0, [Step(0.5, 5.0), Step(1.0, 5.0)])], ftp);
    assert g[0] == IntervalToGroup(Interval(10.0, [Step(0.5, 5.0), Step(1.0, 5.0)]), ftp);
  }

  /**
   * The element. `workout` is `None` until the first workout arrives (the source starts from
   * an empty object with no intervals); `graph` is the element's rendered content, without
   * the two progress-overlay nodes that precede it.
   */
  class WorkoutGraph {
    var workout: Option<Workout>
    var metricValue: real
    var graph: seq<Group>

    /** Once a workout has arrived, the content is the graph of that workout for the stored FTP. */
    ghost predicate Valid()
      reads this
    {
      match workout
      case None => graph == []
      case Some(w) => graph == IntervalsToGraph(w.intervals, metricValue)
    }

    constructor ()
      ensures Valid()
      ensures workout == None && metricValue == 0.0 && graph == []
    {
      workout := None;
      metricValue := 0.0;
      graph := [];
    }

    /**
     * A new FTP arrives: it is stored and the graph rebuilt. Before any workout has arrived the
     * rebuild fails (`rendered` is false) after the FTP has been stored, and the content stays.
     */
    method OnMetric(metric: real) returns (rendered: bool)
      requires Valid()
      modifies this
      ensures Valid()
      ensures metricValue == metric && workout == old(workout)
      ensures rendered <==> workout.Some?
      ensures !rendered ==> graph == old(graph)
    {
      metricValue := metric;
      rendered := Render();
    }

    /** A new workout arrives: it replaces the old one and the graph is rebuilt for the stored FTP. */
    method OnUpdate(value: Workout)
      requires Valid()
      modifies this
      ensures Valid()
      ensures workout == Some(value) && metricValue == old(metricValue)
      ensures graph == IntervalsToGraph(value.intervals, metricValue)
    {
      workout := Some(value);
      var rendered := Render();
    }

    /**
     * Replaces the content with the graph of the stored workout and FTP; with no workout yet,
     * reports failure and leaves the content as it was.
     */
    method Render() returns (rendered: bool)
      modifies this`graph
      ensures rendered <==> workout.Some?
      ensures rendered ==> graph == IntervalsToGraph(workout.value.intervals, metricValue)
      ensures !rendered ==> graph == old(graph)
    {
      match workout
      case None =>
        rendered := false;
      case Some(w) =>
        graph := IntervalsToGraph(w.intervals, metricValue);
        rendered := true;
    }
  }

  /**
   * The FTP may arrive before the workout: that first rebuild fails, and the workout, when it
   * comes, is drawn with the FTP already stored. A later FTP change redraws the same layout.
   */
  method MetricBeforeWorkout() returns (first: bool, before: seq<Group>, after: seq<Group>)
    ensures !first
    ensures |before| == |after| == 1
    ensures before[0].width == after[0].width == 60
    ensures |before[0].segments| == |after[0].segments| == 1
    ensures before[0].segments[0].infoPower == Watts(250)
    ensures after[0].segments[0].infoPower == Watts(300)
  {
    var element := new WorkoutGraph();
    first := element.OnMetric(250.0);
    var workout := Workout([Interval(60.0, [Step(1.0, 60.0)])]);
    element.OnUpdate(workout);
    before := element.graph;
    assert before[0] == IntervalToGroup(workout.intervals[0], 250.0);
    var second := element.OnMetric(300.0);
    after := element.graph;
    assert after[0] == IntervalToGroup(workout.intervals[0], 300.0);
  }
}
