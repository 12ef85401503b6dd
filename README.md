# Power graphs: a Dafny model

This project models the visualisation core of a cycling training application
(`src/views/graphs.js`). It draws cycling power data in two ways:

- **Zone classifier** (`zones.dfy`, module `Zones`): puts a power value into one of seven
  ordered training zones. The zones are bounded by 55, 76, 88, 95, 106 and 120 % of the
  rider's functional threshold power (FTP). The ladder is first-match with strict `<` tests,
  so a value on a boundary goes to the zone above. When no FTP is passed it is 256 W.
- **Height scaler** (`heights.dfy`, module `Heights`): `100 * (value / max)`. The result is
  the host's number type, so a zero maximum gives an infinity or NaN instead of an error.
- **Live data graph** (`data_graph.dfy`, module `DataGraphs`, class `DataGraph`): each
  sample is drawn as a bar one unit wide. The bar is classified against the metric stored
  when the sample arrives and scaled against the element's scale (400 by default). Once the
  number of bars drawn has reached the measured width, the oldest bar is removed before each
  new one is added. The model keeps the bar nodes as a `seq<Bar>` field. A ghost field holds
  every sample drawn so far. The class invariant says the shown bars are a sliding window
  over all bars drawn. The lemmas prove the window is first-in first-out and at most as
  wide as the width.
- **Workout graph** (`workout_graph.dfy`, module `WorkoutGraphs`): `intervalsToGraph` folds a
  workout into one group per interval and one segment per step, both in order. A group is
  at least 1 px wide and otherwise the interval's rounded duration. Each segment is an equal
  share of its group. Its wattage is FTP times the step's fraction, cut to a whole number.
  Its height is that wattage against 1.6 × FTP, or 80 W for a free ride (zero wattage). Its
  zone comes from the classifier. The `WorkoutGraph` class stores the workout and the FTP
  and rebuilds the whole graph whenever either changes.

`Options` (`options.dfy`) holds the `Option` type. It is used for the optional `scale`
attribute and for the workout that has not yet arrived.

Behaviours of the code that are easy to miss:

- 200 W at the default FTP of 256 W is in zone **three**, because 0.76 × 256 =
  194.56 ≤ 200 < 225.28 (`Zones.DefaultFtpExamples`).
- A step's wattage is the **truncation** of FTP × fraction (`parseInt`), not a rounding.
  For products written without an exponent, any step whose wattage is under 1 W in size is
  therefore a free ride (`WorkoutGraphs.SegmentLabel`). A step planned exactly on a zone
  boundary can be drawn in the zone below (`WorkoutGraphs.BoundaryStepDropsZone`).
- The free-ride height is fixed in value (80 W), not in height. The drawn height is
  5000 / FTP percent, so it depends on the FTP (`WorkoutGraphs.FreeRideHeight`).
- Before any metric arrives, the stored metric is 0, so the classifier's 256 W default does
  not apply. The live graph therefore puts every non-negative sample in zone **seven**
  (`Zones.ZeroFtp`, `DataGraphs.TwoBarGraph`). A workout drawn before any FTP arrives has
  only free rides of infinite height in zone seven (`WorkoutGraphs.ZeroFtpGraph`).
- A metric that arrives before any workout makes the workout graph's re-render fail. The
  metric has already been stored by then. The model returns `false` from
  `WorkoutGraph.OnMetric` and leaves the content unchanged.

## Model

| member | source | states |
|---|---|---|
| `Zones.PowerToZone` | src/views/graphs.js:4-23 | first-match ladder: if the zone is below seven, the value is strictly under that zone's upper boundary × FTP; every lower boundary × FTP has been reached |
| `Zones.PowerToZoneDefault` | src/views/graphs.js:4-21 | with the FTP argument left out (256 W), zones start at 140.8, 194.56, 225.28, 243.2, 271.36 and 307.2 W, each range given in both directions |
| `Zones.FirstMatchUnique` | src/views/graphs.js:7-21 | any zone meeting the first-match conditions is the classifier's answer: exactly one zone per value |
| `Zones.AboveIffReached` | src/views/graphs.js:7-21 | for FTP > 0, the zone is above zone k+1 iff the value has reached boundary k × FTP (both directions) |
| `Zones.Monotone` | src/views/graphs.js:7-21 | for FTP > 0, a larger value never gets a lower zone |
| `Zones.DependsOnRatio` | src/views/graphs.js:7-21 | for FTP > 0, the zone depends only on value / FTP |
| `Zones.ZeroFtp` | src/views/graphs.js:7-21 | with FTP 0, a non-negative value is zone seven and a negative one zone one |
| `Zones.DefaultFtpExamples` | src/views/graphs.js:4-21 | at the default 256 W: 140 → one, 200 → three, 256 → five, 400 → seven |
| `Zones.BoundaryGoesUp` | src/views/graphs.js:7-21 | for every FTP > 0 and every boundary k, the value FTP × boundary k lies in zone k + 2, the zone above the boundary |
| `Heights.ValueToHeight` | src/views/graphs.js:25-27 | non-zero max: finite h with h × max = 100 × value; zero max: +∞, −∞ or NaN by the value's sign |
| `Heights.HeightWithinBounds` | src/views/graphs.js:25-27 | max > 0 and 0 ≤ value ≤ max give a height in [0, 100], positive for a positive value |
| `Heights.HeightMonotone` | src/views/graphs.js:25-27 | for max > 0 the height grows with the value |
| `Heights.HeightEnds` | src/views/graphs.js:25-27 | the maximum is drawn at 100 % and zero at 0 % |
| `Heights.HeightExamples` | src/views/graphs.js:25-27 | (400, 200) → 50, (400, 0) → 0, (0, 80) → +∞ |
| `DataGraphs.ScaleOf` | src/views/graphs.js:39 | the scale is the `scale` attribute, or 400 when it is absent or empty |
| `DataGraphs.BarOf` | src/views/graphs.js:67-72 | a bar is 1 wide, in the zone of the sample against the metric stored at its arrival (seven for a non-negative sample before any metric), with height × scale = 100 × sample for a non-zero scale |
| `DataGraphs.BarsOf` | src/views/graphs.js:66-73 | one bar per sample, in order; bar i is sample i's zone and height against the metric stored at its arrival |
| `DataGraphs.Slide` | src/views/graphs.js:63-74 | drawing item by item with eviction of the oldest once the count reaches the width shows min(n, width) items |
| `DataGraphs.SlideKeepsNewest` | src/views/graphs.js:63-74 | FIFO eviction: what is shown is exactly the newest min(n, width) items, in arrival order |
| `DataGraphs.SlideAt` | src/views/graphs.js:63-74 | shown position i holds drawn item n − min(n, width) + i |
| `DataGraphs.SlidePush` | src/views/graphs.js:69-73 | one render step: drop the first shown item iff the count already drawn has reached the width, then append |
| `DataGraphs.BarsOfPush` | src/views/graphs.js:72 | a new sample's bar is appended after all earlier bars |
| `DataGraphs.ShownBars` | src/views/graphs.js:63-74 | after n samples, the graph shows min(n, width) bars: those of the last min(n, width) samples, each with the metric of its arrival |
| `DataGraphs.DataGraph.constructor` | src/views/graphs.js:30-41 | value, metric and bar count start at 0; the scale is the attribute or 400; the width is the measured one; no bars shown |
| `DataGraphs.DataGraph.OnUpdate` | src/views/graphs.js:53-56 | stores the sample and draws it; the metric is unchanged; the count grows by one; the window invariant is kept |
| `DataGraphs.DataGraph.OnMetric` | src/views/graphs.js:57-59 | only the metric changes; shown bars and the count stay as they were |
| `DataGraphs.DataGraph.Shift` | src/views/graphs.js:63-65 | removes exactly the oldest bar |
| `DataGraphs.DataGraph.Render` | src/views/graphs.js:66-74 | evicts the oldest bar iff bars ≥ width, appends one width-1 bar classified with the current metric and scaled by the scale; count + 1; invariant kept |
| `DataGraphs.TwoBarGraph` | src/views/graphs.js:29-74 | width 2: a sample before any metric is zone seven; a later metric affects only later bars; the third sample evicts the first |
| `WorkoutGraphs.Truncate` | src/views/graphs.js:87 | `parseInt` of a number keeps its integer part, cutting towards zero |
| `WorkoutGraphs.Round` | src/views/graphs.js:84 | `Math.round` gives the nearest integer, halves going up |
| `WorkoutGraphs.GroupWidth` | src/views/graphs.js:84 | a group is at least 1 wide: 1 below one second, else the duration rounded |
| `WorkoutGraphs.StepWatts` | src/views/graphs.js:87 | a step's wattage is FTP × fraction cut towards zero to a whole number |
| `WorkoutGraphs.StepLabel` | src/views/graphs.js:91 | "Free ride" iff FTP × fraction lies strictly between −1 and 1; otherwise the non-zero wattage |
| `WorkoutGraphs.StepHeight` | src/views/graphs.js:82-89 | for FTP ≠ 0, height × 1.6 × FTP = 100 × wattage (80 for a free ride); for FTP 0 the height is +∞ |
| `WorkoutGraphs.StepToSegment` | src/views/graphs.js:87-101 | a segment is 1/stepsCount of its group, in the zone of its whole-watt power, with the step's height and label, unit "" for a free ride else "W", and the step's duration |
| `WorkoutGraphs.IntervalToGroup` | src/views/graphs.js:84-102 | a group's width is the interval's duration rounded to the nearest whole number and at least 1 (`GroupWidth`), and it has one segment per step, in step order, each built with the interval's step count |
| `WorkoutGraphs.StepsToSegments` | src/views/graphs.js:86-102 | one segment per step, in step order, segment i drawn from step i |
| `WorkoutGraphs.IntervalsToGraph` | src/views/graphs.js:81-105 | one group per interval, in order, group i drawn from interval i |
| `WorkoutGraphs.SegmentWidth` | src/views/graphs.js:88 | every segment of a group of n steps is 100 / n percent wide |
| `WorkoutGraphs.TotalWidthOfShares` | src/views/graphs.js:88 | k segments of equal width w add up to k × w |
| `WorkoutGraphs.SegmentsFillGroup` | src/views/graphs.js:85-88 | the segments of an interval with steps fill exactly 100 % of its group |
| `WorkoutGraphs.TruncateZero` | src/views/graphs.js:87 | the truncated wattage is 0 iff FTP × fraction lies strictly between −1 and 1 |
| `WorkoutGraphs.SegmentLabel` | src/views/graphs.js:87-92 | "Free ride" with an empty unit iff the wattage is below 1 W in size; otherwise the whole watts with unit "W" |
| `WorkoutGraphs.ZeroPowerIsFreeRide` | src/views/graphs.js:87-91 | a zero-power step is a free ride for every FTP |
| `WorkoutGraphs.EqualSharesFill` | src/views/graphs.js:88 | n shares of 100 / n make exactly 100 |
| `WorkoutGraphs.FreeRideHeight` | src/views/graphs.js:82-89 | for FTP > 0 a free ride has height × FTP = 5000, within 100 % iff FTP ≥ 50 |
| `WorkoutGraphs.StepFitsGraph` | src/views/graphs.js:82-89 | for FTP > 0 a non-free-ride step at 0–160 % of FTP is drawn between 0 (excluded) and 100 % |
| `WorkoutGraphs.TruncationLowersZone` | src/views/graphs.js:87-90 | for FTP > 0 and any step power (negative included) a segment's zone is never above the zone of the step's exact planned power |
| `WorkoutGraphs.BoundaryStepDropsZone` | src/views/graphs.js:87-90 | a 55 % step at FTP 250 (137.5 W, cut to 137) is drawn in zone one, not two |
| `WorkoutGraphs.ZeroFtpGraph` | src/views/graphs.js:81-92 | with FTP 0 every segment is a free ride of infinite height in zone seven |
| `WorkoutGraphs.LayoutIndependentOfFtp` | src/views/graphs.js:81-105 | graphs for two FTPs have the same groups, group widths, segment counts, segment widths and durations |
| `WorkoutGraphs.TwoStepExample` | src/views/graphs.js:84-88 | one 10 s interval of two steps: a group 10 wide with two 50 % segments |
| `WorkoutGraphs.WorkoutGraph.constructor` | src/views/graphs.js:108-114 | no workout, metric 0, empty content |
| `WorkoutGraphs.WorkoutGraph.OnMetric` | src/views/graphs.js:130-133 | stores the FTP, then rebuilds; fails and keeps the content iff no workout has arrived; the invariant is kept |
| `WorkoutGraphs.WorkoutGraph.OnUpdate` | src/views/graphs.js:134-141 | stores the workout and rebuilds the whole graph for the stored FTP |
| `WorkoutGraphs.WorkoutGraph.Render` | src/views/graphs.js:147-150 | content becomes the graph of the stored workout and FTP; with no workout it fails and nothing changes |
| `WorkoutGraphs.MetricBeforeWorkout` | src/views/graphs.js:130-150 | an FTP before the workout fails to render; the workout is then drawn with that FTP; a new FTP keeps the layout and changes the wattage |

## Left out

- Markup: the HTML strings, class names and inline styles (`bar`, the template in
  `intervalsToGraph`, the progress-overlay nodes that `WorkoutGraph.render` puts in front of
  the groups). Bars and segments are records.
- The publish/subscribe bus (`xf.sub`) and `disconnectedCallback`: the event handlers are
  methods the caller invokes. `connectedCallback` is folded into the `DataGraph` constructor,
  which receives the measured width and the `scale` attribute as parameters.
- DOM geometry: `getWidth`/`getBoundingClientRect` become a constructor parameter.
  `WorkoutGraph.progress` and the element handles that `onUpdate` looks up
  (`#progress`, `#progress-active`, `.graph--bar-group`, `.graph--bar`) are not modelled:
  they read measured layout, and `progress` is never called inside this file. The handles
  are looked up before the rebuild, so they point at the previous content.
- `secondsToHms` (in `src/functions.js`) is not part of this model: a segment keeps the
  step's duration in seconds, unformatted. The unused `zwo` import and `hex` variable are
  ignored.
- Host number semantics beyond division by zero: exact real arithmetic replaces IEEE
  doubles (so products such as `ftp * 0.55` are exact). `parseInt` on numbers so large or
  small that their text uses an exponent is not modelled. Neither are NaN or undefined
  inputs (for instance an interval without a duration) or the string-to-number coercion
  of the `scale` attribute. An absent or empty attribute is `None`.
- `DataGraph` widths are whole numbers of at least 1. A fractional measured width is not
  modelled. A width of 0 makes the first render remove a child from an empty list, which
  throws, so the constructor requires width ≥ 1.
- A workout whose interval has no `steps` array throws in the source; the datatype always
  has a step sequence.
- Custom-element registration (`customElements.define`) and the module's exports.
