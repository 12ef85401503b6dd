/**
 * Height scaling (`valueToHeight`, src/views/graphs.js:25-27): a value becomes a
 * percentage of a maximum, `100 * (value / max)`, evaluated with the host language's
 * number semantics, where dividing by zero gives an infinity or "not a number" rather
 * than an error.
 */
module Heights {

  /** A number as the renderer receives it: finite, or one of the non-finite results of a division by zero. */
  datatype Number = Finite(value: real) | PositiveInfinity | NegativeInfinity | NaN

  /**
   * The height, in percent, of `value` against `max`. For a non-zero maximum it is the
   * finite percentage `h` with `h * max == 100 * value`; a zero maximum gives an infinity
   * with the sign of the value, or NaN for a zero value.
   */
  function ValueToHeight(max: real, value: real): (h: Number)
    ensures max != 0.0 ==> h.Finite? && h.value * max == 100.0 * value
    ensures max == 0.0 ==> (h == PositiveInfinity <==> value > 0.0)
    ensures max == 0.0 ==> (h == NegativeInfinity <==> value < 0.0)
    ensures max == 0.0 ==> (h == NaN <==> value == 0.0)
  {
    if max != 0.0 then Finite(100.0 * (value / max))
    else if value > 0.0 then PositiveInfinity
    else if value < 0.0 then NegativeInfinity
    else NaN
  }

  /** For a positive maximum, a value between zero and the maximum gets a height between 0 and 100 percent. */
  lemma HeightWithinBounds(max: real, value: real)
    requires max > 0.0 && 0.0 <= value <= max
    ensures ValueToHeight(max, value).Finite?
    ensures 0.0 <= ValueToHeight(max, value).value <= 100.0
    ensures 0.0 < value ==> 0.0 < ValueToHeight(max, value).value
  {
  }

  /** For a positive maximum, a larger value gets a taller bar. */
  lemma HeightMonotone(max: real, v1: real, v2: real)
    requires max > 0.0 && v1 <= v2
    ensures ValueToHeight(max, v1).value <= ValueToHeight(max, v2).value
  {
  }

  /** The maximum itself is at full height and zero is at zero height. */
  lemma HeightEnds(max: real)
    requires max != 0.0
    ensures ValueToHeight(max, max) == Finite(100.0)
    ensures ValueToHeight(max, 0.0) == Finite(0.0)
  {
  }

  /** Half of the default scale of 400 is half height. */
  lemma HeightExamples()
    ensures ValueToHeight(400.0, 200.0) == Finite(50.0)
    ensures ValueToHeight(400.0, 0.0) == Finite(0.0)
    ensures ValueToHeight(0.0, 80.0) == PositiveInfinity
  {
  }
}
