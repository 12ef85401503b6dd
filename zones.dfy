/**
 * Training-zone classification (`powerToZone`, src/views/graphs.js:4-23): a power value is
 * placed in one of seven ordered zones by comparing it with fixed fractions of the rider's
 * functional threshold power (FTP).
 */
module Zones {

  /**
   * The seven zones, from the easiest to the hardest; `One` to `Seven` stand for the names
   * "one" to "seven" that the renderer puts into the class `zone-<name>`.
   */
  datatype Zone = One | Two | Three | Four | Five | Six | Seven

  /** Position of a zone in the order: 1 for `One` up to 7 for `Seven`. */
  function Rank(z: Zone): (k: nat)
    ensures 1 <= k <= 7
  {
    match z
    case One => 1
    case Two => 2
    case Three => 3
    case Four => 4
    case Five => 5
    case Six => 6
    case Seven => 7
  }

  /** The FTP used when the caller leaves the argument out. */
  const DefaultFtp: real := 256.0

  /**
   * Lower boundaries of zones two to seven, as fractions of FTP: zone `k + 2` starts at
   * `Bounds[k]`. The fractions strictly increase.
   */
  const Bounds: seq<real> := [0.55, 0.76, 0.88, 0.95, 1.06, 1.20]

  /**
   * The classifier. The ladder is first-match: the zone is the first one whose upper
   * boundary the value lies strictly below, and every earlier boundary has been reached;
   * a value exactly on a boundary therefore belongs to the zone above it. A value past the
   * last boundary is in zone seven. Nothing is required of `ftp`.
   */
  function PowerToZone(value: real, ftp: real): (z: Zone)
    ensures Rank(z) <= 6 ==> value < ftp * Bounds[Rank(z) - 1]
    ensures forall k :: 0 <= k < Rank(z) - 1 ==> ftp * Bounds[k] <= value
  {
    if value < ftp * 0.55 then One
    else if value < ftp * 0.76 then Two
    else if value < ftp * 0.88 then Three
    else if value < ftp * 0.95 then Four
    else if value < ftp * 1.06 then Five
    else if value < ftp * 1.20 then Six
    else Seven
  }

  /**
   * The classifier called without an FTP argument, which then is 256 W: the zones start at
   * 140.8, 194.56, 225.28, 243.2, 271.36 and 307.2 W.
   */
  function PowerToZoneDefault(value: real): (z: Zone)
    ensures z == One <==> value < 140.8
    ensures z == Two <==> 140.8 <= value < 194.56
    ensures z == Three <==> 194.56 <= value < 225.28
    ensures z == Four <==> 225.28 <= value < 243.2
    ensures z == Five <==> 243.2 <= value < 271.36
    ensures z == Six <==> 271.36 <= value < 307.2
    ensures z == Seven <==> 307.2 <= value
  {
    PowerToZone(value, DefaultFtp)
  }

  /**
   * The two first-match conditions of `PowerToZone` single out one zone: whatever zone
   * meets them is the classifier's answer, so every value has exactly one zone.
   */
  lemma FirstMatchUnique(value: real, ftp: real, z: Zone)
    requires Rank(z) <= 6 ==> value < ftp * Bounds[Rank(z) - 1]
    requires forall k :: 0 <= k < Rank(z) - 1 ==> ftp * Bounds[k] <= value
    ensures z == PowerToZone(value, ftp)
  {
  }

  /**
   * For a positive FTP the zone lies above zone `k + 1` exactly when the value has reached
   * boundary `k`: the ladder reads as six independent threshold tests.
   */
  lemma AboveIffReached(value: real, ftp: real, k: nat)
    requires ftp > 0.0 && k < 6
    ensures Rank(PowerToZone(value, ftp)) > k + 1 <==> ftp * Bounds[k] <= value
  {
    var r := Rank(PowerToZone(value, ftp));
    if r <= k + 1 && r <= 6 {
      BoundsIncrease(ftp, r - 1, k);
    }
  }

  /** With a positive FTP, the scaled boundaries are non-decreasing. */
  lemma BoundsIncrease(ftp: real, i: nat, j: nat)
    requires ftp > 0.0 && i <= j < 6
    ensures ftp * Bounds[i] <= ftp * Bounds[j]
  {
    assert Bounds[i] <= Bounds[j];
  }

  /** For a positive FTP, a larger value never falls into a lower zone. */
  lemma Monotone(v1: real, v2: real, ftp: real)
    requires ftp > 0.0 && v1 <= v2
    ensures Rank(PowerToZone(v1, ftp)) <= Rank(PowerToZone(v2, ftp))
  {
    var r2 := Rank(PowerToZone(v2, ftp));
    if r2 <= 6 {
      AboveIffReached(v1, ftp, r2 - 1);
    }
  }

  /** For a positive FTP the zone depends only on the ratio of the value to the FTP. */
  lemma DependsOnRatio(value: real, ftp: real)
    requires ftp > 0.0
    ensures PowerToZone(value, ftp) == PowerToZone(value / ftp, 1.0)
  {
    var ratio := value / ftp;
    assert value == ratio * ftp;
    forall k | 0 <= k < 6
      ensures value < ftp * Bounds[k] <==> ratio < 1.0 * Bounds[k]
    {
      var b := Bounds[k];
      if ratio < b {
        assert ratio * ftp < b * ftp;
      } else {
        assert b * ftp <= ratio * ftp;
      }
    }
  }

  /**
   * An FTP of zero (the stored metric before any update arrives) sends every non-negative
   * value to zone seven and every negative value to zone one.
   */
  lemma ZeroFtp(value: real)
    ensures value >= 0.0 ==> PowerToZone(value, 0.0) == Seven
    ensures value < 0.0 ==> PowerToZone(value, 0.0) == One
  {
  }

  /**
   * The classifier on the default FTP of 256 W. 200 W lies past 0.76 * 256 = 194.56 W, so
   * it is in zone three.
   */
  lemma DefaultFtpExamples()
    ensures PowerToZoneDefault(140.0) == One
    ensures PowerToZoneDefault(200.0) == Three
    ensures PowerToZoneDefault(256.0) == Five
    ensures PowerToZoneDefault(400.0) == Seven
  {
  }

  /**
   * For a positive FTP, a value exactly on boundary `k` belongs to the zone that boundary
   * starts, zone `k + 2`, not to the zone below it.
   */
  lemma BoundaryGoesUp(ftp: real, k: nat)
    requires ftp > 0.0 && k < 6
    ensures Rank(PowerToZone(ftp * Bounds[k], ftp)) == k + 2
  {
    AboveIffReached(ftp * Bounds[k], ftp, k);
    if k < 5 {
      AboveIffReached(ftp * Bounds[k], ftp, k + 1);
      assert Bounds[k] < Bounds[k + 1];
    }
  }
}
