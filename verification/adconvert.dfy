/*
 * Model of adConvert.py: a potentiometer reading in 0..65536 is rescaled
 * to the range 100..0 by the line through two points, (minPotValue, 100)
 * and (maxPotValue, 0), where minPotValue is calibrated once at start-up
 * as the average of NUMSAMPLES readings taken with the pot turned fully
 * counter-clockwise.
 *
 * Python floats are modelled as `real`; the ADC is a sequence of raw
 * readings consumed in order.
 */
module AdConvert {

  /** The one error the modelled code can raise: Python's ZeroDivisionError. */
  datatype Error = ZeroDivisionError

  datatype Result<T> = Ok(value: T) | Err(error: Error)

  // Program constants
  const NUMSAMPLES: nat := 500
  const INITIAL_MIN_POT_VALUE: int := 528    // x1 before calibration
  const MAX_POT_VALUE: int := 65536          // x2
  const Y1: int := 100                       // scaled value wanted at x1
  const Y2: int := 0                         // scaled value wanted at x2

  /** A raw ADC reading, as returned by read_u16. */
  predicate IsRaw(v: int) {
    0 <= v < 65536
  }

  /** A calibration point (raw value, scaled value). */
  datatype Point = Point(x: real, y: real)

  /** point1, built from the initial x1 before calibration runs. */
  const POINT1: Point := Point(INITIAL_MIN_POT_VALUE as real, Y1 as real)
  /** point2, the fixed far end of the line. */
  const POINT2: Point := Point(MAX_POT_VALUE as real, Y2 as real)

  // ---------------------------------------------------------------------
  // Linear scaler
  // ---------------------------------------------------------------------

  /** calcSlope: the slope of the line through both points; equal raw
      coordinates make Python divide by zero. */
  function CalcSlope(p1: Point, p2: Point): (r: Result<real>)
    ensures r.Err? <==> p1.x == p2.x
    ensures r.Ok? ==> r.value * (p2.x - p1.x) == p2.y - p1.y
  {
    if p2.x - p1.x == 0.0 then Err(ZeroDivisionError)
    else Ok((p2.y - p1.y) / (p2.x - p1.x))
  }

  /** The globals that displayScaledReading reads: the slope m, and the
      point (x1, y1) the line is anchored at.  `m` was computed from its
      own pair of points, so `x1` here need not be the x1 the slope used. */
  datatype Transform = Transform(m: real, x1: real, y1: real)

  /** The scaled value of raw reading x, before it is formatted to text. */
  function Scale(t: Transform, x: int): (r: real)
    ensures x as real == t.x1 ==> r == t.y1
    ensures t.m < 0.0 && (x as real) < t.x1 ==> r > t.y1
    ensures t.m < 0.0 && (x as real) > t.x1 ==> r < t.y1
  {
    t.m * (x as real - t.x1) + t.y1
  }

  /** The line through p1 and p2, anchored at p1. */
  function Line(p1: Point, p2: Point): (t: Transform)
    requires p1.x != p2.x
    ensures t.x1 == p1.x && t.y1 == p1.y
    ensures t.m * (p2.x - p1.x) == p2.y - p1.y
  {
    Transform(CalcSlope(p1, p2).value, p1.x, p1.y)
  }

  /** The transform the program runs with once calibration returned
      `calibrated`: the slope still comes from POINT1, built from the
      initial x1 = 528, while the intercept x1 is the calibrated mean. */
  function AsWritten(calibrated: real): (t: Transform)
    ensures t.m == -100.0 / 65008.0
    ensures t.x1 == calibrated && t.y1 == 100.0
  {
    Transform(CalcSlope(POINT1, POINT2).value, calibrated, Y1 as real)
  }

  /** The transform through (calibrated, 100) and (65536, 0) that the
      header comment describes. */
  function Corrected(calibrated: real): (t: Transform)
    requires calibrated != MAX_POT_VALUE as real
    ensures t.x1 == calibrated && t.y1 == 100.0
    ensures t.m * (65536.0 - calibrated) == -100.0
  {
    Line(Point(calibrated, Y1 as real), POINT2)
  }

  /** When the slope was computed from the same x1 the scaling is
      anchored at, the line passes through both points. */
  lemma LineThroughBothPoints(p1: Point, p2: Point, x: int)
    requires p1.x != p2.x
    ensures x as real == p1.x ==> Scale(Line(p1, p2), x) == p1.y
    ensures x as real == p2.x ==> Scale(Line(p1, p2), x) == p2.y
  {
  }

  /** A negative slope makes scaling strictly decreasing in the raw value. */
  lemma ScaleStrictlyDecreasing(t: Transform, a: int, b: int)
    requires t.m < 0.0 && a < b
    ensures Scale(t, a) > Scale(t, b)
  {
    assert Scale(t, b) - Scale(t, a) == t.m * ((b - a) as real);
  }

  /** The program's slope is -100/65008 < 0 whatever calibration returns. */
  lemma SlopeIndependentOfCalibration(c1: real, c2: real)
    ensures AsWritten(c1).m == AsWritten(c2).m == -100.0 / 65008.0 < 0.0
  {
  }

  /** The output is not clamped: a raw reading below the calibrated
      minimum scales to more than 100. */
  lemma BelowMinimumExceedsHundred(calibrated: real, x: int)
    requires (x as real) < calibrated
    ensures Scale(AsWritten(calibrated), x) > 100.0
  {
  }

  /** As written, the far end 65536 scales to 0 exactly when calibration
      happened to return the initial 528. */
  lemma AsWrittenFarEndIsZeroIff(calibrated: real)
    ensures Scale(AsWritten(calibrated), MAX_POT_VALUE) == 0.0 <==> calibrated == 528.0
  {
  }

  /** A calibration mean of 1000 leaves 65536 scaling to 47200/65008, not 0. */
  lemma AsWrittenFarEndCounterexample()
    ensures Scale(AsWritten(1000.0), MAX_POT_VALUE) == 47200.0 / 65008.0
    ensures Scale(AsWritten(1000.0), MAX_POT_VALUE) != Y2 as real
  {
  }

  /** The same calibration mean of 1000 at the largest reading read_u16
      can return, 65535: as written it scales to 47300/65008 (about 0.73),
      while the corrected line gives 100/64536 (about 0.0015). */
  lemma AsWrittenLargestReadingCounterexample()
    ensures Scale(AsWritten(1000.0), 65535) == 47300.0 / 65008.0
    ensures Scale(Corrected(1000.0), 65535) == 100.0 / 64536.0
  {
  }

  /** With the corrected transform both endpoints map exactly, for every
      calibration result other than 65536. */
  lemma CorrectedEndpoints(calibrated: real, x: int)
    requires calibrated != MAX_POT_VALUE as real
    ensures x as real == calibrated ==> Scale(Corrected(calibrated), x) == 100.0
    ensures Scale(Corrected(calibrated), MAX_POT_VALUE) == 0.0
  {
  }

  /** With the corrected transform, every raw value between the calibrated
      minimum and 65536 scales into [0, 100]. */
  lemma CorrectedInRange(calibrated: real, x: int)
    requires calibrated < MAX_POT_VALUE as real
    requires calibrated <= x as real <= MAX_POT_VALUE as real
    ensures 0.0 <= Scale(Corrected(calibrated), x) <= 100.0
  {
    var t := Corrected(calibrated);
    assert t.m < 0.0 by {
      assert t.m * (65536.0 - calibrated) < 0.0;
    }
    CorrectedEndpoints(calibrated, x);
    if x < MAX_POT_VALUE {
      ScaleStrictlyDecreasing(t, x, MAX_POT_VALUE);
    }
  }

  /** Calibration returned 528: 528 -> 100, 65536 -> 0 and 33032 -> 50. */
  lemma EndToEndAt528()
    ensures Scale(AsWritten(528.0), 528) == 100.0
    ensures Scale(AsWritten(528.0), MAX_POT_VALUE) == 0.0
    ensures Scale(AsWritten(528.0), 33032) == 50.0
  {
  }

  // ---------------------------------------------------------------------
  // Calibrator
  // ---------------------------------------------------------------------

  /** The sum of a sequence of readings. */
  function Sum(s: seq<int>): (r: int)
  {
    if |s| == 0 then 0 else Sum(s[..|s| - 1]) + s[|s| - 1]
  }

  /** The arithmetic mean of a non-empty sequence of readings. */
  function Mean(s: seq<int>): (r: real)
    requires |s| > 0
    ensures r * |s| as real == Sum(s) as real
  {
    Sum(s) as real / |s| as real
  }

  /** The smallest reading. */
  function Min(s: seq<int>): (r: int)
    requires |s| > 0
    ensures r in s
    ensures forall i :: 0 <= i < |s| ==> r <= s[i]
  {
    if |s| == 1 then s[0]
    else
      var m := Min(s[..|s| - 1]);
      if s[|s| - 1] < m then s[|s| - 1] else m
  }

  /** The largest reading. */
  function Max(s: seq<int>): (r: int)
    requires |s| > 0
    ensures r in s
    ensures forall i :: 0 <= i < |s| ==> s[i] <= r
  {
    if |s| == 1 then s[0]
    else
      var m := Max(s[..|s| - 1]);
      if s[|s| - 1] > m then s[|s| - 1] else m
  }

  /** calibrateMinPotValuePossible without its prompts, prints and sleeps:
      reads exactly numSamples values from the ADC, accumulates them in
      `total`, and divides by numSamples.  Sample counts are non-negative
      here; the only caller passes NUMSAMPLES. */
  method CalibrateMinPotValuePossible(numSamples: nat, adc: seq<int>) returns (r: Result<real>)
    requires numSamples <= |adc|
    ensures r.Err? <==> numSamples == 0
    ensures r.Ok? ==> r.value == Mean(adc[..numSamples])
    ensures r.Ok? ==> r.value * numSamples as real == Sum(adc[..numSamples]) as real
  {
    var total := 0;
    for sample := 0 to numSamples
      invariant total == Sum(adc[..sample])
    {
      assert adc[..sample + 1][..sample] == adc[..sample];
      total := total + adc[sample];
    }
    if numSamples == 0 {
      return Err(ZeroDivisionError);
    }
    r := Ok(total as real / numSamples as real);
  }

  /** Readings bounded by lo and hi give a sum bounded by n*lo and n*hi. */
  lemma {:induction false} SumBounds(s: seq<int>, lo: int, hi: int)
    requires forall i :: 0 <= i < |s| ==> lo <= s[i] <= hi
    ensures |s| * lo <= Sum(s) <= |s| * hi
  {
    if |s| > 0 {
      SumBounds(s[..|s| - 1], lo, hi);
    }
  }

  /** The mean lies between any common bounds of the readings. */
  lemma MeanBounds(s: seq<int>, lo: int, hi: int)
    requires |s| > 0
    requires forall i :: 0 <= i < |s| ==> lo <= s[i] <= hi
    ensures lo as real <= Mean(s) <= hi as real
  {
    SumBounds(s, lo, hi);
    var n := |s| as real;
    assert lo as real * n <= Sum(s) as real <= hi as real * n;
  }

  /** The mean lies between the smallest and the largest reading. */
  lemma MeanBetweenMinAndMax(s: seq<int>)
    requires |s| > 0
    ensures Min(s) as real <= Mean(s) <= Max(s) as real
  {
    MeanBounds(s, Min(s), Max(s));
  }

  /** When every reading is a raw ADC value, the calibrated mean, which
      need not be an integer, also lies in [0, 65536). */
  lemma MeanOfRawReadingsIsInRange(s: seq<int>)
    requires |s| > 0
    requires forall i :: 0 <= i < |s| ==> IsRaw(s[i])
    ensures 0.0 <= Mean(s) < 65536.0
  {
    MeanBounds(s, 0, 65535);
  }

  /** Four readings 500, 510, 520, 530 average to 515. */
  lemma CalibrationExample()
    ensures Mean([500, 510, 520, 530]) == 515.0
  {
    var s := [500, 510, 520, 530];
    assert s[..3] == [500, 510, 520];
    assert s[..3][..2] == [500, 510];
    assert s[..3][..2][..1] == [500];
    assert Sum([500]) == 500;
    assert Sum([500, 510]) == 1010;
    assert Sum([500, 510, 520]) == 1530;
  }

  // ---------------------------------------------------------------------
  // Start-up: calibration, then the slope
  // ---------------------------------------------------------------------

  /** Lines 73-74: calibrate x1 from NUMSAMPLES readings, then compute m
      from point1 and point2 (point1 still holding the initial 528). */
  method Startup(adc: seq<int>) returns (t: Transform)
    requires NUMSAMPLES <= |adc|
    ensures t == AsWritten(Mean(adc[..NUMSAMPLES]))
    ensures t.m == -100.0 / 65008.0 && t.y1 == 100.0
    ensures (forall i :: 0 <= i < |adc| ==> IsRaw(adc[i])) ==> 0.0 <= t.x1 < 65536.0
  {
    var calibrated := CalibrateMinPotValuePossible(NUMSAMPLES, adc);
    var minPotValue := calibrated.value;
    var slope := CalcSlope(POINT1, POINT2);
    t := Transform(slope.value, minPotValue, Y1 as real);
    if forall i :: 0 <= i < |adc| ==> IsRaw(adc[i]) {
      MeanOfRawReadingsIsInRange(adc[..NUMSAMPLES]);
    }
  }
}
