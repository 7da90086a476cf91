/**
 The incremental Monte Carlo estimator of the integral of f over [0, 1]
 (f is e^-x in the application). Each cycle classifies a batch of drawn
 points as under or above the curve, folds the counts into running totals,
 recomputes the running estimate, and, subject to a display cap, appends the
 batch's points to two retained buffers.

 The random number generator and the exponential are not modelled: the drawn
 points are an input sequence and the curve is an arbitrary `real -> real`.
 */
module MonteCarlo {
  import opened BoundingBox

  /** A sampled point (x, y). */
  datatype Point = Point(x: real, y: real)

  /** Once the running number of guesses reaches this value, later cycles stop adding points to the buffers. */
  const PlotTotalGuessesLimit: int := 500001

  /** Each cycle adds at most this many points to each buffer. */
  const MaxPlotPoints: nat := 750001

  /** How many points a cycle of `maxGuesses` draws: the loop runs zero times for a non-positive count. */
  function NumberOfDraws(maxGuesses: int): nat
  {
    if maxGuesses > 0 then maxGuesses else 0
  }

  /** A point is counted when it lies strictly below the curve; a point on the curve is not. */
  predicate UnderCurve(f: real -> real, p: Point)
  {
    p.y < f(p.x)
  }

  /** The drawn points that lie under the curve, in draw order. */
  function Inside(f: real -> real, draws: seq<Point>): seq<Point>
  {
    if draws == [] then []
    else
      var last := draws[|draws| - 1];
      Inside(f, draws[..|draws| - 1]) + (if UnderCurve(f, last) then [last] else [])
  }

  /** The drawn points that do not lie under the curve, in draw order. */
  function Outside(f: real -> real, draws: seq<Point>): seq<Point>
  {
    if draws == [] then []
    else
      var last := draws[|draws| - 1];
      Outside(f, draws[..|draws| - 1]) + (if UnderCurve(f, last) then [] else [last])
  }

  /** Every draw lands in exactly one of the two lists. */
  lemma {:induction false} InsideOutsideCount(f: real -> real, draws: seq<Point>)
    ensures |Inside(f, draws)| + |Outside(f, draws)| == |draws|
    ensures |Inside(f, draws)| <= |draws|
  {
    if draws != [] {
      InsideOutsideCount(f, draws[..|draws| - 1]);
    }
  }

  /** The two lists together hold exactly the drawn points, each as often as it was drawn. */
  lemma {:induction false} DrawsArePartitioned(f: real -> real, draws: seq<Point>)
    ensures multiset(Inside(f, draws)) + multiset(Outside(f, draws)) == multiset(draws)
  {
    if draws != [] {
      var init, last := draws[..|draws| - 1], draws[|draws| - 1];
      DrawsArePartitioned(f, init);
      assert draws == init + [last];
    }
  }

  /** A point is in the inside list iff it was drawn and lies strictly under the curve; otherwise it is outside. */
  lemma {:induction false} InsideOutsideMembership(f: real -> real, draws: seq<Point>, p: Point)
    ensures p in Inside(f, draws) <==> p in draws && UnderCurve(f, p)
    ensures p in Outside(f, draws) <==> p in draws && !UnderCurve(f, p)
  {
    if draws != [] {
      var init := draws[..|draws| - 1];
      InsideOutsideMembership(f, init, p);
      assert draws == init + [draws[|draws| - 1]];
    }
  }

  /** Classification keeps draw order: the lists of a concatenation are the concatenations of the lists. */
  lemma {:induction false} InsideOutsideConcat(f: real -> real, a: seq<Point>, b: seq<Point>)
    ensures Inside(f, a + b) == Inside(f, a) + Inside(f, b)
    ensures Outside(f, a + b) == Outside(f, a) + Outside(f, b)
    decreases |b|
  {
    if b == [] {
      assert a + b == a;
    } else {
      var init := b[..|b| - 1];
      assert (a + b)[..|a + b| - 1] == a + init;
      InsideOutsideConcat(f, a, init);
    }
  }

  /** A point exactly on the curve is rejected (the comparison is strict). */
  lemma PointOnCurveIsOutside(f: real -> real, p: Point)
    requires p.y == f(p.x)
    ensures Inside(f, [p]) == [] && Outside(f, [p]) == [p]
  {
  }

  /**
   The sampling loop: walk the `maxGuesses` draws in order, counting and
   collecting the points under the curve and collecting the others.
   */
  method SampleUnderCurve(f: real -> real, maxGuesses: int, draws: seq<Point>)
    returns (pointsUnderCurve: nat, newInsidePoints: seq<Point>, newOutsidePoints: seq<Point>)
    requires |draws| == NumberOfDraws(maxGuesses)
    ensures newInsidePoints == Inside(f, draws)
    ensures newOutsidePoints == Outside(f, draws)
    ensures pointsUnderCurve == |newInsidePoints|
    ensures |newInsidePoints| + |newOutsidePoints| == NumberOfDraws(maxGuesses)
  {
    var numberOfGuesses := 0;
    pointsUnderCurve := 0;
    newInsidePoints, newOutsidePoints := [], [];
    while numberOfGuesses < maxGuesses
      invariant 0 <= numberOfGuesses <= |draws|
      invariant newInsidePoints == Inside(f, draws[..numberOfGuesses])
      invariant newOutsidePoints == Outside(f, draws[..numberOfGuesses])
      invariant pointsUnderCurve == |newInsidePoints|
    {
      var point := draws[numberOfGuesses];
      var testPoint := f(point.x);
      assert draws[..numberOfGuesses + 1][..numberOfGuesses] == draws[..numberOfGuesses];
      if point.y < testPoint {
        pointsUnderCurve := pointsUnderCurve + 1;
        newInsidePoints := newInsidePoints + [point];
      } else {
        newOutsidePoints := newOutsidePoints + [point];
      }
      numberOfGuesses := numberOfGuesses + 1;
    }
    assert draws[..numberOfGuesses] == draws;
    InsideOutsideCount(f, draws);
  }

  /** The display cap on one cycle's list: its first `MaxPlotPoints` entries. */
  function Cap(points: seq<Point>): (r: seq<Point>)
    ensures |r| <= MaxPlotPoints
    ensures r <= points
    ensures |points| <= MaxPlotPoints ==> r == points
    ensures |points| > MaxPlotPoints ==> |r| == MaxPlotPoints
  {
    if |points| > MaxPlotPoints then points[..MaxPlotPoints] else points
  }

  /** The estimator's state, as a value. */
  datatype EstimatorState = EstimatorState(
    insideData: seq<Point>,
    outsideData: seq<Point>,
    integral: real,
    guesses: int,
    totalGuesses: int,
    totalIntegral: real,
    firstTimeThroughLoop: bool)

  /** A freshly created estimator. */
  function Initial(): EstimatorState
  {
    EstimatorState([], [], 0.0, 1, 0, 0.0, true)
  }

  /** Whether this cycle's points are added to the buffers (decided on the totals before the cycle). */
  predicate AppendsPoints(s: EstimatorState)
  {
    s.totalGuesses < PlotTotalGuessesLimit || s.firstTimeThroughLoop
  }

  /** The effect of the sampling step on the buffers and the first-cycle flag. */
  function AfterSampling(s: EstimatorState, f: real -> real, draws: seq<Point>): EstimatorState
  {
    if AppendsPoints(s) then
      s.(insideData := s.insideData + Cap(Inside(f, draws)),
         outsideData := s.outsideData + Cap(Outside(f, draws)),
         firstTimeThroughLoop := false)
    else
      s
  }

  /** One whole cycle of `s.guesses` draws: sampling, then the running totals and the estimate. */
  function Cycle(s: EstimatorState, f: real -> real, draws: seq<Point>): EstimatorState
    requires |draws| == NumberOfDraws(s.guesses)
    requires s.totalGuesses + s.guesses != 0
  {
    var sampled := AfterSampling(s, f, draws);
    var totalIntegral := s.totalIntegral + |Inside(f, draws)| as real;
    var totalGuesses := s.totalGuesses + s.guesses;
    sampled.(totalIntegral := totalIntegral,
             totalGuesses := totalGuesses,
             integral := totalIntegral / totalGuesses as real * CalculateSurfaceArea(2, 1.0, 1.0, 0.0))
  }

  /** The accepted count never exceeds the sample count, and neither is negative. */
  predicate CountsConsistent(s: EstimatorState)
  {
    0.0 <= s.totalIntegral <= s.totalGuesses as real
  }

  /**
   A cycle adds its guesses to the running guess count and its accepted
   points to the running accepted count, so it keeps the counts consistent
   when the cycle size is not negative.
   */
  lemma CycleAccumulates(s: EstimatorState, f: real -> real, draws: seq<Point>)
    requires |draws| == NumberOfDraws(s.guesses)
    requires s.totalGuesses + s.guesses != 0
    ensures Cycle(s, f, draws).totalGuesses == s.totalGuesses + s.guesses
    ensures Cycle(s, f, draws).totalIntegral == s.totalIntegral + |Inside(f, draws)| as real
    ensures Cycle(s, f, draws).guesses == s.guesses
    ensures CountsConsistent(s) && s.guesses >= 0 ==> CountsConsistent(Cycle(s, f, draws))
  {
    InsideOutsideCount(f, draws);
  }

  /**
   The estimate is the fraction of accepted samples times the unit square's
   area, that is the fraction itself, and so lies in [0, 1].
   */
  lemma CycleEstimateIsAcceptedFraction(s: EstimatorState, f: real -> real, draws: seq<Point>)
    requires |draws| == NumberOfDraws(s.guesses)
    requires CountsConsistent(s) && s.guesses >= 0
    requires s.totalGuesses + s.guesses > 0
    ensures var r := Cycle(s, f, draws);
      && r.integral == r.totalIntegral / r.totalGuesses as real
      && 0.0 <= r.integral <= 1.0
  {
    CycleAccumulates(s, f, draws);
    var r := Cycle(s, f, draws);
    FractionInUnitInterval(r.totalIntegral, r.totalGuesses as real);
  }

  /** A fraction whose part is between zero and the whole lies in [0, 1]. */
  lemma FractionInUnitInterval(part: real, whole: real)
    requires 0.0 <= part <= whole && whole > 0.0
    ensures 0.0 <= part / whole <= 1.0
  {
  }

  /**
   A negative cycle size is accepted and still subtracted from the running
   guess count, which can take the estimate above 1: 7 accepted out of
   10 guesses followed by a cycle of -5 gives 7/5.
   */
  lemma NegativeCycleLeavesUnitInterval(f: real -> real)
    ensures var s := Initial().(totalGuesses := 10, totalIntegral := 7.0, guesses := -5);
      && CountsConsistent(s)
      && Cycle(s, f, []).integral == 7.0 / 5.0
      && Cycle(s, f, []).integral > 1.0
  {
  }

  /**
   The buffers only grow, and only at their ends: a cycle that passes the gate
   appends the capped inside and outside lists and clears the first-cycle
   flag; a cycle that does not leaves buffers and flag as they were.
   */
  lemma CycleBuffers(s: EstimatorState, f: real -> real, draws: seq<Point>)
    requires |draws| == NumberOfDraws(s.guesses)
    requires s.totalGuesses + s.guesses != 0
    ensures var r := Cycle(s, f, draws);
      && s.insideData <= r.insideData
      && s.outsideData <= r.outsideData
      && |r.insideData| - |s.insideData| <= MaxPlotPoints
      && |r.outsideData| - |s.outsideData| <= MaxPlotPoints
    ensures AppendsPoints(s) ==>
      var r := Cycle(s, f, draws);
      && r.insideData[|s.insideData|..] == Cap(Inside(f, draws))
      && r.outsideData[|s.outsideData|..] == Cap(Outside(f, draws))
      && !r.firstTimeThroughLoop
    ensures !AppendsPoints(s) ==>
      var r := Cycle(s, f, draws);
      && r.insideData == s.insideData
      && r.outsideData == s.outsideData
      && r.firstTimeThroughLoop == s.firstTimeThroughLoop
  {
  }

  /**
   Display-cap suppression: past the threshold and not on the first cycle, a
   cycle adds no points, but the counters and the estimate still advance.
   */
  lemma CapSuppressesPlotting(s: EstimatorState, f: real -> real, draws: seq<Point>)
    requires |draws| == NumberOfDraws(s.guesses)
    requires s.totalGuesses >= PlotTotalGuessesLimit && !s.firstTimeThroughLoop
    requires s.guesses >= 0
    ensures var r := Cycle(s, f, draws);
      && r.insideData == s.insideData && r.outsideData == s.outsideData
      && r.totalGuesses == s.totalGuesses + s.guesses
      && r.integral == r.totalIntegral / r.totalGuesses as real
      && !AppendsPoints(r)
  {
  }

  /**
   The first cycle always plots, whatever the guess count: one million draws
   on a first cycle leave at most `MaxPlotPoints` points in each buffer.
   */
  lemma FirstCycleAlwaysPlots(s: EstimatorState, f: real -> real, draws: seq<Point>)
    requires |draws| == NumberOfDraws(s.guesses)
    requires s.totalGuesses + s.guesses != 0
    requires s.firstTimeThroughLoop && s.insideData == [] && s.outsideData == []
    ensures var r := Cycle(s, f, draws);
      && r.insideData == Cap(Inside(f, draws))
      && r.outsideData == Cap(Outside(f, draws))
      && |r.insideData| <= MaxPlotPoints && |r.outsideData| <= MaxPlotPoints
      && !r.firstTimeThroughLoop
  {
  }

  /** Total number of points in a series of batches. */
  function TotalDraws(batches: seq<seq<Point>>): nat
  {
    if batches == [] then 0 else |batches[0]| + TotalDraws(batches[1..])
  }

  /** Total number of accepted points in a series of batches. */
  function TotalInside(f: real -> real, batches: seq<seq<Point>>): nat
  {
    if batches == [] then 0 else |Inside(f, batches[0])| + TotalInside(f, batches[1..])
  }

  /**
   A series of cycles, each preceded by setting the cycle size to the length
   of its batch (as the view does before every run).
   */
  function Runs(s: EstimatorState, f: real -> real, batches: seq<seq<Point>>): EstimatorState
    requires s.totalGuesses >= 0
    requires forall i :: 0 <= i < |batches| ==> |batches[i]| > 0
    decreases |batches|
  {
    if batches == [] then s
    else Runs(Cycle(s.(guesses := |batches[0]|), f, batches[0]), f, batches[1..])
  }

  /**
   Monotonic accumulation: after any series of cycles the running guess
   count has grown by the total number of draws, the running accepted count
   by the total number of accepted draws, the counts stay consistent, and the
   buffers have only been extended.
   */
  lemma {:induction false} RunsAccumulate(s: EstimatorState, f: real -> real, batches: seq<seq<Point>>)
    requires s.totalGuesses >= 0
    requires forall i :: 0 <= i < |batches| ==> |batches[i]| > 0
    ensures Runs(s, f, batches).totalGuesses == s.totalGuesses + TotalDraws(batches)
    ensures Runs(s, f, batches).totalIntegral == s.totalIntegral + TotalInside(f, batches) as real
    ensures CountsConsistent(s) ==> CountsConsistent(Runs(s, f, batches))
    ensures s.insideData <= Runs(s, f, batches).insideData
    ensures s.outsideData <= Runs(s, f, batches).outsideData
    decreases |batches|
  {
    if batches != [] {
      var t := s.(guesses := |batches[0]|);
      CycleAccumulates(t, f, batches[0]);
      CycleBuffers(t, f, batches[0]);
      var next := Cycle(t, f, batches[0]);
      RunsAccumulate(next, f, batches[1..]);
    }
  }

  /**
   The estimator. The points kept for display, the running totals, the
   running estimate and the first-cycle flag are fields that each cycle
   updates in place; `f` is the integrand.
   */
  class MonteCarloCircle {
    var insideData: seq<Point>
    var outsideData: seq<Point>
    var integral: real
    var guesses: int
    var totalGuesses: int
    var totalIntegral: real
    var firstTimeThroughLoop: bool
    const f: real -> real

    /** The fields as a value. */
    function Model(): EstimatorState
      reads this
    {
      EstimatorState(insideData, outsideData, integral, guesses, totalGuesses, totalIntegral, firstTimeThroughLoop)
    }

    constructor (f: real -> real)
      ensures Model() == Initial() && this.f == f
    {
      insideData := [];
      outsideData := [];
      integral := 0.0;
      guesses := 1;
      totalGuesses := 0;
      totalIntegral := 0.0;
      firstTimeThroughLoop := true;
      this.f := f;
    }

    /**
     Run one cycle of `guesses` draws and recompute the running estimate.
     The division is only defined when the new guess count is not zero.
     */
    method CalculateIntegral(draws: seq<Point>)
      requires |draws| == NumberOfDraws(guesses)
      requires totalGuesses + guesses != 0
      modifies this
      ensures Model() == Cycle(old(Model()), f, draws)
      ensures totalGuesses == old(totalGuesses) + guesses && guesses == old(guesses)
      ensures totalIntegral == old(totalIntegral) + |Inside(f, draws)| as real
      ensures integral == totalIntegral / totalGuesses as real
    {
      var maxGuesses := guesses;
      var newValue := CalculateMonteCarloIntegral(maxGuesses, draws);
      totalIntegral := totalIntegral + newValue;
      totalGuesses := totalGuesses + guesses;
      integral := totalIntegral / totalGuesses as real * CalculateSurfaceArea(2, 1.0, 1.0, 0.0);
    }

    /**
     Classify `maxGuesses` draws and return the number under the curve; if
     the running guess count (before this cycle) is below the threshold, or
     this is the first cycle, append each list, capped, to its buffer.
     */
    method CalculateMonteCarloIntegral(maxGuesses: int, draws: seq<Point>) returns (value: real)
      requires |draws| == NumberOfDraws(maxGuesses)
      modifies this`insideData, this`outsideData, this`firstTimeThroughLoop
      ensures value == |Inside(f, draws)| as real
      ensures 0.0 <= value <= NumberOfDraws(maxGuesses) as real
      ensures Model() == AfterSampling(old(Model()), f, draws)
    {
      var pointsUnderCurve, newInsidePoints, newOutsidePoints := SampleUnderCurve(f, maxGuesses, draws);
      value := pointsUnderCurve as real;
      if totalGuesses < PlotTotalGuessesLimit || firstTimeThroughLoop {
        var plotInsidePoints := newInsidePoints;
        var plotOutsidePoints := newOutsidePoints;
        if |newInsidePoints| > MaxPlotPoints {
          plotInsidePoints := plotInsidePoints[..MaxPlotPoints];
        }
        if |newOutsidePoints| > MaxPlotPoints {
          plotOutsidePoints := plotOutsidePoints[..MaxPlotPoints];
        }
        UpdateData(plotInsidePoints, plotOutsidePoints);
        firstTimeThroughLoop := false;
      }
    }

    /** Append the given points to the display buffers. */
    method UpdateData(insidePoints: seq<Point>, outsidePoints: seq<Point>)
      modifies this`insideData, this`outsideData
      ensures insideData == old(insideData) + insidePoints
      ensures outsideData == old(outsideData) + outsidePoints
      ensures old(insideData) <= insideData && |insideData| == |old(insideData)| + |insidePoints|
      ensures old(outsideData) <= outsideData && |outsideData| == |old(outsideData)| + |outsidePoints|
    {
      insideData := insideData + insidePoints;
      outsideData := outsideData + outsidePoints;
    }
  }
}
