/**
 The reset command of the view: it zeroes the estimator's running counts,
 empties both point buffers and re-arms the first-cycle flag, and sets the
 view's own input and output text to "23458", "0.0" and "" (the last two
 differ from the view's initial "0" and "0.0"). The layout, the text
 parsing and the run command of the view are not part of this model.
 */
module View {
  import opened MonteCarlo

  /** The effect of a reset on the estimator's state: the estimate and the cycle size survive it. */
  function Reset(s: EstimatorState): EstimatorState
  {
    s.(totalGuesses := 0, totalIntegral := 0.0, insideData := [], outsideData := [], firstTimeThroughLoop := true)
  }

  /** A reset leaves no trace of earlier cycles in the counts or the buffers and keeps the last estimate. */
  lemma ResetClearsRunningState(s: EstimatorState)
    ensures Reset(s).totalGuesses == 0 && Reset(s).totalIntegral == 0.0
    ensures Reset(s).insideData == [] && Reset(s).outsideData == []
    ensures Reset(s).firstTimeThroughLoop
    ensures Reset(s).integral == s.integral && Reset(s).guesses == s.guesses
    ensures CountsConsistent(Reset(s))
  {
  }

  /** Resetting twice is resetting once. */
  lemma ResetIdempotent(s: EstimatorState)
    ensures Reset(Reset(s)) == Reset(s)
  {
  }

  /**
   A reset state differs from a freshly created estimator only in the
   estimate and the cycle size, which the reset does not touch.
   */
  lemma ResetIsFreshButForEstimate(s: EstimatorState)
    ensures Reset(s) == Initial().(integral := s.integral, guesses := s.guesses)
  {
  }

  /**
   After a reset the next cycle always passes the plotting gate: the buffers
   hold exactly that cycle's capped lists, and the counts are that cycle's.
   */
  lemma CycleAfterReset(s: EstimatorState, f: real -> real, draws: seq<Point>)
    requires |draws| == NumberOfDraws(s.guesses)
    requires s.guesses != 0
    ensures AppendsPoints(Reset(s))
    ensures var r := Cycle(Reset(s), f, draws);
      && r.insideData == Cap(Inside(f, draws))
      && r.outsideData == Cap(Outside(f, draws))
      && !r.firstTimeThroughLoop
      && r.totalGuesses == s.guesses
      && r.totalIntegral == |Inside(f, draws)| as real
  {
  }

  /** The view, reduced to the text fields the reset writes and the estimator it drives. */
  class ContentView {
    var guessString: string
    var totalGuessString: string
    var integralString: string
    const monteCarlo: MonteCarloCircle

    constructor (f: real -> real)
      ensures guessString == "23458" && totalGuessString == "0" && integralString == "0.0"
      ensures fresh(monteCarlo) && monteCarlo.Model() == Initial() && monteCarlo.f == f
    {
      guessString := "23458";
      totalGuessString := "0";
      integralString := "0.0";
      monteCarlo := new MonteCarloCircle(f);
    }

    /** Set the text fields to "23458", "0.0" and "" and reset the estimator's running state. */
    method Clear()
      modifies this, monteCarlo
      ensures guessString == "23458" && totalGuessString == "0.0" && integralString == ""
      ensures monteCarlo.Model() == Reset(old(monteCarlo.Model()))
      ensures monteCarlo.totalGuesses == 0 && monteCarlo.totalIntegral == 0.0
      ensures monteCarlo.insideData == [] && monteCarlo.outsideData == []
      ensures monteCarlo.firstTimeThroughLoop
      ensures monteCarlo.integral == old(monteCarlo.integral) && monteCarlo.guesses == old(monteCarlo.guesses)
    {
      guessString := "23458";
      totalGuessString := "0.0";
      integralString := "";
      monteCarlo.totalGuesses := 0;
      monteCarlo.totalIntegral := 0.0;
      monteCarlo.insideData := [];
      monteCarlo.outsideData := [];
      monteCarlo.firstTimeThroughLoop := true;
    }
  }
}
