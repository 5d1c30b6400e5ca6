/**
 * The backtesting panel: the strategy selector and its labels, the colour of a
 * result figure, the fixed historical results and the run button's flag.
 */
module BacktestingFramework {
  import opened Text
  import opened Types

  // ------------------------------------------------------------- strategies

  /** The number of entries of the strategy selector. */
  const StrategyCount: nat := 6

  /** The lower-case words of the i-th selector entry. */
  function StrategyWords(i: nat): (w: seq<string>)
    requires i < StrategyCount
    ensures 1 <= |w| <= 2
    ensures forall k :: 0 <= k < |w| ==> IsLowerWord(w[k]) && '-' !in w[k]
  {
    var w := [["delta", "neutral"], ["protective", "put"], ["iron", "condor"],
              ["butterfly"], ["straddle"], ["covered", "call"]][i];
    assert forall k :: 0 <= k < |w| ==> forall j :: 0 <= j < |w[k]| ==> 'a' <= w[k][j] <= 'z';
    w
  }

  /** The value of the i-th selector entry: its words joined by '-'. */
  function Strategy(i: nat): string
    requires i < StrategyCount
  {
    var w := StrategyWords(i);
    if |w| == 1 then w[0] else w[0] + "-" + w[1]
  }

  /** The title of the i-th selector entry: its words capitalised and joined by a space. */
  function StrategyTitle(i: nat): string
    requires i < StrategyCount
  {
    var w := StrategyWords(i);
    if |w| == 1 then Capitalized(w[0]) else Capitalized(w[0]) + " " + Capitalized(w[1])
  }

  /** The option label of a strategy: the first '-' becomes a space, then word starts are upper-cased. */
  function StrategyLabel(s: string): string {
    FormatLabel(s, '-')
  }

  /** Every selector entry is labelled with its title. */
  lemma StrategyLabelIsTitle(i: nat)
    requires i < StrategyCount
    ensures StrategyLabel(Strategy(i)) == StrategyTitle(i)
  {
    var w := StrategyWords(i);
    if |w| == 1 {
      OneWordLabel(w[0], '-');
    } else {
      assert w[0] + "-" + w[1] == w[0] + ['-'] + w[1];
      TwoWordLabel(w[0], w[1], '-');
    }
  }

  /** The selector's values are distinct: no two of them even have the same length. */
  lemma StrategiesDistinct(i: nat, j: nat)
    requires i < StrategyCount && j < StrategyCount && i != j
    ensures |Strategy(i)| != |Strategy(j)|
  {
    StrategyLength(i);
    StrategyLength(j);
  }

  /** The lengths of the selector's values, in order. */
  const StrategyLengths: seq<nat> := [13, 14, 11, 9, 8, 12]

  lemma StrategyLength(i: nat)
    requires i < StrategyCount
    ensures |Strategy(i)| == StrategyLengths[i]
  {
    var w := StrategyWords(i);
    if |w| == 2 {
      assert |Strategy(i)| == |w[0]| + 1 + |w[1]|;
    }
  }

  /** The default selection is "delta-neutral", labelled "Delta Neutral". */
  lemma DefaultStrategyLabel()
    ensures Strategy(0) == "delta-neutral" && StrategyTitle(0) == "Delta Neutral"
  {
    assert Capitalized("delta") == "Delta";
    assert Capitalized("neutral") == "Neutral";
  }

  // ----------------------------------------------------------------- colour

  /** The two colours of `getPerformanceColor`: green for good, red for bad. */
  datatype Verdict = Good | Bad

  /** `getPerformanceColor(value, isPositive)`: with `isPositive` a gain is good, without it a loss is. */
  function PerformanceColor(v: real, isPositive: bool): (c: Verdict)
    ensures isPositive ==> (c.Good? <==> v > 0.0)
    ensures !isPositive ==> (c.Good? <==> v < 0.0)
  {
    if isPositive then (if v > 0.0 then Good else Bad)
    else (if v < 0.0 then Good else Bad)
  }

  /** Flipping `isPositive` flips the verdict on every non-zero value; zero is bad either way. */
  lemma FlipFlipsVerdict(v: real)
    ensures v != 0.0 ==> PerformanceColor(v, true) != PerformanceColor(v, false)
    ensures PerformanceColor(0.0, true) == PerformanceColor(0.0, false) == Bad
  {
  }

  // ---------------------------------------------------------------- results

  const Period: string := "2023-01-01 to 2023-12-31"

  /** The historical results the panel starts with; nothing replaces them. */
  const InitialResults: seq<BacktestResult> := [
    BacktestResult("Delta Neutral", Period, 0.156, 1.42, 0.087, 0.673, 0.0023, 1247.0, 1.89, 1.79),
    BacktestResult("Protective Put", Period, 0.134, 1.28, 0.052, 0.712, 0.0045, 892.0, 2.12, 2.58),
    BacktestResult("Iron Condor", Period, 0.098, 0.95, 0.034, 0.785, 0.0012, 456.0, 1.67, 2.88)]

  /** A result's calmar ratio agrees with its return over its drawdown to within 0.005. */
  predicate CalmarConsistent(r: BacktestResult) {
    r.maxDrawdown > 0.0 && -0.005 <= r.calmarRatio - r.totalReturn / r.maxDrawdown <= 0.005
  }

  /** A result's rates are fractions and it made at least one trade. */
  predicate RatesInRange(r: BacktestResult) {
    0.0 <= r.winRate <= 1.0 && 0.0 <= r.maxDrawdown <= 1.0 && r.totalTrades > 0.0
  }

  /** Every fixed result has a consistent calmar ratio and rates in range. */
  lemma InitialResultsConsistent()
    ensures forall i :: 0 <= i < |InitialResults| ==> CalmarConsistent(InitialResults[i]) && RatesInRange(InitialResults[i])
  {
    assert 0.156 / 0.087 > 1.785 && 0.156 / 0.087 < 1.795;
    assert 0.134 / 0.052 > 2.575 && 0.134 / 0.052 < 2.585;
    assert 0.098 / 0.034 > 2.875 && 0.098 / 0.034 < 2.885;
  }

  /** The fixed results are the first three selector entries, under their titles. */
  lemma InitialResultsAreTitled()
    ensures forall i :: 0 <= i < |InitialResults| ==> InitialResults[i].strategy == StrategyTitle(i)
  {
    DefaultStrategyLabel();
    assert Capitalized("protective") == "Protective" && Capitalized("put") == "Put";
    assert Capitalized("iron") == "Iron" && Capitalized("condor") == "Condor";
  }

  // ------------------------------------------------------------------ panel

  /**
   * The panel's state. `pendingTimers` counts the timeouts `runBacktest`
   * scheduled that have not fired yet; the firing is the separate step
   * `FinishRun`.
   */
  class Backtester {
    var isRunning: bool
    var pendingTimers: nat
    var selectedStrategy: string
    var results: seq<BacktestResult>

    /** Running exactly while the one timer is pending. */
    ghost predicate Valid()
      reads this
    {
      pendingTimers <= 1 && (isRunning <==> pendingTimers == 1)
    }

    constructor ()
      ensures Valid() && !isRunning
      ensures selectedStrategy == "delta-neutral" && results == InitialResults
    {
      isRunning := false;
      pendingTimers := 0;
      selectedStrategy := "delta-neutral";
      results := InitialResults;
    }

    /** Choosing the i-th selector entry. */
    method Select(i: nat)
      requires i < StrategyCount
      modifies this
      ensures selectedStrategy == Strategy(i)
      ensures isRunning == old(isRunning) && pendingTimers == old(pendingTimers) && results == old(results)
    {
      selectedStrategy := Strategy(i);
    }

    /**
     * A press of the run button. The button is disabled while running, so a
     * press then does nothing; otherwise the flag is raised and one timer is
     * scheduled. The results are never touched.
     */
    method PressRun()
      requires Valid()
      modifies this
      ensures Valid() && isRunning
      ensures pendingTimers == 1
      ensures old(isRunning) ==> pendingTimers == old(pendingTimers)
      ensures results == old(results) && selectedStrategy == old(selectedStrategy)
    {
      if !isRunning {
        isRunning := true;
        pendingTimers := pendingTimers + 1;
      }
    }

    /** The timer firing: the flag is cleared, and no result is added or updated. */
    method FinishRun()
      requires Valid() && pendingTimers > 0
      modifies this
      ensures Valid() && !isRunning && pendingTimers == old(pendingTimers) - 1
      ensures results == old(results) && selectedStrategy == old(selectedStrategy)
    {
      pendingTimers := pendingTimers - 1;
      isRunning := false;
    }
  }
}
