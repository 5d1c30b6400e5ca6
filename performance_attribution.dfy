/**
 * The performance attribution panel: the record of the selected period, the
 * colour of a return and the widths of the attribution bars.
 */
module PerformanceAttribution {
  import opened Wrappers
  import opened Types
  import BacktestingFramework

  // ---------------------------------------------------------------- records

  /** The period buttons, in display order. */
  const Periods: seq<string> := ["1M", "3M", "6M", "1Y"]

  /** The fixed attribution records, one per period. */
  const Records: seq<PerformanceAttribution> := [
    PerformanceAttribution("1M", 0.087, -0.023, 0.110, 0.0045, 0.89, 2.34, 0.156),
    PerformanceAttribution("3M", 0.156, -0.034, 0.190, 0.0067, 0.92, 2.89, 0.234),
    PerformanceAttribution("6M", 0.234, -0.045, 0.279, 0.0089, 0.87, 3.12, 0.345),
    PerformanceAttribution("1Y", 0.345, -0.067, 0.412, 0.0123, 0.85, 3.45, 0.456)]

  /** The index `find` stops at: the first record of the period, or the length when there is none. */
  function FindPeriod(data: seq<PerformanceAttribution>, period: string): (k: nat)
    ensures k <= |data|
    ensures k < |data| ==> data[k].period == period
    ensures forall j :: 0 <= j < k ==> data[j].period != period
  {
    if data == [] then 0
    else if data[0].period == period then 0
    else 1 + FindPeriod(data[1..], period)
  }

  /**
   * `find(d => d.period === selectedPeriod) || attributionData[0]`: the first
   * record of the period, else the first record, and nothing on an empty list.
   */
  function CurrentRecord(data: seq<PerformanceAttribution>, period: string): (r: Option<PerformanceAttribution>)
    ensures r.None? <==> data == []
    ensures r.Some? ==> r.value in data
    ensures (exists j :: 0 <= j < |data| && data[j].period == period) ==> r.Some? && r.value.period == period
    ensures (forall j :: 0 <= j < |data| ==> data[j].period != period) && data != [] ==> r == Some(data[0])
  {
    var k := FindPeriod(data, period);
    if k < |data| then Some(data[k])
    else if data != [] then Some(data[0])
    else None
  }

  /** The record shown is the earliest of its period: an earlier record of the same period would be found first. */
  lemma CurrentRecordIsFirst(data: seq<PerformanceAttribution>, period: string, j: nat)
    requires j < |data| && data[j].period == period
    ensures CurrentRecord(data, period) == Some(data[FindPeriod(data, period)])
    ensures FindPeriod(data, period) <= j
  {
  }

  /** Each period button has exactly one record, at its own position. */
  lemma RecordsMatchPeriods()
    ensures |Records| == |Periods|
    ensures forall i, j :: 0 <= i < |Records| && 0 <= j < |Periods| ==> (Records[i].period == Periods[j] <==> i == j)
  {
  }

  /** Selecting any period button shows that period's record, so the fallback to the first record never fires. */
  lemma {:induction false} SelectedPeriodFound(j: nat)
    requires j < |Periods|
    ensures CurrentRecord(Records, Periods[j]) == Some(Records[j])
  {
    RecordsMatchPeriods();
    assert FindPeriod(Records, Periods[j]) == j;
  }

  /** A record's alpha is its total return minus its hedging return. */
  predicate AlphaAddsUp(r: PerformanceAttribution) {
    r.alphaReturn == r.totalReturn - r.hedgingReturn
  }

  /** A record has a positive hedging cost and an effectiveness that is a fraction. */
  predicate CostsInRange(r: PerformanceAttribution) {
    r.hedgingCosts > 0.0 && 0.0 <= r.effectiveness <= 1.0
  }

  /** Every fixed record's alpha adds up exactly, its cost is positive and its effectiveness a fraction. */
  lemma RecordsConsistent()
    ensures forall i :: 0 <= i < |Records| ==> AlphaAddsUp(Records[i]) && CostsInRange(Records[i])
  {
  }

  // ----------------------------------------------------------------- colour

  /** This panel's `getPerformanceColor`: a return is good when it is not negative. */
  function ReturnColor(v: real): (c: BacktestingFramework.Verdict)
    ensures c.Good? <==> v >= 0.0
  {
    if v >= 0.0 then BacktestingFramework.Good else BacktestingFramework.Bad
  }

  /** This panel and the backtest panel disagree exactly on a zero return, which only this one counts as good. */
  lemma ColoursDifferOnlyAtZero(v: real)
    ensures ReturnColor(v) != BacktestingFramework.PerformanceColor(v, true) <==> v == 0.0
    ensures ReturnColor(0.0).Good?
  {
  }

  // ------------------------------------------------------------------- bars

  /** Width in percent of the alpha bar: `Math.abs(alphaReturn) * 200`. */
  function AlphaBarWidth(r: PerformanceAttribution): (w: real)
    ensures w >= 0.0
    ensures w == 0.0 <==> r.alphaReturn == 0.0
  {
    Abs(r.alphaReturn) * 200.0
  }

  /** Width in percent of the hedging bar: `Math.abs(hedgingReturn) * 400`. */
  function HedgingBarWidth(r: PerformanceAttribution): (w: real)
    ensures w >= 0.0
    ensures w == 0.0 <==> r.hedgingReturn == 0.0
  {
    Abs(r.hedgingReturn) * 400.0
  }

  /** Width in percent of the cost bar: `hedgingCosts * 2000`, with no absolute value. */
  function CostBarWidth(r: PerformanceAttribution): (w: real)
    ensures w >= 0.0 <==> r.hedgingCosts >= 0.0
  {
    r.hedgingCosts * 2000.0
  }

  /** Every negative cost gives the cost bar a negative width, while the other two bars never go below zero. */
  lemma NegativeCostBar(r: PerformanceAttribution)
    requires r.hedgingCosts < 0.0
    ensures CostBarWidth(r) < 0.0
    ensures AlphaBarWidth(r) >= 0.0 && HedgingBarWidth(r) >= 0.0
  {
  }

  /** Every bar of every fixed record has a positive width. */
  lemma RecordBarsPositive()
    ensures forall i :: 0 <= i < |Records| ==>
      AlphaBarWidth(Records[i]) > 0.0 && HedgingBarWidth(Records[i]) > 0.0 && CostBarWidth(Records[i]) > 0.0
  {
    RecordsConsistent();
  }
}
