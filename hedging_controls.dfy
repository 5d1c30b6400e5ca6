/**
 * The hedge-strategy panel: a list of configured strategies whose `enabled`
 * flag and risk threshold are updated by id, a range slider that produces
 * thresholds, and the Execute Hedge buttons.
 */
module HedgingControls {
  import opened Wrappers
  import opened Text
  import opened Types

  /** The ids of a strategy list, in order. */
  function Ids(ss: seq<HedgeStrategy>): (ids: seq<string>)
    ensures |ids| == |ss| && forall i :: 0 <= i < |ss| ==> ids[i] == ss[i].id
  {
    seq(|ss|, i requires 0 <= i < |ss| => ss[i].id)
  }

  predicate DistinctIds(ss: seq<HedgeStrategy>) {
    forall i, j :: 0 <= i < j < |ss| ==> ss[i].id != ss[j].id
  }

  /** The slider's domain: 0.1 up to 1.0. */
  predicate ThresholdInRange(t: real) {
    0.1 <= t <= 1.0
  }

  predicate ThresholdsInRange(ss: seq<HedgeStrategy>) {
    forall i :: 0 <= i < |ss| ==> ThresholdInRange(ss[i].threshold)
  }

  /** `toggleStrategy(id)`: flip `enabled` on the strategies with the id. */
  function Toggled(ss: seq<HedgeStrategy>, id: string): (r: seq<HedgeStrategy>)
    ensures |r| == |ss|
    ensures forall i :: 0 <= i < |ss| ==> r[i].enabled == (ss[i].enabled != (ss[i].id == id))
    ensures forall i :: 0 <= i < |ss| ==> r[i].(enabled := ss[i].enabled) == ss[i]
  {
    if ss == [] then []
    else
      var s := ss[0];
      [if s.id == id then s.(enabled := !s.enabled) else s] + Toggled(ss[1..], id)
  }

  /** `updateThreshold(id, threshold)`: set the threshold of the strategies with the id. */
  function WithThreshold(ss: seq<HedgeStrategy>, id: string, threshold: real): (r: seq<HedgeStrategy>)
    ensures |r| == |ss|
    ensures forall i :: 0 <= i < |ss| ==> r[i].threshold == if ss[i].id == id then threshold else ss[i].threshold
    ensures forall i :: 0 <= i < |ss| ==> r[i].(threshold := ss[i].threshold) == ss[i]
  {
    if ss == [] then []
    else
      var s := ss[0];
      [if s.id == id then s.(threshold := threshold) else s] + WithThreshold(ss[1..], id, threshold)
  }

  /** Toggling the same id twice restores the list. */
  lemma ToggleTwice(ss: seq<HedgeStrategy>, id: string)
    ensures Toggled(Toggled(ss, id), id) == ss
  {
    var r := Toggled(Toggled(ss, id), id);
    forall i | 0 <= i < |ss|
      ensures r[i] == ss[i]
    {
      assert r[i].(enabled := ss[i].enabled) == ss[i];
    }
  }

  /** Setting the same threshold twice is setting it once. */
  lemma ThresholdIdempotent(ss: seq<HedgeStrategy>, id: string, t: real)
    ensures WithThreshold(WithThreshold(ss, id, t), id, t) == WithThreshold(ss, id, t)
  {
    var once := WithThreshold(ss, id, t);
    var twice := WithThreshold(once, id, t);
    forall i | 0 <= i < |ss|
      ensures twice[i] == once[i]
    {
      assert twice[i].(threshold := once[i].threshold) == once[i];
    }
  }

  /** Both updates keep the list's ids, and hence its length and order of strategies. */
  lemma UpdatesKeepIds(ss: seq<HedgeStrategy>, id: string, t: real)
    ensures Ids(Toggled(ss, id)) == Ids(ss)
    ensures Ids(WithThreshold(ss, id, t)) == Ids(ss)
  {
    var a := Toggled(ss, id);
    var b := WithThreshold(ss, id, t);
    forall i | 0 <= i < |ss|
      ensures a[i].id == ss[i].id && b[i].id == ss[i].id
    {
      assert a[i].(enabled := ss[i].enabled) == ss[i];
      assert b[i].(threshold := ss[i].threshold) == ss[i];
    }
  }

  /** An id no strategy carries leaves the list unchanged under both updates. */
  lemma UnknownIdNoOp(ss: seq<HedgeStrategy>, id: string, t: real)
    requires forall i :: 0 <= i < |ss| ==> ss[i].id != id
    ensures Toggled(ss, id) == ss
    ensures WithThreshold(ss, id, t) == ss
  {
    var a := Toggled(ss, id);
    var b := WithThreshold(ss, id, t);
    forall i | 0 <= i < |ss|
      ensures a[i] == ss[i] && b[i] == ss[i]
    {
      assert a[i].(enabled := ss[i].enabled) == ss[i];
      assert b[i].(threshold := ss[i].threshold) == ss[i];
    }
  }

  /** The value of the slider at its k-th notch: `min="0.1" max="1" step="0.1"`. */
  function SliderValue(k: nat): (t: real)
    requires k < 10
    ensures ThresholdInRange(t)
    ensures t * 10.0 == (k + 1) as real
  {
    (k + 1) as real / 10.0
  }

  /** The notches run from 0.1 to 1.0, each 0.1 above the one before. */
  lemma SliderNotches(j: nat, k: nat)
    requires j < k < 10
    ensures SliderValue(0) == 0.1 && SliderValue(9) == 1.0
    ensures SliderValue(k) - SliderValue(j) == (k - j) as real / 10.0
    ensures SliderValue(j) < SliderValue(k)
  {
  }

  /** What the Execute Hedge button passes on: the strategy type and the name's third word, if any. */
  datatype HedgeRequest = HedgeRequest(kind: StrategyType, asset: Option<string>)

  /** The Execute Hedge button of one strategy: None while the strategy is disabled (the button is disabled). */
  function ExecuteHedge(s: HedgeStrategy): (r: Option<HedgeRequest>)
    ensures r.Some? <==> s.enabled
    ensures r.Some? ==> r.value.kind == s.kind
    ensures r.Some? ==> (r.value.asset.Some? <==> |Split(s.name, ' ')| >= 3)
  {
    if s.enabled then Some(HedgeRequest(s.kind, Piece(s.name, ' ', 2))) else None
  }

  /** For a three-word name "strategy words ASSET", the request names the third word. */
  lemma ExecuteHedgeThirdWord(s: HedgeStrategy, w1: string, w2: string, w3: string)
    requires s.enabled
    requires ' ' !in w1 && ' ' !in w2 && ' ' !in w3
    requires s.name == w1 + " " + w2 + " " + w3
    ensures ExecuteHedge(s) == Some(HedgeRequest(s.kind, Some(w3)))
  {
    SplitAfterWord(w2, w3, ' ');
    SplitAfterWord(w1, w2 + " " + w3, ' ');
    assert w1 + " " + w2 + " " + w3 == w1 + [' '] + (w2 + [' '] + w3);
    SplitNoSeparator(w3, ' ');
  }

  /** The assets of the Quick Manual Hedge buttons. */
  const QuickHedgeAssets: seq<string> := ["BTC", "ETH", "SOL", "AVAX"]

  /** A Quick Manual Hedge button: always delta-neutral for its asset. */
  function QuickHedge(k: nat): (r: HedgeRequest)
    requires k < |QuickHedgeAssets|
    ensures r.kind == DeltaNeutral && r.asset.Some? && r.asset.value in QuickHedgeAssets
    ensures r.asset == Some(QuickHedgeAssets[k])
  {
    HedgeRequest(DeltaNeutral, Some(QuickHedgeAssets[k]))
  }

  /** Different quick buttons hedge different assets. */
  lemma QuickHedgesDistinct(j: nat, k: nat)
    requires j < |QuickHedgeAssets| && k < |QuickHedgeAssets| && j != k
    ensures QuickHedge(j) != QuickHedge(k)
  {
    assert QuickHedgeAssets[j][0] != QuickHedgeAssets[k][0];
  }

  /** The configuration the panel starts with. */
  const InitialStrategies: seq<HedgeStrategy> := [
    HedgeStrategy("delta-neutral-1", "Delta Neutral BTC", DeltaNeutral, true, 0.5, Perpetual, "OKX"),
    HedgeStrategy("protective-put-1", "Protective Put ETH", ProtectivePut, false, 0.7, OptionsMarket, "Deribit"),
    HedgeStrategy("covered-call-1", "Covered Call SOL", CoveredCall, true, 0.6, OptionsMarket, "Deribit")]

  /** The initial configuration has distinct ids and every threshold in the slider's range. */
  lemma InitialConfiguration()
    ensures DistinctIds(InitialStrategies) && ThresholdsInRange(InitialStrategies)
  {
    var ss := InitialStrategies;
    assert ss[0].id[0] == 'd' && ss[1].id[0] == 'p' && ss[2].id[0] == 'c';
  }

  /** The first initial strategy's button requests a delta-neutral BTC hedge. */
  lemma InitialButtonBtc()
    ensures ExecuteHedge(InitialStrategies[0]) == Some(HedgeRequest(DeltaNeutral, Some("BTC")))
  {
    var w1, w2, w3 := "Delta", "Neutral", "BTC";
    assert InitialStrategies[0].name == w1 + " " + w2 + " " + w3;
    ExecuteHedgeThirdWord(InitialStrategies[0], w1, w2, w3);
  }

  /** The second initial strategy is disabled, so its button requests nothing. */
  lemma InitialButtonDisabled()
    ensures ExecuteHedge(InitialStrategies[1]) == None
  {
  }

  /** The third initial strategy's button requests a covered-call SOL hedge. */
  lemma InitialButtonSol()
    ensures ExecuteHedge(InitialStrategies[2]) == Some(HedgeRequest(CoveredCall, Some("SOL")))
  {
    var w1, w2, w3 := "Covered", "Call", "SOL";
    assert InitialStrategies[2].name == w1 + " " + w2 + " " + w3;
    ExecuteHedgeThirdWord(InitialStrategies[2], w1, w2, w3);
  }

  /** The panel's state: the strategy list and the auto-hedging switch. */
  class Panel {
    var strategies: seq<HedgeStrategy>
    var autoHedgingEnabled: bool

    ghost predicate Valid()
      reads this
    {
      DistinctIds(strategies)
    }

    constructor ()
      ensures Valid() && ThresholdsInRange(strategies)
      ensures strategies == InitialStrategies && autoHedgingEnabled
    {
      strategies := InitialStrategies;
      autoHedgingEnabled := true;
      InitialConfiguration();
    }

    method ToggleStrategy(id: string)
      requires Valid()
      modifies this
      ensures Valid()
      ensures strategies == Toggled(old(strategies), id)
      ensures autoHedgingEnabled == old(autoHedgingEnabled)
      ensures old(ThresholdsInRange(strategies)) ==> ThresholdsInRange(strategies)
    {
      UpdatesKeepIds(strategies, id, 0.0);
      strategies := Toggled(strategies, id);
      assert forall i :: 0 <= i < |strategies| ==> strategies[i].id == Ids(strategies)[i];
    }

    method UpdateThreshold(id: string, threshold: real)
      requires Valid()
      modifies this
      ensures Valid()
      ensures strategies == WithThreshold(old(strategies), id, threshold)
      ensures autoHedgingEnabled == old(autoHedgingEnabled)
      ensures old(ThresholdsInRange(strategies)) && ThresholdInRange(threshold) ==> ThresholdsInRange(strategies)
    {
      UpdatesKeepIds(strategies, id, threshold);
      strategies := WithThreshold(strategies, id, threshold);
      assert forall i :: 0 <= i < |strategies| ==> strategies[i].id == Ids(strategies)[i];
    }

    /** Moving the slider of one row to its k-th notch; a disabled row's slider does nothing. */
    method MoveSlider(row: nat, k: nat)
      requires Valid() && row < |strategies| && k < 10
      modifies this
      ensures Valid()
      ensures strategies == if old(strategies[row].enabled)
        then WithThreshold(old(strategies), old(strategies[row].id), SliderValue(k))
        else old(strategies)
      ensures autoHedgingEnabled == old(autoHedgingEnabled)
      ensures old(ThresholdsInRange(strategies)) ==> ThresholdsInRange(strategies)
    {
      if strategies[row].enabled {
        UpdateThreshold(strategies[row].id, SliderValue(k));
      }
    }

    method ToggleAutoHedging()
      modifies this
      ensures autoHedgingEnabled == !old(autoHedgingEnabled)
      ensures strategies == old(strategies)
    {
      autoHedgingEnabled := !autoHedgingEnabled;
    }
  }
}
