/**
 * The positions table: one row per position with its risk level, the colour
 * class of its PnL and the direction of its price move.
 */
module PositionTable {
  import opened Types
  import opened LiveData

  /** `getRiskLevel(delta).level`. */
  datatype RiskLevel = LowRisk | MediumRisk | HighRisk {
    function Rank(): nat {
      match this
      case LowRisk => 0
      case MediumRisk => 1
      case HighRisk => 2
    }
  }

  function RiskLevelOf(delta: real): (r: RiskLevel)
    ensures r.HighRisk? <==> delta > 0.7
    ensures r.MediumRisk? <==> 0.4 < delta <= 0.7
    ensures r.LowRisk? <==> delta <= 0.4
  {
    if delta > 0.7 then HighRisk else if delta > 0.4 then MediumRisk else LowRisk
  }

  /** A larger delta never gets a lower risk level. */
  lemma RiskLevelMonotone(a: real, b: real)
    requires a <= b
    ensures RiskLevelOf(a).Rank() <= RiskLevelOf(b).Rank()
  {
  }

  /** One tick moves a delta by at most 0.05, so a position's risk level moves by at most one step. */
  lemma TickMovesRiskAtMostOneLevel(p: Position, d: StepDraws, now: string)
    requires GreeksInBounds(p) && IsDraw(d.delta)
    ensures var before, after := RiskLevelOf(p.delta).Rank(), RiskLevelOf(TickPosition(p, d, now).delta).Rank();
      before <= after + 1 && after <= before + 1
  {
  }

  /** `getPnlColor(pnl)`: zero counts as a gain. */
  datatype PnlClass = Gain | Loss

  function PnlClassOf(pnl: real): (c: PnlClass)
    ensures c.Gain? <==> pnl >= 0.0
  {
    if pnl >= 0.0 then Gain else Loss
  }

  /** The trend arrow: up only for a strict rise above the entry price. */
  datatype Trend = Up | Down

  function TrendOf(p: Position): (t: Trend)
    ensures t.Up? <==> p.currentPrice > p.entryPrice
  {
    if p.currentPrice > p.entryPrice then Up else Down
  }

  /** The computed parts of one table row, keyed by position id. */
  datatype Row = Row(key: string, risk: RiskLevel, pnl: PnlClass, trend: Trend)

  function RowOf(p: Position): (r: Row)
    ensures r.key == p.id
    ensures r.risk == RiskLevelOf(p.delta)
    ensures r.risk.HighRisk? <==> p.delta > 0.7
    ensures r.risk.MediumRisk? <==> 0.4 < p.delta <= 0.7
    ensures r.risk.LowRisk? <==> p.delta <= 0.4
    ensures r.pnl.Gain? <==> p.unrealizedPnl >= 0.0
    ensures r.trend.Up? <==> p.currentPrice > p.entryPrice
  {
    Row(p.id, RiskLevelOf(p.delta), PnlClassOf(p.unrealizedPnl), TrendOf(p))
  }

  /** `positions.map(...)`: one row per position, in input order. */
  function Rows(ps: seq<Position>): (rows: seq<Row>)
    ensures |rows| == |ps|
    ensures forall i :: 0 <= i < |ps| ==> rows[i] == RowOf(ps[i])
  {
    if ps == [] then [] else [RowOf(ps[0])] + Rows(ps[1..])
  }

  /** Distinct position ids give distinct row keys. */
  lemma RowKeysDistinct(ps: seq<Position>)
    requires forall i, j :: 0 <= i < j < |ps| ==> ps[i].id != ps[j].id
    ensures forall i, j :: 0 <= i < j < |ps| ==> Rows(ps)[i].key != Rows(ps)[j].key
  {
  }

  /** A freshly generated position rises iff its PnL is a strict gain, since its size is at least 1. */
  lemma GeneratedTrendMatchesPnl(asset: string, index: nat, d: PositionDraws, now: string)
    requires ValidPositionDraws(d)
    ensures var p := MockPosition(asset, index, d, now);
      TrendOf(p).Up? <==> p.unrealizedPnl > 0.0
  {
    var p := MockPosition(asset, index, d, now);
    var diff := p.currentPrice - p.entryPrice;
    assert p.unrealizedPnl == diff * p.size;
    if diff > 0.0 {
      assert diff * p.size > 0.0;
    } else {
      assert diff * p.size <= 0.0;
    }
  }
}
