/**
 * The dashboard header's three reductions over the live store: the portfolio
 * value, the total unrealised PnL and the number of active alerts.
 */
module Dashboard {
  import opened Types
  import opened LiveData

  /** One position's market value, current price times size. */
  function MarketValue(p: Position): real {
    p.currentPrice * p.size
  }

  /** One position's cost, entry price times size. */
  function CostBasis(p: Position): real {
    p.entryPrice * p.size
  }

  /** The position still carries the PnL it was generated with. */
  predicate CarriesCreationPnL(p: Position) {
    p.unrealizedPnl == (p.currentPrice - p.entryPrice) * p.size
  }

  /** `positions.reduce((sum, pos) => sum + pos.currentPrice * pos.size, 0)`. */
  function PortfolioValue(ps: seq<Position>): (v: real)
    ensures ps == [] ==> v == 0.0
    ensures (forall i :: 0 <= i < |ps| ==> ps[i].currentPrice >= 0.0 && ps[i].size >= 0.0) ==> v >= 0.0
  {
    if ps == [] then 0.0 else MarketValue(ps[0]) + PortfolioValue(ps[1..])
  }

  /** The value the positions were opened at, the sum of entry price times size. */
  function EntryValue(ps: seq<Position>): (v: real)
    ensures ps == [] ==> v == 0.0
    ensures (forall i :: 0 <= i < |ps| ==> ps[i].entryPrice >= 0.0 && ps[i].size >= 0.0) ==> v >= 0.0
  {
    if ps == [] then 0.0 else CostBasis(ps[0]) + EntryValue(ps[1..])
  }

  /** `positions.reduce((sum, pos) => sum + pos.unrealizedPnl, 0)`. */
  function TotalUnrealizedPnL(ps: seq<Position>): (v: real)
    ensures ps == [] ==> v == 0.0
    ensures (forall i :: 0 <= i < |ps| ==> ps[i].unrealizedPnl >= 0.0) ==> v >= 0.0
    ensures (forall i :: 0 <= i < |ps| ==> ps[i].unrealizedPnl <= 0.0) ==> v <= 0.0
  {
    if ps == [] then 0.0 else ps[0].unrealizedPnl + TotalUnrealizedPnL(ps[1..])
  }

  /** The portfolio value of one position is its market value, and the value adds up over concatenation. */
  lemma {:induction false} PortfolioValueAppend(xs: seq<Position>, ys: seq<Position>)
    ensures |xs| == 1 ==> PortfolioValue(xs) == MarketValue(xs[0])
    ensures PortfolioValue(xs + ys) == PortfolioValue(xs) + PortfolioValue(ys)
  {
    if xs != [] {
      assert (xs + ys)[1..] == xs[1..] + ys;
      PortfolioValueAppend(xs[1..], ys);
    } else {
      assert xs + ys == ys;
    }
  }

  /** The entry value of one position is its cost basis, and the entry value adds up over concatenation. */
  lemma {:induction false} EntryValueAppend(xs: seq<Position>, ys: seq<Position>)
    ensures |xs| == 1 ==> EntryValue(xs) == CostBasis(xs[0])
    ensures EntryValue(xs + ys) == EntryValue(xs) + EntryValue(ys)
  {
    if xs != [] {
      assert (xs + ys)[1..] == xs[1..] + ys;
      EntryValueAppend(xs[1..], ys);
    } else {
      assert xs + ys == ys;
    }
  }

  /** The total PnL of one position is its PnL, and the total adds up over concatenation. */
  lemma {:induction false} TotalUnrealizedPnLAppend(xs: seq<Position>, ys: seq<Position>)
    ensures |xs| == 1 ==> TotalUnrealizedPnL(xs) == xs[0].unrealizedPnl
    ensures TotalUnrealizedPnL(xs + ys) == TotalUnrealizedPnL(xs) + TotalUnrealizedPnL(ys)
  {
    if xs != [] {
      assert (xs + ys)[1..] == xs[1..] + ys;
      TotalUnrealizedPnLAppend(xs[1..], ys);
    } else {
      assert xs + ys == ys;
    }
  }

  /** `alerts.filter(alert => !alert.acknowledged)`. */
  function Unacknowledged(alerts: seq<Alert>): (r: seq<Alert>)
    ensures |r| <= |alerts|
    ensures forall a :: a in r ==> a in alerts && !a.acknowledged
    ensures forall a :: a in alerts && !a.acknowledged ==> a in r
  {
    if alerts == [] then []
    else if alerts[0].acknowledged then Unacknowledged(alerts[1..])
    else [alerts[0]] + Unacknowledged(alerts[1..])
  }

  /** The header's active-alert count, the length of the unacknowledged filter. */
  function ActiveAlerts(alerts: seq<Alert>): (n: nat)
    ensures n <= |alerts|
    ensures n == 0 <==> forall i :: 0 <= i < |alerts| ==> alerts[i].acknowledged
    ensures n == |alerts| <==> forall i :: 0 <= i < |alerts| ==> !alerts[i].acknowledged
  {
    CountBounds(alerts);
    |Unacknowledged(alerts)|
  }

  lemma {:induction false} CountBounds(alerts: seq<Alert>)
    ensures |Unacknowledged(alerts)| == 0 <==> forall i :: 0 <= i < |alerts| ==> alerts[i].acknowledged
    ensures |Unacknowledged(alerts)| == |alerts| <==> forall i :: 0 <= i < |alerts| ==> !alerts[i].acknowledged
  {
    if alerts != [] {
      CountBounds(alerts[1..]);
      assert forall i :: 1 <= i < |alerts| ==> alerts[i] == alerts[1..][i - 1];
    }
  }

  /** The count over a concatenation is the sum of the counts. */
  lemma {:induction false} ActiveAlertsAppend(xs: seq<Alert>, ys: seq<Alert>)
    ensures ActiveAlerts(xs + ys) == ActiveAlerts(xs) + ActiveAlerts(ys)
  {
    if xs == [] {
      assert xs + ys == ys;
    } else {
      assert (xs + ys)[1..] == xs[1..] + ys;
      ActiveAlertsAppend(xs[1..], ys);
    }
  }

  /** Acknowledging the one alert that carries an id, while it is unacknowledged, lowers the count by exactly one. */
  lemma {:induction false} AcknowledgeUniqueLowersCount(alerts: seq<Alert>, id: string, k: nat)
    requires k < |alerts| && alerts[k].id == id && !alerts[k].acknowledged
    requires forall i :: 0 <= i < |alerts| && i != k ==> alerts[i].id != id
    ensures ActiveAlerts(Acknowledged(alerts, id)) == ActiveAlerts(alerts) - 1
  {
    var r := Acknowledged(alerts, id);
    if k == 0 {
      AcknowledgeUnknownId(alerts[1..], id);
      assert r == [alerts[0].(acknowledged := true)] + alerts[1..];
    } else {
      assert alerts[0].id != id;
      AcknowledgeUniqueLowersCount(alerts[1..], id, k - 1);
      assert r == [alerts[0]] + Acknowledged(alerts[1..], id);
    }
  }

  /** Acknowledging an id whose every alert is already acknowledged leaves the list, and so the count, unchanged. */
  lemma AcknowledgeAcknowledgedKeepsCount(alerts: seq<Alert>, id: string)
    requires forall i :: 0 <= i < |alerts| && alerts[i].id == id ==> alerts[i].acknowledged
    ensures Acknowledged(alerts, id) == alerts
    ensures ActiveAlerts(Acknowledged(alerts, id)) == ActiveAlerts(alerts)
  {
    var r := Acknowledged(alerts, id);
    assert forall i :: 0 <= i < |alerts| ==> r[i] == alerts[i];
  }

  /** Acknowledgement never raises the count. */
  lemma {:induction false} AcknowledgeNeverRaisesCount(alerts: seq<Alert>, id: string)
    ensures ActiveAlerts(Acknowledged(alerts, id)) <= ActiveAlerts(alerts)
  {
    if alerts != [] {
      AcknowledgeNeverRaisesCount(alerts[1..], id);
      var head := if alerts[0].id == id then alerts[0].(acknowledged := true) else alerts[0];
      assert Acknowledged(alerts, id) == [head] + Acknowledged(alerts[1..], id);
    }
  }

  /** While every position still carries its creation-time PnL, value minus cost is the total PnL. */
  lemma {:induction false} PortfolioIdentity(ps: seq<Position>)
    requires forall i :: 0 <= i < |ps| ==> CarriesCreationPnL(ps[i])
    ensures PortfolioValue(ps) - EntryValue(ps) == TotalUnrealizedPnL(ps)
  {
    if ps != [] {
      PortfolioIdentity(ps[1..]);
      CreationPnLSplits(ps[0]);
    }
  }

  lemma CreationPnLSplits(p: Position)
    requires CarriesCreationPnL(p)
    ensures p.unrealizedPnl == MarketValue(p) - CostBasis(p)
  {
  }

  /** The freshly generated positions satisfy the identity. */
  lemma InitialPortfolioIdentity(draws: seq<PositionDraws>, now: string)
    requires |draws| == 4
    ensures var ps := InitialPositions(draws, now);
      PortfolioValue(ps) - EntryValue(ps) == TotalUnrealizedPnL(ps)
  {
    var ps := InitialPositions(draws, now);
    forall i | 0 <= i < |ps|
      ensures CarriesCreationPnL(ps[i])
    {
      var p := MockPosition(["BTC", "ETH", "SOL", "AVAX"][i], i, draws[i], now);
      assert ps[i] == p;
    }
    PortfolioIdentity(ps);
  }

  /** Two position lists with the same PnLs, element by element, have the same total. */
  lemma {:induction false} SamePnLSameTotal(ps: seq<Position>, qs: seq<Position>)
    requires |ps| == |qs|
    requires forall i :: 0 <= i < |ps| ==> ps[i].unrealizedPnl == qs[i].unrealizedPnl
    ensures TotalUnrealizedPnL(ps) == TotalUnrealizedPnL(qs)
  {
    if ps != [] {
      SamePnLSameTotal(ps[1..], qs[1..]);
    }
  }

  /** A tick moves prices but leaves the header's total PnL where it was. */
  lemma TickKeepsTotalPnL(ps: seq<Position>, ds: seq<StepDraws>, now: string)
    requires |ds| == |ps|
    ensures TotalUnrealizedPnL(TickAll(ps, ds, now)) == TotalUnrealizedPnL(ps)
  {
    SamePnLSameTotal(TickAll(ps, ds, now), ps);
  }

  /** After one tick the identity can fail: one unit opened and priced at 45000 moves to 45040 while its PnL stays 0. */
  lemma TickBreaksPortfolioIdentity()
    ensures var p := Position("pos-BTC-0", "BTC", 1.0, 45000.0, 45000.0, 0.0, 0.5, 0.03, -20.0, 50.0, "t0");
      var ps := TickAll([p], [StepDraws(0.9, 0.5, 0.5, 0.5, 0.5)], "t1");
      && PortfolioValue([p]) - EntryValue([p]) == TotalUnrealizedPnL([p])
      && PortfolioValue(ps) - EntryValue(ps) == 40.0
      && TotalUnrealizedPnL(ps) == 0.0
  {
    var p := Position("pos-BTC-0", "BTC", 1.0, 45000.0, 45000.0, 0.0, 0.5, 0.03, -20.0, 50.0, "t0");
    var ps := TickAll([p], [StepDraws(0.9, 0.5, 0.5, 0.5, 0.5)], "t1");
    assert ps[0].currentPrice == 45040.0;
    assert ps[1..] == [];
  }
}
