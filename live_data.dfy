/**
 * The live state store behind the dashboard: positions, the risk snapshot,
 * the alert history and the exchange feeds. Every `Math.random()` draw is a
 * parameter (a real that the runtime guarantees to lie in [0, 1)), and every
 * clock reading is a timestamp string supplied by the caller. One firing of
 * the two-second interval is one atomic `Tick`.
 */
module LiveData {
  import opened Wrappers
  import opened Text
  import opened Types
  import opened Matrices

  /** What `Math.random()` can return. */
  predicate IsDraw(r: real) {
    0.0 <= r < 1.0
  }

  /** A centred random step, `(Math.random() - 0.5) * width`. */
  function Step(r: real, width: real): real {
    (r - 0.5) * width
  }

  /** `Math.floor(Math.random() * n)`: an index into a list of n items. */
  function Pick(r: real, n: nat): (k: nat)
    requires IsDraw(r) && n > 0
    ensures k < n
  {
    var x := r * n as real;
    assert 0.0 <= x < n as real;
    x.Floor
  }

  // ------------------------------------------------------------- positions

  /** The six draws of one generated position, in source order. */
  datatype PositionDraws = PositionDraws(price: real, size: real, delta: real, gamma: real, theta: real, vega: real)

  predicate ValidPositionDraws(d: PositionDraws) {
    IsDraw(d.price) && IsDraw(d.size) && IsDraw(d.delta) && IsDraw(d.gamma) && IsDraw(d.theta) && IsDraw(d.vega)
  }

  /** The base (entry) price of the position generated at a given index. */
  function BasePrice(index: nat): real {
    45000.0 + index as real * 5000.0
  }

  /** The id `pos-<asset>-<index>` of a generated position. */
  function PositionId(asset: string, index: nat): string {
    "pos-" + asset + "-" + NatToString(index)
  }

  /** The first '-' after `x + "-"` begins is the one that follows `x`. */
  lemma FirstDashAfter(x: string, rest: string)
    requires '-' !in x
    ensures IndexOf(x + ['-'] + rest, '-') == |x|
  {
    var s := x + ['-'] + rest;
    assert s[..|x|] == x;
    assert s[|x|] == '-';
  }

  /** Two generated positions share an id only when they share asset and index (for assets without '-'). */
  lemma PositionIdInjective(a: string, i: nat, b: string, j: nat)
    requires '-' !in a && '-' !in b
    requires PositionId(a, i) == PositionId(b, j)
    ensures a == b && i == j
  {
    var s := PositionId(a, i);
    assert s[4..] == a + ['-'] + NatToString(i);
    assert s[4..] == b + ['-'] + NatToString(j);
    FirstDashAfter(a, NatToString(i));
    FirstDashAfter(b, NatToString(j));
    assert a == s[4..][..|a|] == b;
    assert NatToString(i) == s[5 + |a|..] == NatToString(j);
    if i != j {
      NatToStringInjective(i, j);
      assert false;
    }
  }

  /** `generateMockPosition(asset, index)`. */
  function MockPosition(asset: string, index: nat, d: PositionDraws, now: string): (p: Position)
    ensures p.id == PositionId(asset, index) && p.asset == asset && p.lastUpdated == now
    ensures p.entryPrice == 45000.0 + 5000.0 * index as real
    ensures p.unrealizedPnl == (p.currentPrice - p.entryPrice) * p.size
    ensures ValidPositionDraws(d) ==>
      && p.size >= 1.0
      && 0.1 <= p.delta < 0.9
      && 0.01 <= p.gamma < 0.06
      && -60.0 < p.theta <= -10.0
      && p.vega >= 20.0
      && p.entryPrice - 1000.0 <= p.currentPrice < p.entryPrice + 1000.0
  {
    var basePrice := BasePrice(index);
    var step := Step(d.price, 2000.0);
    assert IsDraw(d.price) ==> -1000.0 <= step < 1000.0;
    var currentPrice := basePrice + step;
    var size := d.size * 10.0 + 1.0;
    Position(
      PositionId(asset, index),
      asset,
      size,
      basePrice,
      currentPrice,
      (currentPrice - basePrice) * size,
      d.delta * 0.8 + 0.1,
      d.gamma * 0.05 + 0.01,
      -(d.theta * 50.0 + 10.0),
      d.vega * 100.0 + 20.0,
      now)
  }

  /** The four positions the store starts with. */
  function InitialPositions(draws: seq<PositionDraws>, now: string): (ps: seq<Position>)
    requires |draws| == 4
    ensures |ps| == 4
    ensures forall i :: 0 <= i < 4 ==> ps[i] == MockPosition(["BTC", "ETH", "SOL", "AVAX"][i], i, draws[i], now)
  {
    [MockPosition("BTC", 0, draws[0], now),
     MockPosition("ETH", 1, draws[1], now),
     MockPosition("SOL", 2, draws[2], now),
     MockPosition("AVAX", 3, draws[3], now)]
  }

  /** The initial position ids are pos-BTC-0, pos-ETH-1, pos-SOL-2 and pos-AVAX-3, hence pairwise distinct. */
  lemma InitialIdsDistinct(draws: seq<PositionDraws>, now: string)
    requires |draws| == 4
    ensures var ps := InitialPositions(draws, now);
      && ps[0].id == "pos-BTC-0" && ps[1].id == "pos-ETH-1"
      && ps[2].id == "pos-SOL-2" && ps[3].id == "pos-AVAX-3"
      && forall i, j :: 0 <= i < j < 4 ==> ps[i].id != ps[j].id
  {
    var ps := InitialPositions(draws, now);
    assert NatToString(0) == "0" && NatToString(1) == "1" && NatToString(2) == "2" && NatToString(3) == "3";
    assert ps[0].id[4] == 'B' && ps[1].id[4] == 'E' && ps[2].id[4] == 'S' && ps[3].id[4] == 'A';
  }

  /** The bounds the tick keeps on every position's Greeks. */
  predicate GreeksInBounds(p: Position) {
    0.0 <= p.delta <= 1.0 && p.gamma >= 0.0 && p.vega >= 0.0
  }

  /** The five draws one tick spends on one position. */
  datatype StepDraws = StepDraws(price: real, delta: real, gamma: real, theta: real, vega: real)

  /** `Math.max(lo, Math.min(hi, x))`. */
  function Clamp(lo: real, hi: real, x: real): real {
    if x > hi then (if lo > hi then lo else hi) else if x < lo then lo else x
  }

  /** `Math.max(0, x)`. */
  function NonNegative(x: real): real {
    if x < 0.0 then 0.0 else x
  }

  /** One position's update inside `prev.map(...)` on a tick. */
  function TickPosition(p: Position, d: StepDraws, now: string): (q: Position)
    ensures 0.0 <= q.delta <= 1.0
    ensures 0.0 <= p.delta + Step(d.delta, 0.1) <= 1.0 ==> q.delta == p.delta + Step(d.delta, 0.1)
    ensures p.delta + Step(d.delta, 0.1) < 0.0 ==> q.delta == 0.0
    ensures p.delta + Step(d.delta, 0.1) > 1.0 ==> q.delta == 1.0
    ensures q.gamma >= 0.0 && q.gamma >= p.gamma + Step(d.gamma, 0.005)
    ensures q.vega >= 0.0 && q.vega >= p.vega + Step(d.vega, 20.0)
    ensures p.gamma + Step(d.gamma, 0.005) >= 0.0 ==> q.gamma == p.gamma + Step(d.gamma, 0.005)
    ensures p.vega + Step(d.vega, 20.0) >= 0.0 ==> q.vega == p.vega + Step(d.vega, 20.0)
    ensures p.gamma + Step(d.gamma, 0.005) < 0.0 ==> q.gamma == 0.0
    ensures p.vega + Step(d.vega, 20.0) < 0.0 ==> q.vega == 0.0
    ensures q.theta == p.theta + Step(d.theta, 10.0)
    ensures q.currentPrice == p.currentPrice + Step(d.price, 100.0)
    ensures q.id == p.id && q.asset == p.asset && q.size == p.size
    ensures q.entryPrice == p.entryPrice && q.unrealizedPnl == p.unrealizedPnl
    ensures q.lastUpdated == now
    ensures GreeksInBounds(p) && IsDraw(d.delta) ==> -0.05 <= q.delta - p.delta <= 0.05
  {
    p.(currentPrice := p.currentPrice + Step(d.price, 100.0),
       delta := Clamp(0.0, 1.0, p.delta + Step(d.delta, 0.1)),
       gamma := NonNegative(p.gamma + Step(d.gamma, 0.005)),
       theta := p.theta + Step(d.theta, 10.0),
       vega := NonNegative(p.vega + Step(d.vega, 20.0)),
       lastUpdated := now)
  }

  /** `prev.map(pos => ...)`: the tick applied to every position, one draw record each. */
  function TickAll(ps: seq<Position>, ds: seq<StepDraws>, now: string): (qs: seq<Position>)
    requires |ds| == |ps|
    ensures |qs| == |ps|
    ensures forall i :: 0 <= i < |ps| ==> qs[i] == TickPosition(ps[i], ds[i], now)
  {
    seq(|ps|, i requires 0 <= i < |ps| => TickPosition(ps[i], ds[i], now))
  }

  /** A tick keeps the list's length and order, leaves identity, size, entry price and PnL alone, and puts every Greek in bounds. */
  lemma TickFrame(ps: seq<Position>, ds: seq<StepDraws>, now: string)
    requires |ds| == |ps|
    ensures var qs := TickAll(ps, ds, now);
      && |qs| == |ps|
      && (forall i :: 0 <= i < |ps| ==>
            && qs[i].id == ps[i].id && qs[i].asset == ps[i].asset && qs[i].size == ps[i].size
            && qs[i].entryPrice == ps[i].entryPrice && qs[i].unrealizedPnl == ps[i].unrealizedPnl)
      && (forall q :: q in qs ==> GreeksInBounds(q))
  {
  }

  // ---------------------------------------------------------- risk metrics

  /** The six draws of one generated risk snapshot. */
  datatype MetricsDraws = MetricsDraws(valueAtRisk: real, drawdown: real, delta: real, gamma: real, theta: real, vega: real)

  predicate ValidMetricsDraws(d: MetricsDraws) {
    IsDraw(d.valueAtRisk) && IsDraw(d.drawdown) && IsDraw(d.delta) && IsDraw(d.gamma) && IsDraw(d.theta) && IsDraw(d.vega)
  }

  /** The fixed 4-by-4 correlation matrix of every generated snapshot. */
  const MockCorrelation: seq<seq<real>> := [
    [1.0, 0.8, 0.6, 0.4],
    [0.8, 1.0, 0.7, 0.5],
    [0.6, 0.7, 1.0, 0.6],
    [0.4, 0.5, 0.6, 1.0]]

  /** `generateMockRiskMetrics()`. */
  function MockRiskMetrics(d: MetricsDraws, now: string): (m: RiskMetrics)
    ensures m.correlationMatrix == MockCorrelation && m.lastUpdated == now
    ensures ValidMetricsDraws(d) ==>
      && 10000.0 <= m.portfolioVaR < 60000.0
      && 0.05 <= m.maxDrawdown < 0.2
      && -50.0 <= m.totalDelta < 50.0
      && 1.0 <= m.totalGamma < 6.0
      && -600.0 < m.totalTheta <= -100.0
      && 200.0 <= m.totalVega < 1200.0
  {
    RiskMetrics(
      d.valueAtRisk * 50000.0 + 10000.0,
      d.drawdown * 0.15 + 0.05,
      d.delta * 100.0 - 50.0,
      d.gamma * 5.0 + 1.0,
      -(d.theta * 500.0 + 100.0),
      d.vega * 1000.0 + 200.0,
      MockCorrelation,
      now)
  }

  /** The generated matrix is a correlation matrix: 4-by-4, symmetric, unit diagonal, entries in [-1, 1]. */
  lemma MockCorrelationIsCorrelationMatrix()
    ensures IsSquare(MockCorrelation, 4) && IsCorrelationMatrix(MockCorrelation)
  {
    var m := MockCorrelation;
    assert m[0] == [1.0, 0.8, 0.6, 0.4] && m[1] == [0.8, 1.0, 0.7, 0.5];
    assert m[2] == [0.6, 0.7, 1.0, 0.6] && m[3] == [0.4, 0.5, 0.6, 1.0];
  }

  // ------------------------------------------------------------- exchanges

  /** The draws of one exchange: its latency and the sizes of its five bid and five ask levels. */
  datatype BookDraws = BookDraws(latency: real, bidSizes: seq<real>, askSizes: seq<real>)

  predicate ValidBookDraws(books: seq<BookDraws>) {
    |books| == 3 && forall k :: 0 <= k < 3 ==> |books[k].bidSizes| == 5 && |books[k].askSizes| == 5
  }

  /** Five levels stepping by `tick` away from `top`, sizes `Math.random() * 10 + 1`. */
  function MockLevels(top: real, tick: real, sizes: seq<real>): (levels: seq<Level>)
    requires |sizes| == 5
    ensures |levels| == 5 && levels[0].price == top
    ensures forall i :: 0 <= i < 5 ==> levels[i].price == top + tick * i as real
  {
    seq(5, i requires 0 <= i < 5 => Level(top + tick * i as real, sizes[i] * 10.0 + 1.0))
  }

  /** One exchange of `generateMockExchanges()`: bids descend from `bidTop`, asks ascend from `askTop`. */
  function MockExchange(name: string, latencyBase: real, bidTop: real, askTop: real, d: BookDraws): ExchangeData
    requires |d.bidSizes| == 5 && |d.askSizes| == 5
  {
    ExchangeData(name, true, d.latency * 50.0 + latencyBase,
      Orderbook(MockLevels(bidTop, -10.0, d.bidSizes), MockLevels(askTop, 10.0, d.askSizes)))
  }

  /** `generateMockExchanges()`: OKX, Bybit and Deribit, each with a book ten apart at the top. */
  function MockExchanges(books: seq<BookDraws>): (xs: seq<ExchangeData>)
    requires ValidBookDraws(books)
    ensures |xs| == 3
    ensures forall k :: 0 <= k < 3 ==>
      && xs[k].connected
      && |xs[k].orderbook.bids| == 5 && |xs[k].orderbook.asks| == 5
      && xs[k].orderbook.asks[0].price - xs[k].orderbook.bids[0].price == 10.0
      && xs[k].orderbook.bids[0].price > 0.0
      && (forall i :: 0 <= i < 4 ==> xs[k].orderbook.bids[i + 1].price < xs[k].orderbook.bids[i].price)
      && (forall i :: 0 <= i < 4 ==> xs[k].orderbook.asks[i].price < xs[k].orderbook.asks[i + 1].price)
  {
    [MockExchange("OKX", 10.0, 45000.0, 45010.0, books[0]),
     MockExchange("Bybit", 15.0, 44995.0, 45005.0, books[1]),
     MockExchange("Deribit", 20.0, 45005.0, 45015.0, books[2])]
  }

  // ---------------------------------------------------------------- alerts

  /** The longest alert history the store keeps. */
  const MaxAlerts: nat := 10

  const AlertMessages: seq<string> := [
    "Delta exposure exceeded threshold for BTC position",
    "High volatility detected in ETH options",
    "Correlation breakdown detected between BTC and ETH",
    "Portfolio VaR limit approaching",
    "Hedge execution completed for SOL position"]

  const AlertAssets: seq<string> := ["BTC", "ETH", "SOL", "AVAX"]

  /** The four draws of one generated alert (its id is supplied whole, as it embeds the clock). */
  datatype AlertDraws = AlertDraws(kind: real, message: real, asset: real, action: real)

  predicate ValidAlertDraws(d: AlertDraws) {
    IsDraw(d.kind) && IsDraw(d.message) && IsDraw(d.asset) && IsDraw(d.action)
  }

  /** `generateMockAlert()`. */
  function MockAlert(d: AlertDraws, id: string, now: string): (a: Alert)
    requires ValidAlertDraws(d)
    ensures !a.acknowledged
    ensures a.id == id && a.timestamp == now
    ensures a.message in AlertMessages
    ensures a.asset.Some? && a.asset.value in AlertAssets
    ensures a.action == Some(if d.action > 0.5 then "hedge" else "monitor")
  {
    Alert(
      id,
      now,
      [WarningAlert, CriticalAlert, InfoAlert][Pick(d.kind, 3)],
      AlertMessages[Pick(d.message, 5)],
      Some(AlertAssets[Pick(d.asset, 4)]),
      Some(if d.action > 0.5 then "hedge" else "monitor"),
      false)
  }

  /** `[a, ...prev.slice(0, 9)]`: the new alert first, then the nine newest previous alerts in their order. */
  function Pushed(alerts: seq<Alert>, a: Alert): (r: seq<Alert>)
    ensures |r| == if |alerts| < MaxAlerts then |alerts| + 1 else MaxAlerts
    ensures |r| <= MaxAlerts
    ensures r[0] == a
    ensures forall i :: 1 <= i < |r| ==> r[i] == alerts[i - 1]
  {
    [a] + alerts[..Min(MaxAlerts - 1, |alerts|)]
  }

  /** `prev.map(alert => alert.id === alertId ? { ...alert, acknowledged: true } : alert)`. */
  function Acknowledged(alerts: seq<Alert>, id: string): (r: seq<Alert>)
    ensures |r| == |alerts|
    ensures forall i :: 0 <= i < |alerts| ==>
      r[i] == if alerts[i].id == id then alerts[i].(acknowledged := true) else alerts[i]
  {
    if alerts == [] then []
    else
      var head := if alerts[0].id == id then alerts[0].(acknowledged := true) else alerts[0];
      [head] + Acknowledged(alerts[1..], id)
  }

  /** Acknowledging twice is acknowledging once. */
  lemma AcknowledgeIdempotent(alerts: seq<Alert>, id: string)
    ensures Acknowledged(Acknowledged(alerts, id), id) == Acknowledged(alerts, id)
  {
  }

  /** Acknowledging an id no alert carries changes nothing. */
  lemma AcknowledgeUnknownId(alerts: seq<Alert>, id: string)
    requires forall i :: 0 <= i < |alerts| ==> alerts[i].id != id
    ensures Acknowledged(alerts, id) == alerts
  {
  }

  /** Acknowledgement is one-way: an acknowledged alert stays acknowledged, and only alerts with the id become acknowledged. */
  lemma AcknowledgeMonotone(alerts: seq<Alert>, id: string, i: nat)
    requires i < |alerts|
    ensures Acknowledged(alerts, id)[i].acknowledged <==> alerts[i].acknowledged || alerts[i].id == id
  {
  }

  // ----------------------------------------------------------------- store

  /** The state the `useRealTimeData` hook holds and hands to the dashboard. */
  class LiveStore {
    var positions: seq<Position>
    var riskMetrics: Option<RiskMetrics>
    var alerts: seq<Alert>
    var exchanges: seq<ExchangeData>
    var isConnected: bool

    /** The bounds every update keeps: a short alert history and every position's Greeks in bounds. */
    ghost predicate Valid()
      reads this
    {
      |alerts| <= MaxAlerts && forall p :: p in positions ==> GreeksInBounds(p)
    }

    /** The hook's first render: everything empty and disconnected. */
    constructor ()
      ensures Valid()
      ensures positions == [] && riskMetrics == None && alerts == [] && exchanges == [] && !isConnected
    {
      positions := [];
      riskMetrics := None;
      alerts := [];
      exchanges := [];
      isConnected := false;
    }

    /** The effect's initialisation: four generated positions, a risk snapshot, the exchanges, connected. */
    method Initialize(draws: seq<PositionDraws>, metrics: MetricsDraws, books: seq<BookDraws>, now: string)
      requires Valid()
      requires |draws| == 4 && forall i :: 0 <= i < 4 ==> ValidPositionDraws(draws[i])
      requires ValidBookDraws(books)
      modifies this
      ensures Valid()
      ensures positions == InitialPositions(draws, now)
      ensures riskMetrics == Some(MockRiskMetrics(metrics, now))
      ensures exchanges == MockExchanges(books)
      ensures isConnected
      ensures alerts == old(alerts)
    {
      positions := InitialPositions(draws, now);
      riskMetrics := Some(MockRiskMetrics(metrics, now));
      exchanges := MockExchanges(books);
      isConnected := true;
      forall p | p in positions
        ensures GreeksInBounds(p)
      {
        var i :| 0 <= i < 4 && positions[i] == p;
        assert ValidPositionDraws(draws[i]);
      }
    }

    /** `setAlerts(prev => [alert, ...prev.slice(0, 9)])`. */
    method RaiseAlert(a: Alert)
      requires Valid()
      modifies this
      ensures Valid()
      ensures alerts == Pushed(old(alerts), a)
      ensures positions == old(positions) && riskMetrics == old(riskMetrics)
      ensures exchanges == old(exchanges) && isConnected == old(isConnected)
    {
      alerts := Pushed(alerts, a);
    }

    /** `acknowledgeAlert(alertId)`. */
    method Acknowledge(id: string)
      requires Valid()
      modifies this
      ensures Valid()
      ensures alerts == Acknowledged(old(alerts), id)
      ensures positions == old(positions) && riskMetrics == old(riskMetrics)
      ensures exchanges == old(exchanges) && isConnected == old(isConnected)
    {
      alerts := Acknowledged(alerts, id);
    }

    /**
     * One firing of the interval: every position steps, the risk snapshot and
     * the exchanges are regenerated, and an alert is raised when the roll is
     * below 0.1.
     */
    method Tick(steps: seq<StepDraws>, metrics: MetricsDraws, books: seq<BookDraws>,
                alertRoll: real, alertDraws: AlertDraws, alertId: string, now: string)
      requires Valid()
      requires |steps| == |positions|
      requires ValidBookDraws(books) && ValidAlertDraws(alertDraws)
      modifies this
      ensures Valid()
      ensures positions == TickAll(old(positions), steps, now)
      ensures riskMetrics == Some(MockRiskMetrics(metrics, now))
      ensures exchanges == MockExchanges(books)
      ensures alerts == if alertRoll < 0.1 then Pushed(old(alerts), MockAlert(alertDraws, alertId, now)) else old(alerts)
      ensures isConnected == old(isConnected)
    {
      positions := TickAll(positions, steps, now);
      riskMetrics := Some(MockRiskMetrics(metrics, now));
      exchanges := MockExchanges(books);
      if alertRoll < 0.1 {
        RaiseAlert(MockAlert(alertDraws, alertId, now));
      }
    }
  }
}
