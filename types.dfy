/**
 * The dashboard's record types. String unions become enumerations, `number`
 * becomes `real`, optional fields become `Option`, and a timestamp stays an
 * opaque string supplied by the caller.
 */
module Types {
  import opened Wrappers

  /** One open position with its Greeks. */
  datatype Position = Position(
    id: string,
    asset: string,
    size: real,
    entryPrice: real,
    currentPrice: real,
    unrealizedPnl: real,
    delta: real,
    gamma: real,
    theta: real,
    vega: real,
    lastUpdated: string)

  datatype StrategyType = DeltaNeutral | ProtectivePut | CoveredCall | Collar

  datatype Instrument = Perpetual | OptionsMarket

  /** A configured hedge strategy. */
  datatype HedgeStrategy = HedgeStrategy(
    id: string,
    name: string,
    kind: StrategyType,
    enabled: bool,
    threshold: real,
    instrument: Instrument,
    exchange: string)

  /** The portfolio-level risk snapshot. */
  datatype RiskMetrics = RiskMetrics(
    portfolioVaR: real,
    maxDrawdown: real,
    totalDelta: real,
    totalGamma: real,
    totalTheta: real,
    totalVega: real,
    correlationMatrix: seq<seq<real>>,
    lastUpdated: string)

  datatype AlertType = WarningAlert | CriticalAlert | InfoAlert

  /** A risk alert; only `acknowledged` ever changes after creation. */
  datatype Alert = Alert(
    id: string,
    timestamp: string,
    kind: AlertType,
    message: string,
    asset: Option<string>,
    action: Option<string>,
    acknowledged: bool)

  /** One order-book level: a `[price, size]` pair. */
  datatype Level = Level(price: real, quantity: real)

  datatype Orderbook = Orderbook(bids: seq<Level>, asks: seq<Level>)

  datatype ExchangeData = ExchangeData(
    name: string,
    connected: bool,
    latency: real,
    orderbook: Orderbook)

  datatype BacktestResult = BacktestResult(
    strategy: string,
    period: string,
    totalReturn: real,
    sharpeRatio: real,
    maxDrawdown: real,
    winRate: real,
    avgHedgeCost: real,
    totalTrades: real,
    profitFactor: real,
    calmarRatio: real)

  datatype ReportType = PositionReport | RiskDisclosure | VarReport | StressTest

  datatype ReportStatus = Pending | Submitted | Approved | Rejected

  /** The payload of a compliance report, one variant per report type. */
  datatype ReportData =
    | PositionData(totalPositions: real, totalValue: real, leverage: real)
    | VarData(portfolioVaR: real, confidence: real, timeHorizon: string)
    | DisclosureData(riskLevel: string, maxLoss: real, hedgeRatio: real)
    | StressData(scenarios: real, worstCase: real, averageCase: real)

  datatype ComplianceReport = ComplianceReport(
    id: string,
    timestamp: string,
    kind: ReportType,
    data: ReportData,
    status: ReportStatus,
    regulatoryBody: string)

  datatype PerformanceAttribution = PerformanceAttribution(
    period: string,
    totalReturn: real,
    hedgingReturn: real,
    alphaReturn: real,
    hedgingCosts: real,
    effectiveness: real,
    costBenefitRatio: real,
    riskAdjustedReturn: real)
}
