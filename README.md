# GoQuant risk dashboard — a Dafny model

This project models the logic of the GoQuant risk-management dashboard, a React
application. The dashboard works on mock data and has four parts:

- **The live data hook.** It generates four positions, a risk snapshot, three
  exchange order books and random alerts, and it updates all of them on a
  two-second tick.
- **The header.** It shows the portfolio value, the total unrealized PnL and
  the number of active alerts.
- **The panels.** The position table, the risk metrics card, the alerts panel
  and the exchange status panel render that state. The hedging controls, the
  Telegram bot chat, the multi-asset heat map, the compliance report list,
  the backtesting panel and the performance attribution panel keep state of
  their own.
- **The label formatters.** `replace` and `\b\w` capitalisation turn the
  report and strategy names into labels.

## How the source becomes Dafny

- Each source file becomes one module.
- Every `Math.random()` draw becomes a `real` parameter. Where a range or an
  index depends on a draw, the draw is required to lie in `[0, 1)`.
- Clock readings (`new Date().toISOString()`, `Date.now()`) become string
  parameters.
- A timer callback (the two-second tick, the bot's one-second reply, the
  three-second backtest) becomes a separate method: one atomic step.
- JavaScript `undefined` becomes `Option.None`.
- CSS class strings become small enumerations of the verdicts they encode.
- Numbers are Dafny `real`s, that is exact rationals.
- State that React keeps with `useState` and replaces on every update becomes
  a class whose methods reassign its `seq` fields:
  - `LiveData.LiveStore` is the data hook;
  - `HedgingControls.Panel` is the hedging controls;
  - `TelegramBot.Chat` is the chat;
  - `BacktestingFramework.Backtester` is the backtesting panel.

  Each method's `ensures` gives the whole new state as a function of the old one.

The tick at `src/hooks/useRealTimeData.ts:117-125` copies each position with
a new price and new Greeks and keeps the old `unrealizedPnl`.
`LiveData.TickPosition` models exactly that. Two lemmas show the consequence:

- `Dashboard.TickKeepsTotalPnL`: the header's total PnL never moves on a tick.
- `Dashboard.TickBreaksPortfolioIdentity`: the identity
  value − cost = total PnL, which holds for freshly generated positions
  (`Dashboard.InitialPortfolioIdentity`), fails after one tick.

## Model

| member | source | states |
|---|---|---|
| LiveData.Pick | src/hooks/useRealTimeData.ts:61-63 | `Math.floor(Math.random() * n)` with a draw in [0,1) is a valid index below n |
| LiveData.MockPosition | src/hooks/useRealTimeData.ts:11-29 | id is `pos-<asset>-<index>`; entry price is 45000 + 5000·index; PnL is (current − entry)·size; with valid draws the size is ≥ 1, delta is in [0.1,0.9), gamma in [0.01,0.06), theta in (−60,−10], vega ≥ 20, and the price is within ±1000 of entry |
| LiveData.InitialPositions | src/hooks/useRealTimeData.ts:103-108 | four positions, generated for BTC, ETH, SOL and AVAX at indices 0 to 3 |
| LiveData.PositionIdInjective | src/hooks/useRealTimeData.ts:17 | for assets without '-', two ids `pos-<asset>-<index>` are equal only when asset and index are |
| LiveData.InitialIdsDistinct | src/hooks/useRealTimeData.ts:103-108 | the initial ids are pos-BTC-0, pos-ETH-1, pos-SOL-2 and pos-AVAX-3, pairwise distinct |
| LiveData.TickPosition | src/hooks/useRealTimeData.ts:117-125 | delta is clamped to [0,1] and equals the stepped value when that is in range; gamma and vega take their step when that is non-negative and are exactly 0 otherwise; theta and price take their step; id, asset, size, entry price and PnL are unchanged; one step moves delta by at most 0.05 |
| LiveData.TickAll | src/hooks/useRealTimeData.ts:117 | the tick maps over the list: same length, element i is the tick of position i |
| LiveData.TickFrame | src/hooks/useRealTimeData.ts:117-125 | a tick keeps length, order, ids, sizes, entry prices and PnLs, and puts every position's Greeks in bounds |
| LiveData.MockRiskMetrics | src/hooks/useRealTimeData.ts:31-47 | the fixed correlation matrix; with valid draws VaR is in [10000,60000), drawdown in [0.05,0.2), delta in [−50,50), gamma in [1,6), theta in (−600,−100], vega in [200,1200) |
| LiveData.MockCorrelationIsCorrelationMatrix | src/hooks/useRealTimeData.ts:39-44 | the generated matrix is 4×4, symmetric, with a unit diagonal and entries in [−1,1] |
| LiveData.MockLevels | src/hooks/useRealTimeData.ts:76-77 | five levels; level i is priced top + tick·i |
| LiveData.MockExchanges | src/hooks/useRealTimeData.ts:69-99 | three connected exchanges with five levels per side; the top ask is the top bid + 10; bids strictly descend and asks strictly ascend |
| LiveData.MockAlert | src/hooks/useRealTimeData.ts:49-67 | a new alert is unacknowledged and carries the given id and time; its message and asset come from the fixed lists; its action is "hedge" iff the draw exceeds 0.5 |
| LiveData.Pushed | src/hooks/useRealTimeData.ts:132 | `[a, ...prev.slice(0, 9)]`: the new alert first, then the previous alerts in order, at most 10 in all |
| LiveData.Acknowledged | src/hooks/useRealTimeData.ts:139-143 | same length; exactly the alerts carrying the id become acknowledged; every other field and every other alert is unchanged |
| LiveData.AcknowledgeIdempotent | src/hooks/useRealTimeData.ts:139-143 | acknowledging twice is acknowledging once |
| LiveData.AcknowledgeUnknownId | src/hooks/useRealTimeData.ts:139-143 | an id no alert carries changes nothing |
| LiveData.AcknowledgeMonotone | src/hooks/useRealTimeData.ts:139-143 | an alert is acknowledged afterwards iff it was before or it carries the id |
| LiveData.LiveStore.constructor | src/hooks/useRealTimeData.ts:5-9 | all empty, no risk snapshot, disconnected |
| LiveData.LiveStore.Initialize | src/hooks/useRealTimeData.ts:101-113 | the four generated positions, a snapshot, the exchanges, connected; alerts untouched; Greeks in bounds |
| LiveData.LiveStore.Tick | src/hooks/useRealTimeData.ts:116-134 | positions ticked, fresh snapshot and books, an alert pushed iff the roll is below 0.1; at most 10 alerts are kept |
| LiveData.LiveStore.RaiseAlert | src/hooks/useRealTimeData.ts:132 | alerts become `Pushed(old alerts, a)`; nothing else changes |
| LiveData.LiveStore.Acknowledge | src/hooks/useRealTimeData.ts:139-143 | alerts become `Acknowledged(old alerts, id)`; nothing else changes |
| Dashboard.PortfolioValue | src/App.tsx:37 | 0 for no positions, non-negative when prices and sizes are |
| Dashboard.TotalUnrealizedPnL | src/App.tsx:38 | 0 for no positions; non-negative when every PnL is, non-positive when every PnL is |
| Dashboard.PortfolioValueAppend | src/App.tsx:37 | one position contributes its price·size, and the value of a concatenation is the sum of the values |
| Dashboard.EntryValueAppend | src/App.tsx:37-38 | one position contributes its entry price·size, and the entry value of a concatenation is the sum |
| Dashboard.TotalUnrealizedPnLAppend | src/App.tsx:38 | one position contributes its PnL, and the total of a concatenation is the sum of the totals |
| Dashboard.Unacknowledged | src/App.tsx:39 | holds exactly the unacknowledged alerts of the list |
| Dashboard.ActiveAlerts | src/App.tsx:39 | at most the list length; 0 iff every alert is acknowledged; the full length iff none is |
| Dashboard.ActiveAlertsAppend | src/App.tsx:39 | the count of a concatenation is the sum of the counts |
| Dashboard.AcknowledgeUniqueLowersCount | src/App.tsx:39 | acknowledging the only alert with an id, while it is unacknowledged, lowers the count by exactly one |
| Dashboard.AcknowledgeAcknowledgedKeepsCount | src/App.tsx:39 | acknowledging an id whose alerts are all acknowledged changes neither list nor count |
| Dashboard.AcknowledgeNeverRaisesCount | src/App.tsx:39 | acknowledging never raises the count |
| Dashboard.PortfolioIdentity | src/App.tsx:37-38 | while every position carries its creation PnL, value − cost equals the total PnL |
| Dashboard.InitialPortfolioIdentity | src/hooks/useRealTimeData.ts:103-108 | the identity holds for the generated positions |
| Dashboard.SamePnLSameTotal | src/App.tsx:38 | element-wise equal PnLs give equal totals |
| Dashboard.TickKeepsTotalPnL | src/hooks/useRealTimeData.ts:117-125 | a tick leaves the header's total PnL unchanged |
| Dashboard.TickBreaksPortfolioIdentity | src/hooks/useRealTimeData.ts:119 | one position moved from 45000 to 45040 keeps PnL 0, so value − cost ≠ total PnL |
| PositionTable.RiskLevelOf | src/components/PositionTable.tsx:28-32 | High iff delta > 0.7, Medium iff 0.4 < delta ≤ 0.7, Low iff delta ≤ 0.4 |
| PositionTable.RiskLevelMonotone | src/components/PositionTable.tsx:28-32 | a larger delta never gets a lower level |
| PositionTable.TickMovesRiskAtMostOneLevel | src/components/PositionTable.tsx:87 | one tick moves a position's risk level by at most one step |
| PositionTable.PnlClassOf | src/components/PositionTable.tsx:24-26 | a PnL is shown as a gain iff it is ≥ 0 |
| PositionTable.TrendOf | src/components/PositionTable.tsx:114 | the arrow points up iff the current price is strictly above entry |
| PositionTable.RowOf | src/components/PositionTable.tsx:86-89 | a row is keyed by the position id; its risk level is `RiskLevelOf(delta)`: high above 0.7, medium in (0.4, 0.7], low otherwise; its PnL colour is a gain iff PnL ≥ 0; its trend is up iff the price is above entry |
| PositionTable.Rows | src/components/PositionTable.tsx:86 | one row per position, in input order |
| PositionTable.RowKeysDistinct | src/components/PositionTable.tsx:89 | distinct position ids give distinct row keys |
| PositionTable.GeneratedTrendMatchesPnl | src/hooks/useRealTimeData.ts:13-22 | a freshly generated position points up iff its PnL is a strict gain |
| RiskMetricsCard.SeverityOf | src/components/RiskMetricsCard.tsx:27-31 | red iff \|v\| > t; yellow iff 0.7t < \|v\| ≤ t; green otherwise |
| RiskMetricsCard.SeveritySymmetric | src/components/RiskMetricsCard.tsx:28-29 | only the magnitude counts |
| RiskMetricsCard.SeverityMonotone | src/components/RiskMetricsCard.tsx:27-31 | a larger magnitude never gets a milder colour |
| RiskMetricsCard.ThresholdOf | src/components/RiskMetricsCard.tsx:71-104 | delta is judged against 30, gamma against 3 and vega against 500; the other tiles are unclassified |
| RiskMetricsCard.TileSeverity | src/components/RiskMetricsCard.tsx:71-104 | the delta, gamma and vega tiles are coloured by `SeverityOf` (red, yellow and green bands) against 30, 3 and 500; the other tiles are not classified; a tile is red iff its value's magnitude exceeds its threshold |
| RiskMetricsCard.StrengthOf | src/components/RiskMetricsCard.tsx:122-125 | strong iff > 0.7, moderate iff in (0.3, 0.7], weak iff ≤ 0.3 |
| RiskMetricsCard.RowCells | src/components/RiskMetricsCard.tsx:119 | the cells of one row, cell j keyed (i, j) |
| RiskMetricsCard.CellsRowMajor | src/components/RiskMetricsCard.tsx:118-121 | an n×n grid has n·n cells, with cell (i, j) at position i·n + j |
| RiskMetricsCard.DiagonalIsStrong | src/components/RiskMetricsCard.tsx:123 | every diagonal cell of a correlation matrix is strong |
| AlertsPanel.StyleOf | src/components/AlertsPanel.tsx:11-35 | one style per alert type: critical, warning, info |
| AlertsPanel.StylesDistinct | src/components/AlertsPanel.tsx:24-35 | different types get different styles |
| AlertsPanel.ActiveCount | src/components/AlertsPanel.tsx:48 | the panel's count is at most the list length |
| AlertsPanel.ActiveCountMatchesHeader | src/components/AlertsPanel.tsx:48 | the panel's count equals the header's count on every list |
| AlertsPanel.RowOf | src/components/AlertsPanel.tsx:62-100 | keyed by id, styled by type; the acknowledge button shows iff unacknowledged, and the row is dimmed iff acknowledged; the asset badge and the action line show iff the field is present and non-empty, as JavaScript truthiness decides |
| AlertsPanel.Body | src/components/AlertsPanel.tsx:54-106 | the empty state iff there are no alerts; otherwise one row per alert in order |
| AlertsPanel.AllAcknowledgedIsNotEmptyState | src/components/AlertsPanel.tsx:48-54 | every non-empty list whose alerts are all acknowledged shows the list with a count of 0, not the empty state |
| AlertsPanel.AcknowledgeLowersCount | src/components/AlertsPanel.tsx:94 | acknowledging an unacknowledged alert lowers the count |
| AlertsPanel.NeverRaises | src/components/AlertsPanel.tsx:94 | acknowledging never raises the count |
| AlertsPanel.PressAcknowledge | src/components/AlertsPanel.tsx:92-100 | a visible acknowledge button belongs to an unacknowledged alert; pressing it acknowledges that alert and lowers the count |
| ExchangeStatus.LatencyColor | src/components/ExchangeStatus.tsx:10-14 | good iff < 20 ms, fair iff in [20, 50), poor iff ≥ 50 |
| ExchangeStatus.LatencyBackground | src/components/ExchangeStatus.tsx:16-20 | good iff < 20 ms, poor iff ≥ 50 |
| ExchangeStatus.LatencyHelpersAgree | src/components/ExchangeStatus.tsx:74 | text and background always show the same band |
| ExchangeStatus.LatencyBandMonotone | src/components/ExchangeStatus.tsx:10-14 | a slower exchange never gets a better band |
| ExchangeStatus.BestPrice | src/components/ExchangeStatus.tsx:23-24 | the first level's price, 0 for an empty side |
| ExchangeStatus.FormatOrderbook | src/components/ExchangeStatus.tsx:22-34 | ask = bid + spread; the bps figure is defined iff the bid is non-zero, and then bps·bid = spread·10000; with a positive bid it is non-negative iff the book is not crossed |
| ExchangeStatus.DepthView | src/components/ExchangeStatus.tsx:105-112 | the first min(3, n) levels, in book order |
| ExchangeStatus.MockBooksSpreadTen | src/hooks/useRealTimeData.ts:76-95 | every generated book has spread 10 and a defined, positive bps figure |
| HedgingControls.Toggled | src/components/HedgingControls.tsx:42-48 | flips `enabled` exactly on the strategies with the id; every other field is unchanged |
| HedgingControls.WithThreshold | src/components/HedgingControls.tsx:50-56 | sets the threshold exactly on the strategies with the id; every other field is unchanged |
| HedgingControls.ToggleTwice | src/components/HedgingControls.tsx:42-48 | toggling twice restores the list |
| HedgingControls.ThresholdIdempotent | src/components/HedgingControls.tsx:50-56 | setting the same threshold twice is setting it once |
| HedgingControls.UpdatesKeepIds | src/components/HedgingControls.tsx:42-56 | both updates keep the ids in order |
| HedgingControls.UnknownIdNoOp | src/components/HedgingControls.tsx:42-56 | an unknown id changes nothing |
| HedgingControls.SliderValue | src/components/HedgingControls.tsx:153-159 | notch k has value (k+1)/10, within [0.1, 1] |
| HedgingControls.SliderNotches | src/components/HedgingControls.tsx:155-157 | the notches run from 0.1 to 1.0 in strictly increasing steps of 0.1 |
| HedgingControls.ExecuteHedge | src/components/HedgingControls.tsx:188-190 | a request exists iff the strategy is enabled; it carries the strategy type, and an asset iff the name has at least three words |
| HedgingControls.ExecuteHedgeThirdWord | src/components/HedgingControls.tsx:189 | for a three-word name the request names the third word |
| HedgingControls.QuickHedge | src/components/HedgingControls.tsx:208-211 | button k requests delta-neutral for the k-th of BTC, ETH, SOL, AVAX |
| HedgingControls.QuickHedgesDistinct | src/components/HedgingControls.tsx:208-211 | different quick buttons request different assets |
| HedgingControls.InitialConfiguration | src/components/HedgingControls.tsx:10-38 | the initial strategies have distinct ids and thresholds in the slider's range |
| HedgingControls.InitialButtonBtc | src/components/HedgingControls.tsx:11-19 | the first strategy's button requests delta-neutral for BTC |
| HedgingControls.InitialButtonDisabled | src/components/HedgingControls.tsx:20-28 | the second strategy is disabled, so its button requests nothing |
| HedgingControls.InitialButtonSol | src/components/HedgingControls.tsx:29-37 | the third strategy's button requests covered-call for SOL |
| HedgingControls.Panel.constructor | src/components/HedgingControls.tsx:10-40 | the initial strategies with auto-hedging on; ids distinct |
| HedgingControls.Panel.ToggleStrategy | src/components/HedgingControls.tsx:134 | the list becomes `Toggled`; ids stay distinct and thresholds stay in range |
| HedgingControls.Panel.UpdateThreshold | src/components/HedgingControls.tsx:50-56 | the list becomes `WithThreshold`; ids stay distinct |
| HedgingControls.Panel.MoveSlider | src/components/HedgingControls.tsx:153-161 | an enabled row takes the notch value; a disabled row's slider changes nothing; thresholds stay in range |
| HedgingControls.Panel.ToggleAutoHedging | src/components/HedgingControls.tsx:91 | flips the switch; strategies are unchanged |
| TelegramBot.Lookup | src/components/TelegramBot.tsx:87 | `responses[key]` is defined iff the key is in the table |
| TelegramBot.ResponsesNonEmpty | src/components/TelegramBot.tsx:72-85 | every reply in the table is non-empty, so `\|\|` falls through only on a missing key |
| TelegramBot.ReplyText | src/components/TelegramBot.tsx:87-88 | the whole input's entry if there is one; else the entry of its first space-separated word; else the unknown-command reply |
| TelegramBot.ReplyToCommandWithArguments | src/components/TelegramBot.tsx:87 | a known command followed by arguments gets the command's reply |
| TelegramBot.SetThresholdWithArguments | src/components/TelegramBot.tsx:79 | "/set_threshold SOL 0.6" gets the /set_threshold reply |
| TelegramBot.KeysStartWithSlash | src/components/TelegramBot.tsx:72-85 | every key of the response table starts with '/' |
| TelegramBot.LeadingSpaceIsUnknown | src/components/TelegramBot.tsx:87-88 | the lookup is not trimmed: every command after a leading space, " /help" among them, gets the unknown-command reply |
| TelegramBot.AdvertisedCommandsAnswered | src/components/TelegramBot.tsx:40-47 | every advertised command has its own table entry |
| TelegramBot.BotReply | src/components/TelegramBot.tsx:71-97 | a bot response message whose text is `ReplyText(command)` |
| TelegramBot.StyleOf | src/components/TelegramBot.tsx:106-121 | user messages, bot alerts, bot commands and other bot messages get four different styles |
| TelegramBot.Chat.constructor | src/components/TelegramBot.tsx:13-37 | three bot messages with ids 1, 2 and 3 (the second an alert); empty input; no text awaiting a reply |
| TelegramBot.Chat.SetInputText | src/components/TelegramBot.tsx:168 | the input line takes the typed text |
| TelegramBot.Chat.PressQuickCommand | src/components/TelegramBot.tsx:183-186 | the input line takes one of the first three advertised commands |
| TelegramBot.Chat.SendMessage | src/components/TelegramBot.tsx:49-69 | blank input changes nothing; otherwise the untrimmed text is appended as a user command, the input is cleared and the text joins the end of the queue awaiting a reply; every queued text was sent by the user |
| TelegramBot.Chat.DeliverReply | src/components/TelegramBot.tsx:63-66 | the oldest pending timer answers the oldest text awaiting a reply, once: the reply to that text is appended and the text leaves the queue |
| MultiAssetHedging.BandOf | src/components/MultiAssetPortfolioHedging.tsx:54-60 | every value falls in exactly one of five bands, a boundary value in the lower one |
| MultiAssetHedging.BandMonotone | src/components/MultiAssetPortfolioHedging.tsx:54-60 | a larger correlation never gets a lower band |
| MultiAssetHedging.NegativeIsNegligible | src/components/MultiAssetPortfolioHedging.tsx:55-59 | the band uses the signed value, so every negative correlation is negligible; below -0.2 the same magnitude taken positive is not |
| MultiAssetHedging.Intensity | src/components/MultiAssetPortfolioHedging.tsx:62-64 | the absolute value, at most 1 on a correlation |
| MultiAssetHedging.CellOpacity | src/components/MultiAssetPortfolioHedging.tsx:112-114 | 1 on the diagonal, the intensity elsewhere, within [0,1] on a correlation matrix |
| MultiAssetHedging.AssetIndex | src/components/MultiAssetPortfolioHedging.tsx:19 | an asset's position in the heat map, if it is shown |
| MultiAssetHedging.AssetsDistinct | src/components/MultiAssetPortfolioHedging.tsx:19 | no two heat-map assets share a name |
| MultiAssetHedging.AssetIndexOf | src/components/MultiAssetPortfolioHedging.tsx:19 | the asset shown at position i is found at position i |
| MultiAssetHedging.FixtureMatrixIsCorrelationMatrix | src/components/MultiAssetPortfolioHedging.tsx:18-28 | the heat map is 6×6, symmetric, with a unit diagonal and entries in [−1,1] |
| MultiAssetHedging.HedgeMatchesMatrix | src/components/MultiAssetPortfolioHedging.tsx:30-52 | each listed hedge pairs two shown assets, and its correlation is the matrix entry for the pair |
| MultiAssetHedging.HedgesWellFormed | src/components/MultiAssetPortfolioHedging.tsx:30-52 | each hedge uses a different asset, with ratio and effectiveness in [0,1] |
| MultiAssetHedging.HedgeBands | src/components/MultiAssetPortfolioHedging.tsx:30-52 | the listed hedges fall in the Medium, High and Medium bands |
| Text.ReplaceFirst | src/components/ComplianceReporting.tsx:72 | `replace` with a one-character pattern replaces only the first occurrence, if any |
| Text.CapitalizeWords | src/components/ComplianceReporting.tsx:72 | `/\b\w/g` upper-cases exactly the word characters that follow a non-word character or the start |
| Text.CapitalizeIdempotent | src/components/ComplianceReporting.tsx:72 | capitalising twice is capitalising once |
| Text.FormatLabel | src/components/ComplianceReporting.tsx:71-73 | the first separator becomes a space; word starts are upper-cased; everything else is kept |
| Text.TwoWordLabel | src/components/BacktestingFramework.tsx:114 | two lower-case words joined by the separator give both words capitalised, joined by a space |
| Text.OneWordLabel | src/components/BacktestingFramework.tsx:114 | a lower-case word without the separator is only capitalised |
| Text.Split | src/components/TelegramBot.tsx:87 | `split` yields at least one piece, none containing the separator |
| Text.JoinSplit | src/components/TelegramBot.tsx:87 | joining the pieces of a split gives back the input |
| Text.FirstPieceIsPrefix | src/components/TelegramBot.tsx:87 | the first piece is the text before the first separator |
| Text.Piece | src/components/HedgingControls.tsx:189 | `split(' ')[k]` is defined iff there are more than k pieces |
| Text.Trim | src/components/TelegramBot.tsx:50 | `trim()` is a slice s[a..b] with only white space before a and after b, and with no white space at either end of the result |
| Text.TrimEmptyIffBlank | src/components/TelegramBot.tsx:50 | the trimmed text is empty iff the text is all white space |
| Text.NatToString | src/hooks/useRealTimeData.ts:17 | the decimal rendering of an index is a non-empty string of digits |
| Text.NatToStringDenotes | src/hooks/useRealTimeData.ts:17 | the digits denote the index, and there is no leading zero: the first digit is 0 only for 0 itself |
| Text.NatToStringInjective | src/hooks/useRealTimeData.ts:17 | different indices render as different strings |
| ComplianceReporting.ReportTypeLabel | src/components/ComplianceReporting.tsx:71-73 | every report type's wire name formats to its title |
| ComplianceReporting.PositionReportTitle | src/components/ComplianceReporting.tsx:10 | "position_report" has the title "Position Report" |
| ComplianceReporting.RiskDisclosureTitle | src/components/ComplianceReporting.tsx:26 | "risk_disclosure" has the title "Risk Disclosure" |
| ComplianceReporting.VarReportTitle | src/components/ComplianceReporting.tsx:18 | "var_report" has the title "Var Report" |
| ComplianceReporting.StressTestTitle | src/components/ComplianceReporting.tsx:34 | "stress_test" has the title "Stress Test" |
| ComplianceReporting.OnlyFirstUnderscoreReplaced | src/components/ComplianceReporting.tsx:72 | "a_b_c" formats to "A B_c": only the first '_' is replaced, and '_' is a word character |
| ComplianceReporting.StatusColorOf | src/components/ComplianceReporting.tsx:51-59 | slate iff the status is none of approved, submitted, pending and rejected |
| ComplianceReporting.StatusColorsDistinct | src/components/ComplianceReporting.tsx:51-59 | the four statuses get four different colours, none of them slate |
| ComplianceReporting.FixtureReportsWellFormed | src/components/ComplianceReporting.tsx:6-39 | every fixed report carries the data its type's branch displays, and the ids are distinct |
| BacktestingFramework.StrategyLabelIsTitle | src/components/BacktestingFramework.tsx:112-114 | every selector entry is labelled with its title |
| BacktestingFramework.StrategiesDistinct | src/components/BacktestingFramework.tsx:47-54 | the selector's values are distinct |
| BacktestingFramework.StrategyLength | src/components/BacktestingFramework.tsx:47-54 | the selector's values have lengths 13, 14, 11, 9, 8 and 12 |
| BacktestingFramework.DefaultStrategyLabel | src/components/BacktestingFramework.tsx:7 | the default selection "delta-neutral" is labelled "Delta Neutral" |
| BacktestingFramework.PerformanceColor | src/components/BacktestingFramework.tsx:73-79 | with `isPositive` a value is good iff > 0; without it, good iff < 0 |
| BacktestingFramework.FlipFlipsVerdict | src/components/BacktestingFramework.tsx:73-79 | flipping the flag flips the verdict on every non-zero value; zero is bad either way |
| BacktestingFramework.InitialResultsConsistent | src/components/BacktestingFramework.tsx:8-45 | every fixed result has calmar within 0.005 of return/drawdown, win rate and drawdown in [0,1], and trades > 0 |
| BacktestingFramework.InitialResultsAreTitled | src/components/BacktestingFramework.tsx:8-45 | the fixed results are titled like the first three selector entries |
| BacktestingFramework.Backtester.constructor | src/components/BacktestingFramework.tsx:6-45 | not running; "delta-neutral" selected; the fixed results |
| BacktestingFramework.Backtester.Select | src/components/BacktestingFramework.tsx:109 | the selection becomes the chosen entry; nothing else changes |
| BacktestingFramework.Backtester.PressRun | src/components/BacktestingFramework.tsx:56-58 | a press while running does nothing; otherwise the flag is raised and one timer is pending; at most one timer is ever pending; results are unchanged |
| BacktestingFramework.Backtester.FinishRun | src/components/BacktestingFramework.tsx:59-62 | the timer clears the flag and adds no result |
| PerformanceAttribution.FindPeriod | src/components/PerformanceAttribution.tsx:50 | `find` stops at the first record of the period, or at the end if there is none |
| PerformanceAttribution.CurrentRecord | src/components/PerformanceAttribution.tsx:50 | none iff the list is empty; the first record of the period if there is one; otherwise the first record |
| PerformanceAttribution.CurrentRecordIsFirst | src/components/PerformanceAttribution.tsx:50 | the record shown comes no later than any record of the period |
| PerformanceAttribution.RecordsMatchPeriods | src/components/PerformanceAttribution.tsx:7-48 | record i has the period of button i, so each button has exactly one record |
| PerformanceAttribution.SelectedPeriodFound | src/components/PerformanceAttribution.tsx:64 | every period button shows its own record; the fallback never fires |
| PerformanceAttribution.RecordsConsistent | src/components/PerformanceAttribution.tsx:7-48 | alpha = total − hedging exactly; costs > 0; effectiveness in [0,1] |
| PerformanceAttribution.ReturnColor | src/components/PerformanceAttribution.tsx:60-62 | good iff ≥ 0 |
| PerformanceAttribution.ColoursDifferOnlyAtZero | src/components/PerformanceAttribution.tsx:60-62 | this panel and the backtest panel disagree exactly on zero, which only this one calls good |
| PerformanceAttribution.AlphaBarWidth | src/components/PerformanceAttribution.tsx:149 | never negative; 0 iff alpha is 0 |
| PerformanceAttribution.HedgingBarWidth | src/components/PerformanceAttribution.tsx:164 | never negative; 0 iff the hedging return is 0 |
| PerformanceAttribution.CostBarWidth | src/components/PerformanceAttribution.tsx:179 | non-negative iff the cost is |
| PerformanceAttribution.NegativeCostBar | src/components/PerformanceAttribution.tsx:149-179 | every negative cost gives the cost bar a negative width, while the alpha and hedging bars stay non-negative |
| PerformanceAttribution.RecordBarsPositive | src/components/PerformanceAttribution.tsx:149-179 | every bar of every fixed record has a positive width |

## Left out

- Probability distributions of the random draws are not modelled. Each draw is a parameter, required to lie in [0, 1) where a range or index depends on it.
- Scheduling is not modelled: the interval and timeouts, their cancellation on unmount, and React's batching of state updates. Every timer callback is one atomic method.
- IEEE-754 floating point is not modelled. Numbers are exact reals, so rounding in sums and in `toFixed`, `toLocaleString` and `Intl.NumberFormat` is absent, and so are the formatting helpers (formatCurrency, formatPercentage, formatNumber, formatTime).
- Markup, CSS class strings and icons are not modelled: getAlertIcon, getStrategyIcon, getStrategyColor, getReportTypeIcon, getStatusIcon. Their choices are the same enumerations as the colour helpers, so only the colour verdicts are modelled.
- Handlers that only log are not modelled: handleHedgePosition and handleExecuteHedge (src/App.tsx:27-35) and generateReport. What the hedge buttons pass on is modelled by `HedgingControls.ExecuteHedge` and `HedgingControls.QuickHedge`.
- The hedging panel's secondary label `type.replace('-', ' ')` is not modelled. It is a single `Text.ReplaceFirst`.
- The chat's `isConnected` flag is not modelled, because nothing ever changes it.
- Message ids built from `Date.now()` are supplied by the caller. Their uniqueness is not modelled.
- src/components/AdvancedOptionsStrategies.tsx and src/components/MLVolatilityForecasting.tsx are not part of this model. They are fixtures and random series with no logic of their own.
- The source has no VaR formula, hedge state machine, backtest replay or options pricer.
- TelegramBot.ReplyText: treats the response table as a plain map. Keys inherited from `Object.prototype` (such as "constructor") are absent from the map, although JavaScript would find them.
- LiveData.MockPosition: states its ranges only for draws in [0, 1), which is what `Math.random()` returns.
