/**
 * The alerts panel: its own active count, the severity style of each alert,
 * the acknowledge button and the empty state.
 */
module AlertsPanel {
  import opened Wrappers
  import opened Types
  import opened LiveData
  import Dashboard

  /** The border colour and icon of an alert, one per alert type. */
  datatype SeverityStyle = CriticalStyle | WarningStyle | InfoStyle

  function StyleOf(kind: AlertType): (s: SeverityStyle)
    ensures s.CriticalStyle? <==> kind.CriticalAlert?
    ensures s.WarningStyle? <==> kind.WarningAlert?
    ensures s.InfoStyle? <==> kind.InfoAlert?
  {
    match kind
    case CriticalAlert => CriticalStyle
    case WarningAlert => WarningStyle
    case InfoAlert => InfoStyle
  }

  /** The three alert types have three different styles. */
  lemma StylesDistinct(a: AlertType, b: AlertType)
    ensures StyleOf(a) == StyleOf(b) <==> a == b
  {
  }

  /** `alerts.filter(a => !a.acknowledged).length` in the panel's header. */
  function ActiveCount(alerts: seq<Alert>): (n: nat)
    ensures n <= |alerts|
  {
    if alerts == [] then 0
    else (if alerts[0].acknowledged then 0 else 1) + ActiveCount(alerts[1..])
  }

  /** The panel's count and the dashboard header's count agree on every list. */
  lemma {:induction false} ActiveCountMatchesHeader(alerts: seq<Alert>)
    ensures ActiveCount(alerts) == Dashboard.ActiveAlerts(alerts)
  {
    if alerts != [] {
      ActiveCountMatchesHeader(alerts[1..]);
      assert alerts == [alerts[0]] + alerts[1..];
      Dashboard.ActiveAlertsAppend([alerts[0]], alerts[1..]);
    }
  }

  /** The computed parts of one listed alert. */
  datatype AlertRow = AlertRow(key: string, style: SeverityStyle, dimmed: bool, showAcknowledge: bool, showAsset: bool, showAction: bool)

  /** A present, non-empty text is rendered; `undefined` and "" are not. */
  predicate Shown(text: Option<string>) {
    text.Some? && text.value != ""
  }

  function RowOf(a: Alert): (r: AlertRow)
    ensures r.key == a.id && r.style == StyleOf(a.kind)
    ensures r.showAcknowledge <==> !a.acknowledged
    ensures r.dimmed <==> a.acknowledged
    ensures r.showAsset <==> a.asset.Some? && a.asset.value != ""
    ensures r.showAction <==> a.action.Some? && a.action.value != ""
  {
    AlertRow(a.id, StyleOf(a.kind), a.acknowledged, !a.acknowledged, Shown(a.asset), Shown(a.action))
  }

  /** What the panel body shows: the empty state, or the alerts in list order. */
  datatype PanelBody = EmptyState | AlertList(rows: seq<AlertRow>)

  function Body(alerts: seq<Alert>): (b: PanelBody)
    ensures b.EmptyState? <==> alerts == []
    ensures b.AlertList? ==> |b.rows| == |alerts| && forall i :: 0 <= i < |alerts| ==> b.rows[i] == RowOf(alerts[i])
  {
    if |alerts| == 0 then EmptyState
    else AlertList(seq(|alerts|, i requires 0 <= i < |alerts| => RowOf(alerts[i])))
  }

  /** A non-empty list whose every alert is acknowledged still shows the list, with an active count of zero. */
  lemma {:induction false} AllAcknowledgedIsNotEmptyState(alerts: seq<Alert>)
    requires alerts != [] && forall i :: 0 <= i < |alerts| ==> alerts[i].acknowledged
    ensures Body(alerts).AlertList? && ActiveCount(alerts) == 0
  {
    if |alerts| > 1 {
      AllAcknowledgedIsNotEmptyState(alerts[1..]);
    }
  }

  /** A list with an unacknowledged alert with the id has one fewer active alert after acknowledging it. */
  lemma {:induction false} AcknowledgeLowersCount(alerts: seq<Alert>, id: string, k: nat)
    requires k < |alerts| && alerts[k].id == id && !alerts[k].acknowledged
    ensures ActiveCount(Acknowledged(alerts, id)) < ActiveCount(alerts)
  {
    var r := Acknowledged(alerts, id);
    if k == 0 {
      NeverRaises(alerts[1..], id);
      assert r[1..] == Acknowledged(alerts[1..], id);
    } else {
      AcknowledgeLowersCount(alerts[1..], id, k - 1);
      assert r[1..] == Acknowledged(alerts[1..], id);
    }
  }

  lemma {:induction false} NeverRaises(alerts: seq<Alert>, id: string)
    ensures ActiveCount(Acknowledged(alerts, id)) <= ActiveCount(alerts)
  {
    if alerts != [] {
      NeverRaises(alerts[1..], id);
      assert Acknowledged(alerts, id)[1..] == Acknowledged(alerts[1..], id);
    }
  }

  /**
   * Pressing the acknowledge button of row i: the button is only there for an
   * unacknowledged alert, afterwards that alert is acknowledged and the active
   * count has dropped.
   */
  lemma PressAcknowledge(alerts: seq<Alert>, i: nat)
    requires i < |alerts| && Body(alerts).AlertList? && Body(alerts).rows[i].showAcknowledge
    ensures !alerts[i].acknowledged
    ensures Acknowledged(alerts, alerts[i].id)[i].acknowledged
    ensures ActiveCount(Acknowledged(alerts, alerts[i].id)) < ActiveCount(alerts)
  {
    AcknowledgeLowersCount(alerts, alerts[i].id, i);
  }
}
