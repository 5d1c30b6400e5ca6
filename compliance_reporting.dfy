/**
 * The compliance panel: the fixed report list, the label of a report type and
 * the colour of a report status.
 */
module ComplianceReporting {
  import opened Text
  import opened Types

  /** The two words of a report type's wire name. */
  function ReportTypeWords(k: ReportType): (w: (string, string))
    ensures IsLowerWord(w.0) && IsLowerWord(w.1)
  {
    match k
    case PositionReport => ("position", "report")
    case RiskDisclosure => ("risk", "disclosure")
    case VarReport => ("var", "report")
    case StressTest => ("stress", "test")
  }

  /** The wire name of a report type: its words joined by '_'. */
  function ReportTypeName(k: ReportType): string {
    var w := ReportTypeWords(k);
    w.0 + "_" + w.1
  }

  /** The title of a report type: its words capitalised and joined by a space. */
  function ReportTypeTitle(k: ReportType): string {
    var w := ReportTypeWords(k);
    Capitalized(w.0) + " " + Capitalized(w.1)
  }

  /** `formatReportType(type)` is the label formatting with '_' as the separator. */
  function FormatReportType(name: string): (r: string)
  {
    FormatLabel(name, '_')
  }

  /** Only the first '_' is replaced: "a_b_c" formats to "A B_c", the second '_' keeping "b_c" one word. */
  lemma OnlyFirstUnderscoreReplaced()
    ensures FormatReportType("a_b_c") == "A B_c"
  {
    SecondUnderscoreKept();
    UnderscoreIsWordChar();
  }

  /** Replacing the first '_' of "a_b_c" leaves "a b_c". */
  lemma SecondUnderscoreKept()
    ensures ReplaceFirst("a_b_c", '_', ' ') == "a b_c"
  {
    var s, t := "a_b_c", "_b_c";
    assert s[0] == 'a' && s[1..] == t;
    assert t[0] == '_' && t[1..] == "b_c";
    assert ReplaceFirst(t, '_', ' ') == [' '] + "b_c";
    assert ReplaceFirst(s, '_', ' ') == ['a'] + ReplaceFirst(t, '_', ' ');
  }

  /** '_' is a word character, so the 'c' after it does not start a word. */
  lemma UnderscoreIsWordChar()
    ensures CapitalizeWords("a b_c") == "A B_c"
  {
    var t := "a b_c";
    var r := CapitalizeWords(t);
    assert StartsWord(t, 0) && !StartsWord(t, 1) && StartsWord(t, 2) && !StartsWord(t, 3) && !StartsWord(t, 4);
    assert r[0] == 'A' && r[1] == ' ' && r[2] == 'B' && r[3] == '_' && r[4] == 'c';
  }

  /** Every report type's wire name formats to its title. */
  lemma ReportTypeLabel(k: ReportType)
    ensures FormatReportType(ReportTypeName(k)) == ReportTypeTitle(k)
  {
    var w := ReportTypeWords(k);
    assert w.0 + "_" + w.1 == w.0 + ['_'] + w.1;
    TwoWordLabel(w.0, w.1, '_');
  }

  /** "position_report" is titled "Position Report". */
  lemma PositionReportTitle()
    ensures ReportTypeName(PositionReport) == "position_report"
    ensures ReportTypeTitle(PositionReport) == "Position Report"
  {
    assert Capitalized("position") == "Position";
    assert Capitalized("report") == "Report";
  }

  /** "risk_disclosure" is titled "Risk Disclosure". */
  lemma RiskDisclosureTitle()
    ensures ReportTypeName(RiskDisclosure) == "risk_disclosure"
    ensures ReportTypeTitle(RiskDisclosure) == "Risk Disclosure"
  {
    assert Capitalized("risk") == "Risk";
    assert Capitalized("disclosure") == "Disclosure";
  }

  /** "var_report" is titled "Var Report": only the first letter of "var" is raised. */
  lemma VarReportTitle()
    ensures ReportTypeName(VarReport) == "var_report"
    ensures ReportTypeTitle(VarReport) == "Var Report"
  {
    assert Capitalized("var") == "Var";
    assert Capitalized("report") == "Report";
  }

  /** "stress_test" is titled "Stress Test". */
  lemma StressTestTitle()
    ensures ReportTypeName(StressTest) == "stress_test"
    ensures ReportTypeTitle(StressTest) == "Stress Test"
  {
    assert Capitalized("stress") == "Stress";
    assert Capitalized("test") == "Test";
  }

  /** The colours of `getStatusColor`. */
  datatype StatusColor = GreenStatus | YellowStatus | OrangeStatus | RedStatus | SlateStatus

  function StatusName(s: ReportStatus): string {
    match s
    case Approved => "approved"
    case Submitted => "submitted"
    case Pending => "pending"
    case Rejected => "rejected"
  }

  /** `getStatusColor(status)` over any string; an unknown status gets slate. */
  function StatusColorOf(status: string): (c: StatusColor)
    ensures c.SlateStatus? <==> status !in {"approved", "submitted", "pending", "rejected"}
  {
    if status == "approved" then GreenStatus
    else if status == "submitted" then YellowStatus
    else if status == "pending" then OrangeStatus
    else if status == "rejected" then RedStatus
    else SlateStatus
  }

  /** The four statuses get four different colours, none of them the default. */
  lemma StatusColorsDistinct(a: ReportStatus, b: ReportStatus)
    ensures !StatusColorOf(StatusName(a)).SlateStatus?
    ensures StatusColorOf(StatusName(a)) == StatusColorOf(StatusName(b)) <==> a == b
  {
  }

  /** The data variant that the panel's branch for a report type reads. */
  predicate DataMatchesType(k: ReportType, d: ReportData) {
    match k
    case PositionReport => d.PositionData?
    case VarReport => d.VarData?
    case RiskDisclosure => d.DisclosureData?
    case StressTest => d.StressData?
  }

  /** The fixed report list; timestamps are supplied by the caller. */
  function Reports(now: string, dayAgo: string, twoDaysAgo: string, threeDaysAgo: string): seq<ComplianceReport> {
    [ComplianceReport("pos-001", now, PositionReport, PositionData(4.0, 450000.0, 2.1), Submitted, "CFTC"),
     ComplianceReport("var-001", dayAgo, VarReport, VarData(45230.0, 0.95, "1d"), Approved, "SEC"),
     ComplianceReport("risk-001", twoDaysAgo, RiskDisclosure, DisclosureData("Medium", 50000.0, 0.85), Pending, "FCA"),
     ComplianceReport("stress-001", threeDaysAgo, StressTest, StressData(5.0, -0.15, -0.03), Approved, "ESMA")]
  }

  /** Every fixed report carries the data its type's branch displays, and the ids are distinct. */
  lemma FixtureReportsWellFormed(now: string, dayAgo: string, twoDaysAgo: string, threeDaysAgo: string)
    ensures var rs := Reports(now, dayAgo, twoDaysAgo, threeDaysAgo);
      && (forall i :: 0 <= i < |rs| ==> DataMatchesType(rs[i].kind, rs[i].data))
      && (forall i, j :: 0 <= i < j < |rs| ==> rs[i].id != rs[j].id)
  {
    var rs := Reports(now, dayAgo, twoDaysAgo, threeDaysAgo);
    assert rs[0].id[0] == 'p' && rs[1].id[0] == 'v' && rs[2].id[0] == 'r' && rs[3].id[0] == 's';
  }
}
