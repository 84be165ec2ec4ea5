/** The text health report both command-line programs print: a framed header, the
    current status, the insights, alerts and numbered recommendations where there are
    any, the weekly trends and a framed footer. The two programs differ only in the
    units of the step and calorie lines. The report is a list of lines whose
    newline-join is the returned text. */
module ReportParts {
  import opened Wording
  import opened Text
  import opened Rows

  /** `"=" * 80` */
  function Rule(): Line {
    L(Repeat('=', 80))
  }

  /** `"-" * 80` */
  function Divider(): Line {
    L(Repeat('-', 80))
  }

  /** A section heading between two dividers. */
  function Banner(title: string): seq<Line> {
    [Divider(), L(title), Divider()]
  }

  /** The report's opening lines, dated with the latest day. */
  function Header(date: int): seq<Line> {
    [Rule(), S(ReportTitle), Rule(), [Lit("Report Date: "), Value(date as real, IsoDate)], L("")]
  }

  /** The report's closing lines. */
  function Footer(): seq<Line> {
    [L(""), Rule(), S(Disclaimer), S(ConsultProfessionals), Rule()]
  }

  // ----- current status -----

  /** The module-level report (`src/report_generator.py`) or the one in main.py. */
  datatype Edition = Modular | Full

  const StatusTable: seq<(Column, string)> := [
    (Score, "Readiness Score"), (ScoreSleep, "Sleep Score"), (ScoreActivity, "Activity Score"),
    (Steps, "Steps"), (TotalCalories, "Total Calories"), (Spo2Percentage, "Blood Oxygen")]

  /** Steps and calories are shown through `int(...)`, every other value as it is. */
  function StatusValue(key: Column, x: real): Piece {
    if key == Steps || key == TotalCalories then Value(x, Truncated) else Value(x, AsIs)
  }

  /** The unit after a status value: `%` for blood oxygen; `/100` for everything else
      in the modular report, but nothing after steps and calories in main.py's. */
  function UnitAfter(edition: Edition, key: Column): string {
    if key == Spo2Percentage then "%"
    else if edition == Full && (key == Steps || key == TotalCalories) then ""
    else "/100"
  }

  /** `f"{label}: {value}{unit}"` */
  function StatusLine(edition: Edition, key: Column, heading: string, x: real): Line {
    [Lit(heading), Lit(": "), StatusValue(key, x), Lit(UnitAfter(edition, key))]
  }

  /** One status line per table entry whose value is present, in table order. */
  function StatusLines(row: Row, edition: Edition, table: seq<(Column, string)>): seq<Line> {
    if |table| == 0 then []
    else
      var (key, heading) := table[|table| - 1];
      StatusLines(row, edition, table[..|table| - 1])
      + (if key in row then [StatusLine(edition, key, heading, row[key])] else [])
  }

  // ----- insights and alerts -----

  /** `f"• {insight}"` for each insight. */
  function Bulleted(insights: seq<Line>): seq<Line> {
    if |insights| == 0 then []
    else Bulleted(insights[..|insights| - 1]) + [[Lit("• ")] + insights[|insights| - 1]]
  }

  function InsightsSection(insights: seq<Line>): seq<Line> {
    if |insights| == 0 then [] else Banner("INSIGHTS") + Bulleted(insights) + [L("")]
  }

  function AlertsSection(alerts: seq<Line>): seq<Line> {
    if |alerts| == 0 then [] else Banner("ALERTS") + alerts + [L("")]
  }

  // ----- recommendations -----

  datatype Category = SleepCategory | ActivityCategory | RecoveryCategory | GeneralCategory

  /** The categories in the order the report lists them. */
  const Categories: seq<Category> := [SleepCategory, ActivityCategory, RecoveryCategory, GeneralCategory]

  function Title(c: Category): string {
    match c
    case SleepCategory => "SLEEP OPTIMIZATION"
    case ActivityCategory => "ACTIVITY GUIDANCE"
    case RecoveryCategory => "RECOVERY STRATEGIES"
    case GeneralCategory => "GENERAL HEALTH"
  }

  function Recommendations(advice: Advice, c: Category): seq<Line> {
    match c
    case SleepCategory => advice.sleep
    case ActivityCategory => advice.activity
    case RecoveryCategory => advice.recovery
    case GeneralCategory => advice.general
  }

  /** `f"{i}. {rec}"` for each recommendation, counting from `first`. */
  function Numbered(recs: seq<Line>, first: int): seq<Line> {
    if |recs| == 0 then []
    else Numbered(recs[..|recs| - 1], first) + [[Int(first + |recs| - 1), Lit(". ")] + recs[|recs| - 1]]
  }

  /** `f"\n{title}:"` followed by the numbered recommendations, for a non-empty category. */
  function CategoryBlock(c: Category, recs: seq<Line>): seq<Line> {
    if |recs| == 0 then [] else [L("\n" + Title(c) + ":")] + Numbered(recs, 1)
  }

  /** The blocks of the given categories, in their order. */
  function Blocks(advice: Advice, cats: seq<Category>): seq<Line> {
    if |cats| == 0 then []
    else
      var c := cats[|cats| - 1];
      Blocks(advice, cats[..|cats| - 1]) + CategoryBlock(c, Recommendations(advice, c))
  }

  /** `any(recommendations.values())` */
  predicate AnyRecommendation(advice: Advice) {
    |advice.sleep| > 0 || |advice.activity| > 0 || |advice.recovery| > 0 || |advice.general| > 0
  }

  function RecommendationsSection(advice: Advice): seq<Line> {
    if !AnyRecommendation(advice) then []
    else Banner("RECOMMENDATIONS") + Blocks(advice, Categories) + [L("")]
  }

  // ----- weekly trends -----

  const TrendTable: seq<(Column, string)> := [
    (ReadinessTrend, "Readiness"), (SleepTrend, "Sleep"), (ActivityTrend, "Activity"), (HrvTrend, "HRV Balance")]

  /** An upward arrow for a positive trend, a downward one otherwise (zero included). */
  function Arrow(x: real): string {
    if x > 0.0 then "↑" else "↓"
  }

  /** `f"{label}: {trend} {abs(round(x))}% compared to your baseline"` */
  function TrendLine(heading: string, x: real): Line {
    [Lit(heading), Lit(": "), Lit(Arrow(x)), Lit(" "), Value(x, AbsRounded), Lit("% compared to your baseline")]
  }

  /** One trend line per table entry whose value is present, in table order. */
  function TrendLines(row: Row, table: seq<(Column, string)>): seq<Line> {
    if |table| == 0 then []
    else
      var (key, heading) := table[|table| - 1];
      TrendLines(row, table[..|table| - 1]) + (if key in row then [TrendLine(heading, row[key])] else [])
  }

  // ----- the whole report -----

  /** The report for the latest row (its date and metrics) and the advice: every part in
      its fixed order. */
  function Report(edition: Edition, date: int, row: Row, advice: Advice): seq<Line> {
    Header(date) + Banner("CURRENT STATUS") + StatusLines(row, edition, StatusTable) + [L("")]
    + InsightsSection(advice.insights) + AlertsSection(advice.alerts) + RecommendationsSection(advice)
    + Banner("WEEKLY TRENDS") + TrendLines(row, TrendTable) + Footer()
  }

  /** The report's lines: the fixed no-data message without data, otherwise the report for
      the last row. */
  function HealthReport(edition: Edition, recent: seq<Day>, advice: Advice): seq<Line> {
    if |recent| == 0 then [S(NoData)]
    else
      var latest := recent[|recent| - 1];
      Report(edition, latest.date, latest.metrics, advice)
  }

  /** The returned text, `"\n".join(report)`. */
  function HealthReportText(edition: Edition, recent: seq<Day>, advice: Advice): Line {
    Join(HealthReport(edition, recent, advice), "\n")
  }

  // ----- the loops both programs share -----

  /** `for insight in insights: report.append(f"• {insight}")` */
  method AppendBulleted(report: seq<Line>, insights: seq<Line>) returns (r: seq<Line>)
    ensures r == report + Bulleted(insights)
  {
    r := report;
    var i := 0;
    while i < |insights|
      invariant 0 <= i <= |insights|
      invariant r == report + Bulleted(insights[..i])
    {
      assert insights[..i + 1][..i] == insights[..i];
      r := r + [[Lit("• ")] + insights[i]];
      i := i + 1;
    }
    assert insights[..i] == insights;
  }

  /** `for alert in alerts: report.append(alert)` */
  method AppendAlerts(report: seq<Line>, alerts: seq<Line>) returns (r: seq<Line>)
    ensures r == report + alerts
  {
    r := report;
    var i := 0;
    while i < |alerts|
      invariant 0 <= i <= |alerts|
      invariant r == report + alerts[..i]
    {
      assert alerts[..i + 1] == alerts[..i] + [alerts[i]];
      r := r + [alerts[i]];
      i := i + 1;
    }
    assert alerts[..i] == alerts;
  }

  /** `for i, rec in enumerate(recs, 1): report.append(f"{i}. {rec}")` */
  method AppendNumbered(report: seq<Line>, recs: seq<Line>) returns (r: seq<Line>)
    ensures r == report + Numbered(recs, 1)
  {
    r := report;
    var i := 0;
    while i < |recs|
      invariant 0 <= i <= |recs|
      invariant r == report + Numbered(recs[..i], 1)
    {
      assert recs[..i + 1][..i] == recs[..i];
      r := r + [[Int(i + 1), Lit(". ")] + recs[i]];
      i := i + 1;
    }
    assert recs[..i] == recs;
  }

  /** One category: its title and its numbered recommendations, when there are any. */
  method AppendCategory(report: seq<Line>, c: Category, recs: seq<Line>) returns (r: seq<Line>)
    ensures r == report + CategoryBlock(c, recs)
  {
    r := report;
    if |recs| > 0 {
      r := r + [L("\n" + Title(c) + ":")];
      r := AppendNumbered(r, recs);
    }
  }

  /** The insights section, when there are insights. */
  method AppendInsightsSection(report: seq<Line>, insights: seq<Line>) returns (r: seq<Line>)
    ensures r == report + InsightsSection(insights)
  {
    r := report;
    if |insights| > 0 {
      r := r + Banner("INSIGHTS");
      r := AppendBulleted(r, insights);
      r := r + [L("")];
      AppendAssociative(report, Banner("INSIGHTS") + Bulleted(insights), [L("")]);
      AppendAssociative(report, Banner("INSIGHTS"), Bulleted(insights));
    } else {
      assert r == report + [];
    }
  }

  /** The alerts section, when there are alerts. */
  method AppendAlertsSection(report: seq<Line>, alerts: seq<Line>) returns (r: seq<Line>)
    ensures r == report + AlertsSection(alerts)
  {
    r := report;
    if |alerts| > 0 {
      r := r + Banner("ALERTS");
      r := AppendAlerts(r, alerts);
      r := r + [L("")];
      AppendAssociative(report, Banner("ALERTS") + alerts, [L("")]);
      AppendAssociative(report, Banner("ALERTS"), alerts);
    } else {
      assert r == report + [];
    }
  }

  // ----- what the report promises -----

  /** Without data the text is the single no-data message. */
  lemma NoDataText(edition: Edition, advice: Advice)
    ensures HealthReportText(edition, [], advice) == S(NoData)
  {
  }

  /** With data the text opens and closes with a line of 80 '=' characters. */
  lemma FramedByRules(edition: Edition, recent: seq<Day>, advice: Advice)
    requires |recent| > 0
    ensures Rule() <= HealthReportText(edition, recent, advice)
    ensures EndsWith(HealthReportText(edition, recent, advice), Rule())
    ensures Rule() == [Lit(Repeat('=', 80))] && |Repeat('=', 80)| == 80
  {
    var lines := HealthReport(edition, recent, advice);
    assert lines[0] == Rule();
    assert lines[|lines| - 1] == Rule();
    JoinStartsWithFirst(lines, "\n");
    JoinEndsWithLast(lines, "\n");
  }

  /** Each insight appears once, bulleted, in order, between the section banner and a
      blank line; without insights there is no section at all. */
  lemma InsightsShape(insights: seq<Line>)
    ensures InsightsSection(insights) == [] <==> |insights| == 0
    ensures |insights| > 0 ==>
      |InsightsSection(insights)| == |insights| + 4
      && InsightsSection(insights)[..3] == Banner("INSIGHTS")
      && (forall i :: 0 <= i < |insights| ==> InsightsSection(insights)[3 + i] == [Lit("• ")] + insights[i])
      && InsightsSection(insights)[|insights| + 3] == L("")
  {
    BulletedAt(insights);
  }

  lemma {:induction false} BulletedAt(insights: seq<Line>)
    ensures |Bulleted(insights)| == |insights|
    ensures forall i :: 0 <= i < |insights| ==> Bulleted(insights)[i] == [Lit("• ")] + insights[i]
  {
    if |insights| > 0 {
      BulletedAt(insights[..|insights| - 1]);
    }
  }

  /** Each alert appears verbatim, in order, after the section banner; without alerts
      there is no section at all. */
  lemma AlertsShape(alerts: seq<Line>)
    ensures AlertsSection(alerts) == [] <==> |alerts| == 0
    ensures |alerts| > 0 ==>
      |AlertsSection(alerts)| == |alerts| + 4
      && AlertsSection(alerts)[..3] == Banner("ALERTS")
      && AlertsSection(alerts)[3..|alerts| + 3] == alerts
  {
    if |alerts| > 0 {
      var s := AlertsSection(alerts);
      assert s == Banner("ALERTS") + alerts + [L("")];
      assert s[3..|alerts| + 3] == alerts;
    }
  }

  /** The recommendations of a category are numbered 1, 2, ... in order. */
  lemma {:induction false} NumberedFromOne(recs: seq<Line>, first: int)
    ensures |Numbered(recs, first)| == |recs|
    ensures forall i :: 0 <= i < |recs| ==> Numbered(recs, first)[i] == [Int(first + i), Lit(". ")] + recs[i]
  {
    if |recs| > 0 {
      NumberedFromOne(recs[..|recs| - 1], first);
    }
  }

  /** A category appears exactly when it has recommendations: its title, then its
      recommendations numbered from 1. */
  lemma CategoryShape(c: Category, recs: seq<Line>)
    ensures CategoryBlock(c, recs) == [] <==> |recs| == 0
    ensures |recs| > 0 ==>
      |CategoryBlock(c, recs)| == |recs| + 1
      && CategoryBlock(c, recs)[0] == L("\n" + Title(c) + ":")
      && forall i :: 0 <= i < |recs| ==> CategoryBlock(c, recs)[i + 1] == [Int(i + 1), Lit(". ")] + recs[i]
  {
    NumberedFromOne(recs, 1);
  }

  /** The recommendations section is there exactly when some category is non-empty, and
      lists sleep, activity, recovery and general in that order. */
  lemma CategoryOrder(advice: Advice)
    ensures RecommendationsSection(advice) == [] <==> !AnyRecommendation(advice)
    ensures AnyRecommendation(advice) ==>
      (RecommendationsSection(advice) ==
         Banner("RECOMMENDATIONS") + CategoryBlock(SleepCategory, advice.sleep)
         + CategoryBlock(ActivityCategory, advice.activity) + CategoryBlock(RecoveryCategory, advice.recovery)
         + CategoryBlock(GeneralCategory, advice.general) + [L("")])
  {
    var cs, ca := CategoryBlock(SleepCategory, advice.sleep), CategoryBlock(ActivityCategory, advice.activity);
    var cr, cg := CategoryBlock(RecoveryCategory, advice.recovery), CategoryBlock(GeneralCategory, advice.general);
    var c1, c2, c3 := [SleepCategory], [SleepCategory, ActivityCategory], [SleepCategory, ActivityCategory, RecoveryCategory];
    assert c1[..0] == [] && c2[..1] == c1 && c3[..2] == c2 && Categories[..3] == c3;
    assert Blocks(advice, c1) == [] + cs;
    assert [] + cs == cs;
    assert Blocks(advice, c2) == cs + ca;
    assert Blocks(advice, c3) == cs + ca + cr;
    assert Blocks(advice, Categories) == cs + ca + cr + cg;
    var banner := Banner("RECOMMENDATIONS");
    AppendAssociative(banner, cs + ca + cr, cg);
    AppendAssociative(banner, cs + ca, cr);
    AppendAssociative(banner, cs, ca);
  }

  /** The arrow points up exactly for a positive trend. */
  lemma ArrowRule(heading: string, x: real)
    ensures TrendLine(heading, x)[2] == Lit("↑") <==> x > 0.0
    ensures TrendLine(heading, x)[2] == Lit("↓") <==> x <= 0.0
  {
  }

  /** The trend lines are exactly those of the table's present keys, in table order. */
  lemma {:induction false} TrendLinesPresent(row: Row, table: seq<(Column, string)>)
    ensures |TrendLines(row, table)| <= |table|
    ensures forall line :: line in TrendLines(row, table) <==>
      exists j :: 0 <= j < |table| && table[j].0 in row && line == TrendLine(table[j].1, row[table[j].0])
  {
    if |table| > 0 {
      var init := table[..|table| - 1];
      TrendLinesPresent(row, init);
      forall line | line in TrendLines(row, table)
        ensures exists j :: 0 <= j < |table| && table[j].0 in row && line == TrendLine(table[j].1, row[table[j].0])
      {
        if line in TrendLines(row, init) {
          var j :| 0 <= j < |init| && init[j].0 in row && line == TrendLine(init[j].1, row[init[j].0]);
          assert table[j] == init[j];
        }
      }
      forall line | exists j :: 0 <= j < |table| && table[j].0 in row && line == TrendLine(table[j].1, row[table[j].0])
        ensures line in TrendLines(row, table)
      {
        var j :| 0 <= j < |table| && table[j].0 in row && line == TrendLine(table[j].1, row[table[j].0]);
        if j < |table| - 1 {
          assert init[j] == table[j];
        }
      }
    }
  }

  /** A present steps value is shown through `int(...)`, with `/100` after it in the
      modular report and nothing after it in main.py's. */
  lemma StepsUnits(row: Row)
    requires Steps in row
    ensures StatusLine(Modular, Steps, "Steps", row[Steps]) in StatusLines(row, Modular, StatusTable)
    ensures StatusLine(Full, Steps, "Steps", row[Steps]) in StatusLines(row, Full, StatusTable)
    ensures StatusLine(Modular, Steps, "Steps", row[Steps]) == [Lit("Steps"), Lit(": "), Value(row[Steps], Truncated), Lit("/100")]
    ensures StatusLine(Full, Steps, "Steps", row[Steps]) == [Lit("Steps"), Lit(": "), Value(row[Steps], Truncated), Lit("")]
  {
    StatusPrefix(row, Modular);
    StatusPrefix(row, Full);
  }

  lemma StatusPrefix(row: Row, edition: Edition)
    ensures StatusLines(row, edition, StatusTable[..4]) <= StatusLines(row, edition, StatusTable)
    ensures Steps in row ==> StatusLine(edition, Steps, "Steps", row[Steps]) in StatusLines(row, edition, StatusTable[..4])
  {
    assert StatusTable[..4][..3] == StatusTable[..3];
    assert StatusTable[..5][..4] == StatusTable[..4];
    assert StatusTable[..6] == StatusTable;
    assert StatusTable[..6][..5] == StatusTable[..5];
  }

  /** Without steps and calories in the latest row the two programs print the same
      report. */
  lemma EditionsAgree(recent: seq<Day>, advice: Advice)
    requires |recent| > 0
    requires Steps !in recent[|recent| - 1].metrics && TotalCalories !in recent[|recent| - 1].metrics
    ensures HealthReport(Modular, recent, advice) == HealthReport(Full, recent, advice)
  {
    StatusAgree(recent[|recent| - 1].metrics, StatusTable);
  }

  lemma {:induction false} StatusAgree(row: Row, table: seq<(Column, string)>)
    requires Steps !in row && TotalCalories !in row
    ensures StatusLines(row, Modular, table) == StatusLines(row, Full, table)
  {
    if |table| > 0 {
      StatusAgree(row, table[..|table| - 1]);
    }
  }
}
