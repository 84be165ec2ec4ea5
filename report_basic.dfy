/** `generate_health_report` of `src/report_generator.py`: the status, the
    recommendation categories and the trends are each written by a loop over a table. */
module ReportBasic {
  import opened Text
  import opened Wording
  import opened Rows
  import opened ReportParts

  /** `for key, label in metrics.items()`: a line for each present status value. */
  method AppendStatus(report: seq<Line>, row: Row) returns (r: seq<Line>)
    ensures r == report + StatusLines(row, Modular, StatusTable)
  {
    r := report;
    var i := 0;
    while i < |StatusTable|
      invariant 0 <= i <= |StatusTable|
      invariant r == report + StatusLines(row, Modular, StatusTable[..i])
    {
      var (key, heading) := StatusTable[i];
      assert StatusTable[..i + 1][..i] == StatusTable[..i];
      if key in row {
        var value := if key == Steps || key == TotalCalories then Value(row[key], Truncated) else Value(row[key], AsIs);
        var unit := if key == Spo2Percentage then "%" else "/100";
        r := r + [[Lit(heading), Lit(": "), value, Lit(unit)]];
      }
      AppendAssociative(report, StatusLines(row, Modular, StatusTable[..i]),
        if key in row then [StatusLine(Modular, key, heading, row[key])] else []);
      i := i + 1;
    }
    assert StatusTable[..i] == StatusTable;
  }

  /** `for section, title in [...]`: the categories in order, each when non-empty. */
  method AppendBlocks(report: seq<Line>, advice: Advice) returns (r: seq<Line>)
    ensures r == report + Blocks(advice, Categories)
  {
    r := report;
    var i := 0;
    while i < |Categories|
      invariant 0 <= i <= |Categories|
      invariant r == report + Blocks(advice, Categories[..i])
    {
      var c := Categories[i];
      assert Categories[..i + 1][..i] == Categories[..i];
      r := AppendCategory(r, c, Recommendations(advice, c));
      AppendAssociative(report, Blocks(advice, Categories[..i]), CategoryBlock(c, Recommendations(advice, c)));
      i := i + 1;
    }
    assert Categories[..i] == Categories;
  }

  /** The recommendations section, when some category is non-empty. */
  method AppendRecommendationsSection(report: seq<Line>, advice: Advice) returns (r: seq<Line>)
    ensures r == report + RecommendationsSection(advice)
  {
    r := report;
    if AnyRecommendation(advice) {
      r := r + Banner("RECOMMENDATIONS");
      r := AppendBlocks(r, advice);
      r := r + [L("")];
      AppendAssociative(report, Banner("RECOMMENDATIONS") + Blocks(advice, Categories), [L("")]);
      AppendAssociative(report, Banner("RECOMMENDATIONS"), Blocks(advice, Categories));
    } else {
      assert r == report + [];
    }
  }

  /** `for key, label in trends.items()`: a line for each present trend. */
  method AppendTrends(report: seq<Line>, row: Row) returns (r: seq<Line>)
    ensures r == report + TrendLines(row, TrendTable)
  {
    r := report;
    var i := 0;
    while i < |TrendTable|
      invariant 0 <= i <= |TrendTable|
      invariant r == report + TrendLines(row, TrendTable[..i])
    {
      var (key, heading) := TrendTable[i];
      assert TrendTable[..i + 1][..i] == TrendTable[..i];
      if key in row {
        var arrow := if row[key] > 0.0 then "↑" else "↓";
        r := r + [[Lit(heading), Lit(": "), Lit(arrow), Lit(" "), Value(row[key], AbsRounded), Lit("% compared to your baseline")]];
      }
      AppendAssociative(report, TrendLines(row, TrendTable[..i]),
        if key in row then [TrendLine(heading, row[key])] else []);
      i := i + 1;
    }
    assert TrendTable[..i] == TrendTable;
  }

  /** `generate_health_report`: the no-data message, or the report's lines joined by
      newlines. */
  method GenerateHealthReport(recent: seq<Day>, advice: Advice) returns (text: Line)
    ensures text == HealthReportText(Modular, recent, advice)
  {
    if |recent| == 0 {
      return S(NoData);
    }
    var latest := recent[|recent| - 1];
    var report := [Rule(), S(ReportTitle), Rule(), [Lit("Report Date: "), Value(latest.date as real, IsoDate)], L("")];
    report := report + Banner("CURRENT STATUS");
    report := AppendStatus(report, latest.metrics);
    report := report + [L("")];
    report := AppendInsightsSection(report, advice.insights);
    report := AppendAlertsSection(report, advice.alerts);
    report := AppendRecommendationsSection(report, advice);
    report := report + Banner("WEEKLY TRENDS");
    report := AppendTrends(report, latest.metrics);
    report := report + [L(""), Rule(), S(Disclaimer), S(ConsultProfessionals), Rule()];
    text := Join(report, "\n");
  }
}
