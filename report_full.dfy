/** `generate_health_report` of main.py: the same report, with each status value, each
    category and each trend written out in turn, and no unit after steps and calories. */
module ReportFull {
  import opened Text
  import opened Wording
  import opened Rows
  import opened ReportParts

  /** Six status values in turn: readiness, sleep, activity, steps, calories, oxygen. */
  method AppendStatus(report: seq<Line>, row: Row) returns (r: seq<Line>)
    ensures r == report + StatusLines(row, Full, StatusTable)
  {
    r := AppendScoreStatus(report, row);
    r := AppendCountStatus(report, row, r);
  }

  /** The three scores. */
  method AppendScoreStatus(report: seq<Line>, row: Row) returns (r: seq<Line>)
    ensures r == report + StatusLines(row, Full, StatusTable[..3])
  {
    r := report;
    StatusEntries();
    assert StatusTable[..0] == [] && r == report + [];
    if Score in row {
      r := r + [[Lit("Readiness Score"), Lit(": "), Value(row[Score], AsIs), Lit("/100")]];
    }
    StatusStep(report, row, 0, Score, "Readiness Score", r);
    if ScoreSleep in row {
      r := r + [[Lit("Sleep Score"), Lit(": "), Value(row[ScoreSleep], AsIs), Lit("/100")]];
    }
    StatusStep(report, row, 1, ScoreSleep, "Sleep Score", r);
    if ScoreActivity in row {
      r := r + [[Lit("Activity Score"), Lit(": "), Value(row[ScoreActivity], AsIs), Lit("/100")]];
    }
    StatusStep(report, row, 2, ScoreActivity, "Activity Score", r);
  }

  /** Steps, calories and blood oxygen, after the scores. */
  method AppendCountStatus(report: seq<Line>, row: Row, scores: seq<Line>) returns (r: seq<Line>)
    requires scores == report + StatusLines(row, Full, StatusTable[..3])
    ensures r == report + StatusLines(row, Full, StatusTable)
  {
    r := scores;
    StatusEntries();
    if Steps in row {
      r := r + [[Lit("Steps"), Lit(": "), Value(row[Steps], Truncated), Lit("")]];
    }
    StatusStep(report, row, 3, Steps, "Steps", r);
    if TotalCalories in row {
      r := r + [[Lit("Total Calories"), Lit(": "), Value(row[TotalCalories], Truncated), Lit("")]];
    }
    StatusStep(report, row, 4, TotalCalories, "Total Calories", r);
    if Spo2Percentage in row {
      r := r + [[Lit("Blood Oxygen"), Lit(": "), Value(row[Spo2Percentage], AsIs), Lit("%")]];
    }
    StatusStep(report, row, 5, Spo2Percentage, "Blood Oxygen", r);
    assert StatusTable[..6] == StatusTable;
  }

  /** After the status value at position k, the report holds the lines of the first k + 1. */
  lemma StatusStep(report: seq<Line>, row: Row, k: nat, key: Column, heading: string, r: seq<Line>)
    requires k < |StatusTable| && StatusTable[k] == (key, heading)
    requires r == report + StatusLines(row, Full, StatusTable[..k]) + (if key in row then [StatusLine(Full, key, heading, row[key])] else [])
    ensures r == report + StatusLines(row, Full, StatusTable[..k + 1])
  {
    assert StatusTable[..k + 1][..k] == StatusTable[..k];
    AppendAssociative(report, StatusLines(row, Full, StatusTable[..k]),
      if key in row then [StatusLine(Full, key, heading, row[key])] else []);
  }

  lemma StatusEntries()
    ensures StatusTable[0] == (Score, "Readiness Score") && StatusTable[1] == (ScoreSleep, "Sleep Score")
    ensures StatusTable[2] == (ScoreActivity, "Activity Score") && StatusTable[3] == (Steps, "Steps")
    ensures StatusTable[4] == (TotalCalories, "Total Calories") && StatusTable[5] == (Spo2Percentage, "Blood Oxygen")
  {
  }

  /** Four trends in turn: readiness, sleep, activity, HRV balance. */
  method AppendTrends(report: seq<Line>, row: Row) returns (r: seq<Line>)
    ensures r == report + TrendLines(row, TrendTable)
  {
    r := report;
    assert TrendTable[..0] == [] && r == report + [];
    if ReadinessTrend in row {
      var arrow := if row[ReadinessTrend] > 0.0 then "↑" else "↓";
      r := r + [[Lit("Readiness"), Lit(": "), Lit(arrow), Lit(" "), Value(row[ReadinessTrend], AbsRounded), Lit("% compared to your baseline")]];
    }
    TrendStep(report, row, 0, r);
    if SleepTrend in row {
      var arrow := if row[SleepTrend] > 0.0 then "↑" else "↓";
      r := r + [[Lit("Sleep"), Lit(": "), Lit(arrow), Lit(" "), Value(row[SleepTrend], AbsRounded), Lit("% compared to your baseline")]];
    }
    TrendStep(report, row, 1, r);
    if ActivityTrend in row {
      var arrow := if row[ActivityTrend] > 0.0 then "↑" else "↓";
      r := r + [[Lit("Activity"), Lit(": "), Lit(arrow), Lit(" "), Value(row[ActivityTrend], AbsRounded), Lit("% compared to your baseline")]];
    }
    TrendStep(report, row, 2, r);
    if HrvTrend in row {
      var arrow := if row[HrvTrend] > 0.0 then "↑" else "↓";
      r := r + [[Lit("HRV Balance"), Lit(": "), Lit(arrow), Lit(" "), Value(row[HrvTrend], AbsRounded), Lit("% compared to your baseline")]];
    }
    TrendStep(report, row, 3, r);
    assert TrendTable[..4] == TrendTable;
  }

  /** After the trend at position k, the report holds the lines of the first k + 1. */
  lemma TrendStep(report: seq<Line>, row: Row, k: nat, r: seq<Line>)
    requires k < |TrendTable|
    requires var (key, heading) := TrendTable[k];
      r == report + TrendLines(row, TrendTable[..k]) + (if key in row then [TrendLine(heading, row[key])] else [])
    ensures r == report + TrendLines(row, TrendTable[..k + 1])
  {
    var (key, heading) := TrendTable[k];
    assert TrendTable[..k + 1][..k] == TrendTable[..k];
    AppendAssociative(report, TrendLines(row, TrendTable[..k]),
      if key in row then [TrendLine(heading, row[key])] else []);
  }

  /** The recommendations section, when some category is non-empty: sleep, activity,
      recovery and general in turn. */
  method AppendRecommendationsSection(report: seq<Line>, advice: Advice) returns (r: seq<Line>)
    ensures r == report + RecommendationsSection(advice)
  {
    r := report;
    if AnyRecommendation(advice) {
      r := r + Banner("RECOMMENDATIONS");
      r := AppendCategory(r, SleepCategory, advice.sleep);
      r := AppendCategory(r, ActivityCategory, advice.activity);
      r := AppendCategory(r, RecoveryCategory, advice.recovery);
      r := AppendCategory(r, GeneralCategory, advice.general);
      r := r + [L("")];
      CategoryOrder(advice);
      var banner := Banner("RECOMMENDATIONS");
      var cs, ca := CategoryBlock(SleepCategory, advice.sleep), CategoryBlock(ActivityCategory, advice.activity);
      var cr, cg := CategoryBlock(RecoveryCategory, advice.recovery), CategoryBlock(GeneralCategory, advice.general);
      AppendAssociative(report, banner, cs);
      AppendAssociative(report, banner + cs, ca);
      AppendAssociative(report, banner + cs + ca, cr);
      AppendAssociative(report, banner + cs + ca + cr, cg);
      AppendAssociative(report, banner + cs + ca + cr + cg, [L("")]);
    } else {
      CategoryOrder(advice);
      assert r == report + [];
    }
  }

  /** `generate_health_report`: the no-data message, or the report's lines joined by
      newlines. */
  method GenerateHealthReport(recent: seq<Day>, advice: Advice) returns (text: Line)
    ensures text == HealthReportText(Full, recent, advice)
  {
    if |recent| == 0 {
      return S(NoData);
    }
    var latest := recent[|recent| - 1];
    var report := [];
    report := report + [Rule()];
    report := report + [S(ReportTitle)];
    report := report + [Rule()];
    report := report + [[Lit("Report Date: "), Value(latest.date as real, IsoDate)]];
    report := report + [L("")];
    assert report == Header(latest.date);
    report := report + Banner("CURRENT STATUS");
    report := AppendStatus(report, latest.metrics);
    report := report + [L("")];
    report := AppendInsightsSection(report, advice.insights);
    report := AppendAlertsSection(report, advice.alerts);
    report := AppendRecommendationsSection(report, advice);
    report := report + Banner("WEEKLY TRENDS");
    report := AppendTrends(report, latest.metrics);
    report := report + [L(""), Rule(), S(Disclaimer), S(ConsultProfessionals), Rule()];
    text := Join(report, "\n");
  }
}
