/** The rule engine of the modular program: threshold and band rules over the latest
    day of the recent table. */
module EngineBasic {
  import opened Wording
  import opened Text
  import opened Rows
  import opened Messages

  /** A contributor column and the advice phrases given when it is below 70. */
  datatype Contributor = Contributor(key: Column, advice: seq<Phrase>)

  const SleepContributors: seq<Contributor> := [
    Contributor(DeepSleep, [AvoidAlcohol, WarmBath]),
    Contributor(RemSleep, [StressReduction, NoDevices]),
    Contributor(SleepEfficiency, [CoolBedroom, BlackoutCurtains]),
    Contributor(Latency, [MuscleRelaxation, NoLargeMeals]),
    Contributor(Timing, [SameWindow])]

  const RecoveryContributors: seq<Contributor> := [
    Contributor(HrvBalance, [BoxBreathing, Mindfulness]),
    Contributor(RecoveryIndex, [AdequateRest, FoamRolling]),
    Contributor(RestingHeartRate, [HeartRateIsElevated, Electrolytes]),
    Contributor(BodyTemperature, [TemperatureIsElevated, IllnessSigns])]

  /** How a phrase becomes a recommendation: `f"To improve {key.split('_')[1]} sleep: {adv}"`
      for sleep, `f"{adv.capitalize()}."` for recovery. */
  datatype Phrasing = ImproveSleep | Capitalised

  /** The second `_`-separated segment of a key (every key of the tables has one). */
  function Segment(key: string): string {
    var parts := Split(key, '_');
    if |parts| > 1 then parts[1] else ""
  }

  function Tip(phrasing: Phrasing, key: Column, adv: Phrase): Line {
    match phrasing
    case ImproveSleep => [Lit("To improve " + Segment(Name(key)) + " sleep: "), Said(adv)]
    case Capitalised => [Sentence(adv)]
  }

  /** `[... for adv in advice]`: one tip per phrase of a contributor. */
  function Phrased(c: Contributor, phrasing: Phrasing): seq<Line> {
    seq(|c.advice|, j requires 0 <= j < |c.advice| => Tip(phrasing, c.key, c.advice[j]))
  }

  lemma PhrasedAt(c: Contributor, phrasing: Phrasing)
    ensures |Phrased(c, phrasing)| == |c.advice|
    ensures forall j :: 0 <= j < |c.advice| ==> Phrased(c, phrasing)[j] == Tip(phrasing, c.key, c.advice[j])
  {
  }

  /** The tips of one contributor: all of them when it is below 70, else none. */
  function TipsFor(row: Row, c: Contributor, phrasing: Phrasing): seq<Line> {
    if Below(row, c.key, 70.0) then Phrased(c, phrasing) else []
  }

  /** The tips of a contributor table, in table order. */
  function Tips(row: Row, table: seq<Contributor>, phrasing: Phrasing): seq<Line> {
    if |table| == 0 then []
    else Tips(row, table[..|table| - 1], phrasing) + TipsFor(row, table[|table| - 1], phrasing)
  }

  lemma TipsStep(row: Row, table: seq<Contributor>, i: nat, phrasing: Phrasing)
    requires i < |table|
    ensures Tips(row, table[..i + 1], phrasing) == Tips(row, table[..i], phrasing) + TipsFor(row, table[i], phrasing)
  {
    assert table[..i + 1][..i] == table[..i];
  }

  /** Every phrase of every contributor below 70 is given. */
  lemma {:induction false} TipsComplete(row: Row, table: seq<Contributor>, phrasing: Phrasing)
    ensures forall i, j :: 0 <= i < |table| && 0 <= j < |table[i].advice| && Below(row, table[i].key, 70.0) ==>
      Tip(phrasing, table[i].key, table[i].advice[j]) in Tips(row, table, phrasing)
  {
    if |table| > 0 {
      var init := table[..|table| - 1];
      var c := table[|table| - 1];
      TipsComplete(row, init, phrasing);
      PhrasedAt(c, phrasing);
      forall i, j | 0 <= i < |table| && 0 <= j < |table[i].advice| && Below(row, table[i].key, 70.0)
        ensures Tip(phrasing, table[i].key, table[i].advice[j]) in Tips(row, table, phrasing)
      {
        if i < |table| - 1 {
          assert table[i] == init[i];
        } else {
          assert TipsFor(row, c, phrasing)[j] == Tip(phrasing, table[i].key, table[i].advice[j]);
        }
      }
    }
  }

  /** Every tip given is a phrase of a contributor below 70. */
  lemma {:induction false} TipsSound(row: Row, table: seq<Contributor>, phrasing: Phrasing)
    ensures forall t :: t in Tips(row, table, phrasing) ==>
      exists i, j :: (0 <= i < |table| && 0 <= j < |table[i].advice| && Below(row, table[i].key, 70.0)
        && t == Tip(phrasing, table[i].key, table[i].advice[j]))
  {
    if |table| > 0 {
      var init := table[..|table| - 1];
      var c := table[|table| - 1];
      TipsSound(row, init, phrasing);
      PhrasedAt(c, phrasing);
      forall t | t in Tips(row, table, phrasing)
        ensures exists i, j :: (0 <= i < |table| && 0 <= j < |table[i].advice| && Below(row, table[i].key, 70.0)
          && t == Tip(phrasing, table[i].key, table[i].advice[j]))
      {
        if t in Tips(row, init, phrasing) {
          var i, j :| 0 <= i < |init| && 0 <= j < |init[i].advice| && Below(row, init[i].key, 70.0)
            && t == Tip(phrasing, init[i].key, init[i].advice[j]);
          assert table[i] == init[i];
        } else {
          var tips := TipsFor(row, c, phrasing);
          var j :| 0 <= j < |tips| && tips[j] == t;
          assert t == Tip(phrasing, table[|table| - 1].key, table[|table| - 1].advice[j]);
        }
      }
    }
  }

  /* The sleep tips name the contributor by the second `_`-separated segment of its
     column: deep, rem, efficiency, latency and timing. */

  lemma DeepLabel()
    ensures Segment(Name(SleepContributors[0].key)) == "deep"
  {
    assert Name(DeepSleep) == "contributors" + "_" + "deep" + "_sleep";
    SegmentOf("contributors", "deep", "_sleep");
  }

  lemma RemLabel()
    ensures Segment(Name(SleepContributors[1].key)) == "rem"
  {
    assert Name(RemSleep) == "contributors" + "_" + "rem" + "_sleep";
    SegmentOf("contributors", "rem", "_sleep");
  }

  lemma EfficiencyLabel()
    ensures Segment(Name(SleepContributors[2].key)) == "efficiency"
  {
    assert Name(SleepEfficiency) == "contributors" + "_" + "efficiency" + "";
    SegmentOf("contributors", "efficiency", "");
  }

  lemma LatencyLabel()
    ensures Segment(Name(SleepContributors[3].key)) == "latency"
  {
    assert Name(Latency) == "contributors" + "_" + "latency" + "";
    SegmentOf("contributors", "latency", "");
  }

  lemma TimingLabel()
    ensures Segment(Name(SleepContributors[4].key)) == "timing"
  {
    assert Name(Timing) == "contributors" + "_" + "timing" + "";
    SegmentOf("contributors", "timing", "");
  }

  lemma SegmentOf(a: string, b: string, rest: string)
    requires '_' !in a && '_' !in b
    requires rest == "" || rest[0] == '_'
    ensures Segment(a + "_" + b + rest) == b
  {
    SplitAtFirst(a, '_', b + rest);
    assert a + "_" + b + rest == a + ['_'] + (b + rest);
    if rest == "" {
      SplitWithout(b, '_');
      assert b + rest == b;
    } else {
      SplitAtFirst(b, '_', rest[1..]);
      assert b + rest == b + ['_'] + rest[1..];
    }
  }

  // ----- the lists, each in the order the rules append to it -----

  function SleepRecommendations(row: Row): seq<Line> {
    When(Below(row, ScoreSleep, 60.0), SleepBase + Tips(row, SleepContributors, ImproveSleep))
    + When(ScoreSleep in row && Below(row, SleepTrend, -10.0), [S(SleepDeclining)])
  }

  function RecoveryRecommendations(row: Row): seq<Line> {
    When(Below(row, Score, 60.0), RecoveryBase + Tips(row, RecoveryContributors, Capitalised))
    + When(Score in row && Below(row, ReadinessTrend, -15.0), [S(ReadinessDeclining)])
  }

  function ActivityRecommendations(row: Row): seq<Line> {
    When(Below(row, ScoreActivity, 60.0),
      ActivityBase + (if Below(row, Steps, 5000.0) then [StepsAdvice(row[Steps])] else []))
  }

  function GeneralRecommendations(row: Row): seq<Line> {
    When(Below(row, Score, 70.0), [S(Hydration)])
  }

  /** The sleep decline alert, given with a present sleep score and a sleep trend below
      -10. */
  function SleepDeclineAlerts(row: Row): seq<Line> {
    if ScoreSleep in row && Below(row, SleepTrend, -10.0) then [SleepDeclineAlert(row[SleepTrend])] else []
  }

  /** The readiness decline alert, given with a present readiness score and a readiness
      trend below -15. */
  function ReadinessDeclineAlerts(row: Row): seq<Line> {
    if Score in row && Below(row, ReadinessTrend, -15.0) then [ReadinessDeclineAlert(row[ReadinessTrend])] else []
  }

  function OxygenAlerts(row: Row): seq<Line> {
    if Below(row, Spo2Percentage, 95.0) then [Spo2Alert(row[Spo2Percentage])] else []
  }

  /** The alerts in the order they are raised. */
  function Alerts(row: Row): seq<Line> {
    SleepDeclineAlerts(row) + ReadinessDeclineAlerts(row) + OxygenAlerts(row)
  }

  function SleepInsights(row: Row): seq<Line> {
    if ScoreSleep in row then [SleepInsight(row[ScoreSleep])] else []
  }

  function ReadinessInsights(row: Row): seq<Line> {
    if Score in row then [ReadinessInsight(row[Score])] else []
  }

  function ActivityInsights(row: Row): seq<Line> {
    if ScoreActivity in row then [ActivityInsight(row[ScoreActivity])] else []
  }

  function OxygenInsights(row: Row): seq<Line> {
    if Spo2Percentage in row && row[Spo2Percentage] >= 95.0 then [Spo2Insight(row[Spo2Percentage])] else []
  }

  function HrvInsights(row: Row): seq<Line> {
    if HrvBalance in row then [HrvInsight(row[HrvBalance])] else []
  }

  /** The insights in the order they are given. */
  function Insights(row: Row): seq<Line> {
    SleepInsights(row) + ReadinessInsights(row) + ActivityInsights(row) + OxygenInsights(row) + HrvInsights(row)
  }

  /** The advice for the recent table: nothing at all without data, otherwise the
      advice for its last row. */
  function Recommend(recent: seq<Day>): (r: Advice)
    ensures |recent| == 0 ==> r == NoAdvice
  {
    if |recent| == 0 then NoAdvice
    else
      var row := recent[|recent| - 1].metrics;
      Advice(SleepRecommendations(row), ActivityRecommendations(row), RecoveryRecommendations(row),
             GeneralRecommendations(row), Alerts(row), Insights(row))
  }

  // ----- the engine as the source writes it -----

  /** The sleep section: the sleep insight, the sleep recommendations and the sleep
      decline alert, all only when the sleep score is present. */
  method SleepSection(latest: Row) returns (sleep: seq<Line>, alerts: seq<Line>, insights: seq<Line>)
    ensures sleep == SleepRecommendations(latest)
    ensures alerts == SleepDeclineAlerts(latest)
    ensures insights == SleepInsights(latest)
  {
    sleep, alerts, insights := [], [], [];
    if ScoreSleep in latest {
      var score := latest[ScoreSleep];
      insights := insights + [SleepInsight(score)];
      if score < 60.0 {
        sleep := sleep + [SleepBase[0]];
        sleep := sleep + [SleepBase[1]];
        assert sleep == SleepBase;
        sleep := ExtendTips(sleep, latest, SleepContributors, ImproveSleep);
      }
      if SleepTrend in latest && latest[SleepTrend] < -10.0 {
        alerts := alerts + [SleepDeclineAlert(latest[SleepTrend])];
        sleep := sleep + [S(SleepDeclining)];
      }
    }
  }

  /** The readiness and recovery section: the readiness insight, the recovery
      recommendations and the readiness decline alert, appended to what came before. */
  method RecoverySection(latest: Row, alerts0: seq<Line>, insights0: seq<Line>)
    returns (recovery: seq<Line>, alerts: seq<Line>, insights: seq<Line>)
    ensures recovery == RecoveryRecommendations(latest)
    ensures alerts == alerts0 + ReadinessDeclineAlerts(latest)
    ensures insights == insights0 + ReadinessInsights(latest)
  {
    recovery, alerts, insights := [], alerts0, insights0;
    if Score in latest {
      var score := latest[Score];
      insights := insights + [ReadinessInsight(score)];
      if score < 60.0 {
        recovery := recovery + RecoveryBase;
        recovery := ExtendTips(recovery, latest, RecoveryContributors, Capitalised);
      }
      if ReadinessTrend in latest && latest[ReadinessTrend] < -15.0 {
        alerts := alerts + [ReadinessDeclineAlert(latest[ReadinessTrend])];
        recovery := recovery + [S(ReadinessDeclining)];
      }
    }
  }

  /** The activity section: the activity insight, appended to what came before, and the
      activity recommendations. */
  method ActivitySection(latest: Row, insights0: seq<Line>) returns (activity: seq<Line>, insights: seq<Line>)
    ensures activity == ActivityRecommendations(latest)
    ensures insights == insights0 + ActivityInsights(latest)
  {
    activity, insights := [], insights0;
    if ScoreActivity in latest {
      var score := latest[ScoreActivity];
      insights := insights + [ActivityInsight(score)];
      if score < 60.0 {
        activity := activity + ActivityBase;
        if Steps in latest && latest[Steps] < 5000.0 {
          activity := activity + [StepsAdvice(latest[Steps])];
        }
      }
    }
  }

  /** The closing checks: the blood oxygen alert or insight, the HRV insight and the
      hydration recommendation. */
  method VitalsSection(latest: Row, alerts0: seq<Line>, insights0: seq<Line>)
    returns (general: seq<Line>, alerts: seq<Line>, insights: seq<Line>)
    ensures general == GeneralRecommendations(latest)
    ensures alerts == alerts0 + OxygenAlerts(latest)
    ensures insights == insights0 + OxygenInsights(latest) + HrvInsights(latest)
  {
    general, alerts, insights := [], alerts0, insights0;
    if Spo2Percentage in latest {
      if latest[Spo2Percentage] < 95.0 {
        alerts := alerts + [Spo2Alert(latest[Spo2Percentage])];
      } else {
        insights := insights + [Spo2Insight(latest[Spo2Percentage])];
      }
    }
    if HrvBalance in latest {
      insights := insights + [HrvInsight(latest[HrvBalance])];
    }
    if Score in latest && latest[Score] < 70.0 {
      general := general + [S(Hydration)];
    }
  }

  /** `recommendations[...].extend(...)` over a contributor table. */
  method ExtendTips(recs: seq<Line>, row: Row, table: seq<Contributor>, phrasing: Phrasing) returns (r: seq<Line>)
    ensures r == recs + Tips(row, table, phrasing)
  {
    r := recs;
    for i := 0 to |table|
      invariant r == recs + Tips(row, table[..i], phrasing)
    {
      TipsStep(row, table, i, phrasing);
      if Below(row, table[i].key, 70.0) {
        AppendAssociative(recs, Tips(row, table[..i], phrasing), Phrased(table[i], phrasing));
        r := r + Phrased(table[i], phrasing);
      }
    }
    assert table[..|table|] == table;
  }

  /** `generate_recommendations`: the four sections in order over the latest row. */
  method GenerateRecommendations(recent: seq<Day>) returns (advice: Advice)
    ensures advice == Recommend(recent)
  {
    if |recent| == 0 {
      return NoAdvice;
    }
    var latest := recent[|recent| - 1].metrics;
    var sleep, alerts, insights := SleepSection(latest);
    var recovery;
    recovery, alerts, insights := RecoverySection(latest, alerts, insights);
    var activity;
    activity, insights := ActivitySection(latest, insights);

    var general;
    general, alerts, insights := VitalsSection(latest, alerts, insights);
    advice := Advice(sleep, activity, recovery, general, alerts, insights);
  }

  // ----- what the rules promise -----

  /** Every tip begins with literal text (the sleep form) or is a capitalised sentence
      (the recovery form), so it never begins with a fixed phrase. */
  lemma TipsNeverOpenWithPhrase(row: Row, table: seq<Contributor>, phrasing: Phrasing, p: Phrase)
    ensures CountOpening(Tips(row, table, phrasing), p) == 0
  {
    TipsSound(row, table, phrasing);
    NoneOpens(Tips(row, table, phrasing), p);
  }

  lemma {:induction false} NoneOpens(lines: seq<Line>, p: Phrase)
    requires forall t :: t in lines ==> !Opens(t, p)
    ensures CountOpening(lines, p) == 0
  {
    if |lines| > 0 {
      assert lines[0] in lines;
      NoneOpens(lines[1..], p);
    }
  }

  /** A sleep score below 60 gives the two base recommendations first; otherwise at most
      the decline recommendation is given. The decline recommendation appears once exactly
      when the score is present and the sleep trend is below -10. */
  lemma SleepRules(row: Row)
    ensures Below(row, ScoreSleep, 60.0) ==> SleepRecommendations(row)[..2] == SleepBase
    ensures !Below(row, ScoreSleep, 60.0) ==> |SleepRecommendations(row)| <= 1
    ensures CountOpening(SleepRecommendations(row), SleepDeclining) ==
      (if ScoreSleep in row && Below(row, SleepTrend, -10.0) then 1 else 0)
  {
    var tips := Tips(row, SleepContributors, ImproveSleep);
    TipsNeverOpenWithPhrase(row, SleepContributors, ImproveSleep, SleepDeclining);
    CountOpeningAppend(SleepBase, tips, SleepDeclining);
    CountOpeningAppend(When(Below(row, ScoreSleep, 60.0), SleepBase + tips),
      When(ScoreSleep in row && Below(row, SleepTrend, -10.0), [S(SleepDeclining)]), SleepDeclining);
  }

  /** Readiness below 60 gives the two base recovery recommendations first; the decline
      recommendation appears once exactly when readiness is present and its trend is
      below -15. */
  lemma RecoveryRules(row: Row)
    ensures Below(row, Score, 60.0) ==> RecoveryRecommendations(row)[..2] == RecoveryBase
    ensures !Below(row, Score, 60.0) ==> |RecoveryRecommendations(row)| <= 1
    ensures CountOpening(RecoveryRecommendations(row), ReadinessDeclining) ==
      (if Score in row && Below(row, ReadinessTrend, -15.0) then 1 else 0)
  {
    var tips := Tips(row, RecoveryContributors, Capitalised);
    TipsNeverOpenWithPhrase(row, RecoveryContributors, Capitalised, ReadinessDeclining);
    CountOpeningAppend(RecoveryBase, tips, ReadinessDeclining);
    CountOpeningAppend(When(Below(row, Score, 60.0), RecoveryBase + tips),
      When(Score in row && Below(row, ReadinessTrend, -15.0), [S(ReadinessDeclining)]), ReadinessDeclining);
  }

  /** Activity below 60 gives the two base recommendations, plus the step recommendation
      exactly when steps are present and below 5000; otherwise nothing. */
  lemma ActivityRules(row: Row)
    ensures Below(row, ScoreActivity, 60.0) ==> ActivityRecommendations(row)[..2] == ActivityBase
    ensures |ActivityRecommendations(row)| == 0 <==> !Below(row, ScoreActivity, 60.0)
    ensures |ActivityRecommendations(row)| == 3 <==> Below(row, ScoreActivity, 60.0) && Below(row, Steps, 5000.0)
  {
  }

  /** The insights that open with a phrase, counted part by part. */
  lemma InsightParts(row: Row, p: Phrase)
    ensures CountOpening(Insights(row), p) ==
      CountOpening(SleepInsights(row), p) + CountOpening(ReadinessInsights(row), p) +
      CountOpening(ActivityInsights(row), p) + CountOpening(OxygenInsights(row), p) +
      CountOpening(HrvInsights(row), p)
  {
    var i1, i2, i3 := SleepInsights(row), ReadinessInsights(row), ActivityInsights(row);
    var i4, i5 := OxygenInsights(row), HrvInsights(row);
    CountOpeningAppend(i1 + i2 + i3 + i4, i5, p);
    CountOpeningAppend(i1 + i2 + i3, i4, p);
    CountOpeningAppend(i1 + i2, i3, p);
    CountOpeningAppend(i1, i2, p);
  }

  /** The alerts that open with a phrase, counted part by part. */
  lemma AlertParts(row: Row, p: Phrase)
    ensures CountOpening(Alerts(row), p) ==
      CountOpening(SleepDeclineAlerts(row), p) + CountOpening(ReadinessDeclineAlerts(row), p) +
      CountOpening(OxygenAlerts(row), p)
  {
    CountOpeningAppend(SleepDeclineAlerts(row) + ReadinessDeclineAlerts(row), OxygenAlerts(row), p);
    CountOpeningAppend(SleepDeclineAlerts(row), ReadinessDeclineAlerts(row), p);
  }

  /** Every insight part counts each phrase it opens with once. */
  lemma InsightPartsOpen(row: Row)
    ensures ScoreSleep in row ==> forall p :: CountOpening(SleepInsights(row), p) == (if Opens(SleepInsight(row[ScoreSleep]), p) then 1 else 0)
    ensures Score in row ==> forall p :: CountOpening(ReadinessInsights(row), p) == (if Opens(ReadinessInsight(row[Score]), p) then 1 else 0)
    ensures ScoreActivity in row ==> forall p :: CountOpening(ActivityInsights(row), p) == (if Opens(ActivityInsight(row[ScoreActivity]), p) then 1 else 0)
    ensures Spo2Percentage in row && row[Spo2Percentage] >= 95.0 ==>
      forall p :: CountOpening(OxygenInsights(row), p) == (if Opens(Spo2Insight(row[Spo2Percentage]), p) then 1 else 0)
    ensures HrvBalance in row ==> forall p :: CountOpening(HrvInsights(row), p) == (if Opens(HrvInsight(row[HrvBalance]), p) then 1 else 0)
  {
    if ScoreSleep in row {
      CountOpeningOne(SleepInsight(row[ScoreSleep]));
    }
    if Score in row {
      CountOpeningOne(ReadinessInsight(row[Score]));
    }
    if ScoreActivity in row {
      CountOpeningOne(ActivityInsight(row[ScoreActivity]));
    }
    if Spo2Percentage in row && row[Spo2Percentage] >= 95.0 {
      CountOpeningOne(Spo2Insight(row[Spo2Percentage]));
    }
    if HrvBalance in row {
      CountOpeningOne(HrvInsight(row[HrvBalance]));
    }
  }

  /* Each present score gives exactly one insight, which names the score's band. */

  lemma OneSleepInsight(row: Row)
    ensures CountOpening(Insights(row), SleepScoreOf) == (if ScoreSleep in row then 1 else 0)
  {
    InsightPartsOpen(row);
    InsightParts(row, SleepScoreOf);
  }

  lemma OneReadinessInsight(row: Row)
    ensures CountOpening(Insights(row), ReadinessScoreOf) == (if Score in row then 1 else 0)
  {
    InsightPartsOpen(row);
    InsightParts(row, ReadinessScoreOf);
  }

  lemma OneActivityInsight(row: Row)
    ensures CountOpening(Insights(row), ActivityScoreOf) == (if ScoreActivity in row then 1 else 0)
  {
    InsightPartsOpen(row);
    InsightParts(row, ActivityScoreOf);
  }

  /** A present sleep score gives the first insight. */
  lemma SleepInsightFirst(row: Row)
    requires ScoreSleep in row
    ensures Insights(row)[0] == SleepInsight(row[ScoreSleep])
  {
  }

  /** A present SpO2 value gives an alert below 95 and an insight otherwise, never both. */
  lemma OxygenAlertOrInsight(row: Row)
    ensures CountOpening(Alerts(row), OxygenAlertOpening) == (if Below(row, Spo2Percentage, 95.0) then 1 else 0)
    ensures CountOpening(Insights(row), OxygenOpening) == (if Spo2Percentage in row && !Below(row, Spo2Percentage, 95.0) then 1 else 0)
  {
    InsightPartsOpen(row);
    InsightParts(row, OxygenOpening);
    AlertParts(row, OxygenAlertOpening);
    if ScoreSleep in row && Below(row, SleepTrend, -10.0) {
      CountOpeningOne(SleepDeclineAlert(row[SleepTrend]));
    }
    if Score in row && Below(row, ReadinessTrend, -15.0) {
      CountOpeningOne(ReadinessDeclineAlert(row[ReadinessTrend]));
    }
    if Below(row, Spo2Percentage, 95.0) {
      CountOpeningOne(Spo2Alert(row[Spo2Percentage]));
    }
  }

  /** The decline alerts come exactly with their conditions: the sleep one needs a
      present sleep score and a sleep trend below -10, the readiness one a present
      readiness score and a readiness trend below -15. */
  lemma DeclineAlerts(row: Row)
    ensures CountOpening(Alerts(row), SleepDecreasedBy) == (if ScoreSleep in row && Below(row, SleepTrend, -10.0) then 1 else 0)
    ensures CountOpening(Alerts(row), ReadinessDecreasedBy) == (if Score in row && Below(row, ReadinessTrend, -15.0) then 1 else 0)
  {
    AlertParts(row, SleepDecreasedBy);
    AlertParts(row, ReadinessDecreasedBy);
    if ScoreSleep in row && Below(row, SleepTrend, -10.0) {
      CountOpeningOne(SleepDeclineAlert(row[SleepTrend]));
    }
    if Score in row && Below(row, ReadinessTrend, -15.0) {
      CountOpeningOne(ReadinessDeclineAlert(row[ReadinessTrend]));
    }
    if Below(row, Spo2Percentage, 95.0) {
      CountOpeningOne(Spo2Alert(row[Spo2Percentage]));
    }
  }

  /** The hydration recommendation is the only general one, given exactly when there is
      data and the latest readiness is present and below 70. */
  lemma HydrationRule(recent: seq<Day>)
    ensures S(Hydration) in Recommend(recent).general <==>
      |recent| > 0 && Below(recent[|recent| - 1].metrics, Score, 70.0)
    ensures |Recommend(recent).general| <= 1
  {
  }

  /** At most five insights and three alerts. */
  lemma AdviceBounds(recent: seq<Day>)
    ensures |Recommend(recent).insights| <= 5
    ensures |Recommend(recent).alerts| <= 3
  {
  }

  /** Only the last row of the recent table matters. */
  lemma OnlyLatestCounts(recent: seq<Day>, earlier: seq<Day>)
    requires |recent| > 0
    ensures Recommend(earlier + recent) == Recommend(recent)
  {
    assert (earlier + recent)[|earlier + recent| - 1] == recent[|recent| - 1];
  }
}
