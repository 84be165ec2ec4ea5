/** The rule engine of the command-line report (`generate_recommendations` in main.py).
    Over the latest row it gives the same score insights, base recommendations and
    decline and oxygen alerts as the modular engine, but with fixed contributor texts;
    it adds balance, pattern, lifestyle and profile rules that also read the earlier rows
    and the user profile taken from the name of the working directory's parent. */
module EngineFull {
  import opened Wrappers
  import opened Wording
  import opened Text
  import opened Rows
  import opened Messages
  import opened Profile
  import Basic = EngineBasic

  /** `key in latest and not pd.isna(latest[key]) and latest[key] > bound` */
  predicate Above(row: Row, key: Column, bound: real) {
    key in row && row[key] > bound
  }

  // ----- the latest row -----

  function DeepSleepAdvice(row: Row): seq<Line> {
    When(Below(row, DeepSleep, 70.0), [S(DeepSleepTip), S(DeepSleepExercise)])
  }

  function RemSleepAdvice(row: Row): seq<Line> {
    When(Below(row, RemSleep, 70.0), [S(RemSleepTip), S(RemSleepDevices)])
  }

  function EfficiencyAdvice(row: Row): seq<Line> {
    When(Below(row, SleepEfficiency, 70.0), [S(EfficiencyTip), S(EfficiencyCurtains)])
  }

  function LatencyAdvice(row: Row): seq<Line> {
    When(Below(row, Latency, 70.0), [S(LatencyTip), S(LatencyMeals)])
  }

  function TimingAdvice(row: Row): seq<Line> {
    When(Below(row, Timing, 70.0), [S(TimingTip)])
  }

  /** The fixed texts for each sleep contributor below 70, in the order checked. */
  function SleepContributorAdvice(row: Row): seq<Line> {
    DeepSleepAdvice(row) + RemSleepAdvice(row) + EfficiencyAdvice(row) + LatencyAdvice(row) + TimingAdvice(row)
  }

  function HrvBalanceAdvice(row: Row): seq<Line> {
    When(Below(row, HrvBalance, 70.0), [S(HrvBreathing), S(HrvMindfulness)])
  }

  function RecoveryIndexAdvice(row: Row): seq<Line> {
    When(Below(row, RecoveryIndex, 70.0), [S(RecoveryIndexRest), S(RecoveryIndexActive)])
  }

  function RestingHeartRateAdvice(row: Row): seq<Line> {
    When(Below(row, RestingHeartRate, 70.0), [S(RestingHrElevated), S(RestingHrHydrate)])
  }

  function BodyTemperatureAdvice(row: Row): seq<Line> {
    When(Below(row, BodyTemperature, 70.0), [S(BodyTemperatureHigh)])
  }

  /** The fixed texts for each readiness contributor below 70, in the order checked. */
  function RecoveryContributorAdvice(row: Row): seq<Line> {
    HrvBalanceAdvice(row) + RecoveryIndexAdvice(row) + RestingHeartRateAdvice(row) + BodyTemperatureAdvice(row)
  }

  /** The fixed texts for each activity contributor below 70, in the order checked. */
  function ActivityContributorAdvice(row: Row): seq<Line> {
    When(Below(row, MeetDailyTargets, 70.0), [S(DailyTargets)])
    + When(Below(row, MoveEveryHour, 70.0), [S(MovementBreaks)])
    + When(Below(row, TrainingFrequency, 70.0), [S(TrainingFrequencyLow)])
  }

  /** The sleep recommendations of the sleep section. */
  function SleepScoreAdvice(row: Row): seq<Line> {
    When(Below(row, ScoreSleep, 60.0), SleepBase + SleepContributorAdvice(row))
    + When(ScoreSleep in row && Below(row, SleepTrend, -10.0), [S(SleepDeclining)])
  }

  /** The recovery recommendations of the readiness section. */
  function ReadinessScoreAdvice(row: Row): seq<Line> {
    When(Below(row, Score, 60.0), RecoveryBase + RecoveryContributorAdvice(row))
    + When(Score in row && Below(row, ReadinessTrend, -15.0), [S(ReadinessDeclining)])
  }

  function StepsPart(row: Row): seq<Line> {
    if Below(row, Steps, 5000.0) then [StepsAdvice(row[Steps])] else []
  }

  /** The activity recommendations: below 60 the base, the step count and the
      contributors; `elif` above 90 with readiness below 70 the two balancing texts. */
  function ActivityAdvice(row: Row): seq<Line> {
    if Below(row, ScoreActivity, 60.0) then ActivityBase + StepsPart(row) + ActivityContributorAdvice(row)
    else if Above(row, ScoreActivity, 90.0) && Below(row, Score, 70.0) then
      [S(HighActivityLowReadiness), S(ActiveRecoveryDays)]
    else []
  }

  /** Both scores present and more than 30 apart. */
  predicate Imbalanced(row: Row) {
    ScoreSleep in row && ScoreActivity in row
    && (if row[ScoreSleep] >= row[ScoreActivity] then row[ScoreSleep] - row[ScoreActivity]
        else row[ScoreActivity] - row[ScoreSleep]) > 30.0
  }

  function BalanceInsights(row: Row): seq<Line> {
    if !Imbalanced(row) then []
    else if row[ScoreSleep] > row[ScoreActivity] then [S(SleepAheadInsight)]
    else [S(ActivityAheadInsight)]
  }

  function BalanceAdvice(row: Row): seq<Line> {
    if !Imbalanced(row) then []
    else if row[ScoreSleep] > row[ScoreActivity] then [S(SleepAheadAdvice)]
    else [S(ActivityAheadAdvice)]
  }

  /** All three scores present. */
  predicate AllScores(row: Row) {
    Score in row && ScoreSleep in row && ScoreActivity in row
  }

  /** The lifestyle texts: with all three scores present, the two fundamentals below an
      average of 60, then hydration with readiness below 70. */
  function LifestyleAdvice(row: Row): seq<Line> {
    if !AllScores(row) then []
    else
      When((row[Score] + row[ScoreSleep] + row[ScoreActivity]) / 3.0 < 60.0, [S(Fundamentals), S(TrackNutrition)])
      + When(row[Score] < 70.0, [S(Hydration)])
  }

  function OxygenAdvicePart(row: Row): seq<Line> {
    When(Below(row, Spo2Percentage, 95.0), [S(OxygenAdvice)])
  }

  // ----- patterns over the recent rows -----

  /** A row of the table is dated on the day `date` and its HRV balance is below 70. */
  predicate LowHrvOn(recent: seq<Day>, date: int) {
    exists i :: 0 <= i < |recent| && recent[i].date == date && Below(recent[i].metrics, HrvBalance, 70.0)
  }

  /** `recent_df[recent_df['day'].isin([d + 1 for d in low_hrv_days])]`: the rows, in
      order, dated the day after a low-HRV row. */
  function NightsAfterLowHrv(recent: seq<Day>, rows: seq<Day>): (r: seq<Day>)
    ensures |r| <= |rows|
    ensures forall d :: d in r ==> d in rows && LowHrvOn(recent, d.date - 1)
  {
    if |rows| == 0 then []
    else
      var last := rows[|rows| - 1];
      NightsAfterLowHrv(recent, rows[..|rows| - 1]) + (if LowHrvOn(recent, last.date - 1) then [last] else [])
  }

  /** At least three HRV and three sleep readings, at least two nights after a low-HRV
      day, and every one of those nights with a sleep score present and below 70 (a
      missing score is NaN, and NaN < 70 is false). */
  predicate HrvSleepLink(recent: seq<Day>) {
    var nights := NightsAfterLowHrv(recent, recent);
    |Present(recent, HrvBalance)| >= 3 && |Present(recent, ScoreSleep)| >= 3
    && |nights| >= 2 && forall d :: d in nights ==> Below(d.metrics, ScoreSleep, 70.0)
  }

  /** At least three sleep scores, the last three all below 60. */
  predicate PoorSleepStreak(recent: seq<Day>) {
    var scores := Present(recent, ScoreSleep);
    |scores| >= 3 && forall i :: |scores| - 3 <= i < |scores| ==> scores[i] < 60.0
  }

  /** Both columns present, at least three high-activity days and at least two days of
      readiness below 60. */
  predicate Overtraining(recent: seq<Day>, highActivityDays: nat) {
    HasColumn(recent, Steps) && HasColumn(recent, Score)
    && highActivityDays >= 3 && CountBelow(recent, Score, 60.0) >= 2
  }

  /** At least five HRV readings, the first five strictly decreasing. */
  predicate HrvDeclining(recent: seq<Day>) {
    var hrv := Present(recent, HrvBalance);
    |hrv| >= 5 && forall i :: 1 <= i < 5 ==> hrv[i] < hrv[i - 1]
  }

  // ----- the profile -----

  function GenderSleepAdvice(row: Row, profile: UserProfile): seq<Line> {
    When(profile.gender == Some(Male) && Below(row, DeepSleep, 70.0), [S(MaleDeepSleep)])
  }

  function GenderRecoveryAdvice(row: Row, profile: UserProfile): seq<Line> {
    When(profile.gender == Some(Female) && Below(row, HrvBalance, 70.0), [S(FemaleHrv)])
  }

  /** The weight text when both numbers were read and the BMI is above 25; the BMI
      division raises for a zero height. */
  function WeightAdvice(profile: UserProfile): Result<seq<Line>> {
    if profile.weightLb.Some? && profile.heightFt.Some? then
      match BmiAbove25(profile.heightFt.value, profile.weightLb.value)
      case Raise(e) => Raise(e)
      case Ok(above) => Ok(When(above, [S(WeightProfile)]))
    else Ok([])
  }

  // ----- the lists, each in the order the rules append to it -----

  function SleepRecommendations(recent: seq<Day>, row: Row, profile: UserProfile): seq<Line> {
    SleepScoreAdvice(row) + When(PoorSleepStreak(recent), [S(PoorSleepAdvice)]) + GenderSleepAdvice(row, profile)
  }

  function RecoveryRecommendations(recent: seq<Day>, highActivityDays: nat, row: Row, profile: UserProfile): seq<Line> {
    ReadinessScoreAdvice(row)
    + When(Overtraining(recent, highActivityDays), [S(OvertrainingAdvice)])
    + When(HrvDeclining(recent), [S(HrvDeclineAdvice)])
    + GenderRecoveryAdvice(row, profile)
  }

  /** The general recommendations before the weight rule. */
  function GeneralRecommendations(recent: seq<Day>, row: Row): seq<Line> {
    BalanceAdvice(row) + When(HrvSleepLink(recent), [S(HrvSleepAdvice)]) + OxygenAdvicePart(row) + LifestyleAdvice(row)
  }

  function Alerts(recent: seq<Day>, highActivityDays: nat, row: Row): seq<Line> {
    Basic.SleepDeclineAlerts(row) + Basic.ReadinessDeclineAlerts(row)
    + When(PoorSleepStreak(recent), [S(PoorSleepAlert)])
    + When(Overtraining(recent, highActivityDays), [S(OvertrainingAlert)])
    + When(HrvDeclining(recent), [S(HrvDeclineAlert)])
    + Basic.OxygenAlerts(row)
  }

  function Insights(recent: seq<Day>, row: Row): seq<Line> {
    Basic.SleepInsights(row) + Basic.ReadinessInsights(row) + Basic.ActivityInsights(row)
    + BalanceInsights(row) + When(HrvSleepLink(recent), [S(HrvSleepInsight)])
    + Basic.OxygenInsights(row) + Basic.HrvInsights(row)
  }

  /** The advice for the recent table, given the base name of the working directory's
      parent and the number of days whose steps exceed the mean plus one standard
      deviation: nothing without data, the raised exception when the BMI divides by
      zero, otherwise the lists above. */
  function Recommend(recent: seq<Day>, dir: string, highActivityDays: nat): (r: Result<Advice>)
    ensures |recent| == 0 ==> r == Ok(NoAdvice)
  {
    if |recent| == 0 then Ok(NoAdvice)
    else
      var row := recent[|recent| - 1].metrics;
      var profile := ProfileOf(dir);
      match WeightAdvice(profile)
      case Raise(e) => Raise(e)
      case Ok(weight) =>
        Ok(Advice(SleepRecommendations(recent, row, profile), ActivityAdvice(row),
                  RecoveryRecommendations(recent, highActivityDays, row, profile),
                  GeneralRecommendations(recent, row) + weight,
                  Alerts(recent, highActivityDays, row), Insights(recent, row)))
  }

  // ----- the engine, section by section -----

  /** The sleep contributors below 70, checked in order. */
  method AddSleepContributorAdvice(row: Row, sleep0: seq<Line>) returns (sleep: seq<Line>)
    ensures sleep == sleep0 + SleepContributorAdvice(row)
  {
    sleep := sleep0;
    if Below(row, DeepSleep, 70.0) {
      sleep := sleep + [S(DeepSleepTip)];
      sleep := sleep + [S(DeepSleepExercise)];
    }
    assert sleep == sleep0 + DeepSleepAdvice(row);
    if Below(row, RemSleep, 70.0) {
      sleep := sleep + [S(RemSleepTip)];
      sleep := sleep + [S(RemSleepDevices)];
    }
    AppendAssociative(sleep0, DeepSleepAdvice(row), RemSleepAdvice(row));
    assert sleep == sleep0 + (DeepSleepAdvice(row) + RemSleepAdvice(row));
    if Below(row, SleepEfficiency, 70.0) {
      sleep := sleep + [S(EfficiencyTip)];
      sleep := sleep + [S(EfficiencyCurtains)];
    }
    AppendAssociative(sleep0, DeepSleepAdvice(row) + RemSleepAdvice(row), EfficiencyAdvice(row));
    assert sleep == sleep0 + (DeepSleepAdvice(row) + RemSleepAdvice(row) + EfficiencyAdvice(row));
    if Below(row, Latency, 70.0) {
      sleep := sleep + [S(LatencyTip)];
      sleep := sleep + [S(LatencyMeals)];
    }
    AppendAssociative(sleep0, DeepSleepAdvice(row) + RemSleepAdvice(row) + EfficiencyAdvice(row), LatencyAdvice(row));
    assert sleep == sleep0 + (DeepSleepAdvice(row) + RemSleepAdvice(row) + EfficiencyAdvice(row) + LatencyAdvice(row));
    if Below(row, Timing, 70.0) {
      sleep := sleep + [S(TimingTip)];
    }
    AppendAssociative(sleep0, DeepSleepAdvice(row) + RemSleepAdvice(row) + EfficiencyAdvice(row) + LatencyAdvice(row), TimingAdvice(row));
  }

  /** The readiness contributors below 70, checked in order. */
  method AddRecoveryContributorAdvice(row: Row, recovery0: seq<Line>) returns (recovery: seq<Line>)
    ensures recovery == recovery0 + RecoveryContributorAdvice(row)
  {
    recovery := recovery0;
    if Below(row, HrvBalance, 70.0) {
      recovery := recovery + [S(HrvBreathing)];
      recovery := recovery + [S(HrvMindfulness)];
    }
    assert recovery == recovery0 + HrvBalanceAdvice(row);
    if Below(row, RecoveryIndex, 70.0) {
      recovery := recovery + [S(RecoveryIndexRest)];
      recovery := recovery + [S(RecoveryIndexActive)];
    }
    AppendAssociative(recovery0, HrvBalanceAdvice(row), RecoveryIndexAdvice(row));
    assert recovery == recovery0 + (HrvBalanceAdvice(row) + RecoveryIndexAdvice(row));
    if Below(row, RestingHeartRate, 70.0) {
      recovery := recovery + [S(RestingHrElevated)];
      recovery := recovery + [S(RestingHrHydrate)];
    }
    AppendAssociative(recovery0, HrvBalanceAdvice(row) + RecoveryIndexAdvice(row), RestingHeartRateAdvice(row));
    assert recovery == recovery0 + (HrvBalanceAdvice(row) + RecoveryIndexAdvice(row) + RestingHeartRateAdvice(row));
    if Below(row, BodyTemperature, 70.0) {
      recovery := recovery + [S(BodyTemperatureHigh)];
    }
    AppendAssociative(recovery0, HrvBalanceAdvice(row) + RecoveryIndexAdvice(row) + RestingHeartRateAdvice(row), BodyTemperatureAdvice(row));
  }

  /** The sleep section. */
  method SleepSection(row: Row) returns (sleep: seq<Line>, alerts: seq<Line>, insights: seq<Line>)
    ensures sleep == SleepScoreAdvice(row)
    ensures alerts == Basic.SleepDeclineAlerts(row)
    ensures insights == Basic.SleepInsights(row)
  {
    sleep, alerts, insights := [], [], [];
    if ScoreSleep in row {
      insights := insights + [SleepInsight(row[ScoreSleep])];
      if row[ScoreSleep] < 60.0 {
        sleep := sleep + [S(ConsistentSchedule)];
        sleep := sleep + [S(BedtimeRoutine)];
        assert sleep == SleepBase;
        sleep := AddSleepContributorAdvice(row, sleep);
      }
      if Below(row, SleepTrend, -10.0) {
        alerts := alerts + [SleepDeclineAlert(row[SleepTrend])];
        sleep := sleep + [S(SleepDeclining)];
      }
    }
  }

  /** The readiness and recovery section. */
  method RecoverySection(row: Row, alerts0: seq<Line>, insights0: seq<Line>)
    returns (recovery: seq<Line>, alerts: seq<Line>, insights: seq<Line>)
    ensures recovery == ReadinessScoreAdvice(row)
    ensures alerts == alerts0 + Basic.ReadinessDeclineAlerts(row)
    ensures insights == insights0 + Basic.ReadinessInsights(row)
  {
    recovery, alerts, insights := [], alerts0, insights0;
    if Score in row {
      insights := insights + [ReadinessInsight(row[Score])];
      if row[Score] < 60.0 {
        recovery := recovery + [S(RestOrLightActivity)];
        recovery := recovery + [S(ProteinNutrition)];
        assert recovery == RecoveryBase;
        recovery := AddRecoveryContributorAdvice(row, recovery);
      }
      if Below(row, ReadinessTrend, -15.0) {
        alerts := alerts + [ReadinessDeclineAlert(row[ReadinessTrend])];
        recovery := recovery + [S(ReadinessDeclining)];
      }
    }
  }

  /** The activity section. */
  method ActivitySection(row: Row, insights0: seq<Line>) returns (activity: seq<Line>, insights: seq<Line>)
    ensures activity == ActivityAdvice(row)
    ensures insights == insights0 + Basic.ActivityInsights(row)
  {
    activity, insights := [], insights0;
    if ScoreActivity in row {
      insights := insights + [ActivityInsight(row[ScoreActivity])];
      if row[ScoreActivity] < 60.0 {
        activity := activity + [S(MoreMovement)];
        activity := activity + [S(StepGoal)];
        if Below(row, Steps, 5000.0) {
          activity := activity + [StepsAdvice(row[Steps])];
        }
        assert activity == ActivityBase + StepsPart(row);
        if Below(row, MeetDailyTargets, 70.0) {
          activity := activity + [S(DailyTargets)];
        }
        if Below(row, MoveEveryHour, 70.0) {
          activity := activity + [S(MovementBreaks)];
        }
        if Below(row, TrainingFrequency, 70.0) {
          activity := activity + [S(TrainingFrequencyLow)];
        }
        assert activity == ActivityBase + StepsPart(row) + ActivityContributorAdvice(row);
      } else if row[ScoreActivity] > 90.0 && Below(row, Score, 70.0) {
        activity := activity + [S(HighActivityLowReadiness)];
        activity := activity + [S(ActiveRecoveryDays)];
      }
    }
  }

  /** The balance and correlation section: the sleep-activity gap and the HRV-sleep
      link. */
  method BalanceSection(recent: seq<Day>, row: Row, insights0: seq<Line>)
    returns (general: seq<Line>, insights: seq<Line>)
    ensures general == BalanceAdvice(row) + When(HrvSleepLink(recent), [S(HrvSleepAdvice)])
    ensures insights == insights0 + BalanceInsights(row) + When(HrvSleepLink(recent), [S(HrvSleepInsight)])
  {
    general, insights := [], insights0;
    if ScoreSleep in row && ScoreActivity in row {
      var gap := row[ScoreSleep] - row[ScoreActivity];
      if gap < 0.0 {
        gap := -gap;
      }
      if gap > 30.0 {
        if row[ScoreSleep] > row[ScoreActivity] {
          insights := insights + [S(SleepAheadInsight)];
          general := general + [S(SleepAheadAdvice)];
        } else {
          insights := insights + [S(ActivityAheadInsight)];
          general := general + [S(ActivityAheadAdvice)];
        }
      }
    }
    if HrvSleepLink(recent) {
      insights := insights + [S(HrvSleepInsight)];
      general := general + [S(HrvSleepAdvice)];
    }
  }

  /** The pattern section: the poor-sleep streak, overtraining and the HRV decline. */
  method PatternSection(recent: seq<Day>, highActivityDays: nat, sleep0: seq<Line>, recovery0: seq<Line>, alerts0: seq<Line>)
    returns (sleep: seq<Line>, recovery: seq<Line>, alerts: seq<Line>)
    ensures sleep == sleep0 + When(PoorSleepStreak(recent), [S(PoorSleepAdvice)])
    ensures recovery == recovery0 + When(Overtraining(recent, highActivityDays), [S(OvertrainingAdvice)])
                                  + When(HrvDeclining(recent), [S(HrvDeclineAdvice)])
    ensures alerts == alerts0 + When(PoorSleepStreak(recent), [S(PoorSleepAlert)])
                              + When(Overtraining(recent, highActivityDays), [S(OvertrainingAlert)])
                              + When(HrvDeclining(recent), [S(HrvDeclineAlert)])
  {
    sleep, recovery, alerts := sleep0, recovery0, alerts0;
    if PoorSleepStreak(recent) {
      alerts := alerts + [S(PoorSleepAlert)];
      sleep := sleep + [S(PoorSleepAdvice)];
    }
    if Overtraining(recent, highActivityDays) {
      alerts := alerts + [S(OvertrainingAlert)];
      recovery := recovery + [S(OvertrainingAdvice)];
    }
    if HrvDeclining(recent) {
      alerts := alerts + [S(HrvDeclineAlert)];
      recovery := recovery + [S(HrvDeclineAdvice)];
    }
  }

  /** The health-metric and lifestyle sections: oxygen, the HRV insight, the
      fundamentals and hydration. */
  method HealthMetricsSection(row: Row, general0: seq<Line>, alerts0: seq<Line>, insights0: seq<Line>)
    returns (general: seq<Line>, alerts: seq<Line>, insights: seq<Line>)
    ensures general == general0 + OxygenAdvicePart(row) + LifestyleAdvice(row)
    ensures alerts == alerts0 + Basic.OxygenAlerts(row)
    ensures insights == insights0 + Basic.OxygenInsights(row) + Basic.HrvInsights(row)
  {
    general, alerts, insights := general0, alerts0, insights0;
    if Spo2Percentage in row {
      if row[Spo2Percentage] < 95.0 {
        alerts := alerts + [Spo2Alert(row[Spo2Percentage])];
        general := general + [S(OxygenAdvice)];
      } else {
        insights := insights + [Spo2Insight(row[Spo2Percentage])];
      }
    }
    if HrvBalance in row {
      insights := insights + [HrvInsight(row[HrvBalance])];
    }
    assert general == general0 + OxygenAdvicePart(row);
    if AllScores(row) {
      var average := (row[Score] + row[ScoreSleep] + row[ScoreActivity]) / 3.0;
      if average < 60.0 {
        general := general + [S(Fundamentals)];
        general := general + [S(TrackNutrition)];
      }
      if row[Score] < 70.0 {
        general := general + [S(Hydration)];
      }
    }
  }

  /** The profile section: the gender texts, then the weight text, whose BMI division
      raises for a zero height. */
  method ProfileSection(row: Row, profile: UserProfile, sleep0: seq<Line>, recovery0: seq<Line>, general0: seq<Line>)
    returns (r: Result<(seq<Line>, seq<Line>, seq<Line>)>)
    ensures r == match WeightAdvice(profile)
      case Raise(e) => Raise(e)
      case Ok(weight) => Ok((sleep0 + GenderSleepAdvice(row, profile), recovery0 + GenderRecoveryAdvice(row, profile), general0 + weight))
  {
    var sleep, recovery, general := sleep0, recovery0, general0;
    if profile.gender.Some? {
      if profile.gender.value == Male {
        if Below(row, DeepSleep, 70.0) {
          sleep := sleep + [S(MaleDeepSleep)];
        }
      } else if profile.gender.value == Female {
        if Below(row, HrvBalance, 70.0) {
          recovery := recovery + [S(FemaleHrv)];
        }
      }
    }
    assert sleep == sleep0 + GenderSleepAdvice(row, profile);
    assert recovery == recovery0 + GenderRecoveryAdvice(row, profile);
    if profile.weightLb.Some? && profile.heightFt.Some? {
      var inches := profile.heightFt.value * 12;
      if inches * inches == 0 {
        return Raise(ZeroDivisionError);
      }
      var bmi := (profile.weightLb.value * 703) as real / (inches * inches) as real;
      assert BmiAbove25(profile.heightFt.value, profile.weightLb.value) == Ok(bmi > 25.0);
      if bmi > 25.0 {
        general := general + [S(WeightProfile)];
      }
      assert general == general0 + When(bmi > 25.0, [S(WeightProfile)]);
    } else {
      assert general == general0 + [];
    }
    return Ok((sleep, recovery, general));
  }

  /** `generate_recommendations` of main.py: the profile from the directory name, then the
      sections in order over the latest row and the recent table. */
  method GenerateRecommendations(recent: seq<Day>, dir: string, highActivityDays: nat) returns (r: Result<Advice>)
    ensures r == Recommend(recent, dir, highActivityDays)
  {
    if |recent| == 0 {
      return Ok(NoAdvice);
    }
    var row := recent[|recent| - 1].metrics;
    var profile := ProfileOf(dir);
    var sleep, alerts, insights := SleepSection(row);
    var recovery;
    recovery, alerts, insights := RecoverySection(row, alerts, insights);
    var activity;
    activity, insights := ActivitySection(row, insights);
    var general;
    general, insights := BalanceSection(recent, row, insights);
    sleep, recovery, alerts := PatternSection(recent, highActivityDays, sleep, recovery, alerts);
    general, alerts, insights := HealthMetricsSection(row, general, alerts, insights);
    var outcome := ProfileSection(row, profile, sleep, recovery, general);
    match outcome
    case Raise(e) =>
      r := Raise(e);
    case Ok(lists) =>
      r := Ok(Advice(lists.0, activity, lists.1, lists.2, alerts, insights));
  }

  // ----- what the rules promise -----

  /** The deep-sleep texts are given exactly for a sleep score below 60 and a deep-sleep
      contributor below 70. */
  lemma DeepSleepRule(row: Row)
    ensures S(DeepSleepTip) in SleepScoreAdvice(row) <==> Below(row, ScoreSleep, 60.0) && Below(row, DeepSleep, 70.0)
  {
  }

  /** The activity recommendations: the base pair first below 60, the balancing pair
      exactly for an activity score above 90 with readiness below 70, and nothing in
      between. */
  lemma ActivityRules(row: Row)
    ensures Below(row, ScoreActivity, 60.0) ==> ActivityAdvice(row)[..2] == ActivityBase
    ensures ActivityAdvice(row) == [S(HighActivityLowReadiness), S(ActiveRecoveryDays)] <==>
      Above(row, ScoreActivity, 90.0) && Below(row, Score, 70.0)
    ensures ActivityAdvice(row) == [] <==>
      !Below(row, ScoreActivity, 60.0) && !(Above(row, ScoreActivity, 90.0) && Below(row, Score, 70.0))
  {
    if Below(row, ScoreActivity, 60.0) {
      assert ActivityAdvice(row)[0] == S(MoreMovement);
    }
  }

  /** The balance rule: the sleep-ahead texts exactly when sleep leads activity by more
      than 30, the activity-ahead texts exactly when activity leads sleep by more than
      30. */
  lemma BalanceRule(row: Row)
    ensures BalanceInsights(row) == [S(SleepAheadInsight)] <==>
      ScoreSleep in row && ScoreActivity in row && row[ScoreSleep] - row[ScoreActivity] > 30.0
    ensures BalanceInsights(row) == [S(ActivityAheadInsight)] <==>
      ScoreSleep in row && ScoreActivity in row && row[ScoreActivity] - row[ScoreSleep] > 30.0
    ensures BalanceAdvice(row) == [S(SleepAheadAdvice)] <==> BalanceInsights(row) == [S(SleepAheadInsight)]
    ensures BalanceAdvice(row) == [S(ActivityAheadAdvice)] <==> BalanceInsights(row) == [S(ActivityAheadInsight)]
    ensures BalanceInsights(row) == [] <==> BalanceAdvice(row) == []
  {
  }

  /** Lifestyle texts need all three scores; hydration then needs readiness below 70. */
  lemma LifestyleRule(row: Row)
    ensures S(Hydration) in LifestyleAdvice(row) <==> AllScores(row) && row[Score] < 70.0
    ensures S(Fundamentals) in LifestyleAdvice(row) <==>
      AllScores(row) && row[Score] + row[ScoreSleep] + row[ScoreActivity] < 180.0
  {
  }

  /** Unlike the modular engine, this one gives no hydration text for a row that holds
      only a readiness score, however low. */
  lemma HydrationNeedsAllScores()
    ensures S(Hydration) in Basic.Recommend([Day(0, map[Score := 65.0])]).general
    ensures Recommend([Day(0, map[Score := 65.0])], "", 0).Ok?
    ensures Recommend([Day(0, map[Score := 65.0])], "", 0).value.general == []
  {
    var recent := [Day(0, map[Score := 65.0])];
    assert Basic.Recommend(recent).general == [S(Hydration)];
    assert !Contains("", "MALE") && !Contains("", "FEMALE");
    assert ProfileOf("") == UserProfile(None, None, None);
  }

  /** A directory name containing MALE gives the male deep-sleep text exactly when the
      deep-sleep contributor is below 70; one without it never does. */
  lemma GenderSleepRule(row: Row, dir: string)
    ensures GenderSleepAdvice(row, ProfileOf(dir)) == [S(MaleDeepSleep)] <==>
      Contains(dir, "MALE") && Below(row, DeepSleep, 70.0)
    ensures GenderSleepAdvice(row, ProfileOf(dir)) == [] <==> !(Contains(dir, "MALE") && Below(row, DeepSleep, 70.0))
  {
  }

  /** The female text is never given: every name containing FEMALE also contains MALE. */
  lemma FemaleTextUnreachable(row: Row, dir: string)
    ensures GenderRecoveryAdvice(row, ProfileOf(dir)) == []
  {
    NeverFemale(dir);
  }

  /** The weight text is given exactly for a parsed height above zero and a parsed weight
      whose BMI, in whole numbers, is above 25; a parsed height of zero with a parsed
      weight raises. */
  lemma WeightRule(profile: UserProfile)
    ensures WeightAdvice(profile) == Ok([S(WeightProfile)]) <==>
      profile.heightFt.Some? && profile.weightLb.Some? && profile.heightFt.value > 0
      && profile.weightLb.value * 703 > 25 * ((profile.heightFt.value * 12) * (profile.heightFt.value * 12))
    ensures WeightAdvice(profile).Raise? <==>
      profile.heightFt == Some(0) && profile.weightLb.Some?
    ensures WeightAdvice(profile).Raise? ==> WeightAdvice(profile).exception == ZeroDivisionError
  {
    if profile.heightFt.Some? && profile.weightLb.Some? {
      BmiInWholeNumbers(profile.heightFt.value, profile.weightLb.value);
    }
  }

  /** The engine raises only where the weight rule divides by zero: with data, a weight
      and a height of 0 feet in the directory name. */
  lemma RaisesOnlyForZeroHeight(recent: seq<Day>, dir: string, highActivityDays: nat)
    ensures Recommend(recent, dir, highActivityDays).Raise? <==>
      |recent| > 0 && ProfileOf(dir).heightFt == Some(0) && ProfileOf(dir).weightLb.Some?
  {
    WeightRule(ProfileOf(dir));
  }

  /** The poor-sleep streak looks at the last three sleep scores only: rows before three
      scored rows change nothing. */
  lemma PoorSleepIgnoresEarlier(earlier: seq<Day>, recent: seq<Day>)
    requires |Present(recent, ScoreSleep)| >= 3
    ensures PoorSleepStreak(earlier + recent) == PoorSleepStreak(recent)
  {
    PresentAppend(earlier, recent, ScoreSleep);
    var a, b := Present(earlier, ScoreSleep), Present(recent, ScoreSleep);
    forall i | |b| - 3 <= i < |b|
      ensures (a + b)[|a| + i] == b[i]
    {
    }
  }

  /** Three nights in a row with sleep scores below 60 at the end of the table make a
      streak, whatever came before. */
  lemma PoorSleepStreakFound(earlier: seq<Day>, x: Day, y: Day, z: Day)
    requires Below(x.metrics, ScoreSleep, 60.0) && Below(y.metrics, ScoreSleep, 60.0) && Below(z.metrics, ScoreSleep, 60.0)
    ensures PoorSleepStreak(earlier + [x, y, z])
  {
    assert [x, y, z][..2] == [x, y];
    assert [x, y][..1] == [x];
    assert [x][..0] == [];
    assert Present([x], ScoreSleep) == [x.metrics[ScoreSleep]];
    assert Present([x, y], ScoreSleep) == [x.metrics[ScoreSleep], y.metrics[ScoreSleep]];
    assert Present([x, y, z], ScoreSleep) == [x.metrics[ScoreSleep], y.metrics[ScoreSleep], z.metrics[ScoreSleep]];
    PoorSleepIgnoresEarlier(earlier, [x, y, z]);
  }

  /** The HRV decline looks at the first five readings only: rows after them change
      nothing. */
  lemma HrvDeclineIgnoresLater(recent: seq<Day>, later: seq<Day>)
    requires |Present(recent, HrvBalance)| >= 5
    ensures HrvDeclining(recent + later) == HrvDeclining(recent)
  {
    PresentAppend(recent, later, HrvBalance);
    var a := Present(recent, HrvBalance);
    assert forall i :: 0 <= i < 5 ==> (a + Present(later, HrvBalance))[i] == a[i];
  }

  /** The nights after a low-HRV day are exactly the rows dated the day after a row with
      HRV balance below 70. */
  lemma {:induction false} NightsAfterLowHrvFilter(recent: seq<Day>, rows: seq<Day>)
    ensures forall d :: d in NightsAfterLowHrv(recent, rows) <==> d in rows && LowHrvOn(recent, d.date - 1)
  {
    if |rows| > 0 {
      var init, last := rows[..|rows| - 1], rows[|rows| - 1];
      NightsAfterLowHrvFilter(recent, init);
      assert rows == init + [last];
    }
  }

  /** Without a row whose HRV balance is below 70 no row follows a low-HRV day. */
  lemma {:induction false} NoNightsWithoutLowHrv(recent: seq<Day>, rows: seq<Day>)
    requires forall i :: 0 <= i < |recent| ==> !Below(recent[i].metrics, HrvBalance, 70.0)
    ensures NightsAfterLowHrv(recent, rows) == []
  {
    if |rows| > 0 {
      NoNightsWithoutLowHrv(recent, rows[..|rows| - 1]);
    }
  }

  /** Without a row whose HRV balance is below 70 there is no HRV-sleep link. */
  lemma NoLinkWithoutLowHrv(recent: seq<Day>)
    requires forall i :: 0 <= i < |recent| ==> !Below(recent[i].metrics, HrvBalance, 70.0)
    ensures !HrvSleepLink(recent)
  {
    NoNightsWithoutLowHrv(recent, recent);
  }

  /** The overtraining rule needs two distinct rows with readiness below 60. */
  lemma OvertrainingNeedsLowReadiness(recent: seq<Day>, highActivityDays: nat)
    requires Overtraining(recent, highActivityDays)
    ensures exists i, j :: 0 <= i < j < |recent| && Below(recent[i].metrics, Score, 60.0) && Below(recent[j].metrics, Score, 60.0)
  {
    TwoBelow(recent, Score, 60.0);
  }

  lemma {:induction false} TwoBelow(days: seq<Day>, key: Column, bound: real)
    requires CountBelow(days, key, bound) >= 2
    ensures exists i, j :: 0 <= i < j < |days| && Below(days[i].metrics, key, bound) && Below(days[j].metrics, key, bound)
  {
    var init := days[..|days| - 1];
    if Below(days[|days| - 1].metrics, key, bound) {
      OneBelow(init, key, bound);
      var i :| 0 <= i < |init| && Below(init[i].metrics, key, bound);
      assert days[i] == init[i];
    } else {
      TwoBelow(init, key, bound);
      var i, j :| 0 <= i < j < |init| && Below(init[i].metrics, key, bound) && Below(init[j].metrics, key, bound);
      assert days[i] == init[i] && days[j] == init[j];
    }
  }

  lemma {:induction false} OneBelow(days: seq<Day>, key: Column, bound: real)
    requires CountBelow(days, key, bound) >= 1
    ensures exists i :: 0 <= i < |days| && Below(days[i].metrics, key, bound)
  {
    var init := days[..|days| - 1];
    if !Below(days[|days| - 1].metrics, key, bound) {
      OneBelow(init, key, bound);
      var i :| 0 <= i < |init| && Below(init[i].metrics, key, bound);
      assert days[i] == init[i];
    }
  }

  /** When no pattern over the recent rows fires, the alerts are those of the modular
      engine on the latest row. */
  lemma AlertsExtendBasic(recent: seq<Day>, highActivityDays: nat, row: Row)
    requires !PoorSleepStreak(recent) && !Overtraining(recent, highActivityDays) && !HrvDeclining(recent)
    ensures Alerts(recent, highActivityDays, row) == Basic.Alerts(row)
  {
    var before := Basic.SleepDeclineAlerts(row) + Basic.ReadinessDeclineAlerts(row);
    assert before + [] + [] + [] == before;
  }

  /** Without an imbalance or an HRV-sleep link, the insights are those of the modular
      engine on the latest row. */
  lemma InsightsExtendBasic(recent: seq<Day>, row: Row)
    requires !Imbalanced(row) && !HrvSleepLink(recent)
    ensures Insights(recent, row) == Basic.Insights(row)
  {
    var before := Basic.SleepInsights(row) + Basic.ReadinessInsights(row) + Basic.ActivityInsights(row);
    assert before + [] + [] == before;
  }

  /** At most seven insights and six alerts: each rule adds at most one of each. */
  lemma AdviceBounds(recent: seq<Day>, highActivityDays: nat, row: Row)
    ensures |Insights(recent, row)| <= 7
    ensures |Alerts(recent, highActivityDays, row)| <= 6
  {
  }
}
