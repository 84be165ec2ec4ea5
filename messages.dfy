/** The messages both rule engines build the same way. Numbers stay values with the
    format their f-string gives them. */
module Messages {
  import opened Wording
  import opened Text
  import opened Rows

  /** `f"Your {what} score of {x} is ..."` closed by the phrase of x's band. */
  function ScoreInsight(opening: Phrase, x: real, excellent: Phrase, good: Phrase, moderate: Phrase, low: Phrase): Line {
    var tail := match BandOf(x)
      case Excellent => excellent
      case Good => good
      case Moderate => moderate
      case Low => low;
    [Said(opening), Value(x, AsIs), Said(tail)]
  }

  function SleepInsight(x: real): Line {
    ScoreInsight(SleepScoreOf, x, SleepExcellent, SleepGood, SleepModerate, SleepLow)
  }

  function ReadinessInsight(x: real): Line {
    ScoreInsight(ReadinessScoreOf, x, ReadinessExcellent, ReadinessGood, ReadinessModerate, ReadinessLow)
  }

  function ActivityInsight(x: real): Line {
    ScoreInsight(ActivityScoreOf, x, ActivityExcellent, ActivityGood, ActivityModerate, ActivityLow)
  }

  function HrvInsight(x: real): Line {
    match BandOf(x)
    case Excellent => S(HrvExcellent)
    case Good => S(HrvGood)
    case Moderate => S(HrvModerate)
    case Low => S(HrvLow)
  }

  const SleepBase: seq<Line> := [S(ConsistentSchedule), S(BedtimeRoutine)]

  /** `f"... decreased by {abs(round(trend))}% compared to your baseline."` */
  function SleepDeclineAlert(trend: real): Line {
    [Said(SleepDecreasedBy), Value(trend, AbsRounded), Said(ComparedToBaseline)]
  }

  const RecoveryBase: seq<Line> := [S(RestOrLightActivity), S(ProteinNutrition)]

  function ReadinessDeclineAlert(trend: real): Line {
    [Said(ReadinessDecreasedBy), Value(trend, AbsRounded), Said(ComparedToBaseline)]
  }

  const ActivityBase: seq<Line> := [S(MoreMovement), S(StepGoal)]

  /** `f"Your step count of {int(steps)} is below ..."` */
  function StepsAdvice(steps: real): Line {
    [Said(StepCountOf), Value(steps, Truncated), Said(StepsBelow)]
  }

  function Spo2Alert(x: real): Line {
    [Said(OxygenAlertOpening), Value(x, AsIs), Said(OxygenBelowOptimal)]
  }

  function Spo2Insight(x: real): Line {
    [Said(OxygenOpening), Value(x, AsIs), Said(OxygenHealthy)]
  }
}
