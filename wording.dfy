/** The fixed texts of the engines and the reports. A message refers to its text by a
    phrase; `Words` gives the exact wording. */
module Wording {

  const Warning: string := "\U{26A0}\U{FE0F} "

  datatype Phrase =
    // score insights, shared by both engines
    | SleepScoreOf | SleepExcellent | SleepGood | SleepModerate | SleepLow
    | ReadinessScoreOf | ReadinessExcellent | ReadinessGood | ReadinessModerate | ReadinessLow
    | ActivityScoreOf | ActivityExcellent | ActivityGood | ActivityModerate | ActivityLow
    | HrvExcellent | HrvGood | HrvModerate | HrvLow
    // recommendations and alerts shared by both engines
    | ConsistentSchedule | BedtimeRoutine | SleepDecreasedBy | SleepDeclining
    | RestOrLightActivity | ProteinNutrition | ReadinessDecreasedBy | ReadinessDeclining
    | MoreMovement | StepGoal | StepCountOf | StepsBelow
    | OxygenAlertOpening | OxygenBelowOptimal | OxygenOpening | OxygenHealthy
    | ComparedToBaseline | Hydration
    // contributor phrases of the modular engine
    | AvoidAlcohol | WarmBath | StressReduction | NoDevices | CoolBedroom | BlackoutCurtains
    | MuscleRelaxation | NoLargeMeals | SameWindow
    | BoxBreathing | Mindfulness | AdequateRest | FoamRolling
    | HeartRateIsElevated | Electrolytes | TemperatureIsElevated | IllnessSigns
    // recommendations and alerts of the full engine
    | DeepSleepTip | DeepSleepExercise | RemSleepTip | RemSleepDevices | EfficiencyTip | EfficiencyCurtains
    | LatencyTip | LatencyMeals | TimingTip
    | HrvBreathing | HrvMindfulness | RecoveryIndexRest | RecoveryIndexActive
    | RestingHrElevated | RestingHrHydrate | BodyTemperatureHigh
    | DailyTargets | MovementBreaks | TrainingFrequencyLow | HighActivityLowReadiness | ActiveRecoveryDays
    | SleepAheadInsight | SleepAheadAdvice | ActivityAheadInsight | ActivityAheadAdvice
    | HrvSleepInsight | HrvSleepAdvice | PoorSleepAlert | PoorSleepAdvice
    | OvertrainingAlert | OvertrainingAdvice | HrvDeclineAlert | HrvDeclineAdvice
    | OxygenAdvice | Fundamentals | TrackNutrition | MaleDeepSleep | FemaleHrv | WeightProfile
    // the reports
    | ReportTitle | Disclaimer | ConsultProfessionals | NoData

  function Words(p: Phrase): string {
    match p
    case SleepScoreOf => "Your sleep score of "
    case SleepExcellent => " is excellent. Keep maintaining your current sleep habits."
    case SleepGood => " is good. With some minor adjustments, you could optimize your sleep further."
    case SleepModerate => " is moderate. There's room for improvement in your sleep quality."
    case SleepLow => " is low. Prioritizing sleep improvements could significantly benefit your overall health."
    case ReadinessScoreOf => "Your readiness score of "
    case ReadinessExcellent => " is excellent. Your body is well-recovered and prepared for challenging activities."
    case ReadinessGood => " is good. You're ready for moderate to high-intensity activities."
    case ReadinessModerate => " is moderate. Consider moderate-intensity activities today."
    case ReadinessLow => " is low. Your body is signaling a need for recovery."
    case ActivityScoreOf => "Your activity score of "
    case ActivityExcellent => " is excellent. You're maintaining a high level of physical activity."
    case ActivityGood => " is good. You're meeting recommended activity levels."
    case ActivityModerate => " is moderate. Increasing your daily movement would be beneficial."
    case ActivityLow => " is low. Finding ways to incorporate more movement into your day could improve your health."
    case HrvExcellent => "Your HRV balance is excellent, indicating good autonomic nervous system function and stress resilience."
    case HrvGood => "Your HRV balance is good, suggesting adequate recovery and stress management."
    case HrvModerate => "Your HRV balance is moderate. There's room for improvement in recovery and stress management."
    case HrvLow => "Your HRV balance is low, indicating potential stress, fatigue, or incomplete recovery."
    case ConsistentSchedule => "Establish a consistent sleep schedule by going to bed and waking up at the same time every day, even on weekends."
    case BedtimeRoutine => "Create a relaxing bedtime routine that signals to your body it's time to wind down (reading, gentle stretching, or meditation)."
    case SleepDecreasedBy => Warning + "Your sleep quality has decreased by "
    case SleepDeclining => "Your sleep quality has been declining. Consider tracking potential disruptors like stress, late meals, or screen time."
    case RestOrLightActivity => "Your body is showing signs of needing recovery. Consider a rest day or light activity like walking or gentle yoga."
    case ProteinNutrition => "Focus on proper nutrition with emphasis on protein intake to support recovery and anti-inflammatory foods like berries, fatty fish, and leafy greens."
    case ReadinessDecreasedBy => Warning + "Your readiness has decreased by "
    case ReadinessDeclining => "Your readiness has been declining significantly. Consider taking a recovery week with reduced training volume and intensity."
    case MoreMovement => "Try to incorporate more movement throughout your day - take the stairs, park farther away, or schedule short walking breaks every hour."
    case StepGoal => "Set a goal to achieve at least 7,500 steps daily, gradually increasing to 10,000 steps as your fitness improves."
    case StepCountOf => "Your step count of "
    case StepsBelow => " is below recommended levels. Aim to add 1,000 more steps each day this week."
    case OxygenAlertOpening => Warning + "Your blood oxygen level of "
    case OxygenBelowOptimal => "% is below the optimal range."
    case OxygenOpening => "Your blood oxygen level of "
    case OxygenHealthy => "% is within the healthy range."
    case ComparedToBaseline => "% compared to your baseline."
    case Hydration => "Ensure adequate hydration by drinking at least half your body weight (in pounds) in ounces of water daily, especially on active days and during recovery."
    case AvoidAlcohol => "avoid alcohol and caffeine at least 6 hours before bedtime"
    case WarmBath => "consider taking a warm bath 1-2 hours before sleep"
    case StressReduction => "practice stress-reduction techniques like meditation"
    case NoDevices => "avoid using electronic devices 1 hour before bedtime"
    case CoolBedroom => "ensure your bedroom is cool (65-68\U{00B0}F/18-20\U{00B0}C), dark, and quiet"
    case BlackoutCurtains => "consider using blackout curtains"
    case MuscleRelaxation => "practice progressive muscle relaxation or guided imagery"
    case NoLargeMeals => "avoid large meals, intense exercise close to bedtime"
    case SameWindow => "try to go to bed within the same 30-minute window each night"
    case BoxBreathing => "practice stress management techniques like box breathing"
    case Mindfulness => "consider adding mindfulness meditation"
    case AdequateRest => "ensure adequate rest"
    case FoamRolling => "try active recovery techniques like foam rolling"
    case HeartRateIsElevated => "your resting heart rate is elevated"
    case Electrolytes => "stay well-hydrated and consider increasing electrolyte intake"
    case TemperatureIsElevated => "your body temperature is elevated"
    case IllnessSigns => "monitor for signs of illness"
    case DeepSleepTip => "To improve deep sleep: avoid alcohol and caffeine at least 6 hours before bedtime, and consider taking a warm bath 1-2 hours before sleep."
    case DeepSleepExercise => "Regular exercise (but not within 2 hours of bedtime) can help increase your deep sleep quality."
    case RemSleepTip => "To improve REM sleep: practice stress-reduction techniques like meditation or deep breathing before bed."
    case RemSleepDevices => "Avoid using electronic devices 1 hour before bedtime as blue light can suppress melatonin production and reduce REM sleep."
    case EfficiencyTip => "To improve sleep efficiency: ensure your bedroom is cool (65-68\U{00B0}F/18-20\U{00B0}C), dark, and quiet."
    case EfficiencyCurtains => "Consider using blackout curtains, white noise machines, or earplugs if environmental factors are disrupting your sleep."
    case LatencyTip => "To reduce the time it takes to fall asleep: practice progressive muscle relaxation or guided imagery before bed."
    case LatencyMeals => "Avoid large meals, intense exercise, and stressful activities close to bedtime."
    case TimingTip => "Your sleep timing is irregular. Try to go to bed within the same 30-minute window each night to regulate your circadian rhythm."
    case HrvBreathing => "Your HRV balance is low, indicating potential stress or incomplete recovery. Practice stress management techniques like box breathing (4 counts in, 4 counts hold, 4 counts out, 4 counts hold)."
    case HrvMindfulness => "Consider adding mindfulness meditation to your routine - even 5-10 minutes daily can help improve HRV and stress resilience."
    case RecoveryIndexRest => "Your recovery index is low. Ensure you're getting adequate rest and consider reducing training intensity for 1-2 days."
    case RecoveryIndexActive => "Try active recovery techniques like foam rolling, gentle stretching, or a light walk to promote blood flow without adding stress."
    case RestingHrElevated => "Your resting heart rate is elevated compared to your baseline. This may indicate incomplete recovery or potential illness."
    case RestingHrHydrate => "Stay well-hydrated and consider increasing your electrolyte intake, as dehydration can elevate resting heart rate."
    case BodyTemperatureHigh => "Your body temperature is elevated. Monitor for other signs of illness and prioritize rest and hydration."
    case DailyTargets => "You're not consistently meeting your daily activity targets. Consider setting reminders or scheduling specific times for movement breaks."
    case MovementBreaks => "You're spending too much time sedentary. Set a timer to stand up and move for at least 2-3 minutes every hour."
    case TrainingFrequencyLow => "Your training frequency is low. Aim for at least 3-4 days of structured exercise per week, including both cardio and strength training."
    case HighActivityLowReadiness => "Your activity level is high but your readiness is moderate. Consider balancing intense workouts with adequate recovery."
    case ActiveRecoveryDays => "Incorporate active recovery days with light activities like walking, swimming, or yoga between high-intensity training days."
    case SleepAheadInsight => "Your sleep quality is significantly better than your activity level. This suggests you have a good foundation for increasing your physical activity."
    case SleepAheadAdvice => "You have good sleep quality but lower activity. This is an opportunity to gradually increase your physical activity while maintaining your good sleep habits."
    case ActivityAheadInsight => "Your activity level is significantly higher than your sleep quality. This imbalance might affect your recovery and performance."
    case ActivityAheadAdvice => "Your high activity level isn't matched by adequate sleep quality. Prioritize sleep improvements to support your active lifestyle and enhance recovery."
    case HrvSleepInsight => "There appears to be a correlation between your low HRV days and poor sleep quality the following night."
    case HrvSleepAdvice => "Your low HRV days are often followed by poor sleep. On days with low HRV, consider extra stress management techniques and earlier bedtimes."
    case PoorSleepAlert => Warning + "You've had consistently poor sleep for the past 3 days. This pattern may impact your overall health and performance."
    case PoorSleepAdvice => "You're experiencing a pattern of poor sleep. Consider consulting a healthcare provider if this persists despite implementing sleep hygiene improvements."
    case OvertrainingAlert => Warning + "Potential overtraining detected. You've had several high activity days combined with low readiness scores."
    case OvertrainingAdvice => "Signs of overtraining detected. Implement a recovery week with 40-50% reduction in training volume and focus on sleep, nutrition, and stress management."
    case HrvDeclineAlert => Warning + "Your HRV has been consistently declining over the past several days, indicating increasing stress or incomplete recovery."
    case HrvDeclineAdvice => "Your HRV is showing a consistent downward trend. This is a strong signal to prioritize recovery through reduced training intensity, stress management, and optimal sleep."
    case OxygenAdvice => "Your blood oxygen levels are below optimal. Consider breathing exercises, reducing altitude if applicable, and consulting a healthcare provider if levels remain low."
    case Fundamentals => "Your overall health metrics are below optimal levels. Focus on the fundamentals: consistent sleep schedule, balanced nutrition, stress management, and appropriate physical activity."
    case TrackNutrition => "Consider tracking your nutrition and water intake, as these can significantly impact your sleep quality, recovery, and energy levels."
    case MaleDeepSleep => "Men typically need slightly more deep sleep. Consider limiting alcohol consumption which can particularly impact male sleep architecture."
    case FemaleHrv => "Female HRV can fluctuate with hormonal cycles. Consider tracking your menstrual cycle alongside your health metrics to identify patterns."
    case WeightProfile => "Based on your height and weight profile, focusing on consistent physical activity and nutrition could provide health benefits beyond just performance improvements."
    case ReportTitle => "PERSONALIZED HEALTH INSIGHTS & RECOMMENDATIONS"
    case Disclaimer => "This report is based on your personal health data and is intended for informational purposes only."
    case ConsultProfessionals => "Always consult with healthcare professionals before making significant changes to your health routine."
    case NoData => "No data available to generate health report."
  }

}
