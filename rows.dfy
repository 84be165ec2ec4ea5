/** Days of merged wearable data, and the advice the rule engines derive from them. */
module Rows {
  import opened Text

  /** The columns of the merged table that the engines and reports read. */
  datatype Column =
    | Score | ScoreSleep | ScoreActivity | Steps | TotalCalories | Spo2Percentage
    | SleepTrend | ReadinessTrend | ActivityTrend | HrvTrend
    | DeepSleep | RemSleep | SleepEfficiency | Latency | Timing
    | HrvBalance | RecoveryIndex | RestingHeartRate | BodyTemperature
    | MeetDailyTargets | MoveEveryHour | TrainingFrequency

  /** The column's name in the table. */
  function Name(c: Column): string {
    match c
    case Score => "score"
    case ScoreSleep => "score_sleep"
    case ScoreActivity => "score_activity"
    case Steps => "steps"
    case TotalCalories => "total_calories"
    case Spo2Percentage => "spo2_percentage"
    case SleepTrend => "sleep_trend"
    case ReadinessTrend => "readiness_trend"
    case ActivityTrend => "activity_trend"
    case HrvTrend => "hrv_trend"
    case DeepSleep => "contributors_deep_sleep"
    case RemSleep => "contributors_rem_sleep"
    case SleepEfficiency => "contributors_efficiency"
    case Latency => "contributors_latency"
    case Timing => "contributors_timing"
    case HrvBalance => "contributors_hrv_balance"
    case RecoveryIndex => "contributors_recovery_index"
    case RestingHeartRate => "contributors_resting_heart_rate"
    case BodyTemperature => "contributors_body_temperature"
    case MeetDailyTargets => "contributors_meet_daily_targets"
    case MoveEveryHour => "contributors_move_every_hour"
    case TrainingFrequency => "contributors_training_frequency"
  }

  /** The metrics of one day by column. A column that is absent, or NaN on that day, is a
      missing key. */
  type Row = map<Column, real>

  /** A row of the merged table: its `day` (counted in days) and its metrics. */
  datatype Day = Day(date: int, metrics: Row)

  /** `key in latest and not pd.isna(latest[key]) and latest[key] < bound` */
  predicate Below(row: Row, key: Column, bound: real) {
    key in row && row[key] < bound
  }

  /** `df[key].dropna().tolist()`: the values of one column, in row order, where present. */
  function Present(days: seq<Day>, key: Column): seq<real> {
    if |days| == 0 then []
    else
      var last := days[|days| - 1];
      Present(days[..|days| - 1], key) + (if key in last.metrics then [last.metrics[key]] else [])
  }

  /** Every value of the column comes from a row that holds it, and every row that holds
      a value contributes it. */
  lemma {:induction false} PresentValues(days: seq<Day>, key: Column)
    ensures |Present(days, key)| <= |days|
    ensures forall x :: x in Present(days, key) <==>
      exists i :: 0 <= i < |days| && key in days[i].metrics && days[i].metrics[key] == x
  {
    if |days| > 0 {
      var init := days[..|days| - 1];
      PresentValues(init, key);
      forall x | x in Present(days, key)
        ensures exists i :: 0 <= i < |days| && key in days[i].metrics && days[i].metrics[key] == x
      {
        if x in Present(init, key) {
          var i :| 0 <= i < |init| && key in init[i].metrics && init[i].metrics[key] == x;
          assert days[i] == init[i];
        } else {
          assert key in days[|days| - 1].metrics && days[|days| - 1].metrics[key] == x;
        }
      }
      forall x | exists i :: 0 <= i < |days| && key in days[i].metrics && days[i].metrics[key] == x
        ensures x in Present(days, key)
      {
        var i :| 0 <= i < |days| && key in days[i].metrics && days[i].metrics[key] == x;
        if i < |days| - 1 {
          assert init[i] == days[i];
        }
      }
    }
  }

  /** The present values of two consecutive stretches of rows are those of the first
      followed by those of the second. */
  lemma {:induction false} PresentAppend(a: seq<Day>, b: seq<Day>, key: Column)
    ensures Present(a + b, key) == Present(a, key) + Present(b, key)
    decreases |b|
  {
    if |b| == 0 {
      assert a + b == a;
    } else {
      var init := b[..|b| - 1];
      assert (a + b)[..|a + b| - 1] == a + init;
      assert (a + b)[|a + b| - 1] == b[|b| - 1];
      PresentAppend(a, init, key);
    }
  }

  /** `df[df[key] < bound].shape[0]`: the number of rows whose value is present and below
      the bound. */
  function CountBelow(days: seq<Day>, key: Column, bound: real): (n: nat)
    ensures n <= |days|
  {
    if |days| == 0 then 0
    else CountBelow(days[..|days| - 1], key, bound) + (if Below(days[|days| - 1].metrics, key, bound) then 1 else 0)
  }

  /** Some row of the table holds a value in this column. */
  predicate HasColumn(days: seq<Day>, key: Column) {
    exists i :: 0 <= i < |days| && key in days[i].metrics
  }

  /** What a rule engine returns: the four recommendation categories (sleep, activity,
      recovery, general), the alerts and the insights, each in the order added. */
  datatype Advice = Advice(sleep: seq<Line>, activity: seq<Line>, recovery: seq<Line>,
                           general: seq<Line>, alerts: seq<Line>, insights: seq<Line>)

  const NoAdvice := Advice([], [], [], [], [], [])

  /** `lines` when the condition holds, nothing otherwise. */
  function When(c: bool, lines: seq<Line>): seq<Line> {
    if c then lines else []
  }

  /** The score bands every insight uses. */
  datatype Band = Excellent | Good | Moderate | Low

  /** `>= 85`, else `>= 70`, else `>= 50`, else low. */
  function BandOf(x: real): Band {
    if x >= 85.0 then Excellent else if x >= 70.0 then Good else if x >= 50.0 then Moderate else Low
  }

  /** Each band is exactly its half-open range of scores. */
  lemma BandRanges(x: real)
    ensures BandOf(x) == Excellent <==> x >= 85.0
    ensures BandOf(x) == Good <==> 70.0 <= x < 85.0
    ensures BandOf(x) == Moderate <==> 50.0 <= x < 70.0
    ensures BandOf(x) == Low <==> x < 50.0
  {
  }

  function Rank(b: Band): nat {
    match b
    case Low => 0
    case Moderate => 1
    case Good => 2
    case Excellent => 3
  }

  /** A higher score never falls into a lower band. */
  lemma BandMonotone(x: real, y: real)
    requires x <= y
    ensures Rank(BandOf(x)) <= Rank(BandOf(y))
  {
  }
}
