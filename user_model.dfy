/** The per-user sleep model of the backend: stored sleep records sorted by date,
    current values from the latest record, seven-day averages over two disjoint date
    windows, guarded percent trends and up to three recommendations. */
module UserModel {
  import opened Wrappers

  /** A stored sleep record. Dates count days; an absent measurement is None. */
  datatype SleepEntry = SleepEntry(
    date: int,
    sleepScore: Option<real>,
    totalSleepDuration: Option<real>,  // minutes
    efficiency: Option<real>)

  datatype Attribute = SleepScore | TotalSleepDuration | Efficiency

  /** `getattr(entry, attr)` */
  function Attr(e: SleepEntry, a: Attribute): Option<real> {
    match a
    case SleepScore => e.sleepScore
    case TotalSleepDuration => e.totalSleepDuration
    case Efficiency => e.efficiency
  }

  datatype SleepMetrics = SleepMetrics(
    currentScore: Option<real>,
    avg7dScore: Option<real>,
    currentTotalSleep: Option<real>,  // hours
    avg7dTotalSleep: Option<real>,    // hours
    currentEfficiency: Option<real>,
    avg7dEfficiency: Option<real>)

  datatype Trends = Trends(
    scoreTrend: Option<real>,
    totalSleepTrend: Option<real>,
    efficiencyTrend: Option<real>)

  const NoMetrics := SleepMetrics(None, None, None, None, None, None)
  const NoTrends := Trends(None, None, None)

  /** What `to_dict` hands out. */
  datatype ModelDict = ModelDict(sleepMetrics: SleepMetrics, trends: Trends, recommendations: seq<string>)

  // ----- sorted(sleep_data, key=lambda x: x.date) -----

  predicate SortedByDate(s: seq<SleepEntry>) {
    forall i, j :: 0 <= i < j < |s| ==> s[i].date <= s[j].date
  }

  lemma SortedCons(x: SleepEntry, t: seq<SleepEntry>)
    requires SortedByDate(t) && (|t| > 0 ==> x.date <= t[0].date)
    ensures SortedByDate([x] + t)
  {
    var r := [x] + t;
    forall i, j | 0 <= i < j < |r|
      ensures r[i].date <= r[j].date
    {
      if i == 0 {
        assert r[j] == t[j - 1];
      } else {
        assert r[i] == t[i - 1] && r[j] == t[j - 1];
      }
    }
  }

  /** Places e before the first entry whose date is not earlier than its own. */
  function InsertByDate(e: SleepEntry, s: seq<SleepEntry>): (r: seq<SleepEntry>)
    ensures |r| == |s| + 1
    ensures r[0] == e || (|s| > 0 && r[0] == s[0])
    ensures multiset(r) == multiset(s) + multiset{e}
  {
    if |s| == 0 || e.date <= s[0].date then [e] + s
    else
      assert s == [s[0]] + s[1..];
      [s[0]] + InsertByDate(e, s[1..])
  }

  lemma {:induction false} InsertKeepsSorted(e: SleepEntry, s: seq<SleepEntry>)
    requires SortedByDate(s)
    ensures SortedByDate(InsertByDate(e, s))
  {
    if |s| == 0 || e.date <= s[0].date {
      SortedCons(e, s);
    } else {
      InsertKeepsSorted(e, s[1..]);
      SortedCons(s[0], InsertByDate(e, s[1..]));
    }
  }

  /** Python's stable `sorted` by date. */
  function SortByDate(s: seq<SleepEntry>): (r: seq<SleepEntry>)
    ensures |r| == |s|
    ensures multiset(r) == multiset(s)
  {
    if |s| == 0 then []
    else
      assert s == [s[0]] + s[1..];
      InsertByDate(s[0], SortByDate(s[1..]))
  }

  lemma {:induction false} SortByDateIsSorted(s: seq<SleepEntry>)
    ensures SortedByDate(SortByDate(s))
  {
    if |s| > 0 {
      SortByDateIsSorted(s[1..]);
      InsertKeepsSorted(s[0], SortByDate(s[1..]));
    }
  }

  /** The entries of one date, in their order. */
  function OnDate(s: seq<SleepEntry>, d: int): seq<SleepEntry> {
    if |s| == 0 then []
    else (if s[0].date == d then [s[0]] else []) + OnDate(s[1..], d)
  }

  lemma {:induction false} OnDateInsert(e: SleepEntry, s: seq<SleepEntry>, d: int)
    ensures OnDate(InsertByDate(e, s), d) == (if e.date == d then [e] else []) + OnDate(s, d)
  {
    var r := InsertByDate(e, s);
    if |s| == 0 || e.date <= s[0].date {
      assert r == [e] + s;
      assert r[1..] == s;
    } else {
      var tail := InsertByDate(e, s[1..]);
      assert r == [s[0]] + tail;
      assert r[1..] == tail;
      OnDateInsert(e, s[1..], d);
      assert OnDate(r, d) == (if s[0].date == d then [s[0]] else []) + OnDate(tail, d);
      assert OnDate(s, d) == (if s[0].date == d then [s[0]] else []) + OnDate(s[1..], d);
    }
  }

  /** The sort is stable: records of the same date keep their input order. Together
      with sortedness and the multiset this fixes the result completely. */
  lemma {:induction false} SortByDateIsStable(s: seq<SleepEntry>, d: int)
    ensures OnDate(SortByDate(s), d) == OnDate(s, d)
  {
    if |s| > 0 {
      SortByDateIsStable(s[1..], d);
      OnDateInsert(s[0], SortByDate(s[1..]), d);
    }
  }

  /** Python's `sorted(records, key=lambda x: x.date)` as the model calls it: the
      result is ordered by date, holds the same records, and keeps the input order
      among records of one date, which determines it uniquely. */
  method SortRecords(records: seq<SleepEntry>) returns (sorted: seq<SleepEntry>)
    ensures |sorted| == |records|
    ensures SortedByDate(sorted) && multiset(sorted) == multiset(records)
    ensures forall d :: OnDate(sorted, d) == OnDate(records, d)
  {
    sorted := SortByDate(records);
    SortByDateIsSorted(records);
    forall d
      ensures OnDate(sorted, d) == OnDate(records, d)
    {
      SortByDateIsStable(records, d);
    }
  }

  /** The last record of a sorting has the latest date of all records. */
  lemma LastIsLatest(sorted: seq<SleepEntry>, records: seq<SleepEntry>)
    requires SortedByDate(sorted) && multiset(sorted) == multiset(records) && |sorted| > 0
    ensures forall e :: e in records ==> e.date <= sorted[|sorted| - 1].date
  {
    forall e | e in records
      ensures e.date <= sorted[|sorted| - 1].date
    {
      assert e in multiset(records);
      assert e in multiset(sorted);
      var i :| 0 <= i < |sorted| && sorted[i] == e;
      assert i == |sorted| - 1 || sorted[i].date <= sorted[|sorted| - 1].date;
    }
  }

  // ----- the two date windows -----

  /** `[d for d in data if d.date >= today - 7]` */
  function Recent(s: seq<SleepEntry>, today: int): seq<SleepEntry> {
    if |s| == 0 then []
    else (if s[0].date >= today - 7 then [s[0]] else []) + Recent(s[1..], today)
  }

  /** `[d for d in data if d.date < today - 7 and d.date >= today - 14]` */
  function Previous(s: seq<SleepEntry>, today: int): seq<SleepEntry> {
    if |s| == 0 then []
    else (if today - 14 <= s[0].date < today - 7 then [s[0]] else []) + Previous(s[1..], today)
  }

  /** The recent window holds exactly the records of the last seven days. */
  lemma {:induction false} RecentWindow(s: seq<SleepEntry>, today: int)
    ensures forall e :: e in Recent(s, today) <==> e in s && e.date >= today - 7
  {
    if |s| > 0 {
      RecentWindow(s[1..], today);
      assert s == [s[0]] + s[1..];
    }
  }

  /** The previous window holds exactly the records of the seven days before. */
  lemma {:induction false} PreviousWindow(s: seq<SleepEntry>, today: int)
    ensures forall e :: e in Previous(s, today) <==> e in s && today - 14 <= e.date < today - 7
  {
    if |s| > 0 {
      PreviousWindow(s[1..], today);
      assert s == [s[0]] + s[1..];
    }
  }

  /** The windows are disjoint: every previous record is older than every recent one. */
  lemma WindowsDisjoint(s: seq<SleepEntry>, today: int)
    ensures forall e, f :: e in Previous(s, today) && f in Recent(s, today) ==> e.date < f.date
  {
    RecentWindow(s, today);
    PreviousWindow(s, today);
  }

  // ----- safe_mean -----

  /** One attribute of every record, None where absent. */
  function Column(s: seq<SleepEntry>, a: Attribute): seq<Option<real>> {
    if |s| == 0 then [] else [Attr(s[0], a)] + Column(s[1..], a)
  }

  lemma {:induction false} ColumnAt(s: seq<SleepEntry>, a: Attribute)
    ensures |Column(s, a)| == |s|
    ensures forall i :: 0 <= i < |s| ==> Column(s, a)[i] == Attr(s[i], a)
  {
    if |s| > 0 {
      ColumnAt(s[1..], a);
    }
  }

  /** The values that are not None, in order. */
  function Present(values: seq<Option<real>>): seq<real> {
    if |values| == 0 then []
    else (if values[0].Some? then [values[0].value] else []) + Present(values[1..])
  }

  lemma {:induction false} PresentMembers(values: seq<Option<real>>)
    ensures forall x :: x in Present(values) <==> Some(x) in values
  {
    if |values| > 0 {
      PresentMembers(values[1..]);
      assert values == [values[0]] + values[1..];
    }
  }

  function Sum(xs: seq<real>): real {
    if |xs| == 0 then 0.0 else xs[0] + Sum(xs[1..])
  }

  /** `safe_mean`: the mean of the values that are not None; None when there are none. */
  function SafeMean(values: seq<Option<real>>): Option<real> {
    var p := Present(values);
    if |p| == 0 then None else Some(Sum(p) / |p| as real)
  }

  lemma {:induction false} PresentEmpty(values: seq<Option<real>>)
    ensures |Present(values)| == 0 <==> forall i :: 0 <= i < |values| ==> values[i].None?
  {
    if |values| > 0 {
      PresentEmpty(values[1..]);
      assert forall i :: 1 <= i < |values| ==> values[i] == values[1..][i - 1];
    }
  }

  /** The mean is None exactly when every value is None. */
  lemma SafeMeanNone(values: seq<Option<real>>)
    ensures SafeMean(values).None? <==> forall i :: 0 <= i < |values| ==> values[i].None?
  {
    PresentEmpty(values);
  }

  lemma {:induction false} SumBounds(xs: seq<real>, lo: real, hi: real)
    requires forall x :: x in xs ==> lo <= x <= hi
    ensures lo * |xs| as real <= Sum(xs) <= hi * |xs| as real
  {
    if |xs| > 0 {
      var n := |xs[1..]| as real;
      assert forall x :: x in xs[1..] ==> x in xs;
      SumBounds(xs[1..], lo, hi);
      assert xs[0] in xs;
      assert lo * |xs| as real == lo + lo * n && hi * |xs| as real == hi + hi * n;
    }
  }

  /** The mean lies between any bounds of the present values. */
  lemma SafeMeanBounds(values: seq<Option<real>>, lo: real, hi: real)
    requires forall x :: Some(x) in values ==> lo <= x <= hi
    requires SafeMean(values).Some?
    ensures lo <= SafeMean(values).value <= hi
  {
    var p := Present(values);
    PresentMembers(values);
    SumBounds(p, lo, hi);
    MeanBetween(Sum(p), |p| as real, lo, hi);
  }

  lemma MeanBetween(total: real, n: real, lo: real, hi: real)
    requires n > 0.0 && lo * n <= total <= hi * n
    ensures lo <= total / n <= hi
  {
    var q := total / n;
    assert q * n == total;
    assert (q - lo) * n >= 0.0;
    assert (hi - q) * n >= 0.0;
  }

  /** The unguarded `/ 60` of a window's mean total sleep: dividing None raises a
      TypeError. */
  function MeanHours(window: seq<SleepEntry>): (r: Result<real>)
    ensures r.Raise? ==> r.exception == TypeError
  {
    var m := SafeMean(Column(window, TotalSleepDuration));
    if m.None? then Raise(TypeError) else Ok(m.value / 60.0)
  }

  /** The division raises exactly when no record of the window has a total. */
  lemma MeanHoursRaises(window: seq<SleepEntry>)
    ensures MeanHours(window).Raise? <==> forall i :: 0 <= i < |window| ==> window[i].totalSleepDuration.None?
  {
    ColumnAt(window, TotalSleepDuration);
    SafeMeanNone(Column(window, TotalSleepDuration));
  }

  // ----- calculate_trend -----

  /** Python truthiness of an optional number. */
  predicate Truthy(x: Option<real>) {
    x.Some? && x.value != 0.0
  }

  /** The percent change from previous to current, when both are truthy. */
  function CalculateTrend(current: Option<real>, previous: Option<real>): (r: Option<real>)
    ensures r.Some? <==> Truthy(current) && Truthy(previous)
    ensures r.Some? ==> previous.value * (1.0 + r.value / 100.0) == current.value
    ensures r.Some? && previous.value > 0.0 ==> (r.value > 0.0 <==> current.value > previous.value)
  {
    if Truthy(current) && Truthy(previous) then
      var c, p := current.value, previous.value;
      var t := ((c - p) / p) * 100.0;
      assert p * (1.0 + t / 100.0) == p + (c - p) by {
        assert t / 100.0 == (c - p) / p;
      }
      assert p > 0.0 ==> ((c - p) / p > 0.0 <==> c - p > 0.0);
      Some(t)
    else None
  }

  // ----- generate_recommendations -----

  const LowScoreAdvice: string := "Your sleep score is low. Aim for a consistent sleep schedule."
  const ShortSleepAdvice: string := "You\U{2019}re sleeping less than 7 hours. Aim for 7-9 hours."
  const LowEfficiencyAdvice: string := "Your sleep efficiency is low. Reduce disturbances."

  /** A truthy value under the threshold. */
  predicate Below(x: Option<real>, bound: real) {
    Truthy(x) && x.value < bound
  }

  /** The recommendations the current metrics call for: one per metric that is truthy
      and below its threshold, each once, in the order score, total sleep, efficiency.
      The length, the three memberships and the first and last positions fix the list. */
  function Advice(m: SleepMetrics): (r: seq<string>)
    ensures |r| == (if Below(m.currentScore, 80.0) then 1 else 0)
      + (if Below(m.currentTotalSleep, 7.0) then 1 else 0)
      + (if Below(m.currentEfficiency, 85.0) then 1 else 0)
    ensures LowScoreAdvice in r <==> Below(m.currentScore, 80.0)
    ensures ShortSleepAdvice in r <==> Below(m.currentTotalSleep, 7.0)
    ensures LowEfficiencyAdvice in r <==> Below(m.currentEfficiency, 85.0)
    ensures Below(m.currentScore, 80.0) ==> r[0] == LowScoreAdvice
    ensures Below(m.currentEfficiency, 85.0) ==> r[|r| - 1] == LowEfficiencyAdvice
  {
    (if Below(m.currentScore, 80.0) then [LowScoreAdvice] else [])
    + (if Below(m.currentTotalSleep, 7.0) then [ShortSleepAdvice] else [])
    + (if Below(m.currentEfficiency, 85.0) then [LowEfficiencyAdvice] else [])
  }

  // ----- update_from_db -----

  /** What `update_from_db` leaves in the two dictionaries, and the exception it
      raised part way, if any. */
  datatype Outcome = Outcome(metrics: SleepMetrics, trends: Trends, raised: Option<Exception>)

  /** The effect of `update_from_db` on the dictionaries m and t, given the records
      already sorted. Each unguarded `/ 60` of None stops the update with a TypeError
      and keeps the entries written before it. */
  function Update(m: SleepMetrics, t: Trends, sorted: seq<SleepEntry>, today: int): Outcome {
    if |sorted| == 0 then Outcome(m, t, None)
    else
      var latest := sorted[|sorted| - 1];
      var withScore := m.(currentScore := latest.sleepScore);
      if latest.totalSleepDuration.None? then Outcome(withScore, t, Some(TypeError))
      else
        var recent := Recent(sorted, today);
        var previous := Previous(sorted, today);
        var current := withScore.(
          currentTotalSleep := Some(latest.totalSleepDuration.value / 60.0),
          currentEfficiency := latest.efficiency,
          avg7dScore := SafeMean(Column(recent, SleepScore)));
        if |recent| > 0 && MeanHours(recent).Raise? then Outcome(current, t, Some(TypeError))
        else
          var averaged := current.(
            avg7dTotalSleep := if |recent| == 0 then None else Some(MeanHours(recent).value),
            avg7dEfficiency := SafeMean(Column(recent, Efficiency)));
          var withScoreTrend := t.(scoreTrend := CalculateTrend(averaged.avg7dScore, SafeMean(Column(previous, SleepScore))));
          if MeanHours(previous).Raise? then Outcome(averaged, withScoreTrend, Some(TypeError))
          else
            Outcome(averaged, withScoreTrend.(
              totalSleepTrend := CalculateTrend(averaged.avg7dTotalSleep, Some(MeanHours(previous).value)),
              efficiencyTrend := CalculateTrend(averaged.avg7dEfficiency, SafeMean(Column(previous, Efficiency)))), None)
  }

  class SleepUserModel {
    var userId: int
    var sleepData: seq<SleepEntry>
    var metrics: SleepMetrics
    var trends: Trends
    var recommendations: seq<string>

    /** A fresh model: no data, every metric and trend None, no recommendations. */
    constructor (id: int)
      ensures userId == id && sleepData == []
      ensures metrics == NoMetrics && trends == NoTrends && recommendations == []
    {
      userId := id;
      sleepData := [];
      metrics := NoMetrics;
      trends := NoTrends;
      recommendations := [];
    }

    /** `update_from_db`, with `today` in place of the clock. A TypeError raised part
        way leaves the assignments made before it in place; `raised` reports it. */
    method UpdateFromDb(data: seq<SleepEntry>, today: int) returns (raised: Option<Exception>)
      modifies this
      ensures |sleepData| == |data|
      ensures SortedByDate(sleepData) && multiset(sleepData) == multiset(data)
      ensures forall d :: OnDate(sleepData, d) == OnDate(data, d)
      ensures userId == old(userId) && recommendations == old(recommendations)
      ensures Outcome(metrics, trends, raised) == Update(old(metrics), old(trends), sleepData, today)
    {
      raised := None;
      var sorted := SortRecords(data);
      sleepData := sorted;
      if |sorted| == 0 {
        return;
      }
      // The two dictionaries are updated entry by entry; m and t hold them until the
      // method stops, normally or at a raise.
      var m, t := metrics, trends;
      var latest := sorted[|sorted| - 1];
      m := m.(currentScore := latest.sleepScore);
      if latest.totalSleepDuration.None? {
        metrics, raised := m, Some(TypeError);
        assert Update(old(metrics), old(trends), sorted, today) == Outcome(m, trends, raised);
        return;
      }
      m := m.(currentTotalSleep := Some(latest.totalSleepDuration.value / 60.0));
      m := m.(currentEfficiency := latest.efficiency);

      var recent := Recent(sorted, today);
      var previous := Previous(sorted, today);

      m := m.(avg7dScore := SafeMean(Column(recent, SleepScore)));
      if |recent| > 0 {
        var hours := MeanHours(recent);
        if hours.Raise? {
          metrics, raised := m, Some(hours.exception);
          assert Update(old(metrics), old(trends), sorted, today) == Outcome(m, trends, raised);
          return;
        }
        m := m.(avg7dTotalSleep := Some(hours.value));
      } else {
        m := m.(avg7dTotalSleep := None);
      }
      m := m.(avg7dEfficiency := SafeMean(Column(recent, Efficiency)));
      metrics := m;

      t := t.(scoreTrend := CalculateTrend(m.avg7dScore, SafeMean(Column(previous, SleepScore))));
      var previousHours := MeanHours(previous);
      if previousHours.Raise? {
        trends, raised := t, Some(previousHours.exception);
        assert Update(old(metrics), old(trends), sorted, today) == Outcome(m, t, raised);
        return;
      }
      t := t.(totalSleepTrend := CalculateTrend(m.avg7dTotalSleep, Some(previousHours.value)));
      t := t.(efficiencyTrend := CalculateTrend(m.avg7dEfficiency, SafeMean(Column(previous, Efficiency))));
      trends := t;
      assert Update(old(metrics), old(trends), sorted, today) == Outcome(m, t, raised);
    }

    /** `generate_recommendations`: the list is rebuilt from the current metrics alone,
        which it leaves unchanged, so running it again gives the same list. */
    method GenerateRecommendations()
      modifies this
      ensures recommendations == Advice(metrics)
      ensures metrics == old(metrics) && trends == old(trends)
      ensures sleepData == old(sleepData) && userId == old(userId)
    {
      recommendations := [];
      if Truthy(metrics.currentScore) && metrics.currentScore.value < 80.0 {
        recommendations := recommendations + [LowScoreAdvice];
      }
      if Truthy(metrics.currentTotalSleep) && metrics.currentTotalSleep.value < 7.0 {
        recommendations := recommendations + [ShortSleepAdvice];
      }
      if Truthy(metrics.currentEfficiency) && metrics.currentEfficiency.value < 85.0 {
        recommendations := recommendations + [LowEfficiencyAdvice];
      }
    }

    /** `to_dict` */
    method ToDict() returns (d: ModelDict)
      ensures d.sleepMetrics == metrics && d.trends == trends
      ensures d.recommendations == recommendations
    {
      d := ModelDict(metrics, trends, recommendations);
    }
  }

  /** A window none of whose records carries a total sleep duration. */
  predicate NoTotals(window: seq<SleepEntry>) {
    forall i :: 0 <= i < |window| ==> window[i].totalSleepDuration.None?
  }

  /** The update raises, always a TypeError, exactly when there are records and the
      latest has no total, or a non-empty recent window has no total, or the previous
      window has no total (an empty previous window included). Without records it
      changes nothing. */
  lemma UpdateRaises(m: SleepMetrics, t: Trends, sorted: seq<SleepEntry>, today: int)
    ensures var u := Update(m, t, sorted, today);
      && (u.raised.None? || u.raised == Some(TypeError))
      && (u.raised.Some? <==>
            |sorted| > 0
            && (sorted[|sorted| - 1].totalSleepDuration.None?
                || (|Recent(sorted, today)| > 0 && NoTotals(Recent(sorted, today)))
                || NoTotals(Previous(sorted, today))))
      && (|sorted| == 0 ==> u == Outcome(m, t, None))
  {
    MeanHoursRaises(Recent(sorted, today));
    MeanHoursRaises(Previous(sorted, today));
  }

  /** The current values come from the last sorted record, which has the latest date:
      its score always, its total in hours and its efficiency once the total is
      present. */
  lemma UpdateCurrentValues(m: SleepMetrics, t: Trends, sorted: seq<SleepEntry>, today: int)
    requires |sorted| > 0
    ensures var u := Update(m, t, sorted, today);
      var latest := sorted[|sorted| - 1];
      && u.metrics.currentScore == latest.sleepScore
      && (latest.totalSleepDuration.Some? ==>
            u.metrics.currentTotalSleep == Some(latest.totalSleepDuration.value / 60.0)
            && u.metrics.currentEfficiency == latest.efficiency)
      && (latest.totalSleepDuration.None? ==>
            u.metrics == m.(currentScore := latest.sleepScore) && u.trends == t)
  {
  }

  /** Once the current total is known, the seven-day average score is None exactly
      when no record of the last seven days has a score, and otherwise lies between
      any bounds of those scores. */
  lemma UpdateAverageScore(m: SleepMetrics, t: Trends, sorted: seq<SleepEntry>, today: int, lo: real, hi: real)
    requires |sorted| > 0 && sorted[|sorted| - 1].totalSleepDuration.Some?
    requires forall e :: e in sorted && e.date >= today - 7 && e.sleepScore.Some? ==> lo <= e.sleepScore.value <= hi
    ensures var avg := Update(m, t, sorted, today).metrics.avg7dScore;
      && (avg.None? <==> forall e :: e in sorted && e.date >= today - 7 ==> e.sleepScore.None?)
      && (avg.Some? ==> lo <= avg.value <= hi)
  {
    var recent := Recent(sorted, today);
    var scores := Column(recent, SleepScore);
    RecentWindow(sorted, today);
    ColumnAt(recent, SleepScore);
    SafeMeanNone(scores);
    forall x | Some(x) in scores
      ensures lo <= x <= hi
    {
      var i :| 0 <= i < |scores| && scores[i] == Some(x);
      assert recent[i] in recent;
    }
    if SafeMean(scores).Some? {
      SafeMeanBounds(scores, lo, hi);
    }
    forall e | e in recent
      ensures exists i :: 0 <= i < |recent| && recent[i] == e
    {
    }
  }

  /** A single record from the last seven days, with its total, makes the update
      raise at the previous window, which is empty. */
  lemma LoneRecentRecordRaises(m: SleepMetrics, t: Trends, e: SleepEntry, today: int)
    requires e.date >= today - 7 && e.totalSleepDuration.Some?
    ensures Update(m, t, [e], today).raised == Some(TypeError)
    ensures Update(m, t, [e], today).metrics.avg7dTotalSleep == Some(e.totalSleepDuration.value / 60.0)
  {
    var v := e.totalSleepDuration.value;
    assert Recent([e], today) == [e];
    assert Previous([e], today) == [];
    assert Column([e], TotalSleepDuration) == [Some(v)];
    assert Present([Some(v)]) == [v];
    assert Sum([v]) == v;
  }
}
