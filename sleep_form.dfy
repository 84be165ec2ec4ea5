/** The pure parts of the sleep-entry form: the record shapes, the flat record built
    from pasted JSON, the submission payload built from the structured record, the
    constraints the form's inputs declare, and the chart series of stored records. */
module SleepForm {
  import opened Wrappers
  import opened JsValues

  /** The thirteen keys of the flat record, in the order the JSON handler writes them. */
  const FlatKeys: seq<string> := [
    "date", "sleep_score", "hours_slept", "spo2_percentage", "readiness_score",
    "deep_sleep_duration", "rem_sleep_duration", "light_sleep_duration",
    "average_heart_rate", "average_hrv", "active_calories", "steps", "sedentary_time"]

  /** The keys of the structured record's `sleep_metrics` group. */
  const SleepMetricKeys: seq<string> := [
    "total_sleep_duration", "deep_sleep_duration", "rem_sleep_duration", "efficiency",
    "restless_periods", "sleep_midpoint", "bedtime_start", "bedtime_end"]

  /** The `sleep_metrics` keys that must be truthy before anything is posted. */
  const RequiredKeys: seq<string> := [
    "total_sleep_duration", "deep_sleep_duration", "rem_sleep_duration", "efficiency",
    "bedtime_start", "bedtime_end"]

  /** The keys of the `physiological_metrics` group. */
  const PhysiologicalKeys: seq<string> := [
    "lowest_heart_rate", "average_hrv", "resting_heart_rate", "respiratory_rate"]

  /** The `physiological_metrics` keys of the record the close handler installs:
      the first one is spelled `lowest_heartbeat_rate`. */
  const CloseResetPhysiologicalKeys: seq<string> := [
    "lowest_heartbeat_rate", "average_hrv", "resting_heart_rate", "respiratory_rate"]

  type Record = map<string, JsValue>

  function EmptyGroup(keys: seq<string>): map<string, JsValue> {
    map k | k in keys :: Str("")
  }

  /** The structured record with every field empty: `newSleep` at mount and after a
      successful submission. */
  function InitialRecord(): Record {
    map["sleep_metrics" := Obj(EmptyGroup(SleepMetricKeys)),
        "physiological_metrics" := Obj(EmptyGroup(PhysiologicalKeys))]
  }

  /** The record the close handler installs. */
  function CloseResetRecord(): Record {
    map["sleep_metrics" := Obj(EmptyGroup(SleepMetricKeys)),
        "physiological_metrics" := Obj(EmptyGroup(CloseResetPhysiologicalKeys))]
  }

  /** Closing the form does not restore the initial record: its physiological group
      has `lowest_heartbeat_rate` where the initial one has `lowest_heart_rate`. */
  lemma CloseResetDiffersFromInitial()
    ensures CloseResetRecord() != InitialRecord()
    ensures "lowest_heart_rate" in InitialRecord()["physiological_metrics"].fields
    ensures "lowest_heart_rate" !in CloseResetRecord()["physiological_metrics"].fields
    ensures "lowest_heartbeat_rate" in CloseResetRecord()["physiological_metrics"].fields
    ensures CloseResetRecord()["sleep_metrics"] == InitialRecord()["sleep_metrics"]
  {
    var initial, reset := EmptyGroup(PhysiologicalKeys), EmptyGroup(CloseResetPhysiologicalKeys);
    assert "lowest_heart_rate" in PhysiologicalKeys;
    assert "lowest_heart_rate" in initial && "lowest_heart_rate" !in reset;
    assert "lowest_heartbeat_rate" in CloseResetPhysiologicalKeys;
    assert InitialRecord()["physiological_metrics"] == Obj(initial);
    assert CloseResetRecord()["physiological_metrics"] == Obj(reset);
  }

  // ----- the JSON handler's flat record -----

  /** The record the JSON handler stores for a parsed value: each of the thirteen flat
      keys takes `parsedData.key || ''`. Reading a key of null throws, and so does the
      handler. Nested `sleep_metrics`/`physiological_metrics` groups are not kept. */
  function FlatRecordOf(parsed: JsValue): (r: Result<Record>)
    ensures r.Raise? <==> Nullish(parsed)
    ensures r.Ok? ==> r.value.Keys == set k | k in FlatKeys
    ensures r.Ok? ==> "sleep_metrics" !in r.value && "physiological_metrics" !in r.value
    ensures r.Ok? ==> forall k :: k in FlatKeys ==>
      (Truthy(r.value[k]) <==> Truthy(Get(parsed, k).value))
    ensures r.Ok? ==> forall k :: k in FlatKeys && Truthy(r.value[k]) ==>
      r.value[k] == Get(parsed, k).value
    ensures r.Ok? ==> forall k :: k in FlatKeys && !Truthy(r.value[k]) ==>
      r.value[k] == Str("")
  {
    if Nullish(parsed) then Raise(TypeError)
    else Ok(map k | k in FlatKeys :: Or(Get(parsed, k).value, Str("")))
  }

  /** 0, false, null, '' and a missing key all become '' in the flat record. */
  lemma FlatRecordFalsyBecomesEmpty(fields: map<string, JsValue>, k: string)
    requires k in FlatKeys
    requires k !in fields || fields[k] in {Num(0.0), Bool(false), Null, Str("")}
    ensures FlatRecordOf(Obj(fields)).value[k] == Str("")
  {
  }

  /** Pasting the flat record itself back gives the same record: the mapping is
      idempotent. */
  lemma {:induction false} FlatRecordIdempotent(parsed: JsValue)
    requires !Nullish(parsed)
    ensures FlatRecordOf(Obj(FlatRecordOf(parsed).value)) == FlatRecordOf(parsed)
  {
    var r := FlatRecordOf(parsed).value;
    var r2 := FlatRecordOf(Obj(r)).value;
    forall k | k in FlatKeys
      ensures r2[k] == r[k]
    {
      assert Get(Obj(r), k).value == r[k];
    }
    assert r2 == r;
  }

  // ----- the submit handler's payload -----

  datatype SleepMetricsPayload = SleepMetricsPayload(
    totalSleepDuration: JsValue,
    deepSleepDuration: JsValue,
    remSleepDuration: JsValue,
    efficiency: JsValue,
    restlessPeriods: JsValue,
    sleepMidpoint: JsValue,
    bedtimeStart: JsValue,
    bedtimeEnd: JsValue)

  datatype PhysiologicalPayload = PhysiologicalPayload(
    lowestHeartRate: JsValue,
    averageHrv: JsValue,
    restingHeartRate: JsValue,
    respiratoryRate: JsValue)

  /** The object posted to the store, with its two groups. */
  datatype SleepPayload = SleepPayload(
    sleepMetrics: SleepMetricsPayload,
    physiologicalMetrics: PhysiologicalPayload)

  /** What the submit handler does with the current record before any network call:
      throw while reading it, report missing required fields, or post a payload. */
  datatype SubmitPlan = Thrown | MissingRequired | Post(payload: SleepPayload)

  /** The group `newSleep.sleep_metrics` (undefined when the record has none). */
  function SleepGroup(record: Record): JsValue {
    Field(record, "sleep_metrics")
  }

  /** The group `newSleep.physiological_metrics`. */
  function PhysiologicalGroup(record: Record): JsValue {
    Field(record, "physiological_metrics")
  }

  /** A property of a group already known not to be null or undefined. */
  function At(group: JsValue, key: string): JsValue
    requires !Nullish(group)
  {
    Get(group, key).value
  }

  predicate AllRequiredPresent(group: JsValue)
    requires !Nullish(group)
  {
    forall k :: k in RequiredKeys ==> Truthy(At(group, k))
  }

  /** `present ? parse(present) : null` */
  function ParsedOrNull(v: JsValue, integer: bool): (r: JsValue)
    ensures r == Null <==> !Truthy(v)
  {
    if !Truthy(v) then Null else if integer then ParseInt(v) else ParseFloat(v)
  }

  function BuildPayload(sleep: JsValue, physio: JsValue): SleepPayload
    requires !Nullish(sleep) && !Nullish(physio)
  {
    SleepPayload(
      SleepMetricsPayload(
        ParseInt(At(sleep, "total_sleep_duration")),
        ParseInt(At(sleep, "deep_sleep_duration")),
        ParseInt(At(sleep, "rem_sleep_duration")),
        ParseFloat(At(sleep, "efficiency")),
        Or(ParseInt(At(sleep, "restless_periods")), Num(0.0)),
        Or(At(sleep, "sleep_midpoint"), At(sleep, "bedtime_start")),
        At(sleep, "bedtime_start"),
        At(sleep, "bedtime_end")),
      PhysiologicalPayload(
        ParsedOrNull(At(physio, "lowest_heart_rate"), true),
        ParsedOrNull(At(physio, "average_hrv"), false),
        ParsedOrNull(At(physio, "resting_heart_rate"), true),
        ParsedOrNull(At(physio, "respiratory_rate"), false)))
  }

  /** The submit handler up to its network call: the required check over
      `newSleep.sleep_metrics`, then the payload. */
  function PlanSubmission(record: Record): (r: SubmitPlan)
    ensures r.Thrown? <==>
      Nullish(SleepGroup(record)) ||
      (AllRequiredPresent(SleepGroup(record)) && Nullish(PhysiologicalGroup(record)))
    ensures r.MissingRequired? <==>
      !Nullish(SleepGroup(record)) && exists k :: k in RequiredKeys && !Truthy(At(SleepGroup(record), k))
    ensures r.Post? ==> !Nullish(SleepGroup(record)) && AllRequiredPresent(SleepGroup(record))
  {
    var sleep := SleepGroup(record);
    if Nullish(sleep) then Thrown
    else if exists k :: k in RequiredKeys && !Truthy(At(sleep, k)) then MissingRequired
    else
      var physio := PhysiologicalGroup(record);
      if Nullish(physio) then Thrown
      else Post(BuildPayload(sleep, physio))
  }

  /** The three durations go through parseInt, efficiency through parseFloat, and the
      bedtimes are copied unchanged. */
  lemma PayloadCoercion(record: Record)
    requires PlanSubmission(record).Post?
    ensures var p := PlanSubmission(record).payload.sleepMetrics;
      var g := SleepGroup(record);
      && p.totalSleepDuration == ParseInt(At(g, "total_sleep_duration"))
      && p.deepSleepDuration == ParseInt(At(g, "deep_sleep_duration"))
      && p.remSleepDuration == ParseInt(At(g, "rem_sleep_duration"))
      && p.efficiency == ParseFloat(At(g, "efficiency"))
      && p.bedtimeStart == At(g, "bedtime_start") && Truthy(p.bedtimeStart)
      && p.bedtimeEnd == At(g, "bedtime_end") && Truthy(p.bedtimeEnd)
  {
    assert "bedtime_start" in RequiredKeys && "bedtime_end" in RequiredKeys;
  }

  /** An integer typed as text reaches the payload as that integer. */
  lemma PayloadDurationsFromText(record: Record, total: int, deep: int, rem: int, efficiency: int)
    requires PlanSubmission(record).Post?
    requires At(SleepGroup(record), "total_sleep_duration") == Str(IntText(total))
    requires At(SleepGroup(record), "deep_sleep_duration") == Str(IntText(deep))
    requires At(SleepGroup(record), "rem_sleep_duration") == Str(IntText(rem))
    requires At(SleepGroup(record), "efficiency") == Str(IntText(efficiency))
    ensures var p := PlanSubmission(record).payload.sleepMetrics;
      && p.totalSleepDuration == Num(total as real)
      && p.deepSleepDuration == Num(deep as real)
      && p.remSleepDuration == Num(rem as real)
      && p.efficiency == Num(efficiency as real)
  {
    ParseIntOfIntText(total);
    ParseIntOfIntText(deep);
    ParseIntOfIntText(rem);
    ParseFloatOfIntText(efficiency);
  }

  /** `restless_periods` is always a number: 0 whenever parseInt gives NaN (a missing
      or null value, text such as 'a5' or '-', any text without a digit), otherwise the
      number parseInt reads ('5.9' and '5abc' give 5). */
  lemma RestlessPeriodsDefault(record: Record)
    requires PlanSubmission(record).Post?
    ensures var p := PlanSubmission(record).payload.sleepMetrics;
      var input := At(SleepGroup(record), "restless_periods");
      && p.restlessPeriods.Num?
      && (ParseInt(input) == NaN ==> p.restlessPeriods == Num(0.0))
      && (ParseInt(input).Num? ==> p.restlessPeriods == ParseInt(input))
      && (input.Str? && (forall i :: 0 <= i < |input.s| ==> !IsDigit(input.s[i])) ==>
            p.restlessPeriods == Num(0.0))
      && (forall n: int :: input == Str(IntText(n)) ==> p.restlessPeriods == Num(n as real))
  {
    var input := At(SleepGroup(record), "restless_periods");
    if input.Str? && (forall i :: 0 <= i < |input.s| ==> !IsDigit(input.s[i])) {
      ParseIntWithoutDigits(input.s);
    }
    forall n: int | input == Str(IntText(n)) {
      ParseIntOfIntText(n);
    }
  }

  /** `sleep_midpoint` falls back to `bedtime_start` when its own input is empty, so
      the posted midpoint is never empty. */
  lemma MidpointFallsBackToBedtimeStart(record: Record)
    requires PlanSubmission(record).Post?
    ensures var p := PlanSubmission(record).payload.sleepMetrics;
      var g := SleepGroup(record);
      && (!Truthy(At(g, "sleep_midpoint")) ==> p.sleepMidpoint == At(g, "bedtime_start"))
      && (Truthy(At(g, "sleep_midpoint")) ==> p.sleepMidpoint == At(g, "sleep_midpoint"))
      && Truthy(p.sleepMidpoint)
  {
    assert "bedtime_start" in RequiredKeys;
  }

  /** Each physiological field is null exactly when its input is empty, and otherwise
      its parse: integer for the heart rates, float for HRV and respiratory rate. */
  lemma PhysiologicalNullWhenEmpty(record: Record)
    requires PlanSubmission(record).Post?
    ensures var p := PlanSubmission(record).payload.physiologicalMetrics;
      var g := PhysiologicalGroup(record);
      && (p.lowestHeartRate == Null <==> !Truthy(At(g, "lowest_heart_rate")))
      && (p.averageHrv == Null <==> !Truthy(At(g, "average_hrv")))
      && (p.restingHeartRate == Null <==> !Truthy(At(g, "resting_heart_rate")))
      && (p.respiratoryRate == Null <==> !Truthy(At(g, "respiratory_rate")))
      && (Truthy(At(g, "lowest_heart_rate")) ==> p.lowestHeartRate == ParseInt(At(g, "lowest_heart_rate")))
      && (Truthy(At(g, "average_hrv")) ==> p.averageHrv == ParseFloat(At(g, "average_hrv")))
      && (Truthy(At(g, "resting_heart_rate")) ==> p.restingHeartRate == ParseInt(At(g, "resting_heart_rate")))
      && (Truthy(At(g, "respiratory_rate")) ==> p.respiratoryRate == ParseFloat(At(g, "respiratory_rate")))
  {
  }

  /** Submitting a record produced by the JSON handler throws: the flat record has no
      `sleep_metrics` group for the required check to read. */
  lemma FlatRecordSubmissionThrows(parsed: JsValue)
    requires !Nullish(parsed)
    ensures PlanSubmission(FlatRecordOf(parsed).value) == Thrown
  {
  }

  /** Submitting the empty structured record reports missing fields. */
  lemma EmptyStructuredRecordIsIncomplete()
    ensures PlanSubmission(InitialRecord()) == MissingRequired
    ensures PlanSubmission(CloseResetRecord()) == MissingRequired
  {
    assert "total_sleep_duration" in RequiredKeys;
    assert !Truthy(At(SleepGroup(InitialRecord()), "total_sleep_duration"));
    assert !Truthy(At(SleepGroup(CloseResetRecord()), "total_sleep_duration"));
  }

  // ----- the form inputs' declared constraints -----

  /** A step a number input declares; always positive. */
  type Step = r: real | r > 0.0 witness 1.0

  /** One input of the form with the attributes it declares: a date input, or a number
      input with its `min`, its optional `max` and its `step` (1 when none is written). */
  datatype InputSpec =
    | DateInput(key: string, required: bool)
    | NumberInput(key: string, required: bool, min: real, max: Option<real>, step: Step)

  const FormInputs: seq<InputSpec> := [
    DateInput("date", true),
    NumberInput("sleep_score", true, 0.0, Some(100.0), 1.0),
    NumberInput("hours_slept", true, 0.0, Some(24.0), 0.1),
    NumberInput("spo2_percentage", false, 0.0, Some(100.0), 0.1),
    NumberInput("readiness_score", false, 0.0, Some(100.0), 1.0),
    NumberInput("deep_sleep_duration", false, 0.0, None, 1.0),
    NumberInput("rem_sleep_duration", false, 0.0, None, 1.0),
    NumberInput("light_sleep_duration", false, 0.0, None, 1.0),
    NumberInput("average_heart_rate", false, 0.0, None, 0.1),
    NumberInput("average_hrv", false, 0.0, None, 0.1),
    NumberInput("active_calories", false, 0.0, None, 1.0),
    NumberInput("steps", false, 0.0, None, 1.0),
    NumberInput("sedentary_time", false, 0.0, None, 1.0)]

  /** The mantissa of a valid floating-point number in the HTML sense: digits,
      optionally followed by '.' and at least one digit, or '.' and digits alone. Its
      value and the text after it, or None when the text does not start with one. */
  function Mantissa(u: string): Option<(real, string)> {
    var a := DigitRun(u);
    var rest := u[a..];
    var point := |rest| > 0 && rest[0] == '.';
    var b := if point then DigitRun(rest[1..]) else 0;
    if b == 0 && (a == 0 || point) then None
    else
      var fraction := if b == 0 then 0.0 else DigitsValue(rest[1..][..b]) as real / Pow10(b) as real;
      Some((DigitsValue(u[..a]) as real + fraction, if point then rest[1 + b..] else rest))
  }

  /** The factor an exponent ('e' or 'E', an optional sign, digits) stands for, or None
      when the text is not an exponent. */
  function ExponentScale(tail: string): Option<real> {
    if |tail| == 0 || (tail[0] != 'e' && tail[0] != 'E') then None
    else
      var exponent := SplitSign(tail[1..]);
      var digits := exponent.1;
      var c := DigitRun(digits);
      if c == 0 || c < |digits| then None
      else
        assert digits[..c] == digits;
        var power := Pow10(DigitsValue(digits)) as real;
        Some(if exponent.0 then 1.0 / power else power)
  }

  /** The number denoted by text that is a valid floating-point number in the HTML sense:
      an optional '-', a mantissa and an optional exponent. None for any other text,
      which a number input sanitises to ''. */
  function FloatTextValue(s: string): Option<real> {
    var negative := |s| > 0 && s[0] == '-';
    var m := Mantissa(if negative then s[1..] else s);
    if m.None? then None
    else if |m.value.1| == 0 then Some(Signed(negative, m.value.0))
    else
      var scale := ExponentScale(m.value.1);
      if scale.None? then None else Some(Signed(negative, m.value.0 * scale.value))
  }

  /** What a number input shows for a record value. React writes the value as text
      (`String(n)` for a number, always a valid floating-point number) and the browser
      keeps only valid text; null, undefined, booleans and objects show nothing. */
  function ShownNumber(v: JsValue): Option<real> {
    match v
    case Num(n) => Some(n)
    case Str(s) => FloatTextValue(s)
    case _ => None
  }

  function DaysInMonth(year: int, month: int): int {
    if month == 2 then (if year % 400 == 0 || (year % 4 == 0 && year % 100 != 0) then 29 else 28)
    else if month == 4 || month == 6 || month == 9 || month == 11 then 30
    else 31
  }

  /** A valid date string in the HTML sense: a year of four or more digits above 0, '-',
      a two-digit month, '-', and a two-digit day that exists in that month. */
  predicate ValidDateText(s: string) {
    var n := |s|;
    && n >= 10 && s[n - 6] == '-' && s[n - 3] == '-'
    && AllDigits(s[..n - 6]) && AllDigits(s[n - 5..n - 3]) && AllDigits(s[n - 2..])
    && var year, month, day := DigitsValue(s[..n - 6]), DigitsValue(s[n - 5..n - 3]), DigitsValue(s[n - 2..]);
    && year > 0 && 1 <= month <= 12 && 1 <= day <= DaysInMonth(year, month)
  }

  /** A date input shows a date only for a valid date string; any other value is
      sanitised to ''. */
  predicate ShowsDate(v: JsValue) {
    v.Str? && ValidDateText(v.s)
  }

  /** The step constraint: the value is a whole number of steps above the step base,
      which is the input's `min`. */
  predicate OnStep(x: real, base: real, step: Step) {
    var k := (x - base) / step;
    k.Floor as real == k
  }

  /** The input's declared constraints hold of the value the record gives it: a required
      input shows something, and a number shown lies within `min` and `max` and on the
      step. */
  predicate InputSatisfied(spec: InputSpec, v: JsValue) {
    match spec
    case DateInput(_, required) => required ==> ShowsDate(v)
    case NumberInput(_, required, min, max, step) =>
      var shown := ShownNumber(v);
      && (required ==> shown.Some?)
      && (shown.Some? ==>
            && min <= shown.value
            && (max.Some? ==> shown.value <= max.value)
            && OnStep(shown.value, min, step))
  }

  /** Every input's declared constraints hold of the record. */
  predicate FormConstraintsHold(record: Record) {
    forall i :: 0 <= i < |FormInputs| ==> InputSatisfied(FormInputs[i], Field(record, FormInputs[i].key))
  }

  /** The inputs cover exactly the flat keys; the date comes first and the rest are
      number inputs; date, sleep score and hours slept are the required ones; every
      number input has min 0; the scores are bounded by 100 and the hours by 24; hours
      slept, SpO2, heart rate and HRV step by 0.1 and the others by the default 1. */
  lemma FormInputsCoverFlatKeys()
    ensures forall i :: 0 <= i < |FormInputs| ==> FormInputs[i].key == FlatKeys[i]
    ensures forall i :: 0 <= i < |FormInputs| ==> (FormInputs[i].required <==> i < 3)
    ensures forall i :: 0 <= i < |FormInputs| ==> (FormInputs[i].DateInput? <==> i == 0)
    ensures forall i :: 1 <= i < |FormInputs| ==> FormInputs[i].min == 0.0
    ensures forall i :: 1 <= i < |FormInputs| ==>
      FormInputs[i].max == (if i == 2 then Some(24.0) else if i < 5 then Some(100.0) else None)
    ensures forall i :: 1 <= i < |FormInputs| ==>
      FormInputs[i].step == (if i in {2, 3, 8, 9} then 0.1 else 1.0)
  {
  }

  /** A structured record shows no date, so its required date input is never satisfied. */
  lemma StructuredRecordFailsRequiredDate(record: Record)
    requires "date" !in record
    ensures !FormConstraintsHold(record)
  {
    assert !InputSatisfied(FormInputs[0], Field(record, FormInputs[0].key));
  }

  /** A run of digits is a whole mantissa with nothing after it. */
  lemma MantissaOfDigits(d: string)
    requires |d| > 0 && AllDigits(d)
    ensures Mantissa(d) == Some((DigitsValue(d) as real, ""))
  {
    DigitRunOfDigits(d);
    assert d[..|d|] == d;
    assert d[|d|..] == [];
  }

  /** A number input shows back the integer whose decimal text it is given. */
  lemma FloatTextOfIntText(i: int)
    ensures FloatTextValue(IntText(i)) == Some(i as real)
  {
    var n: nat := if i < 0 then -i else i;
    var t, digits := IntText(i), NatText(n);
    var negative := |t| > 0 && t[0] == '-';
    assert negative == (i < 0) && (if negative then t[1..] else t) == digits;
    MantissaOfDigits(digits);
    DigitsValueOfNatText(n);
    assert Mantissa(if negative then t[1..] else t) == Some((n as real, ""));
  }

  /** A number input reads an exponent: '1e3' shows 1000. */
  lemma FloatTextExponent()
    ensures FloatTextValue("1e3") == Some(1000.0)
  {
    assert "1e3"[..1] == "1" && "1e3"[1..] == "e3";
    assert DigitRun("e3") == 0 && DigitRun("1e3") == 1;
    assert Mantissa("1e3") == Some((1.0, "e3"));
    assert "e3"[1..] == "3" && SplitSign("3") == (false, "3") && DigitRun("3") == 1;
    assert "3"[..1] == "3" && DigitsValue("3") == 3 && Pow10(3) == 1000;
    assert ExponentScale("e3") == Some(1000.0);
  }

  /** A number input keeps a fraction, with or without digits before the point. */
  lemma FloatTextFraction()
    ensures FloatTextValue("85.5") == Some(85.5)
    ensures FloatTextValue(".5") == Some(0.5)
  {
    assert "85.5"[..2] == "85" && "85.5"[2..] == ".5" && ".5"[1..] == "5" && "5"[..1] == "5";
    assert DigitRun("5") == 1 && DigitRun("85.5") == 2 && DigitRun(".5") == 0;
    assert DigitsValue("85") == 85 && DigitsValue("5") == 5 && DigitsValue("") == 0;
    assert ".5"[2..] == "" && ".5"[..0] == "" && ".5"[0..] == ".5";
    assert Mantissa("85.5") == Some((85.5, ""));
    assert Mantissa(".5") == Some((0.5, ""));
  }

  /** Text that is not a valid floating-point number shows nothing, although parseFloat
      would read 5 from each of '5abc', '5.', '+5' and ' 5'. */
  lemma FloatTextRejects()
    ensures FloatTextValue("5abc") == None && FloatTextValue("5.") == None
    ensures FloatTextValue("+5") == None && FloatTextValue(" 5") == None
  {
    assert DigitRun("5abc") == 1 && DigitRun("5.") == 1 && DigitRun("") == 0;
    assert "5abc"[1..] == "abc" && "5."[1..] == "." && "."[1..] == "";
    assert Mantissa("5abc") == Some((5.0, "abc")) by {
      assert "5abc"[..1] == "5" && DigitsValue("5") == 5;
    }
    assert ExponentScale("abc") == None;
    assert DigitRun("+5") == 0 && DigitRun(" 5") == 0;
  }

  /** A form that passes its constraints shows a valid date. */
  lemma AcceptedDate(record: Record)
    requires FormConstraintsHold(record)
    ensures ShowsDate(Field(record, "date"))
  {
    var spec := FormInputs[0];
    assert spec == DateInput("date", true);
    assert InputSatisfied(spec, Field(record, spec.key));
  }

  /** A form that passes its constraints shows a whole sleep score in [0,100]. */
  lemma AcceptedScore(record: Record)
    requires FormConstraintsHold(record)
    ensures var score := ShownNumber(Field(record, "sleep_score"));
      score.Some? && 0.0 <= score.value <= 100.0 && score.value.Floor as real == score.value
  {
    var spec := FormInputs[1];
    assert spec == NumberInput("sleep_score", true, 0.0, Some(100.0), 1.0);
    assert InputSatisfied(spec, Field(record, spec.key));
    var x := ShownNumber(Field(record, "sleep_score")).value;
    assert (x - 0.0) / 1.0 == x;
  }

  /** A form that passes its constraints shows hours slept in [0,24], in tenths. */
  lemma AcceptedHours(record: Record)
    requires FormConstraintsHold(record)
    ensures var hours := ShownNumber(Field(record, "hours_slept"));
      hours.Some? && 0.0 <= hours.value <= 24.0 && (hours.value * 10.0).Floor as real == hours.value * 10.0
  {
    var spec := FormInputs[2];
    assert spec == NumberInput("hours_slept", true, 0.0, Some(24.0), 0.1);
    assert InputSatisfied(spec, Field(record, spec.key));
    var x := ShownNumber(Field(record, "hours_slept")).value;
    assert (x - 0.0) / 0.1 == x * 10.0;
  }

  /** The sleep score input steps by 1, so 85.5 is refused whether it is held as a
      number or as text; '5abc' is sanitised to '' and fails the required check. */
  lemma SleepScoreRejections(record: Record)
    requires Field(record, "sleep_score") in {Num(85.5), Str("85.5"), Str("5abc")}
    ensures !FormConstraintsHold(record)
  {
    if Field(record, "sleep_score") == Str("5abc") {
      FloatTextRejects();
    } else {
      FloatTextFraction();
      assert (85.5).Floor == 85;
    }
    if FormConstraintsHold(record) {
      AcceptedScore(record);
      assert false;
    }
  }

  // ----- chart series of stored records -----

  /** `sleepData.map(data => data.key)`: the labels and the sleep-score series. */
  function Series(records: seq<Record>, key: string): (r: seq<JsValue>)
    ensures |r| == |records|
    ensures forall i :: 0 <= i < |r| ==> r[i] == Field(records[i], key)
  {
    seq(|records|, i requires 0 <= i < |records| => Field(records[i], key))
  }

  /** `sleepData.map(data => data.score_components?.component || 0)`: one entry per
      record; a missing, null or zero component is plotted as 0. */
  function ComponentSeries(records: seq<Record>, component: string): (r: seq<JsValue>)
    ensures |r| == |records|
    ensures forall i :: 0 <= i < |r| ==> Truthy(r[i]) || r[i] == Num(0.0)
    ensures forall i :: 0 <= i < |r| ==>
      var c := GetOptional(Field(records[i], "score_components"), component);
      (Truthy(c) ==> r[i] == c) && (!Truthy(c) ==> r[i] == Num(0.0))
  {
    seq(|records|, i requires 0 <= i < |records| =>
      Or(GetOptional(Field(records[i], "score_components"), component), Num(0.0)))
  }

  /** The five component series plotted against the labels. */
  const ComponentKeys: seq<string> := [
    "duration_score", "architecture_score", "efficiency_continuity_score",
    "timing_score", "physiological_score"]

  /** A record without `score_components` plots 0 in every component series. */
  lemma MissingComponentsPlotZero(records: seq<Record>, i: nat, component: string)
    requires i < |records| && "score_components" !in records[i]
    ensures ComponentSeries(records, component)[i] == Num(0.0)
    ensures |ComponentSeries(records, component)| == |Series(records, "date")|
  {
  }
}
