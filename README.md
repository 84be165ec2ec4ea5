# naplett sleep tracker: a verified Dafny model

naplett records nightly sleep data and turns it into advice. This project models its rule-based core and proves properties of it. The core has three parts.

- **The add-sleep form of the React dashboard.**
  - The JSON paste handler builds a flat 13-key record.
  - The per-field handlers edit one key at a time.
  - The submit handler checks the six required structured fields. It then builds the payload: parseInt/parseFloat coercion, defaults and null fallbacks.
  - The reset and error transitions are modelled too.
  - The chart series of stored records are modelled.
- **The backend `SleepUserModel`.**
  - Records are sorted by date with a stable sort.
  - The current values come from the latest record.
  - Seven-day averages are taken over two disjoint date windows, with a None-skipping mean.
  - Percent trends are guarded.
  - There are up to three threshold recommendations.
- **The command-line advice pipeline.**
  - It picks the newest data file by the timestamp in its name, and the user directory by number.
  - There are two rule engines. One is modular (`src/recommendation_engine.py`). The other is richer (main.py): it adds balance, pattern, lifestyle and profile rules.
  - The text health report comes in two editions, one built by loops over tables and one written out line by line.

## How the model is organised

| file | models |
|---|---|
| `wrappers.dfy` | `Option`, and `Result` with the Python/JavaScript exceptions that occur (`TypeError`, `ZeroDivisionError`) |
| `js_values.dfy` | JavaScript values, truthiness, property access, and `parseInt`/`parseFloat` over decimal text |
| `sleep_form.dfy` | the record shapes, the flat JSON record, the submission payload, the form inputs' attributes (required, min, max, step) with the browser's value sanitising, the chart series |
| `add_session.dfy` | the dashboard's add-session state as a class, with its handlers as methods |
| `user_model.dfy` | `SleepUserModel` as a class over a pure specification of `update_from_db` |
| `text.dfy`, `wording.dfy`, `messages.dfy` | report text as lines of pieces. Fixed texts are named phrases and numbers keep their value and format. |
| `rows.dfy` | the merged table's rows (a map from column to value, where a missing key means absent or NaN), score bands, and the advice record |
| `profile.dfy` | gender, height and weight read off the name of the working directory's parent, and the BMI test |
| `engine_basic.dfy`, `engine_full.dfy` | the two rule engines: section methods proved against list functions, and the rule lemmas |
| `report_parts.dfy`, `report_basic.dfy`, `report_full.dfy` | the report as a function of the latest row and the advice, the loops of both editions, and the shape lemmas |
| `latest_file.dfy` | the timestamp sort key, the latest-file choice and the directory selection |

Where the source is imperative, the model is imperative too:
- the state holders are classes whose methods update fields;
- the list-building code is methods that append step by step.

Each of these methods is proved equal to a pure function of its inputs, and the lemmas state what that function promises. Numbers are `real`. An absent or NaN value is a missing key.

## Model

| member | source | states |
|---|---|---|
| AddSession.FailureMessage | frontend/src/Dashboard.js:89 | the error shown after a failed POST is the server's error text when it has one, otherwise "Error adding sleep data"; never empty |
| AddSession.ReachableShapeNeverPosts | frontend/src/Dashboard.js:53-57 | no record the handlers can produce is ever posted: the flat JSON record makes the required check throw, and the structured one always lacks required fields |
| AddSession.AddSleepSession.constructor | frontend/src/Dashboard.js:12-32 | at mount the record is the empty structured record, the error and JSON text are empty, and the form is hidden |
| AddSession.AddSleepSession.OpenForm | frontend/src/Dashboard.js:203 | opening the form shows it and changes nothing else |
| AddSession.AddSleepSession.HandleJsonInputChange | frontend/src/AddSleepActivityModal.js:16-40 | jsonInput always becomes the raw text. Unparseable text, or JSON null, sets 'Invalid JSON format' and keeps the record. A parse replaces the record with the flat record and clears the error. |
| AddSession.AddSleepSession.EditField | frontend/src/AddSleepActivityModal.js:74-203 | editing one input sets only that key; every other key and all other state keep their values |
| AddSession.AddSleepSession.HandleAddSleep | frontend/src/Dashboard.js:51-92 | a payload is posted exactly when the plan is Post. Missing fields set the required-fields error and change nothing else. On success the record, error, form and JSON text are reset. On failure only the error changes, plus the logged-in flag on a 401. From any reachable state nothing is posted. |
| AddSession.AddSleepSession.HandleClose | frontend/src/Dashboard.js:107-115 | hides the form and clears the JSON text and error; the installed record differs from the initial one |
| SleepForm.CloseResetDiffersFromInitial | frontend/src/Dashboard.js:110-113 | the close handler's record has `lowest_heartbeat_rate` where the initial record has `lowest_heart_rate`, so the two differ while their sleep groups agree |
| SleepForm.FlatRecordOf | frontend/src/AddSleepActivityModal.js:20-35 | it throws exactly for null or undefined. Otherwise the record has exactly the 13 flat keys and no nested groups. Each key holds the parsed value when that value is truthy, and '' otherwise. |
| SleepForm.FlatRecordFalsyBecomesEmpty | frontend/src/AddSleepActivityModal.js:22-34 | 0, false, null, '' and a missing key all become '' |
| SleepForm.FlatRecordIdempotent | frontend/src/AddSleepActivityModal.js:21-35 | pasting the flat record back gives the same record |
| SleepForm.ParsedOrNull | frontend/src/Dashboard.js:71-74 | a physiological value is null exactly when its input is falsy |
| SleepForm.PlanSubmission | frontend/src/Dashboard.js:53-76 | the handler throws exactly when the sleep group is missing, or when all required fields are present and the physiological group is missing. Missing required fields are reported exactly when some required field is falsy. A payload is built only when all six are truthy. |
| SleepForm.PayloadCoercion | frontend/src/Dashboard.js:59-69 | durations go through parseInt and efficiency through parseFloat; the bedtimes are copied unchanged and are non-empty |
| SleepForm.PayloadDurationsFromText | frontend/src/Dashboard.js:61-64 | an integer typed as text reaches the payload as that integer |
| SleepForm.RestlessPeriodsDefault | frontend/src/Dashboard.js:65 | `restless_periods` is always a number. It is 0 whenever parseInt gives NaN: a missing or null value, text such as 'a5' or '-', or any text without a digit. Otherwise it is the number parseInt reads, so '5.9' and '5abc' give 5. |
| SleepForm.MidpointFallsBackToBedtimeStart | frontend/src/Dashboard.js:66 | the midpoint is its own input when that is truthy, otherwise `bedtime_start`; it is never empty |
| SleepForm.PhysiologicalNullWhenEmpty | frontend/src/Dashboard.js:70-75 | each physiological field is null iff its input is empty. Otherwise the heart rates are parsed as integers, and HRV and respiratory rate as floats. |
| SleepForm.FlatRecordSubmissionThrows | frontend/src/Dashboard.js:53-54 | submitting a record produced by the JSON handler throws in the required check |
| SleepForm.EmptyStructuredRecordIsIncomplete | frontend/src/Dashboard.js:53-57 | submitting the initial record, or the close handler's record, reports missing fields |
| SleepForm.FormInputsCoverFlatKeys | frontend/src/AddSleepActivityModal.js:69-206 | the inputs cover the 13 flat keys in order: the date input first, then number inputs. Only date, sleep score and hours slept are required. Every number input has min 0. The max is 100 for the three scores and 24 for hours slept. Hours slept, SpO2, heart rate and HRV step by 0.1, and the rest by the default 1. |
| SleepForm.FloatTextOfIntText | frontend/src/AddSleepActivityModal.js:80-88 | a number input shows back the integer whose decimal text it holds |
| SleepForm.FloatTextExponent | frontend/src/AddSleepActivityModal.js:80-88 | a number input reads an exponent: '1e3' shows 1000 |
| SleepForm.FloatTextFraction | frontend/src/AddSleepActivityModal.js:92-101 | a number input keeps a fraction, with or without digits before the point: '85.5' and '.5' |
| SleepForm.FloatTextRejects | frontend/src/AddSleepActivityModal.js:80-88 | text that is not a valid floating-point number ('5abc', '5.', '+5', ' 5') is sanitised to nothing |
| SleepForm.AcceptedDate | frontend/src/AddSleepActivityModal.js:69-76 | a form that passes its constraints shows a valid date string |
| SleepForm.AcceptedScore | frontend/src/AddSleepActivityModal.js:78-88 | a form that passes its constraints shows a whole sleep score in [0,100] |
| SleepForm.AcceptedHours | frontend/src/AddSleepActivityModal.js:90-101 | a form that passes its constraints shows hours slept in [0,24], in tenths |
| SleepForm.SleepScoreRejections | frontend/src/AddSleepActivityModal.js:80-88 | a sleep score of 85.5, as a number or as text, is off the default step 1; '5abc' shows nothing and fails `required`. Either way the form is refused. |
| SleepForm.StructuredRecordFailsRequiredDate | frontend/src/AddSleepActivityModal.js:69-76 | a record without `date` never satisfies the required date input |
| SleepForm.Series | frontend/src/Dashboard.js:118-119 | one entry per stored record, each the record's field |
| SleepForm.ComponentSeries | frontend/src/Dashboard.js:120-124 | one entry per stored record: the component when truthy, else 0 |
| SleepForm.MissingComponentsPlotZero | frontend/src/Dashboard.js:118-124 | a record without score components plots 0, and every component series has the length of the labels |
| JsValues.ParseInt | frontend/src/Dashboard.js:61-65 | parseInt always yields a number or NaN |
| JsValues.ParseFloat | frontend/src/Dashboard.js:64 | parseFloat always yields a number or NaN |
| JsValues.Trunc | frontend/src/Dashboard.js:61 | parseInt of a number keeps its integer part, truncating toward zero |
| JsValues.ParseIntOfIntText | frontend/src/Dashboard.js:61-63 | parseInt reads back exactly the integer whose decimal text it is given |
| JsValues.ParseFloatOfIntText | frontend/src/Dashboard.js:64 | parseFloat reads back the whole number from an integer's text |
| JsValues.ParseIntWithoutDigits | frontend/src/Dashboard.js:65 | text without a digit, such as '', parses to NaN |
| JsValues.ParsersSkipJsSpace | frontend/src/Dashboard.js:61-65 | parseInt and parseFloat pass over any leading JavaScript white space, including the vertical tab and the no-break space that JSON does not count |
| UserModel.SortByDate | backend/user_model.py:23 | the sorted records are a permutation of the input |
| UserModel.SortByDateIsSorted | backend/user_model.py:23 | the sorted records are in ascending date order |
| UserModel.SortByDateIsStable | backend/user_model.py:23 | records of the same date keep their input order |
| UserModel.SortRecords | backend/user_model.py:23 | the result is date-ordered, a permutation of the input, and stable, which fixes it uniquely |
| UserModel.LastIsLatest | backend/user_model.py:27 | the last sorted record has the latest date of all records |
| UserModel.RecentWindow | backend/user_model.py:34 | the recent window holds exactly the records dated on or after today - 7 |
| UserModel.PreviousWindow | backend/user_model.py:35 | the previous window holds exactly the records dated in [today - 14, today - 7) |
| UserModel.WindowsDisjoint | backend/user_model.py:34-35 | every previous-window record is older than every recent-window record |
| UserModel.PresentMembers | backend/user_model.py:38 | the values averaged are exactly the non-None ones |
| UserModel.SafeMeanNone | backend/user_model.py:37-39 | the mean is None exactly when every value is None |
| UserModel.SafeMeanBounds | backend/user_model.py:37-39 | the mean lies between any bounds of the present values |
| UserModel.MeanHours | backend/user_model.py:42 | the unguarded `/ 60` can only raise a TypeError |
| UserModel.MeanHoursRaises | backend/user_model.py:42 | the `/ 60` raises exactly when no record of the window has a total |
| UserModel.CalculateTrend | backend/user_model.py:45-48 | a trend exists iff both values are truthy. It is the percent change (previous·(1 + t/100) = current), positive iff current exceeds a positive previous. |
| UserModel.Advice | backend/user_model.py:54-61 | each message is present iff its metric is truthy and below its threshold (score 80, sleep 7 h, efficiency 85). The length is the number of metrics below threshold, so each message appears once and nothing else does. The score message comes first and the efficiency message last, which fixes the whole list. |
| UserModel.SleepUserModel.constructor | backend/user_model.py:4-20 | a fresh model has no data, every metric and trend None, and no recommendations |
| UserModel.SleepUserModel.UpdateFromDb | backend/user_model.py:22-52 | the stored data becomes the stable date-sort of the input. The metrics, trends and raised exception are those of the update specification; the user id and recommendations are unchanged. |
| UserModel.SleepUserModel.GenerateRecommendations | backend/user_model.py:54-61 | the list is rebuilt from the current metrics alone, which it leaves unchanged, so running it twice gives the same list |
| UserModel.SleepUserModel.ToDict | backend/user_model.py:63-68 | the dictionary carries the current metrics, trends and recommendations |
| UserModel.UpdateRaises | backend/user_model.py:22-52 | the update raises, always a TypeError, iff there are records and one of three things holds: the latest record has no total, a non-empty recent window has no totals, or the previous window has no totals. Without records nothing changes. |
| UserModel.UpdateCurrentValues | backend/user_model.py:27-30 | the current score always comes from the latest record. With a total present, the current total (in hours) and the efficiency come from it too. Without a total the update stops after the score. |
| UserModel.UpdateAverageScore | backend/user_model.py:41 | the seven-day score is None iff no recent record has a score, and otherwise lies within the bounds of those scores |
| UserModel.LoneRecentRecordRaises | backend/user_model.py:51 | a single recent record with a total sets the seven-day total, then raises at the empty previous window |
| Text.FemaleContainsMale | src/recommendation_engine.py:18 | every text containing FEMALE contains MALE |
| Text.Repeat | src/report_generator.py:10 | `c * n` has length n and every character is c |
| Rows.PresentValues | main.py:465 | the column's non-missing values are exactly the values rows hold, at most one per row |
| Rows.CountBelow | main.py:474 | the count of rows below a bound never exceeds the number of rows |
| Rows.BandRanges | src/recommendation_engine.py:26-33 | each band (excellent, good, moderate, low) is exactly its half-open score range |
| Rows.BandMonotone | src/recommendation_engine.py:26-33 | a higher score never falls into a lower band |
| Profile.NeverFemale | main.py:290-293 | the gender is never female, and a name containing FEMALE reads as male |
| Profile.NumberBeforeFinds | main.py:297-303 | a number written before `_FT`/`_LB`, after text without digits, is the number read |
| Profile.NumberBeforeNeedsSuffix | main.py:297-303 | without the suffix in the name nothing is read |
| Profile.BmiInWholeNumbers | main.py:538-541 | the BMI test raises ZeroDivisionError iff the height is 0. Otherwise it holds iff 703·weight > 25·(12·height)². |
| Profile.ProfileReadsHeight | main.py:296-301 | a name such as `..._5_FT...` gives height 5 |
| Profile.ProfileReadsWeight | main.py:296-303 | a name such as `..._5_FT_180_LB...` gives weight 180; the height's digits are passed over |
| EngineBasic.TipsComplete | src/recommendation_engine.py:38-46 | every advice phrase of every contributor below 70 is given |
| EngineBasic.TipsSound | src/recommendation_engine.py:38-46 | every tip given belongs to a contributor below 70 |
| EngineBasic.DeepLabel | src/recommendation_engine.py:46 | `contributors_deep_sleep.split('_')[1]` is "deep" |
| EngineBasic.RemLabel | src/recommendation_engine.py:46 | the REM contributor's label is "rem" |
| EngineBasic.EfficiencyLabel | src/recommendation_engine.py:46 | the efficiency contributor's label is "efficiency" |
| EngineBasic.LatencyLabel | src/recommendation_engine.py:46 | the latency contributor's label is "latency" |
| EngineBasic.TimingLabel | src/recommendation_engine.py:46 | the timing contributor's label is "timing" |
| EngineBasic.Recommend | src/recommendation_engine.py:11-13 | empty recent data gives four empty categories, no alerts and no insights |
| EngineBasic.SleepSection | src/recommendation_engine.py:24-50 | the sleep section yields exactly the sleep recommendations, decline alert and sleep insight of the specification |
| EngineBasic.RecoverySection | src/recommendation_engine.py:53-80 | the readiness section appends exactly the recovery recommendations, readiness alert and readiness insight |
| EngineBasic.ActivitySection | src/recommendation_engine.py:83-100 | the activity section yields the activity recommendations and appends the activity insight |
| EngineBasic.VitalsSection | src/recommendation_engine.py:106-124 | the closing checks append the oxygen alert or insight, the HRV insight and the hydration recommendation |
| EngineBasic.ExtendTips | src/recommendation_engine.py:38-46 | the contributor loop appends exactly the tips of the table, in table order |
| EngineBasic.GenerateRecommendations | src/recommendation_engine.py:5-126 | the engine's result is the advice specification for the recent table |
| EngineBasic.SleepRules | src/recommendation_engine.py:35-50 | below 60 the two base sleep recommendations come first, otherwise at most one is given. The decline recommendation appears once iff the score is present and the trend is below -10. |
| EngineBasic.RecoveryRules | src/recommendation_engine.py:64-80 | below 60 the two base recovery recommendations come first. The decline recommendation appears once iff readiness is present and its trend is below -15. |
| EngineBasic.ActivityRules | src/recommendation_engine.py:94-100 | below 60 the two base recommendations come first, and there is nothing otherwise. There are three recommendations iff steps are also present and below 5000. |
| EngineBasic.OneSleepInsight | src/recommendation_engine.py:24-33 | exactly one sleep-score insight iff the sleep score is present |
| EngineBasic.OneReadinessInsight | src/recommendation_engine.py:53-62 | exactly one readiness insight iff the readiness score is present |
| EngineBasic.OneActivityInsight | src/recommendation_engine.py:83-92 | exactly one activity insight iff the activity score is present |
| EngineBasic.SleepInsightFirst | src/recommendation_engine.py:24-27 | a present sleep score gives the first insight |
| EngineBasic.OxygenAlertOrInsight | src/recommendation_engine.py:106-110 | a present SpO2 value gives one alert below 95 and one insight otherwise, never both |
| EngineBasic.DeclineAlerts | src/recommendation_engine.py:48-80 | the sleep decline alert appears once iff the sleep score is present and its trend is below -10. The readiness alert appears once iff readiness is present and its trend is below -15. |
| EngineBasic.HydrationRule | src/recommendation_engine.py:123-124 | hydration is the only general recommendation, given iff there is data and readiness is present and below 70 |
| EngineBasic.AdviceBounds | src/recommendation_engine.py:24-124 | at most five insights and three alerts |
| EngineBasic.OnlyLatestCounts | src/recommendation_engine.py:15 | only the last row of the recent table matters |
| EngineFull.NightsAfterLowHrv | main.py:456 | the nights after low-HRV days are drawn from the table's rows, each dated the day after a low-HRV row, and there are no more of them than rows |
| EngineFull.Recommend | main.py:281-286 | empty recent data gives empty advice |
| EngineFull.AddSleepContributorAdvice | main.py:322-345 | appends each sleep contributor's fixed texts when it is below 70, in the order checked |
| EngineFull.AddRecoveryContributorAdvice | main.py:370-388 | appends each readiness contributor's fixed texts when it is below 70, in the order checked |
| EngineFull.SleepSection | main.py:306-351 | yields the sleep recommendations, decline alert and sleep insight of the specification |
| EngineFull.RecoverySection | main.py:353-394 | appends the recovery recommendations, readiness alert and readiness insight |
| EngineFull.ActivitySection | main.py:396-432 | yields the activity recommendations, including the high-activity branch, and appends the activity insight |
| EngineFull.BalanceSection | main.py:436-460 | yields the balance advice and the HRV-sleep advice, and appends their insights |
| EngineFull.PatternSection | main.py:464-486 | appends the poor-sleep, overtraining and HRV-decline texts exactly when each pattern holds |
| EngineFull.HealthMetricsSection | main.py:490-522 | appends the oxygen advice and alert, the oxygen and HRV insights, the fundamentals and hydration |
| EngineFull.ProfileSection | main.py:526-542 | appends the gender texts and the weight text, or raises when the BMI divides by zero |
| EngineFull.GenerateRecommendations | main.py:268-544 | the engine's result is the advice specification, the raised exception included |
| EngineFull.DeepSleepRule | main.py:318-326 | the deep-sleep texts are given iff sleep is below 60 and the deep-sleep contributor is below 70 |
| EngineFull.ActivityRules | main.py:409-432 | below 60 the base pair comes first. The balancing pair is given iff activity is above 90 and readiness is below 70. Otherwise nothing is given. |
| EngineFull.BalanceRule | main.py:437-446 | the sleep-ahead texts are given iff sleep leads by more than 30, and the activity-ahead texts iff activity leads by more than 30. The insight and the advice always go together. |
| EngineFull.LifestyleRule | main.py:512-522 | hydration needs all three scores and readiness below 70. The fundamentals need all three scores with a sum below 180. |
| EngineFull.HydrationNeedsAllScores | main.py:512-522 | a row with only a readiness score of 65 gets hydration from the modular engine but nothing from this one |
| EngineFull.GenderSleepRule | main.py:527-530 | the male deep-sleep text is given iff the name contains MALE and deep sleep is below 70 |
| EngineFull.FemaleTextUnreachable | main.py:531-533 | the female HRV text is never given |
| EngineFull.WeightRule | main.py:536-542 | the weight text is given iff height and weight are parsed, the height is above 0, and the whole-number BMI test holds. A parsed height of 0 with a weight raises ZeroDivisionError. |
| EngineFull.RaisesOnlyForZeroHeight | main.py:536-539 | the engine raises iff there is data and the name gives a weight and a height of 0 feet |
| EngineFull.PoorSleepIgnoresEarlier | main.py:465-467 | the poor-sleep streak depends only on the last three sleep scores |
| EngineFull.PoorSleepStreakFound | main.py:465-469 | three final nights below 60 make a streak, whatever came before |
| EngineFull.HrvDeclineIgnoresLater | main.py:481-486 | the HRV decline depends only on the first five readings |
| EngineFull.NightsAfterLowHrvFilter | main.py:455-456 | the selected nights are exactly the rows dated the day after a row with HRV below 70 |
| EngineFull.NoLinkWithoutLowHrv | main.py:449-460 | without a low-HRV row there is no HRV-sleep link |
| EngineFull.OvertrainingNeedsLowReadiness | main.py:472-478 | the overtraining rule needs two distinct rows with readiness below 60 |
| EngineFull.AlertsExtendBasic | main.py:464-496 | when no pattern fires, the alerts are those of the modular engine |
| EngineFull.InsightsExtendBasic | main.py:434-460 | without an imbalance or an HRV-sleep link, the insights are those of the modular engine |
| EngineFull.AdviceBounds | main.py:306-507 | at most seven insights and six alerts |
| ReportParts.AppendBulleted | src/report_generator.py:38-39 | the loop appends each insight with a bullet, in order |
| ReportParts.AppendAlerts | src/report_generator.py:45-46 | the loop appends the alerts verbatim, in order |
| ReportParts.AppendNumbered | src/report_generator.py:60-61 | the loop appends the recommendations numbered from 1 |
| ReportParts.AppendCategory | src/report_generator.py:58-61 | appends a category's title and numbered recommendations only when it has any |
| ReportParts.AppendInsightsSection | src/report_generator.py:36-40 | appends the insights section only when there are insights |
| ReportParts.AppendAlertsSection | src/report_generator.py:43-47 | appends the alerts section only when there are alerts |
| ReportParts.NoDataText | src/report_generator.py:5-6 | without data the text is the single no-data message |
| ReportParts.FramedByRules | src/report_generator.py:9-86 | with data the text opens and closes with a line of 80 '=' |
| ReportParts.InsightsShape | src/report_generator.py:36-40 | the section is absent iff there are no insights. Otherwise it is the banner, then every insight bulleted in order, then a blank line. |
| ReportParts.AlertsShape | src/report_generator.py:43-47 | the section is absent iff there are no alerts. Otherwise it is the banner, then the alerts verbatim in order. |
| ReportParts.NumberedFromOne | src/report_generator.py:60-61 | the i-th recommendation is numbered first + i |
| ReportParts.CategoryShape | src/report_generator.py:58-61 | a category block is absent iff it is empty; otherwise its title and then recommendations numbered 1, 2, … |
| ReportParts.CategoryOrder | src/report_generator.py:50-63 | the section is present iff some category is non-empty. It lists sleep, activity, recovery and general, in that order. |
| ReportParts.ArrowRule | src/report_generator.py:75 | the arrow is ↑ iff the trend is positive, so 0 shows ↓ |
| ReportParts.TrendLinesPresent | src/report_generator.py:73-76 | the trend lines are exactly those of the table's present keys |
| ReportParts.StepsUnits | src/report_generator.py:29-31 | steps are truncated and shown with "/100" in the modular report, but with no unit in main.py's |
| ReportParts.EditionsAgree | main.py:547-665 | without steps and calories the two programs print the same report |
| ReportBasic.AppendStatus | src/report_generator.py:27-31 | the metrics loop appends one line per present status value, in table order |
| ReportBasic.AppendBlocks | src/report_generator.py:52-61 | the category loop appends the non-empty categories in order |
| ReportBasic.AppendRecommendationsSection | src/report_generator.py:50-63 | appends the recommendations section only when some category is non-empty |
| ReportBasic.AppendTrends | src/report_generator.py:73-76 | the trends loop appends one line per present trend, in table order |
| ReportBasic.GenerateHealthReport | src/report_generator.py:3-86 | the returned text is the report specification joined by newlines |
| ReportFull.AppendStatus | main.py:568-584 | appends one status line per present value, in the fixed order |
| ReportFull.AppendScoreStatus | main.py:568-575 | appends the lines for the three present scores |
| ReportFull.AppendCountStatus | main.py:577-584 | after the scores, appends the steps, calories and oxygen lines that are present |
| ReportFull.AppendTrends | main.py:643-657 | appends one line per present trend, in the fixed order |
| ReportFull.AppendRecommendationsSection | main.py:607-636 | appends the recommendations section only when some category is non-empty |
| ReportFull.GenerateHealthReport | main.py:547-665 | the returned text is the report specification joined by newlines |
| LatestFile.StampFromIsStamp | src/utils.py:43-44 | the sort key is empty or a timestamp standing in the name |
| LatestFile.KeyFindsStamp | src/utils.py:43 | a timestamp written after text without digits is the key read |
| LatestFile.NoStampWithoutDigits | src/utils.py:44 | a name without digits has the empty key |
| LatestFile.MatchingMembers | src/utils.py:38 | the candidates are exactly the listed names the pattern matches |
| LatestFile.Latest | src/utils.py:42-45 | the chosen position is within the list |
| LatestFile.LatestIsFirstMaximum | src/utils.py:42-45 | no name has a greater key, and every earlier name has a strictly smaller key, so ties go to the first |
| LatestFile.FindLatestFileChooses | src/utils.py:36-46 | None iff no listed name matches. Otherwise the result is the directory joined with a matching name whose key no match exceeds. |
| LatestFile.StampedNamesWin | src/utils.py:43-45 | a name without a timestamp is chosen only when no candidate has one |
| LatestFile.JoinAddsSlash | src/utils.py:46 | the directory and the name are joined with one slash |
| LatestFile.Selection | src/utils.py:26-27 | a selection is accepted iff 1 ≤ n ≤ the number of directories, and yields the (n−1)th |
| LatestFile.EveryDirectorySelectable | src/utils.py:26-29 | every listed directory is selected by its position counted from 1 |

## Left out

**Outside the model (I/O and foreign calls)**
- Network calls. axios GET, POST and DELETE are not modelled; the POST outcome is a parameter of `HandleAddSleep`. The data fetch after a success, `handleClearData` and `window.confirm` are not modelled.
- Rendering and UI libraries. React rendering, react-bootstrap and Chart.js options are not modelled; only the series data is.
- `JSON.parse`. It is a parameter (`Option<JsValue>`), with the requirement that blank text does not parse (RFC 8259, section 2).
- The clock. `datetime.now()` is replaced by a `today` parameter; dates are whole days.
- Console and terminal. `print`, `input`, `sys.exit`, the listing loop, and `os.listdir`/`os.path.isdir` are not modelled. The listing is a parameter, and only the range rule of the selection is modelled.
- Regular expressions.
  - The file pattern's `re.match` is the `matches` parameter.
  - The timestamp search is written out for ASCII digits; Python's `\d` also matches other Unicode digits.
  - The `(\d+)_FT` / `(\d+)_LB` searches are likewise ASCII-only.
- Paths. `os.path.join(archive_path, ...)` of the selected directory is not modelled, nor is `os.path.abspath('.')`. The full engine takes the base name of the working directory's parent as a parameter. That is `dirname(abspath('.'))`, not the user directory picked at the prompt.
- pandas.
  - The table is a sequence of rows, and `latest` is the last row.
  - A NaN or absent column is a missing key, so an all-NaN column behaves like an absent one. The code never distinguishes the two beyond the `dropna` lists.
  - `recent_df is None` is treated like an empty table.
- Data loading and analysis. CSV loading, merging, rolling means and `save_report` are not modelled.

**Left to parameters or outside the number model**
- Overtraining statistics. The steps mean plus one standard deviation (main.py 473) needs floating-point statistics. The count of high-activity days is therefore the parameter `highActivityDays`; the low-readiness count is modelled.
- Number formatting. Float text, `round`, `abs(round(...))`, `int(...)` of a value, and `strftime` are not rendered. A report line keeps the number with its format tag.
- JsValues.ParseIntText: parseInt's hexadecimal `0x` prefix is not modelled, nor are number-to-text conversions of huge or tiny numbers (exponent notation).
- JsValues.ParseFloatText: exponents and `Infinity` are not modelled.
- Form inputs and floating point. The step and range checks are exact over the reals, whereas browsers compare doubles. An exponent too large for a double is read as its exact value.
- Form inputs and arrays. React writes an array as its `String` text, so `[5]` would show 5 in a number input. The model shows nothing for arrays and objects.

**Behaviour differences and unused code**
- The unused profile. `src/recommendation_engine.py` computes a user profile (lines 16-21) that none of its rules read. Only main.py's profile is modelled; both read FEMALE as male.
- Missing ORM fields. The stored ORM record (backend/models.py) has no `total_sleep_duration` or `efficiency`, so with real stored rows `update_from_db` raises an AttributeError at line 29. The model takes records that carry these fields. Each may be None.
- Other add-session handlers. The JSON handler and the per-field handlers run in the modal. The model gives them the dashboard's state directly; React's batching of state updates is not modelled.
