# Production tracker: a Dafny model

This project models the logic of `production_tracker.py`, a Streamlit app that
records activity on manufacturing lines (setup, calibration, cleaning, trial
runs, downtime) in a sqlite database and derives two signals from the history:
a predicted duration for a proposed activity, and a normal/abnormal verdict on it.

The model covers:

- **Seeding** (`init_db`). Lines `R1`..`R22` are added with `INSERT OR IGNORE`,
  so a line already present keeps its row and re-seeding leaves `Lines` as it
  was. The 19-entry machine catalog is appended with a plain `INSERT` for every
  line, so each run adds 418 `Machines` rows, in line order and catalog order,
  with consecutive autoincrement ids. The seeding is the method
  `Tables.TrackerDb.InitDb`, whose inner loop is `InsertCatalog`.
- **Submitting an activity** (`Tables.TrackerDb.Submit`).
  - The operator insert always adds a row, because `Operators` has no unique
    column besides its key. That row is committed before anything else can fail.
  - The machine id is the first row with that line and name. A missing machine
    raises an `IndexError` outside the `try`, which stops the run.
  - The operator id is the first matching row, which may be older than the row
    just added.
  - Both times are read as `%H:%M`. Either one failing means no log row.
  - The duration is `(end - start).seconds / 60`, which is
    `(end - start) mod 1440` minutes: an end before the start wraps past
    midnight, and the value is always a whole number of minutes in `[0, 1440)`.
- **Label encoding** (module `LabelEncoding`). An encoder's classes are the
  column's distinct values in Python's string order, and a code is an index
  into them. Fitting depends only on the set of values, so refitting yields the
  same codes. Encoding and decoding are mutual inverses.
- **Analytics** (module `Insights`).
  - There is nothing at all for an empty log table.
  - Otherwise the three encoders are fitted. The code columns are added to the
    logs frame in place (class `LogFrame`). `X` has one row per log, in log
    order, and `y` is the matching durations.
  - The regressor and the anomaly detector are trained by functions passed in
    as parameters.
  - A query vector uses the order (line, activity, part). An unseen part falls
    back to code 0, which is also the code of the first part class. An unseen
    line or activity makes `transform` raise, and the user sees an error
    message instead of an answer.
  - The verdict is abnormal exactly when the detector returns `-1`.
- **One run of the script** (`Tracker.RunScript`): the seeding, then one call
  of `app` (`Tracker.Run`). That call handles the pressed button,
  reads the logs and builds the insights panel, and this is proved equal to the
  functional definition `Tracker.InsightsFor`.

Parameters and outside behaviour:

- Form inputs and the pressed button are parameters.
- Each sqlite table is a field of `Tables.TrackerDb`:
  - `Lines` is a map keyed by `line_id`.
  - The other three tables are sequences.
- The two sklearn models are the trainer functions `RegressorTrainer` and
  `DetectorTrainer`.

Behaviour of the code worth knowing:

- The duration is `(end - start)` wrapped modulo a day, so an end time before
  the start time counts as the next day.
- The encoders are fitted on the logged rows only, so a query naming a line or
  an activity that was never logged is rejected.
- An unseen part description is encoded as 0, which is also the code of the
  first part class (`Insights.FallbackSharesFirstClass`).
- The encoders are rebuilt and both models retrained on every run of the
  script; no fitted model outlives the run.
- Every run of the script calls `init_db` first, so each rerun appends another
  418 machine rows (`Tracker.RunScript`).

The error message shown after a failed prediction asks for "a valid part
description seen in logs". In fact an unseen part never causes that failure
(`Insights.PartNeverRejects`): only the line or the activity does.

## Model

| member | source | states |
|---|---|---|
| `Text.Decimal` | production_tracker.py:85-88 | `str(i)`: at least one ASCII digit, a single digit exactly below 10 |
| `Text.DecimalInjective` | production_tracker.py:85-88 | distinct numbers give distinct decimal strings |
| `Text.Less` | production_tracker.py:160-162 | Python's string order: a string never sorts before itself, and a proper prefix sorts first |
| `Text.LessTransitive` | production_tracker.py:160-162 | Python's string order, used to sort classes, is transitive |
| `Text.LessTotal` | production_tracker.py:160-162 | any two distinct strings are ordered one way or the other |
| `ClockTime.ParseClock` | production_tracker.py:132-133 | `strptime(s, "%H:%M")` accepts only an hour below 24 and a minute below 60 (`None` is the `ValueError`) |
| `ClockTime.ParseIffRendering` | production_tracker.py:132-133 | `strptime(s, "%H:%M")` yields `c` iff `c` is a time of day and `s` spells it, each field plain or zero-padded, with nothing before or after |
| `ClockTime.ParsedIsRendering` | production_tracker.py:132-133 | an accepted string spells the time it yields, so malformed input (`"08:00 "`, `"24:5"`, `""`) raises `ValueError` |
| `ClockTime.RenderingParses` | production_tracker.py:132-133 | every plain or zero-padded spelling of a time of day is accepted as that time |
| `ClockTime.FieldShape` | production_tracker.py:132-133 | one `%H` or `%M` field reads `n` iff it spells `n`, plain or zero-padded, and `n` is within the field's range |
| `ClockTime.PaddedParse` | production_tracker.py:132-133 | a zero-padded `HH:MM` is accepted iff it names a time of day, and it reads back as that time |
| `ClockTime.UnpaddedParse` | production_tracker.py:132-133 | unpadded fields such as `8:5` are accepted and read as the same time |
| `ClockTime.TimedeltaSeconds` | production_tracker.py:134 | `timedelta.seconds` lies in `[0, 86400)` and differs from the raw difference by whole days |
| `ClockTime.DurationMinutes` | production_tracker.py:134 | `(end - start).seconds / 60`: under 1440 minutes, and the seconds divide exactly by 60 |
| `ClockTime.DurationIsForwardDistance` | production_tracker.py:134 | the division by 60 is exact and the duration is `(end - start) mod 1440` minutes |
| `ClockTime.DurationBounds` | production_tracker.py:134 | the duration is in `[0, 1440)`: `end - start` when `end >= start`, `end - start + 1440` when it wraps, `0` for equal times |
| `ClockTime.DurationReachesEnd` | production_tracker.py:134 | start plus the duration lands on the end modulo a day, and it is the only count under a day that does |
| `LabelEncoding.Insert` | production_tracker.py:160-162 | adding a value to sorted classes keeps them sorted and adds exactly that value |
| `LabelEncoding.Fit` | production_tracker.py:160-162 | the classes are strictly sorted and are exactly the column's values |
| `LabelEncoding.SortedClassesUnique` | production_tracker.py:160-162 | two strictly sorted sequences with the same values are equal |
| `LabelEncoding.FitDeterministic` | production_tracker.py:160-162 | columns with the same values, such as a refit on the same column, give the same classes |
| `LabelEncoding.Encode` | production_tracker.py:182-184 | `transform` succeeds iff the value is a class, and gives an index in `[0, k)` holding that value |
| `LabelEncoding.Code` | production_tracker.py:182-184 | the code of a known value is an index in `[0, k)` that holds it |
| `LabelEncoding.Decode` | production_tracker.py:160-162 | a code decodes iff it is below the number of classes |
| `LabelEncoding.DecodeEncode` | production_tracker.py:160-162 | decoding a value's code gives the value back |
| `LabelEncoding.EncodeDecode` | production_tracker.py:160-162 | on fitted classes, encoding the class at index `i` gives `i` |
| `LabelEncoding.FitTransform` | production_tracker.py:160-162 | one code per entry, in column order, each below `k` and decoding to its entry |
| `LabelEncoding.FitTransformIsSortedIndex` | production_tracker.py:160-162 | an entry's code is `k` iff the `k`-th sorted class is that entry |
| `Tables.LineId` | production_tracker.py:86 | `f"R{i}"`: the letter `R` followed by the decimal digits of `i` |
| `Tables.LineDescription` | production_tracker.py:87-88 | `f"Production Line {i}"`: that prefix followed by the decimal digits of `i` |
| `Tables.SeedLines` | production_tracker.py:85-88 | the seeded lines are exactly `R1` to `R22`, each described as "Production Line i" |
| `Tables.SeedMachines` | production_tracker.py:85-91 | `n` rows with consecutive ids after `base`; row `k` belongs to line `R{k/19+1}` and is catalog entry `k mod 19` |
| `Tables.LineIdInjective` | production_tracker.py:85-88 | distinct loop indices give distinct `line_id`s |
| `Tables.SeedLinesBelowHas` | production_tracker.py:85-88 | the first rounds offer exactly `R1` to `R{n-1}`, each described as "Production Line i" |
| `Tables.SeedLinesBelowOnly` | production_tracker.py:85-88 | every key the seeding offers is some `R{i}` |
| `Tables.SeedLinesStep` | production_tracker.py:87-88 | one `INSERT OR IGNORE` round adds `R{i}` unless already present, and then changes nothing |
| `Tables.SeededLines` | production_tracker.py:85-88 | after seeding all 22 lines are present; a newly added line has its own description; nothing else is added |
| `Tables.SeedLinesIdempotent` | production_tracker.py:87-88 | a second seeding leaves `Lines` unchanged |
| `Tables.SeedMachineLayout` | production_tracker.py:85-91 | appended row `(i-1)*19 + j` is catalog entry `j` for line `R{i}`, with the next autoincrement id |
| `Tables.FirstMachine` | production_tracker.py:127 | the index of the first machine with that line and name, or none when no row matches |
| `Tables.FirstOperator` | production_tracker.py:128 | the index of the first operator with that name and line, or none when no row matches |
| `Tables.AddedOperator` | production_tracker.py:123 | the inserted operator takes the next autoincrement id and carries the form's name and line, and once it is in the table the lookup by name and line succeeds |
| `Tables.OperatorLookupAfterInsert` | production_tracker.py:123-128 | after the insert the lookup cannot fail, and it finds the earliest matching operator |
| `Tables.SubmittedLog` | production_tracker.py:126-142 | a submission's log row, or why it has none; a logged duration is under a day |
| `Tables.SubmissionOutcomes` | production_tracker.py:121-145 | a row is logged iff the machine exists and both times parse; otherwise the machine error or the time error; a logged row's ids and wrapped duration |
| `Tables.TrackerDb.constructor` | production_tracker.py:16-59 | a new database has four empty tables |
| `Tables.TrackerDb.InitDb` | production_tracker.py:85-91 | `Lines` becomes the seeded lines overridden by existing rows, 418 catalog rows are appended, and nothing else changes |
| `Tables.TrackerDb.InsertCatalog` | production_tracker.py:89-91 | the 19 catalog rows for one line are appended in order |
| `Tables.TrackerDb.Submit` | production_tracker.py:121-145 | the operator row is always added; the log row is appended only on success; `Lines` and `Machines` are unchanged |
| `Insights.FitEncoders` | production_tracker.py:156-162 | each encoder's classes are the sorted distinct values of its column, part taken after `fillna("Unknown")` |
| `Insights.PartValue` | production_tracker.py:162 | `fillna("Unknown")`: a present part is kept; the result is "Unknown" iff the part is missing or is "Unknown" |
| `Insights.Durations` | production_tracker.py:165 | `y`: one entry per log, in log order, equal to that log's duration |
| `Insights.FeatureMatrix` | production_tracker.py:164 | one row per log, in log order, decoding to that log's (line, activity, part) |
| `Insights.TrainingPairsAlign` | production_tracker.py:164-165 | `X` row `i` decodes to log `i` and `y[i]` is log `i`'s duration |
| `Insights.Analyze` | production_tracker.py:154-173 | models exist iff the log table is non-empty; the encoders are refitted on the logs, the regressor is trained on `X` and `y`, the detector on `X` with contamination 0.1 |
| `Insights.QueryFeatures` | production_tracker.py:182-184 | the vector is built iff line and activity were logged (line checked first); it decodes to the query; an unseen part gets code 0 |
| `Insights.PredictDuration` | production_tracker.py:180-187 | a prediction iff line and activity are known, and then it is the regressor's value on the query vector |
| `Insights.CheckAnomaly` | production_tracker.py:189-199 | a verdict iff line and activity are known; abnormal exactly when the detector returns `-1` |
| `Insights.PartNeverRejects` | production_tracker.py:184 | whether a query succeeds does not depend on its part description |
| `Insights.FallbackSharesFirstClass` | production_tracker.py:184 | an unseen part yields the same vector as the first part class |
| `Insights.HistoryQueryMatchesTrainingRow` | production_tracker.py:160-184 | a query repeating log `i` is encoded exactly as `X` row `i` |
| `Insights.LogFrame.constructor` | production_tracker.py:149 | the frame holds the logs read, with no code columns yet |
| `Insights.LogFrame.EncodeColumns` | production_tracker.py:160-164 | adds the three code columns in place; the returned classes are the fitted encoders and the selected columns are `X` |
| `Tracker.InsightsFor` | production_tracker.py:152-199 | no panel iff the logs are empty; an answer is present iff its button was pressed (what it says: `AnsweredQueryUsesModels`, `UnseenCategoryRejected`) |
| `Tracker.EmptyLogsAnswerNothing` | production_tracker.py:154 | with no logs, no query is answered |
| `Tracker.UnseenCategoryRejected` | production_tracker.py:180-199 | a query whose line or activity was never logged gets the error message from either button |
| `Tracker.AnsweredQueryUsesModels` | production_tracker.py:180-199 | a query whose line and activity were logged is answered with the regressor's value on its vector, or the detector's verdict on it (abnormal iff `-1`), both models trained on this run's logs |
| `Tracker.RunScript` | production_tracker.py:206-208 | the lines are seeded and 418 machine rows appended; then `app` runs on the seeded tables, with a submission's machine looked up among them |
| `Tracker.Run` | production_tracker.py:99-201 | a submission changes the tables as `Submit` does and otherwise nothing changes; a missing machine halts the run; the shown logs and panel agree with `InsightsFor` |

## Left out

- sqlite connections, commits, the `CREATE TABLE` statements and `pd.read_sql`: the tables are in-memory fields, and a new database starts empty.
- Streamlit widgets and message texts. Form contents and the pressed button are parameters. Rejections are the values `PredictionRejected` and `AnomalyRejected`.
- The options offered by the select boxes are not modelled. In the script they restrict the form: the line is always a `Lines` row (line 112) and the machine one of that line's machines (line 114), so after seeding `Halted` cannot be reached from the form. The model accepts any form contents, which covers every choice the select boxes allow. The duplicated machine names after repeated seeding appear only in those options.
- `RandomForestRegressor` and `IsolationForest` internals: they are random and floating point. Their training is a parameter function, so the model does not capture that two runs can predict differently.
- `machine_id` and `operator_id` are read back as `numpy.int64`, which sqlite3 does not bind as an integer (it stores such a value as a BLOB). The model keeps both ids as integers; this binding is not modelled.
- `duration_minutes` is stored as a float. The model keeps it as integer minutes, which is exact at `HH:MM` resolution.
- ClockTime.ParseClock: does not accept non-ASCII decimal digits. Python's `\d` in `strptime` matches them, and that is Unicode library behaviour.
- Table row order: a `SELECT` without `ORDER BY` is taken to return rows in insertion order. Autoincrement keys are taken to be position plus one, which holds because nothing is ever deleted.
- The `logs` table display (`st.dataframe`) is the `shownLogs` field of the screen only.
