/**
 * One rerun of the Streamlit script: the database is seeded, then `app` is
 * called once. In that call at most one button was pressed; a submission is
 * handled first, then the logs are read and shown, then the analytics section
 * is built from them.
 */
module Tracker {
  import opened Wrappers
  import opened Tables
  import opened Insights

  /** The button pressed on this run, with the form contents it reads. */
  datatype Action =
    | NoAction
    | SubmitActivity(submission: Submission)
    | PredictSetupTime(query: Query)
    | CheckForAnomaly(query: Query)

  /** The "AI Insights" section: absent for an empty log table, else the answer to a query button, if one was pressed. */
  datatype Panel = NoInsights | InsightsShown(prediction: Option<Prediction>, anomaly: Option<AnomalyCheck>)

  /**
   * What the run shows. `Halted` is the uncaught `IndexError` of a machine the
   * line lacks: the script stops right there.
   */
  datatype Screen = Halted | Shown(submitted: Option<SubmitOutcome>, shownLogs: seq<LogRow>, insights: Panel)

  /** The analytics section built from the logs that were read. */
  function InsightsFor(logs: seq<LogRow>, action: Action, fitRegressor: RegressorTrainer, fitDetector: DetectorTrainer): (p: Panel)
    ensures p.NoInsights? <==> |logs| == 0
    ensures p.InsightsShown? ==> (p.prediction.Some? <==> action.PredictSetupTime?)
    ensures p.InsightsShown? ==> (p.anomaly.Some? <==> action.CheckForAnomaly?)
  {
    match Analyze(logs, fitRegressor, fitDetector)
    case InsufficientData => NoInsights
    case Fitted(s) =>
      InsightsShown(
        if action.PredictSetupTime? then Some(PredictDuration(s, action.query)) else None,
        if action.CheckForAnomaly? then Some(CheckAnomaly(s, action.query)) else None)
  }

  /** A query on an empty log table is never answered, whatever was asked. */
  lemma EmptyLogsAnswerNothing(action: Action, fitRegressor: RegressorTrainer, fitDetector: DetectorTrainer)
    ensures InsightsFor([], action, fitRegressor, fitDetector) == NoInsights
  {
  }

  /**
   * A query naming a line or an activity that has never been logged gets the
   * error message, and neither model is consulted.
   */
  lemma UnseenCategoryRejected(logs: seq<LogRow>, action: Action, fitRegressor: RegressorTrainer, fitDetector: DetectorTrainer)
    requires |logs| > 0 && (action.PredictSetupTime? || action.CheckForAnomaly?)
    requires || (forall i :: 0 <= i < |logs| ==> logs[i].lineId != action.query.line)
             || (forall i :: 0 <= i < |logs| ==> logs[i].activityType != action.query.activity)
    ensures var p := InsightsFor(logs, action, fitRegressor, fitDetector);
            && (action.PredictSetupTime? ==> p.prediction == Some(PredictionRejected))
            && (action.CheckForAnomaly? ==> p.anomaly == Some(AnomalyRejected))
  {
    var e := FitEncoders(logs);
    if action.query.line in e.line {
      assert action.query.line in LineColumn(logs);
      var k :| 0 <= k < |logs| && LineColumn(logs)[k] == action.query.line;
      assert logs[k].lineId == action.query.line;
    }
    if action.query.activity in e.activity {
      assert action.query.activity in ActivityColumn(logs);
      var k :| 0 <= k < |logs| && ActivityColumn(logs)[k] == action.query.activity;
      assert logs[k].activityType == action.query.activity;
    }
  }

  /**
   * A query whose line and activity have both been logged is answered by the
   * models trained on this run's logs, applied to the query's vector.
   */
  lemma AnsweredQueryUsesModels(logs: seq<LogRow>, action: Action, fitRegressor: RegressorTrainer, fitDetector: DetectorTrainer, i: nat, j: nat)
    requires action.PredictSetupTime? || action.CheckForAnomaly?
    requires i < |logs| && logs[i].lineId == action.query.line
    requires j < |logs| && logs[j].activityType == action.query.activity
    ensures var v := QueryFeatures(FitEncoders(logs), action.query);
            var p := InsightsFor(logs, action, fitRegressor, fitDetector);
            && v.Success?
            && (action.PredictSetupTime? ==>
                  p.prediction == Some(Predicted(fitRegressor(FeatureMatrix(logs), Durations(logs))(v.value))))
            && (action.CheckForAnomaly? ==>
                  p.anomaly == Some(Checked(if fitDetector(FeatureMatrix(logs), Contamination)(v.value) == -1 then Abnormal else Normal)))
  {
    assert LineColumn(logs)[i] == action.query.line;
    assert ActivityColumn(logs)[j] == action.query.activity;
  }

  /** One call of `app`: the submission, if any, then the logs and the analytics section. */
  method Run(db: TrackerDb, action: Action, fitRegressor: RegressorTrainer, fitDetector: DetectorTrainer)
    returns (screen: Screen)
    requires db.Valid()
    modifies db
    ensures db.Valid()
    ensures !action.SubmitActivity? ==> unchanged(db)
    ensures action.SubmitActivity? ==>
              var s := action.submission;
              var r := SubmittedLog(old(db.machines), old(db.operators), |old(db.logs)| + 1, s);
              && db.lines == old(db.lines) && db.machines == old(db.machines)
              && db.operators == old(db.operators) + [AddedOperator(old(db.operators), s)]
              && db.logs == (if r.Success? then old(db.logs) + [r.value] else old(db.logs))
              && (screen.Halted? <==> r == Failure(MachineMissing))
              && (screen.Shown? ==> screen.submitted == Some(if r.Success? then Logged else r.error))
    ensures !action.SubmitActivity? ==> screen.Shown? && screen.submitted == None
    ensures screen.Shown? ==>
              && screen.shownLogs == db.logs
              && screen.insights == InsightsFor(db.logs, action, fitRegressor, fitDetector)
  {
    var submitted: Option<SubmitOutcome> := None;
    if action.SubmitActivity? {
      var outcome := db.Submit(action.submission);
      if outcome == MachineMissing {
        return Halted;
      }
      submitted := Some(outcome);
    }
    var logs := db.logs;
    var insights: Panel;
    if |logs| == 0 {
      insights := NoInsights;
    } else {
      var frame := new LogFrame(logs);
      var encoders := frame.EncodeColumns();
      var x := frame.SelectFeatures();
      var session := Session(encoders, fitRegressor(x, Durations(logs)), fitDetector(x, Contamination));
      var prediction := if action.PredictSetupTime? then Some(PredictDuration(session, action.query)) else None;
      var anomaly := if action.CheckForAnomaly? then Some(CheckAnomaly(session, action.query)) else None;
      insights := InsightsShown(prediction, anomaly);
    }
    screen := Shown(submitted, logs, insights);
  }

  /**
   * The script's entry point, run on every rerun: `init_db` seeds the lines
   * (existing ones kept) and appends another full set of machines, then `app`
   * runs once against the seeded tables.
   */
  method RunScript(db: TrackerDb, action: Action, fitRegressor: RegressorTrainer, fitDetector: DetectorTrainer)
    returns (screen: Screen)
    requires db.Valid()
    modifies db
    ensures db.Valid()
    ensures db.lines == SeedLines() + old(db.lines)
    ensures db.machines == old(db.machines) + SeedMachines(|old(db.machines)|, SeededMachineCount)
    ensures !action.SubmitActivity? ==> db.operators == old(db.operators) && db.logs == old(db.logs)
    ensures !action.SubmitActivity? ==> screen.Shown? && screen.submitted == None
    ensures action.SubmitActivity? ==>
              var s := action.submission;
              var r := SubmittedLog(db.machines, old(db.operators), |old(db.logs)| + 1, s);
              && db.operators == old(db.operators) + [AddedOperator(old(db.operators), s)]
              && db.logs == (if r.Success? then old(db.logs) + [r.value] else old(db.logs))
              && (screen.Halted? <==> r == Failure(MachineMissing))
              && (screen.Shown? ==> screen.submitted == Some(if r.Success? then Logged else r.error))
    ensures screen.Shown? ==>
              && screen.shownLogs == db.logs
              && screen.insights == InsightsFor(db.logs, action, fitRegressor, fitDetector)
  {
    db.InitDb();
    screen := Run(db, action, fitRegressor, fitDetector);
  }
}
