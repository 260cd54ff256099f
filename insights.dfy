/**
 * The "AI Insights" section of `app` (production_tracker.py:152-199): label
 * encoding of the logged history, the feature matrix and targets, the two
 * trained models, and the prediction and anomaly queries.
 */
module Insights {
  import opened Wrappers
  import opened LabelEncoding
  import opened Tables

  /** What `fillna` puts in place of a missing part description. */
  const UnknownPart: string := "Unknown"

  /** The `contamination` the anomaly detector is built with. */
  const Contamination: real := 0.1

  /** `fillna("Unknown")` on one entry of `part_description`. */
  function PartValue(p: Option<string>): (v: string)
    ensures p.Some? ==> v == p.value
    ensures v == UnknownPart <==> p.None? || p.value == UnknownPart
  {
    match p
    case Some(v) => v
    case None => UnknownPart
  }

  function LineColumn(logs: seq<LogRow>): seq<string> {
    seq(|logs|, i requires 0 <= i < |logs| => logs[i].lineId)
  }

  function ActivityColumn(logs: seq<LogRow>): seq<string> {
    seq(|logs|, i requires 0 <= i < |logs| => logs[i].activityType)
  }

  function PartColumn(logs: seq<LogRow>): seq<string> {
    seq(|logs|, i requires 0 <= i < |logs| => PartValue(logs[i].partDescription))
  }

  /** `y = logs["duration_minutes"]` */
  function Durations(logs: seq<LogRow>): (y: seq<nat>)
    ensures |y| == |logs|
    ensures forall i :: 0 <= i < |logs| ==> y[i] == logs[i].durationMinutes
  {
    seq(|logs|, i requires 0 <= i < |logs| => logs[i].durationMinutes)
  }

  /** The classes of `le_line`, `le_activity` and `le_part` after fitting. */
  datatype Encoders = Encoders(line: Classes, activity: Classes, part: Classes)

  /** Each encoder's classes are the sorted distinct values of its column, the part column after `fillna`. */
  function FitEncoders(logs: seq<LogRow>): (e: Encoders)
    ensures IsClassesOf(e.line, LineColumn(logs))
    ensures IsClassesOf(e.activity, ActivityColumn(logs))
    ensures IsClassesOf(e.part, PartColumn(logs))
  {
    Encoders(Fit(LineColumn(logs)), Fit(ActivityColumn(logs)), Fit(PartColumn(logs)))
  }

  /** One row of `X`, or a query vector: (line code, activity code, part code). */
  datatype Features = Features(line: nat, activity: nat, part: nat)

  /** Whether `v` is the encoding of the given line, activity and part value under `e`. */
  predicate Encodes(e: Encoders, v: Features, line: string, activity: string, part: string) {
    && v.line < |e.line| && e.line[v.line] == line
    && v.activity < |e.activity| && e.activity[v.activity] == activity
    && v.part < |e.part| && e.part[v.part] == part
  }

  /**
   * `X = logs[["line_enc", "activity_enc", "part_enc"]]`: one row per log, in log
   * order, each decoding back to that log's line, activity and filled part.
   */
  function FeatureMatrix(logs: seq<LogRow>): (x: seq<Features>)
    ensures |x| == |logs|
    ensures forall i :: 0 <= i < |logs| ==>
              Encodes(FitEncoders(logs), x[i], logs[i].lineId, logs[i].activityType, PartValue(logs[i].partDescription))
  {
    var l, a, p := FitTransform(LineColumn(logs)), FitTransform(ActivityColumn(logs)), FitTransform(PartColumn(logs));
    seq(|logs|, i requires 0 <= i < |logs| => Features(l[i], a[i], p[i]))
  }

  /** Rows of `X` and entries of `y` pair up: row `i` is log `i`'s features and `y[i]` its duration. */
  lemma TrainingPairsAlign(logs: seq<LogRow>, i: nat)
    requires i < |logs|
    ensures |FeatureMatrix(logs)| == |Durations(logs)| == |logs|
    ensures Decode(FitEncoders(logs).line, FeatureMatrix(logs)[i].line) == Some(logs[i].lineId)
    ensures Decode(FitEncoders(logs).activity, FeatureMatrix(logs)[i].activity) == Some(logs[i].activityType)
    ensures Decode(FitEncoders(logs).part, FeatureMatrix(logs)[i].part) == Some(PartValue(logs[i].partDescription))
    ensures Durations(logs)[i] == logs[i].durationMinutes
  {
  }

  /** `RandomForestRegressor().fit(X, y)`, whose internals are not modelled. */
  type RegressorTrainer = (seq<Features>, seq<nat>) -> (Features -> real)

  /** `IsolationForest(contamination).fit(X)`: unsupervised, it sees no durations. */
  type DetectorTrainer = (seq<Features>, real) -> (Features -> int)

  /** The state of one analytics pass: fitted encoders and the two fitted models. */
  datatype Session = Session(encoders: Encoders, predict: Features -> real, detect: Features -> int)

  datatype Analysis = InsufficientData | Fitted(session: Session)

  /**
   * The analytics pass over the logs read on this run: nothing at all when the
   * table is empty; otherwise fresh encoders and both models trained on `X`
   * (and `y` for the regressor).
   */
  function Analyze(logs: seq<LogRow>, fitRegressor: RegressorTrainer, fitDetector: DetectorTrainer): (a: Analysis)
    ensures a.Fitted? <==> |logs| > 0
    ensures a.Fitted? ==> a.session.encoders == FitEncoders(logs)
    ensures a.Fitted? ==> a.session.predict == fitRegressor(FeatureMatrix(logs), Durations(logs))
    ensures a.Fitted? ==> a.session.detect == fitDetector(FeatureMatrix(logs), Contamination)
  {
    if |logs| == 0 then InsufficientData
    else
      var x := FeatureMatrix(logs);
      Fitted(Session(FitEncoders(logs), fitRegressor(x, Durations(logs)), fitDetector(x, Contamination)))
  }

  /** The three inputs of the "Predict for ..." widgets. */
  datatype Query = Query(line: string, activity: string, part: string)

  /** Which `transform` raised its `ValueError`. */
  datatype QueryError = UnseenLine | UnseenActivity

  /**
   * The query vector: the line and the activity must have been logged before
   * (otherwise `transform` raises, line first); an unseen part description
   * falls back to code 0 instead.
   */
  function QueryFeatures(e: Encoders, q: Query): (r: Result<Features, QueryError>)
    ensures r.Success? <==> q.line in e.line && q.activity in e.activity
    ensures r.Failure? ==> (r.error == UnseenLine <==> q.line !in e.line)
    ensures r.Success? ==> && r.value.line < |e.line| && e.line[r.value.line] == q.line
                           && r.value.activity < |e.activity| && e.activity[r.value.activity] == q.activity
    ensures r.Success? && q.part in e.part ==> r.value.part < |e.part| && e.part[r.value.part] == q.part
    ensures r.Success? && q.part !in e.part ==> r.value.part == 0
  {
    match (Encode(e.line, q.line), Encode(e.activity, q.activity))
    case (None, _) => Failure(UnseenLine)
    case (_, None) => Failure(UnseenActivity)
    case (Some(l), Some(a)) =>
      Success(Features(l, a, if q.part in e.part then Code(e.part, q.part) else 0))
  }

  /** The message shown after "Predict Setup Time": a prediction, or the error message. */
  datatype Prediction = Predicted(minutes: real) | PredictionRejected

  datatype Verdict = Normal | Abnormal

  /** The message shown after "Check Anomaly": a verdict, or the error message. */
  datatype AnomalyCheck = Checked(verdict: Verdict) | AnomalyRejected

  /** "Predict Setup Time": the regressor's answer on the query vector, unless the vector cannot be built. */
  function PredictDuration(s: Session, q: Query): (r: Prediction)
    ensures r.Predicted? <==> q.line in s.encoders.line && q.activity in s.encoders.activity
    ensures r.Predicted? ==> QueryFeatures(s.encoders, q).Success? && r.minutes == s.predict(QueryFeatures(s.encoders, q).value)
  {
    match QueryFeatures(s.encoders, q)
    case Success(v) => Predicted(s.predict(v))
    case Failure(_) => PredictionRejected
  }

  /** "Check Anomaly": abnormal exactly when the detector answers `-1`, unless the vector cannot be built. */
  function CheckAnomaly(s: Session, q: Query): (r: AnomalyCheck)
    ensures r.Checked? <==> q.line in s.encoders.line && q.activity in s.encoders.activity
    ensures r.Checked? ==> && QueryFeatures(s.encoders, q).Success?
                           && (r.verdict == Abnormal <==> s.detect(QueryFeatures(s.encoders, q).value) == -1)
  {
    match QueryFeatures(s.encoders, q)
    case Success(v) => Checked(if s.detect(v) == -1 then Abnormal else Normal)
    case Failure(_) => AnomalyRejected
  }

  /** No part description, seen or unseen, makes a query fail: only the line and the activity decide. */
  lemma PartNeverRejects(s: Session, q: Query, otherPart: string)
    ensures PredictDuration(s, q).Predicted? == PredictDuration(s, q.(part := otherPart)).Predicted?
    ensures CheckAnomaly(s, q).Checked? == CheckAnomaly(s, q.(part := otherPart)).Checked?
  {
  }

  /**
   * The fallback code 0 is also the code of the first part class: an unseen part
   * description is indistinguishable from the alphabetically first one.
   */
  lemma FallbackSharesFirstClass(e: Encoders, q: Query)
    requires StrictlySorted(e.part) && |e.part| > 0
    requires q.part !in e.part
    ensures QueryFeatures(e, q) == QueryFeatures(e, q.(part := e.part[0]))
  {
  }

  /**
   * A query that repeats a logged activity is encoded exactly as that log's
   * training row, so the models are asked about the same point they were fit on.
   */
  lemma HistoryQueryMatchesTrainingRow(logs: seq<LogRow>, i: nat)
    requires i < |logs|
    ensures var q := Query(logs[i].lineId, logs[i].activityType, PartValue(logs[i].partDescription));
            QueryFeatures(FitEncoders(logs), q) == Success(FeatureMatrix(logs)[i])
  {
  }

  /**
   * The `logs` DataFrame of one run, to which `app` adds the three encoded
   * columns in place before selecting them as `X`.
   */
  class LogFrame {
    const rows: seq<LogRow>
    var lineEnc: seq<nat>
    var activityEnc: seq<nat>
    var partEnc: seq<nat>

    constructor (rows: seq<LogRow>)
      ensures this.rows == rows
      ensures lineEnc == [] && activityEnc == [] && partEnc == []
    {
      this.rows := rows;
      lineEnc, activityEnc, partEnc := [], [], [];
    }

    predicate HasEncodedColumns()
      reads this
    {
      |lineEnc| == |rows| && |activityEnc| == |rows| && |partEnc| == |rows|
    }

    /** `logs[["line_enc", "activity_enc", "part_enc"]]` */
    function SelectFeatures(): seq<Features>
      reads this
      requires HasEncodedColumns()
    {
      var l, a, p := lineEnc, activityEnc, partEnc;
      seq(|rows|, i requires 0 <= i < |rows| => Features(l[i], a[i], p[i]))
    }

    /**
     * `logs["line_enc"] = le_line.fit_transform(logs["line_id"])` and the two that
     * follow: fits the three encoders, adds their code columns, and returns the
     * fitted classes.
     */
    method EncodeColumns() returns (e: Encoders)
      modifies this
      ensures e == FitEncoders(rows)
      ensures HasEncodedColumns()
      ensures SelectFeatures() == FeatureMatrix(rows)
    {
      var lines, activities, parts := LineColumn(rows), ActivityColumn(rows), PartColumn(rows);
      lineEnc := FitTransform(lines);
      activityEnc := FitTransform(activities);
      partEnc := FitTransform(parts);
      e := Encoders(Fit(lines), Fit(activities), Fit(parts));
      assert forall i :: 0 <= i < |rows| ==> SelectFeatures()[i] == FeatureMatrix(rows)[i];
    }
  }
}
