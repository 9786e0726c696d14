/**
  The deployed decision path: the wrapper written by the trainer is the model
  the telemetry handler loads, so the published pump status follows the nearest
  centroid of the saved reading.
 */
module Pipeline {
  import opened Wrappers
  import opened Telemetry
  import opened Trainer

  /** A float matrix as the wrapper receives it: every entry present. */
  function Lift(X: seq<seq<real>>): (r: Matrix)
    ensures |r| == |X|
    ensures forall i :: 0 <= i < |X| ==> |r[i]| == |X[i]| && forall j :: 0 <= j < |X[i]| ==> r[i][j] == Some(X[i][j])
  {
    seq(|X|, i requires 0 <= i < |X| => seq(|X[i]|, j requires 0 <= j < |X[i]| => Some(X[i][j])))
  }

  /** The trained wrapper seen as the handler's model; a matrix of the wrong width makes predict raise. */
  function AsClassifier(m: PumpModel): Classifier {
    Predictor((X: seq<seq<real>>) => if WellFormed(m) && Shaped(X) then Some(Predict(m, Lift(X))) else None)
  }

  /**
    With the trained wrapper loaded, every saved reading leads to a published
    command, and its status is "true" exactly when the reading's nearest centroid
    carries the on-label.
   */
  lemma PublishedStatusFollowsCluster(m: PumpModel, f: Features)
    requires WellFormed(m)
    ensures PumpCommand(AsClassifier(m), f).Some?
    ensures PumpCommand(AsClassifier(m), f).value.payload.fields[PumpStatusKey] == JString("true")
            <==> Assign(m.kmeans, FeatureRow(f)) == m.onLabel
  {
    var row := FeatureRow(f);
    var lifted := Lift([row]);
    assert lifted[0] == seq(|row|, j requires 0 <= j < |row| => Some(row[j]));
    CompleteRowUnchanged(m.imputer.fill, row);
    var prediction := Predict(m, lifted);
    assert AsClassifier(m).predict([row]) == Some(prediction);
  }

  /**
    A telemetry object with numeric temperature, humidity and soil moisture is
    saved with those values, and the command published for it says "true"
    exactly when the vector [temperature, humidity, soil moisture] is assigned
    the on-label.
   */
  lemma NumericMessageCommand(obj: map<string, Value>, parseText: string -> Option<real>, m: PumpModel, t: real, h: real, sm: real)
    requires WellFormed(m)
    requires TemperatureKey in obj && obj[TemperatureKey] == JNumber(t)
    requires HumidityKey in obj && obj[HumidityKey] == JNumber(h)
    requires SoilMoistureKey in obj && obj[SoilMoistureKey] == JNumber(sm)
    ensures Ingest(Some(JObject(obj)), parseText) == Some(Features(t, h, sm))
    ensures PumpCommand(AsClassifier(m), Features(t, h, sm)).Some?
    ensures PumpCommand(AsClassifier(m), Features(t, h, sm)).value.payload.fields[PumpStatusKey] == JString("true")
            <==> Assign(m.kmeans, [t, h, sm]) == m.onLabel
  {
    NumericPayloadIsSaved(obj, parseText, t, h, sm);
    PublishedStatusFollowsCluster(m, Features(t, h, sm));
  }
}
