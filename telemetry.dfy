/**
  The decision logic of the telemetry handler: reading the three sensor fields
  out of a decoded JSON payload, converting them to floats, and turning the
  classifier's prediction into the command published to the pump.
 */
module Telemetry {
  import opened Wrappers

  /** A decoded JSON value. */
  datatype Value =
    | JNull
    | JBool(b: bool)
    | JNumber(n: real)
    | JString(s: string)
    | JArray(items: seq<Value>)
    | JObject(fields: map<string, Value>)

  const SoilMoistureKey := "soil_moisture"
  const MoistureKey := "moisture"
  const HumidityKey := "humidity"
  const TemperatureKey := "temperature"
  const PumpStatusKey := "pump_status"
  const ControlTopic := "pump/control"

  /** Python's `dict.get(key)`: a missing key and a JSON null both read as None (JNull). */
  function Get(obj: map<string, Value>, key: string): Value {
    if key in obj then obj[key] else JNull
  }

  predicate IsNone(v: Value) {
    v.JNull?
  }

  /**
    The soil moisture value: the `soil_moisture` entry when it is present and not
    None, otherwise whatever `moisture` holds. A present 0 is kept.
   */
  function SoilMoistureField(obj: map<string, Value>): (v: Value)
    ensures SoilMoistureKey in obj && !IsNone(obj[SoilMoistureKey]) ==> v == obj[SoilMoistureKey]
    ensures (SoilMoistureKey !in obj || IsNone(obj[SoilMoistureKey])) ==>
              (MoistureKey in obj ==> v == obj[MoistureKey]) && (MoistureKey !in obj ==> IsNone(v))
  {
    var sm := Get(obj, SoilMoistureKey);
    if IsNone(sm) then Get(obj, MoistureKey) else sm
  }

  /** The three raw sensor values, before float conversion. */
  datatype Fields = Fields(soilMoisture: Value, humidity: Value, temperature: Value)

  function ExtractFields(obj: map<string, Value>): Fields {
    Fields(SoilMoistureField(obj), Get(obj, HumidityKey), Get(obj, TemperatureKey))
  }

  /** The handler's acceptance test: every field is something other than None. */
  predicate Complete(f: Fields) {
    !IsNone(f.soilMoisture) && !IsNone(f.humidity) && !IsNone(f.temperature)
  }

  /**
    Python's `float(v)` on a decoded JSON value; None stands for the exception it
    raises. Text is handed to `parseText`, which stands for Python's parsing of a
    float literal.
   */
  function ToFloat(v: Value, parseText: string -> Option<real>): Option<real> {
    match v
    case JNumber(n) => Some(n)
    case JBool(b) => Some(if b then 1.0 else 0.0)
    case JString(s) => parseText(s)
    case _ => None
  }

  /** The float-converted sensor values that a saved reading holds. */
  datatype Features = Features(temperature: real, humidity: real, soilMoisture: real)

  /** The feature row `[temperature, humidity, soil_moisture]` given to the classifier. */
  function FeatureRow(f: Features): seq<real> {
    [f.temperature, f.humidity, f.soilMoisture]
  }

  /**
    What the handler saves for one message, or None when it saves nothing:
    `parsed` is None when the payload is not valid JSON. A payload that is not an
    object, lacks a field, or holds a value that float() rejects is discarded.
   */
  function Ingest(parsed: Option<Value>, parseText: string -> Option<real>): (r: Option<Features>)
    ensures r.Some? <==>
      && parsed.Some? && parsed.value.JObject?
      && Complete(ExtractFields(parsed.value.fields))
      && ToFloat(Get(parsed.value.fields, TemperatureKey), parseText).Some?
      && ToFloat(Get(parsed.value.fields, HumidityKey), parseText).Some?
      && ToFloat(SoilMoistureField(parsed.value.fields), parseText).Some?
    ensures r.Some? ==>
      var obj := parsed.value.fields;
      && r.value.temperature == ToFloat(Get(obj, TemperatureKey), parseText).value
      && r.value.humidity == ToFloat(Get(obj, HumidityKey), parseText).value
      && r.value.soilMoisture == ToFloat(SoilMoistureField(obj), parseText).value
  {
    match parsed
    case None => None
    case Some(v) =>
      if !v.JObject? then None
      else
        var f := ExtractFields(v.fields);
        if !Complete(f) then None
        else
          var t := ToFloat(f.temperature, parseText);
          var h := ToFloat(f.humidity, parseText);
          var sm := ToFloat(f.soilMoisture, parseText);
          if t.None? || h.None? || sm.None? then None
          else Some(Features(t.value, h.value, sm.value))
  }

  /** A payload missing temperature, humidity, or both soil moisture keys is discarded. */
  lemma IncompleteIsDiscarded(obj: map<string, Value>, parseText: string -> Option<real>)
    requires || TemperatureKey !in obj
             || HumidityKey !in obj
             || (SoilMoistureKey !in obj && MoistureKey !in obj)
    ensures Ingest(Some(JObject(obj)), parseText) == None
  {
  }

  /** A payload whose three fields are JSON numbers is saved with exactly those numbers. */
  lemma NumericPayloadIsSaved(obj: map<string, Value>, parseText: string -> Option<real>, t: real, h: real, sm: real)
    requires TemperatureKey in obj && obj[TemperatureKey] == JNumber(t)
    requires HumidityKey in obj && obj[HumidityKey] == JNumber(h)
    requires || (SoilMoistureKey in obj && obj[SoilMoistureKey] == JNumber(sm))
             || (SoilMoistureKey !in obj && MoistureKey in obj && obj[MoistureKey] == JNumber(sm))
    ensures Ingest(Some(JObject(obj)), parseText) == Some(Features(t, h, sm))
  {
  }

  /** The loaded model: one without a `predict` attribute, or a prediction function
      whose None result stands for an exception raised inside it. */
  datatype Classifier =
    | NoPredict
    | Predictor(predict: seq<seq<real>> -> Option<seq<int>>)

  /** An outbound message. */
  datatype Message = Message(topic: string, payload: Value)

  /** The status text sent to the pump firmware for a prediction. */
  function StatusText(prediction: int): (s: string)
    ensures s == "true" || s == "false"
    ensures s == "true" <==> prediction == 1
  {
    if prediction == 1 then "true" else "false"
  }

  /**
    The command published for a saved reading, or None when nothing is published:
    the model has no `predict`, its prediction raised, or the prediction is empty
    (indexing it raises).
   */
  function PumpCommand(model: Classifier, f: Features): (m: Option<Message>)
    ensures m.Some? <==>
      model.Predictor? && model.predict([FeatureRow(f)]).Some? && |model.predict([FeatureRow(f)]).value| > 0
    ensures m.Some? ==>
      && m.value.topic == ControlTopic
      && m.value.payload.JObject?
      && m.value.payload.fields.Keys == {PumpStatusKey}
      && (m.value.payload.fields[PumpStatusKey] == JString("true") || m.value.payload.fields[PumpStatusKey] == JString("false"))
      && (m.value.payload.fields[PumpStatusKey] == JString("true") <==> model.predict([FeatureRow(f)]).value[0] == 1)
  {
    match model
    case NoPredict => None
    case Predictor(predict) =>
      var prediction := predict([FeatureRow(f)]);
      if prediction.None? || |prediction.value| == 0 then None
      else
        var status := StatusText(prediction.value[0]);
        Some(Message(ControlTopic, JObject(map[PumpStatusKey := JString(status)])))
  }
}
