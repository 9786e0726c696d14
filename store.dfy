/**
  The reading and session tables as a store updated in place, with the handlers
  that write to them: saving a telemetry message, opening an irrigation session
  from the latest reading, closing a session, and deleting a reading. The clock
  value `now` is a parameter of every operation that records a time.
 */
module SensorStore {
  import opened Wrappers
  import opened Records
  import opened Telemetry

  /** Python truthiness of a float: zero is false, every other value is true. */
  predicate Truthy(x: real) {
    x != 0.0
  }

  /**
    The start condition applied to the latest reading: both temperature and
    humidity must be truthy, so a reading of 0.0 blocks a session. Soil moisture
    is not consulted.
   */
  predicate StartWarranted(r: Reading) {
    Truthy(r.temperature) && Truthy(r.humidity)
  }

  /** `SensorData.objects.last()`: with no ordering declared, the row with the highest primary key. */
  function Latest(readings: seq<Reading>): (r: Option<Reading>)
    requires IdsAscending(readings)
    ensures r.None? <==> readings == []
    ensures r.Some? ==> r.value in readings && forall x :: x in readings ==> x.id <= r.value.id
  {
    if readings == [] then None else Some(readings[|readings| - 1])
  }

  /**
    The session table after the start check: one open session under the fresh key
    `newKey`, referencing the latest reading, starting at `now` with no water used,
    exactly when there is a latest reading and it warrants a start; otherwise the
    table as it was.
   */
  function StartIfWarranted(sessions: map<nat, Session>, newKey: nat, latest: Option<Reading>, now: int): (r: map<nat, Session>)
    requires newKey !in sessions
    ensures sessions.Keys <= r.Keys
    ensures forall k :: k in sessions ==> r[k] == sessions[k]
    ensures r.Keys - sessions.Keys == if latest.Some? && StartWarranted(latest.value) then {newKey} else {}
    ensures newKey in r ==>
      && latest.Some?
      && r[newKey].sensorData == Some(latest.value.id)
      && r[newKey].startTime == now
      && IsOpen(r[newKey])
      && r[newKey].waterUsed == 0.0
  {
    match latest
    case None => sessions
    case Some(reading) =>
      if StartWarranted(reading) then sessions[newKey := Session(Some(reading.id), now)] else sessions
  }

  /**
    The session table after closing session `id` at `now` with `waterUsed`: an
    unknown id changes nothing; a known one gets its end time and water usage and
    keeps its reference and start time, and every other session is untouched.
   */
  function CloseSession(sessions: map<nat, Session>, id: nat, waterUsed: real, now: int): (r: map<nat, Session>)
    ensures id !in sessions ==> r == sessions
    ensures r.Keys == sessions.Keys
    ensures forall k :: k in sessions && k != id ==> r[k] == sessions[k]
    ensures id in sessions ==>
      && r[id].endTime == Some(now)
      && r[id].waterUsed == waterUsed
      && r[id].sensorData == sessions[id].sensorData
      && r[id].startTime == sessions[id].startTime
  {
    if id in sessions then sessions[id := sessions[id].(endTime := Some(now), waterUsed := waterUsed)]
    else sessions
  }

  /**
    The two emptiness rules side by side: the message handler only asks that a
    value be present (not None), while the start check asks that it be truthy. A
    message whose temperature is 0 is therefore saved, and the reading it leaves
    opens no session.
   */
  lemma ZeroTemperatureSavedButBlocksStart(obj: map<string, Value>, parseText: string -> Option<real>, id: nat, now: int)
    requires TemperatureKey in obj && obj[TemperatureKey] == JNumber(0.0)
    requires HumidityKey in obj && obj[HumidityKey].JNumber?
    requires SoilMoistureKey in obj && obj[SoilMoistureKey].JNumber?
    ensures Ingest(Some(JObject(obj)), parseText).Some?
    ensures var f := Ingest(Some(JObject(obj)), parseText).value;
            !StartWarranted(Reading(id, f.temperature, f.humidity, now, f.soilMoisture))
  {
    NumericPayloadIsSaved(obj, parseText, 0.0, obj[HumidityKey].n, obj[SoilMoistureKey].n);
  }

  class Store {
    var readings: seq<Reading>
    var sessions: map<nat, Session>
    var nextReadingId: nat
    var nextSessionId: nat

    /** Keys are issued in increasing order and every session reference names a stored reading. */
    ghost predicate Valid()
      reads this
    {
      && IdsAscending(readings)
      && (forall i :: 0 <= i < |readings| ==> readings[i].id < nextReadingId)
      && (forall k :: k in sessions ==> k < nextSessionId)
      && Integrity(readings, sessions)
    }

    constructor ()
      ensures Valid()
      ensures readings == [] && sessions == map[]
    {
      readings := [];
      sessions := map[];
      nextReadingId := 0;
      nextSessionId := 0;
    }

    /**
      The telemetry handler for one message: save the reading when the payload is
      accepted, then publish the pump command the model yields for it. A discarded
      message saves nothing and publishes nothing; a saved reading stays saved
      whether or not a command follows.
     */
    method OnMessage(parsed: Option<Value>, parseText: string -> Option<real>, model: Classifier, now: int)
      returns (published: Option<Message>)
      requires Valid()
      modifies this
      ensures Valid()
      ensures sessions == old(sessions) && nextSessionId == old(nextSessionId)
      ensures match Ingest(parsed, parseText)
        case None =>
          && readings == old(readings)
          && nextReadingId == old(nextReadingId)
          && published.None?
        case Some(f) =>
          && readings == old(readings) + [Reading(old(nextReadingId), f.temperature, f.humidity, now, f.soilMoisture)]
          && nextReadingId == old(nextReadingId) + 1
          && published == PumpCommand(model, f)
    {
      published := None;
      var accepted := Ingest(parsed, parseText);
      if accepted.Some? {
        var f := accepted.value;
        var reading := Reading(nextReadingId, f.temperature, f.humidity, now, f.soilMoisture);
        readings := readings + [reading];
        nextReadingId := nextReadingId + 1;
        published := PumpCommand(model, f);
      }
    }

    /**
      Open a session from the latest reading when it warrants one; return the new
      session's key, or None when there is no reading or the reading blocks it.
     */
    method CheckAndStartIrrigation(now: int) returns (created: Option<nat>)
      requires Valid()
      modifies this
      ensures Valid()
      ensures readings == old(readings) && nextReadingId == old(nextReadingId)
      ensures sessions == StartIfWarranted(old(sessions), old(nextSessionId), Latest(old(readings)), now)
      ensures created.Some? <==> Latest(old(readings)).Some? && StartWarranted(Latest(old(readings)).value)
      ensures created.Some? ==> created.value == old(nextSessionId) && created.value in sessions
      ensures nextSessionId == if created.Some? then old(nextSessionId) + 1 else old(nextSessionId)
    {
      var latest := Latest(readings);
      created := None;
      if latest.Some? && StartWarranted(latest.value) {
        sessions := StartIfWarranted(sessions, nextSessionId, latest, now);
        created := Some(nextSessionId);
        nextSessionId := nextSessionId + 1;
      }
    }

    /**
      Close session `id` at `now` with the water used. `found` is false, and
      nothing changes, when no session has that key.
     */
    method EndIrrigation(id: nat, waterUsed: real, now: int) returns (found: bool)
      requires Valid()
      modifies this
      ensures Valid()
      ensures found <==> id in old(sessions)
      ensures readings == old(readings) && nextReadingId == old(nextReadingId) && nextSessionId == old(nextSessionId)
      ensures sessions == CloseSession(old(sessions), id, waterUsed, now)
    {
      found := id in sessions;
      if found {
        sessions := CloseSession(sessions, id, waterUsed, now);
      }
    }

    /** Delete the reading with key `id`; the sessions that reference it are deleted with it. */
    method DeleteReading(id: nat)
      requires Valid()
      modifies this
      ensures Valid()
      ensures readings == RemoveReading(old(readings), id)
      ensures sessions == CascadeDelete(old(sessions), id)
      ensures nextReadingId == old(nextReadingId) && nextSessionId == old(nextSessionId)
    {
      CascadePreservesIntegrity(readings, sessions, id);
      readings := RemoveReading(readings, id);
      sessions := CascadeDelete(sessions, id);
    }
  }
}
