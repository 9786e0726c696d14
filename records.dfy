/**
  The two tables of the sensor_data application: sensor readings and irrigation
  sessions, with the defaults of their columns and the cascading foreign key from
  a session to the reading that triggered it.
 */
module Records {
  import opened Wrappers

  /** Column default of SensorData.soil_moisture. */
  const DefaultSoilMoisture: real := 0.0

  /** Column default of Irrigation.water_used. */
  const DefaultWaterUsed: real := 0.0

  /**
    One SensorData row. `id` is the auto-incremented primary key and `timestamp`
    the clock value recorded when the row is first saved; rows are values and are
    never updated afterwards.
   */
  datatype Reading = Reading(
    id: nat,
    temperature: real,
    humidity: real,
    timestamp: int,
    soilMoisture: real := DefaultSoilMoisture)

  /**
    One Irrigation row; its primary key is the key under which the session table
    holds it. `sensorData` is the nullable reference to a reading and an absent
    `endTime` means the session is still open.
   */
  datatype Session = Session(
    sensorData: Option<nat>,
    startTime: int,
    endTime: Option<int> := None,
    waterUsed: real := DefaultWaterUsed)

  predicate IsOpen(s: Session) {
    s.endTime.None?
  }

  /** A reading saved without a soil moisture value holds the column default. */
  lemma SoilMoistureDefault(id: nat, temperature: real, humidity: real, timestamp: int)
    ensures Reading(id, temperature, humidity, timestamp).soilMoisture == 0.0
    ensures Reading(id, temperature, humidity, timestamp).temperature == temperature
    ensures Reading(id, temperature, humidity, timestamp).humidity == humidity
  {
  }

  /** A session created with only its reference and start time is open and has used no water. */
  lemma SessionDefaults(sensorData: Option<nat>, startTime: int)
    ensures IsOpen(Session(sensorData, startTime))
    ensures Session(sensorData, startTime).waterUsed == 0.0
    ensures Session(sensorData, startTime).sensorData == sensorData
  {
  }

  /** Primary keys of the readings in table order. */
  predicate IdsAscending(readings: seq<Reading>) {
    forall i, j :: 0 <= i < j < |readings| ==> readings[i].id < readings[j].id
  }

  function ReadingIds(readings: seq<Reading>): set<nat> {
    set r | r in readings :: r.id
  }

  /** Every non-null session reference names a stored reading. */
  predicate Integrity(readings: seq<Reading>, sessions: map<nat, Session>) {
    forall k :: k in sessions && sessions[k].sensorData.Some? ==>
      sessions[k].sensorData.value in ReadingIds(readings)
  }

  /** The reading table with the row whose primary key is `id` deleted. */
  function RemoveReading(readings: seq<Reading>, id: nat): (r: seq<Reading>)
    ensures forall x :: x in r <==> x in readings && x.id != id
    ensures IdsAscending(readings) ==> IdsAscending(r)
    ensures ReadingIds(r) == ReadingIds(readings) - {id}
  {
    if readings == [] then []
    else
      var rest := RemoveReading(readings[1..], id);
      assert forall x :: x in readings <==> x == readings[0] || x in readings[1..];
      if readings[0].id == id then rest else [readings[0]] + rest
  }

  /**
    The session table after the reading `readingId` is deleted: the foreign key
    cascades, so exactly the sessions that reference that reading go with it.
   */
  function CascadeDelete(sessions: map<nat, Session>, readingId: nat): (r: map<nat, Session>)
    ensures forall k :: k in r <==> k in sessions && sessions[k].sensorData != Some(readingId)
    ensures forall k :: k in r ==> r[k] == sessions[k]
  {
    map k | k in sessions && sessions[k].sensorData != Some(readingId) :: sessions[k]
  }

  /** Deleting a reading together with its dependent sessions keeps every reference valid. */
  lemma CascadePreservesIntegrity(readings: seq<Reading>, sessions: map<nat, Session>, id: nat)
    requires Integrity(readings, sessions)
    ensures Integrity(RemoveReading(readings, id), CascadeDelete(sessions, id))
    ensures forall k :: k in CascadeDelete(sessions, id) ==> CascadeDelete(sessions, id)[k].sensorData != Some(id)
  {
  }
}
