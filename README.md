# Irrigation controller decision logic in Dafny

This project models the decision logic of a small irrigation controller built on Django and scikit-learn. It has three parts:

- **Telemetry handling** (`sensor_data/views.py`). A sensor message is a JSON object. The handler reads temperature, humidity and soil moisture from it; soil moisture comes from `soil_moisture`, or from `moisture` when that key is missing or null. The message is accepted only when all three values are present and `float()` accepts them. An accepted message saves exactly one reading. The handler then asks the loaded model for a prediction and publishes `{"pump_status": "true"|"false"}` to `pump/control`.
- **The reading and session tables** (`sensor_data/views.py`, `sensor_data/models.py`). These form a store that is updated in place (class `SensorStore.Store`). An irrigation session is opened from the latest reading, closed by its id, and deleted along with its reading through the cascading foreign key. The chart page gets the ten newest readings as four aligned series.
- **The offline trainer** (`train_pump_model.py`). It turns stored rows into a feature matrix and fills missing entries per column. It picks as the pump-on cluster the one with the lower mean soil moisture; an empty cluster counts as +infinity and ties go to 1. Its wrapper's `predict` maps each row's cluster to 0/1.

One module depends on all three. `Pipeline` loads the trained wrapper as the handler's model and proves that the published status follows the nearest centroid of the reading.

Modules and files: `Wrappers` (wrappers.dfy), `Records` (records.dfy), `Telemetry` (telemetry.dfy), `SensorStore` (store.dfy), `Charts` (charts.dfy), `Trainer` (trainer.dfy), `Pipeline` (pipeline.dfy).

How the model represents the source:
- JSON values are the datatype `Telemetry.Value`. Python's `None` is `JNull`, and `dict.get` on a missing key also gives `JNull`.
- `float()` is the partial function `Telemetry.ToFloat`; `None` stands for a raised exception. How Python parses a float out of text is the parameter `parseText`.
- The clock (`timezone.now()`) is the parameter `now`.
- The model loaded with joblib is the datatype `Telemetry.Classifier`. It either has no `predict`, or has a prediction function whose `None` result stands for an exception.
- The k-means fit (centroids and training labels) and the imputer's medians are inputs. Assigning a new row to a cluster is nearest centroid by squared Euclidean distance; on a tie the first centroid wins, as argmin does.
- A missing matrix entry (NaN) is `None`. The +infinity mean of an empty cluster is `None`.
- Floats are `real`.

Three edge cases of the code that the model keeps:
- **Two emptiness rules.** The session start check tests truthiness (views.py:116), so a temperature or humidity of 0.0 blocks a session. The message handler tests only `is not None` (views.py:35), so it accepts 0.0. `SensorStore.StartWarranted` and `Telemetry.Complete` state the two rules separately.
- **Choosing `on_label`.** It is 1 whenever cluster 0's mean is not strictly lower (train_pump_model.py:83), so an exact tie or two empty clusters give 1.
- **Discarding messages.** A message is discarded when a field is missing, when a field is JSON null, when the top-level value is not an object, or when `float()` rejects a value.

## Model

| member | source | states |
|---|---|---|
| Records.SoilMoistureDefault | irrigation_project/sensor_data/models.py:3-7 | when no soil moisture is given, a reading holds 0.0, and temperature and humidity are kept as given |
| Records.SessionDefaults | irrigation_project/sensor_data/models.py:9-13 | a session created with only a reference and a start time is open (no end time) and has used 0.0 water |
| Records.RemoveReading | irrigation_project/sensor_data/models.py:3-10 | deleting a reading by key keeps exactly the readings with other keys, keeps keys ascending, and removes exactly that key from the key set |
| Records.CascadeDelete | irrigation_project/sensor_data/models.py:10 | after a reading is deleted, a session survives iff it does not reference that reading, and survivors are unchanged |
| Records.CascadePreservesIntegrity | irrigation_project/sensor_data/models.py:10 | deleting a reading together with its dependent sessions leaves every session reference pointing at a stored reading, and no session references the deleted one |
| Telemetry.SoilMoistureField | irrigation_project/sensor_data/views.py:28-31 | soil moisture comes from `soil_moisture` when present and non-None (a present 0 is kept); otherwise from `moisture`, or None when that key is absent too |
| Telemetry.Ingest | irrigation_project/sensor_data/views.py:23-57 | a message yields a reading iff it is a JSON object whose three fields are all non-None and all accepted by float(); the reading then holds exactly the converted values |
| Telemetry.IncompleteIsDiscarded | irrigation_project/sensor_data/views.py:32-53 | a payload without temperature, without humidity, or without both soil moisture keys saves nothing |
| Telemetry.NumericPayloadIsSaved | irrigation_project/sensor_data/views.py:28-42 | a payload with numeric temperature, humidity and soil moisture (either key) is saved with exactly those numbers |
| Telemetry.StatusText | irrigation_project/sensor_data/views.py:66-69 | the status text is "true" or "false", and "true" iff the prediction equals 1 |
| Telemetry.PumpCommand | irrigation_project/sensor_data/views.py:61-73 | a command is published iff the model has predict, predict does not raise, and it returns a non-empty result; the command goes to pump/control, its payload's only key is pump_status, and the value is "true" iff the first prediction is 1, else "false" |
| SensorStore.Latest | irrigation_project/sensor_data/views.py:111-114 | there is no latest reading iff the table is empty; otherwise the latest one is a stored reading with the highest primary key |
| SensorStore.StartIfWarranted | irrigation_project/sensor_data/views.py:110-122 | the start check adds exactly one session under the new key iff there is a latest reading with truthy temperature and humidity; that session references the reading, starts at now, is open and has water_used 0; all existing sessions are untouched |
| SensorStore.CloseSession | irrigation_project/sensor_data/views.py:125-132 | closing an unknown id changes nothing; closing a known id sets its end time to now and its water used to the argument exactly, keeps its reference and start time, and leaves every other session and the key set unchanged |
| SensorStore.ZeroTemperatureSavedButBlocksStart | irrigation_project/sensor_data/views.py:116 | a message with temperature 0 passes the handler's non-None test and is saved, but the reading it leaves fails the truthiness test and opens no session |
| SensorStore.Store.OnMessage | irrigation_project/sensor_data/views.py:19-57 | an accepted message appends exactly one reading (next key, the converted values, timestamp now) before inference, and the published command is the model's command for it; a discarded message changes nothing and publishes nothing; sessions never change; the store invariant is kept |
| SensorStore.Store.CheckAndStartIrrigation | irrigation_project/sensor_data/views.py:110-122 | returns None and leaves sessions unchanged when there is no reading or the latest reading is not warranted; otherwise returns the key of the one new session added by StartIfWarranted and advances the next session key by one; readings are untouched |
| SensorStore.Store.EndIrrigation | irrigation_project/sensor_data/views.py:125-132 | reports found iff the id exists; the new session table is CloseSession of the old one, so an unknown id changes nothing; readings and key counters are untouched |
| SensorStore.Store.DeleteReading | irrigation_project/sensor_data/models.py:10 | removes the reading and, by cascade, exactly the sessions referencing it, keeping the store invariant (keys ascending, references valid) |
| Charts.SortNewestFirst | irrigation_project/sensor_data/views.py:94 | the readings ordered by descending timestamp, a permutation of the table |
| Charts.Recent | irrigation_project/sensor_data/views.py:94 | min(limit, table size) readings taken from the table, newest first, and no reading left out is newer than a reading kept |
| Charts.ChartOf | irrigation_project/sensor_data/views.py:100-105 | four series of the length of the data, where index i of each series is the matching field of reading i |
| Charts.DataVisualization | irrigation_project/sensor_data/views.py:93-105 | the chart series have one common length, at most 10 (exactly 10 when there are at least 10 readings), timestamps descend, and each index is the same reading of Recent(readings, 10) |
| Trainer.LoadData | irrigation_project/train_pump_model.py:33-46 | no rows is the "No sensor data" error; otherwise one matrix row per stored row, in query order, each [temperature, humidity, soil_moisture] with the timestamp dropped |
| Trainer.ImputeRow | irrigation_project/train_pump_model.py:59 | a present entry is kept and a missing entry becomes its column's fill value |
| Trainer.Transform | irrigation_project/train_pump_model.py:71-72 | the imputed matrix has the input's shape; present entries are kept and missing ones become their column's fill value |
| Trainer.MissingActsAsFill | irrigation_project/train_pump_model.py:71-72 | imputing a row with a missing entry gives the same row as setting that entry to the column's fill value |
| Trainer.CompleteRowUnchanged | irrigation_project/train_pump_model.py:59 | a row with no missing entry passes through the imputer unchanged |
| Trainer.Assign | irrigation_project/train_pump_model.py:60 | the cluster of a row is 0 or 1, no farther from the row than the other centroid, and 1 only when centroid 1 is strictly nearer |
| Trainer.AssignAtCentroid0 | irrigation_project/train_pump_model.py:60 | a row that equals the first centroid is assigned cluster 0 |
| Trainer.Count | irrigation_project/train_pump_model.py:81-82 | the number of rows with a label is at most the number of rows, and 0 iff no row has that label (the `np.any` test) |
| Trainer.ClusterMean | irrigation_project/train_pump_model.py:81-82 | a cluster's mean is the infinity sentinel iff no row carries its label |
| Trainer.MeanBelow | irrigation_project/train_pump_model.py:81-82 | if every member of a non-empty cluster has soil moisture below c, the cluster's mean is below c |
| Trainer.MeanAtLeast | irrigation_project/train_pump_model.py:81-82 | if every member of a non-empty cluster has soil moisture of at least c, the cluster's mean is at least c |
| Trainer.OnLabel | irrigation_project/train_pump_model.py:83 | on_label is 0 or 1; with two finite means it is 0 iff mean0 < mean1; an empty cluster is never chosen beside a non-empty one; equal means (including two empty clusters) give 1 |
| Trainer.Train | irrigation_project/train_pump_model.py:65-85 | training always produces a model and warns iff there are fewer than 10 rows; the wrapper keeps the given imputer and k-means; on_label is 0 or 1, and 0 iff cluster 0's mean soil moisture over the imputed matrix is finite and strictly below cluster 1's (+infinity when empty) |
| Trainer.SeparatedClustersChooseDrier | irrigation_project/train_pump_model.py:78-83 | when both clusters are non-empty, every member of cluster 0 is drier than c, and every member of cluster 1 is at least c, cluster 0 is the pump-on cluster |
| Trainer.Predict | irrigation_project/train_pump_model.py:57-62 | one entry per input row, each 0 or 1, and 1 iff the row, imputed with the training fill values, is assigned on_label |
| Trainer.PredictMissingAsFill | irrigation_project/train_pump_model.py:57-62 | predicting a row with a missing entry gives the same result as with that entry set to its training fill value |
| Pipeline.Lift | irrigation_project/train_pump_model.py:58 | the float matrix given to the wrapper, with every entry present and in place |
| Pipeline.PublishedStatusFollowsCluster | irrigation_project/sensor_data/views.py:61-70 | with the trained wrapper as the model, every saved reading leads to a published command, and its status is "true" iff the reading's nearest centroid carries on_label |
| Pipeline.NumericMessageCommand | irrigation_project/sensor_data/views.py:25-70 | a message with numeric temperature, humidity and soil_moisture is saved with those values, and the command published for it is "true" iff [temperature, humidity, soil_moisture] is assigned on_label |

## Left out

- MQTT connection, subscription, the background loop and the publish call itself are network I/O. A publication is the returned `Message`.
- UTF-8 decoding and `json.loads` are not modelled. The handler receives the parsed value, or None for invalid JSON. A payload that is not valid UTF-8 raises outside the `try` in the source (views.py:20); the model does not cover that.
- Python's parsing of float literals from JSON strings is the abstract parameter `parseText`.
- IEEE float behaviour is not modelled: NaN, infinities, JSON's `NaN` literal, and rounding of means and distances. Values are `real`.
- Django rendering, URL routing and ORM query mechanics are not modelled. So is the fact that opening a session is a side effect of viewing the irrigation page (views.py:135-145).
- Charts.Recent: readings with equal timestamps are kept and ordered in the sort's own way; the database leaves that order unspecified.
- Charts.ChartOf: timestamps are kept as clock values; the `strftime` text and `json.dumps` encoding are left out.
- `__str__` of a session and all `print` logging are left out. SensorStore.Store.EndIrrigation returns `found` to stand for the "does not exist" message it prints.
- A session's end time is at least its start time only when the clock passed as `now` never runs backwards; the model does not put that constraint on `now`.
- SQLite access (missing database file or table, train_pump_model.py:19-31) and the ORDER BY query are I/O. `Trainer.LoadData` receives the ordered query rows.
- joblib load/dump and the artifact path (views.py:10, train_pump_model.py:88-89) are file I/O. The trained `PumpModel` is passed directly to `Pipeline.AsClassifier`.
- The k-means fit is an input to `Trainer.Train`: its Lloyd iterations, `n_init`, `random_state`, and the library's refusal to fit fewer than two rows are not modelled. Computing the medians is left out too; the fill values are an input.
- Trainer.Transform: scikit-learn's imputer drops a column that is entirely missing at fit time. The model always keeps three columns.
- Trainer.Train: the warning for fewer than 10 rows is a returned flag, not printed text.
