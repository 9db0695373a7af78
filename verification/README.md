# Band background task: a Dafny model

This project models the core of the Microsoft Band background-task sample. The core is the `BandDataTask` background task. It keeps three Band sensors running: heart rate, distance and skin temperature. Each sensor has an "on" flag and a "received this period" flag. Sensor readings are written into one in-flight `BandData` sample. On every recording-timer tick the task checks whether the sample is complete. If it is, the task stamps the sample, clones it, appends the clone to `RecordedData` and persists the whole list. The project also models the task's helpers: the `BandHealth` and `BandData` records, the run-once `DisposableAction`, and the `InverseBooleanToVisibilityConverter` used by the phone UI.

Files and modules:

- `wrappers.dfy` (`Wrappers`): `Option` for a reference that may be null, and `Outcome` for an operation that may throw.
- `values.dfy` (`Values`): `Int32`, `Int64`, `DateTime` (as ticks), the SDK's `MotionType`, and `Double`. `Double` is opaque except for NaN and the infinities. `DoubleEquals` is C#'s `==` on doubles.
- `band_health.dfy` (`BandHealthRecord`): `BandHealth` is a value with `Equals(object)` and `Clone()`.
- `band_data.dfy` (`BandDataRecord`): `BandData` is a class. The task writes its properties in place, and `List.Contains` compares instances by reference. `Snapshot()` gives the properties' current values.
- `disposable_action.dfy` (`Disposables`): `DisposableAction`. The two public constructors are factory methods that can return the `ArgumentNullException`. Delegate invocations are appended to an `Effects` log.
- `converters.dfy` (`VisibilityConverters`): `Convert` and `ConvertBack` over boxed values.
- `sensors.dfy` (`Sensors`): the per-sensor flags as values. `AllReported` is what `IsDataReceived` returns. `MarkOff` is what it writes. `Receive` gives the received flags after a run of readings. The lemmas prove completeness, order independence and that flags are never lowered. `DeliverReadings` in `band_data_task.dfy` runs the task's own handlers over a run of readings and proves that the task's flags end up as `Receive` says.
- `band_data_task.dfy` (`BackgroundTask`): the `BandDataTask` class.
  - Its fields are the source's own: the flags, `isDataSaving`, `bandClient`, `bandData` and `recordedData`.
  - `timerArmed` records whether the recording timer is running.
  - `effects` records, in order, what the task asks of the Band, the storage and the host.
  - At the end of the file, scenario methods compose the operations into the source's call sequences.

How the outside world appears in the model:

- The Band SDK's answers are parameters: whether a band is found, the connected client, whether consent is granted, and which awaited sensor starts did not throw (a sensor counts as on once its `StartReadingsAsync` returns, whatever it returns).
- `LoadRecordedData`'s result is a parameter.
- The clock (`DateTime.Now`) is a parameter.
- Persisting the list is the `PersistRecords` effect. Write failures are swallowed, so the effect has no outcome.
- `SaveData` is split at its `await`. `BeginSaveData` runs up to the persist step. `EndSaveData` is the continuation: it persists and lowers `isDataSaving`. `SaveData` runs both with nothing in between. `ReadingAndTickDuringSave` shows a reading and a second tick that arrive between the two halves. The `isDataSaving` guard drops both.

Behaviour of the code worth noting:

- `RecordedData.Contains(health)` compares by reference. `BandData` does not override `Equals`, and the candidate is always a fresh clone, so the check never matches. Every complete tick appends a record, even one equal in value to an earlier record. `BeginSaveData` states this as "the list grows by exactly one".
- The received flags are lowered only by `ResetReceivedFlags`, which runs once, during setup. `SaveData` never lowers them. After the first complete tick, every later tick is complete without any new reading, and it records the latest values again. `TwoTicksWithoutReadings` proves this.
- `CompleteDeferral` has no run-once guard. `CancelAfterFailedSetup` shows it persisting, unregistering and completing the deferral twice. Setup fails, then the host cancels the task. `Dispose` alone is guarded, because it acts only while a client is held.

## Model

| member | source | states |
|---|---|---|
| `Values.DoubleEquals` | Band.BackgroundSample/Band.BackgroundSample.Common/Models/BandHealth.cs:71-72 | C# `==` on doubles: true only for the same non-NaN value, and NaN equals nothing, itself included |
| `BandHealthRecord.BandHealth.Equals` | Band.BackgroundSample/Band.BackgroundSample.Common/Models/BandHealth.cs:63-73 | false for null and for a non-BandHealth; otherwise true exactly when heart rate, motion type, pace, speed and skin temperature agree and none of the doubles is NaN |
| `BandHealthRecord.BandHealth.Clone` | Band.BackgroundSample/Band.BackgroundSample.Common/Models/BandHealth.cs:81-94 | the clone equals the original except that TotalDistance is the default 0 |
| `BandHealthRecord.EqualsSymmetric` | Band.BackgroundSample/Band.BackgroundSample.Common/Models/BandHealth.cs:71-72 | `a.Equals(b)` and `b.Equals(a)` always agree |
| `BandHealthRecord.EqualsIgnoresDistanceAndTime` | Band.BackgroundSample/Band.BackgroundSample.Common/Models/BandHealth.cs:71-72 | changing TotalDistance or CapturedAt on either side never changes the result of Equals |
| `BandHealthRecord.NaNBreaksReflexivity` | Band.BackgroundSample/Band.BackgroundSample.Common/Models/BandHealth.cs:71-72 | a record with NaN pace, speed or skin temperature is not equal to itself |
| `BandHealthRecord.CloneEqualsOriginal` | Band.BackgroundSample/Band.BackgroundSample.Common/Models/BandHealth.cs:71-94 | without NaN, a clone and its original are equal in both directions |
| `BandHealthRecord.CloneIdempotent` | Band.BackgroundSample/Band.BackgroundSample.Common/Models/BandHealth.cs:83-91 | cloning a clone gives the same record again |
| `BandDataRecord.BandData.constructor` | Band.BackgroundSample/Band.BackgroundSample.Common/Models/BandData.cs:24-54 | a new BandData holds every property at its default value |
| `BandDataRecord.BandData.Clone` | Band.BackgroundSample/Band.BackgroundSample.Common/Models/BandData.cs:62-75 | returns a fresh instance, distinct from every existing one, with the original's values except TotalDistance 0; the original is not written |
| `Disposables.DisposableAction.New` | Band.BackgroundSample/Band.BackgroundSample.Common/DisposableAction.cs:27-32 | throws ArgumentNullException("dispose") exactly when the action is null; otherwise stores it and runs nothing |
| `Disposables.DisposableAction.NewWithConstruct` | Band.BackgroundSample/Band.BackgroundSample.Common/DisposableAction.cs:49-57 | checks construct, then dispose, for null before running anything; on success runs construct exactly once and stores dispose |
| `Disposables.DisposableAction.Dispose` | Band.BackgroundSample/Band.BackgroundSample.Common/DisposableAction.cs:63-67 | runs the stored action once if one is stored and clears it; otherwise does nothing |
| `Disposables.DisposableAction.DisposeCore` | Band.BackgroundSample/Band.BackgroundSample.Common/DisposableAction.cs:75-88 | with `disposing` false, or no action stored, nothing changes; otherwise the action runs once and is cleared |
| `Disposables.DisposeTwice` | Band.BackgroundSample/Band.BackgroundSample.Common/DisposableAction.cs:63-88 | two Dispose calls run the action exactly once between them |
| `Disposables.UsingBlock` | Band.BackgroundSample/Band.BackgroundTask/BandDataTask.cs:145-167 | a `using` block over a two-action DisposableAction runs construct on entry and dispose once on exit |
| `VisibilityConverters.Convert` | Band.BackgroundSample/Band.BackgroundSample/Band.BackgroundSample.WindowsPhone/XamlExtensions/ValueConverters/InverseBooleanToVisibilityConverter.cs:27-37 | null exactly for a non-bool; otherwise a Visibility that is Visible exactly when the bool is false |
| `VisibilityConverters.ConvertBack` | Band.BackgroundSample/Band.BackgroundSample/Band.BackgroundSample.WindowsPhone/XamlExtensions/ValueConverters/InverseBooleanToVisibilityConverter.cs:47-54 | null exactly for a non-Visibility; otherwise a bool that is true exactly when the value is Collapsed |
| `VisibilityConverters.BooleanRoundTrip` | Band.BackgroundSample/Band.BackgroundSample/Band.BackgroundSample.WindowsPhone/XamlExtensions/ValueConverters/InverseBooleanToVisibilityConverter.cs:27-54 | ConvertBack(Convert(b)) is b for every bool |
| `VisibilityConverters.VisibilityRoundTrip` | Band.BackgroundSample/Band.BackgroundSample/Band.BackgroundSample.WindowsPhone/XamlExtensions/ValueConverters/InverseBooleanToVisibilityConverter.cs:27-54 | Convert(ConvertBack(v)) is v for both Visibility values |
| `VisibilityConverters.ConvertInjective` | Band.BackgroundSample/Band.BackgroundSample/Band.BackgroundSample.WindowsPhone/XamlExtensions/ValueConverters/InverseBooleanToVisibilityConverter.cs:27-37 | two inputs that Convert maps to the same non-null value are equal |
| `Sensors.SensorFlags.With` | Band.BackgroundSample/Band.BackgroundTask/BandDataTask.cs:204-240 | a reading handler raises its own sensor's received flag and leaves the other two as they were |
| `Sensors.AnyOn` | Band.BackgroundSample/Band.BackgroundTask/BandDataTask.cs:93-99 | true exactly when some sensor is on, so false exactly when all three are off |
| `Sensors.AllReported` | Band.BackgroundSample/Band.BackgroundTask/BandDataTask.cs:67-88 | true exactly when every sensor that is on has its received flag set; a sensor that is off counts as reported |
| `Sensors.MarkOff` | Band.BackgroundSample/Band.BackgroundTask/BandDataTask.cs:71-84 | a flag is set afterwards exactly when it was set before or its sensor is off; no flag is lowered |
| `Sensors.ReceiveMarks` | Band.BackgroundSample/Band.BackgroundTask/BandDataTask.cs:204-240 | after any run of readings, a sensor's received flag is set exactly when it was set before or the sensor is among the readings |
| `Sensors.ReceiveAppend` | Band.BackgroundSample/Band.BackgroundTask/BandDataTask.cs:204-240 | handling one run of readings and then another leaves the same received flags as handling the two runs as one |
| `Sensors.ReceiveNeverClears` | Band.BackgroundSample/Band.BackgroundTask/BandDataTask.cs:204-240 | the reading handlers never lower a received flag |
| `Sensors.CompletionOrderIndependent` | Band.BackgroundSample/Band.BackgroundTask/BandDataTask.cs:67-88 | completeness depends only on which sensors reported, not on the order or repetitions of their readings |
| `Sensors.CompleteIffEveryOnSensorRead` | Band.BackgroundSample/Band.BackgroundTask/BandDataTask.cs:67-88 | from cleared flags, the sample is complete exactly when every sensor that is on has delivered a reading |
| `Sensors.MarkOffKeepsVerdict` | Band.BackgroundSample/Band.BackgroundTask/BandDataTask.cs:71-86 | marking the sensors that are off leaves the verdict unchanged; afterwards, complete means all three flags are set |
| `Sensors.ThreeSensorsScenario` | Band.BackgroundSample/Band.BackgroundTask/BandDataTask.cs:204-240 | all sensors on, readings in the order skin temperature, heart rate, distance: complete after the third reading and not before |
| `Sensors.DistanceOffScenario` | Band.BackgroundSample/Band.BackgroundTask/BandDataTask.cs:67-88 | with distance off, one heart-rate and one skin-temperature reading complete the sample, and one heart-rate reading alone does not |
| `BackgroundTask.CompletionEffects` | Band.BackgroundSample/Band.BackgroundTask/BandDataTask.cs:316-338 | shutdown persists first and ends by unregistering and completing the deferral; with a client held, the requests in between are the three sensor stops, in order, then the client's disposal, and without one there are none |
| `BackgroundTask.BandDataTask.constructor` | Band.BackgroundSample/Band.BackgroundTask/BandDataTask.cs:36-62 | a new task holds no client, no sample and no list; every flag is false and nothing has been requested |
| `BackgroundTask.BandDataTask.AnySensorsOn` | Band.BackgroundSample/Band.BackgroundTask/BandDataTask.cs:93-99 | true exactly when some sensor's "on" flag is set |
| `BackgroundTask.BandDataTask.IsDataReceived` | Band.BackgroundSample/Band.BackgroundTask/BandDataTask.cs:67-88 | sets the received flag of every sensor that is off and touches no "on" flag; returns whether every sensor that is on had reported, which is whether all three flags are now set |
| `BackgroundTask.BandDataTask.ResetReceivedFlags` | Band.BackgroundSample/Band.BackgroundTask/BandDataTask.cs:304-309 | clears all three received flags and nothing else |
| `BackgroundTask.BandDataTask.OnSkinTemperatureChanged` | Band.BackgroundSample/Band.BackgroundTask/BandDataTask.cs:204-213 | does nothing while saving; otherwise writes only the skin temperature and raises only its own received flag |
| `BackgroundTask.BandDataTask.OnDistanceChanged` | Band.BackgroundSample/Band.BackgroundTask/BandDataTask.cs:215-229 | does nothing while saving; otherwise writes only motion type, pace, speed and total distance, and raises only its own received flag |
| `BackgroundTask.BandDataTask.OnHeartRateChanged` | Band.BackgroundSample/Band.BackgroundTask/BandDataTask.cs:231-240 | does nothing while saving; otherwise writes only the heart rate and raises only its own received flag |
| `BackgroundTask.BandDataTask.BeginSaveData` | Band.BackgroundSample/Band.BackgroundTask/BandDataTask.cs:175-198 | skipped while saving. Otherwise the received flags become MarkOff of the old flags. When the sample is complete: CapturedAt is stamped; a non-null list grows by exactly one fresh clone at the end; earlier entries keep their identity and their values; a null list stays null; the persist step is pending. Otherwise the list and the sample are unchanged and the save guard is down. |
| `BackgroundTask.BandDataTask.EndSaveData` | Band.BackgroundSample/Band.BackgroundTask/BandDataTask.cs:198-201 | persists the list and lowers the save guard |
| `BackgroundTask.BandDataTask.SaveData` | Band.BackgroundSample/Band.BackgroundTask/BandDataTask.cs:175-202 | one tick. Nothing changes while another save is in progress. Otherwise the guard is down on return and no received flag is lowered. An incomplete sample leaves the list and the effects unchanged. A complete sample is stamped, appended once as a clone and persisted. |
| `BackgroundTask.BandDataTask.StartSensorsRunning` | Band.BackgroundSample/Band.BackgroundTask/BandDataTask.cs:265-302 | each sensor is on afterwards exactly when its own start succeeded. All three starts are requested, in order, whatever the earlier ones returned. With no client, all three are off. |
| `BackgroundTask.BandDataTask.StopSensorsRunning` | Band.BackgroundSample/Band.BackgroundTask/BandDataTask.cs:389-429 | all three "on" flags are false afterwards, so AnySensorsOn is false, whatever the stop requests returned; all three stops are requested |
| `BackgroundTask.BandDataTask.SetupSensors` | Band.BackgroundSample/Band.BackgroundTask/BandDataTask.cs:242-263 | stops the sensors first only if any is on, then starts all three; the on flags equal the start outcomes and the timer is running |
| `BackgroundTask.BandDataTask.CompleteDeferral` | Band.BackgroundSample/Band.BackgroundTask/BandDataTask.cs:316-338 | persists. With a client: stops all sensors, disposes the client and clears it. Then unregisters the task and completes the deferral. Nothing guards against a second run. |
| `BackgroundTask.BandDataTask.OnTaskCanceled` | Band.BackgroundSample/Band.BackgroundTask/BandDataTask.cs:311-314 | cancellation runs the full completion sequence |
| `BackgroundTask.BandDataTask.Dispose` | Band.BackgroundSample/Band.BackgroundTask/BandDataTask.cs:435-441 | without a client, nothing changes; with one, it runs the completion sequence |
| `BackgroundTask.BandDataTask.SetupBand` | Band.BackgroundSample/Band.BackgroundTask/BandDataTask.cs:123-168 | a failed load gives an empty list, and a null deserialised list gives a null list. Fails with no band, then with no client, then with no consent, each before the later steps. On success: received flags cleared, a fresh default sample, and sensors and timer set up. |
| `BackgroundTask.BandDataTask.Run` | Band.BackgroundSample/Band.BackgroundTask/BandDataTask.cs:107-121 | the recorded list is what the load left (empty after a throw, null for a null list); succeeds exactly when a band, a client and consent are all present, and then the sensors were stopped if any was on and all three started; any setup failure runs the completion sequence at once, leaves no client, and leaves the received flags, the sample and the timer as they were |
| `BackgroundTask.AbsorbKeepsCapturedAt` | Band.BackgroundSample/Band.BackgroundTask/BandDataTask.cs:204-240 | no run of readings changes the sample's CapturedAt; only a tick stamps it (line 186) |
| `BackgroundTask.AbsorbLastHeartRate` | Band.BackgroundSample/Band.BackgroundTask/BandDataTask.cs:231-240 | after a heart-rate reading, the sample's heart rate is that reading's value until another heart-rate reading arrives, whatever other readings come in between |
| `BackgroundTask.DeliverReadings` | Band.BackgroundSample/Band.BackgroundTask/BandDataTask.cs:204-240 | each event goes to its sensor's handler in turn. While a save is in progress nothing changes. Otherwise the received flags are `Receive` over the events' sensors and the sample holds the events' values in arrival order |
| `BackgroundTask.ReadingsThenCheck` | Band.BackgroundSample/Band.BackgroundTask/BandDataTask.cs:67-88 | from cleared flags, after a run of readings, IsDataReceived answers true exactly when every sensor that is on raised at least one of them |
| `BackgroundTask.OnePeriod` | Band.BackgroundSample/Band.BackgroundTask/BandDataTask.cs:175-240 | three readings then a tick record exactly one clone, holding the readings' values, the tick's time and TotalDistance 0 |
| `BackgroundTask.ReadingAndTickDuringSave` | Band.BackgroundSample/Band.BackgroundTask/BandDataTask.cs:177-240 | a reading or a tick that arrives while a save awaits its persist step is dropped; one record and one persist result |
| `BackgroundTask.TwoTicksWithoutReadings` | Band.BackgroundSample/Band.BackgroundTask/BandDataTask.cs:175-201 | after a complete tick, the next tick is complete without new readings and records again: two records and two persists |
| `BackgroundTask.CompleteThenDispose` | Band.BackgroundSample/Band.BackgroundTask/BandDataTask.cs:435-441 | Dispose after CompleteDeferral with a client adds nothing to the completion sequence |
| `BackgroundTask.CancelAfterFailedSetup` | Band.BackgroundSample/Band.BackgroundTask/BandDataTask.cs:311-338 | a cancellation after a failed setup runs the completion sequence a second time |

## Left out

- The recording timer and its 30-second period (BandDataTask.cs:245, 257). A tick is a call to `SaveData`. `timerArmed` records only that the timer was set going. Nothing stops it, and the model records that too.
- Concurrency: `async`/`await`, threads and the `SemaphoreSlim` around persisting. The only interleaving modelled is the one at `SaveData`'s `await`, which `BeginSaveData`/`EndSaveData` expose.
- JSON serialisation and file storage in `LoadRecordedData` and `SaveRecordedHealth`. A load is a parameter: it threw, it gave a null list, or it gave distinct fresh records. A save is the `PersistRecords` effect. Its swallowed failures and the file's contents are not modelled.
- The Band SDK: band discovery, connection, consent, `StartReadingsAsync`/`StopReadingsAsync`. Their answers are parameters, and their requests are effects. From a task that holds no client, a throwing `GetBandsAsync` or `ConnectAsync` ends setup the same way as finding no band or getting a null client, so each has one case. A throwing `ConnectAsync` never assigns `bandClient`, so a client held from before would stay; the model does not separate that case. The `bandInfo` field is represented only by whether a band was found.
- Event subscription (`ReadingChanged +=` and `-=`). The reading handlers can be called at any time after setup. They require the in-flight sample to exist, because the source subscribes them only after creating it.
- The `catch (BandException)` in `SetupSensors`. Neither `StartSensorsRunning` nor `StopSensorsRunning` lets an exception out, and the timer calls throw no `BandException`, so that branch has no counterpart in the model.
- `StopSensorsRunning` without a client. Its `finally` blocks would then throw before clearing the flags. Both callers hold a client, so the model requires one.
- The local `isConnecting` flag in `SetupBand`. It is set and cleared through a `DisposableAction` and never read. `UsingBlock` shows the pattern on its own, and `SetupBand` does not model the flag.
- The deferral object itself. `CompleteDeferral` assumes that `Run` acquired it, as every caller in the source ensures.
- `DateTime.Now`: the time is a parameter.
- Floating point. `Double` is opaque apart from NaN and the infinities. Positive and negative zero are one value, which C# `==` cannot tell apart either.
- `Int32` and `Int64` carry their ranges, but no arithmetic is done on them, so there is no overflow to model.
- `DisposableAction`'s delegates. Running one appends it to the `Effects` log. What the delegate itself does, a delegate that throws, and re-entrant disposal are not modelled. `GC.SuppressFinalize` has no effect here, because the class has no finalizer.
- `BandHealth.GetHashCode`. It returns the reference hash, which disagrees with the value `Equals`. Nothing in the core hashes a `BandHealth`.
- `BandHealth.Clone` returning "a new instance": `BandHealth` is a value in the model, so a clone cannot alias its original. `BandData.Clone` is modelled with object identity.
- The converter's `targetType`, `parameter` and `language` arguments, which it ignores. A boxed `Visibility` outside the enum's two members is also not modelled.
- The other files: `BackgroundTaskProvider` (OS task registration; only its `UnregisterBandDataTask` call appears, as an effect), the UI pages, view models and locator, and `BandHealthTask`, whose `Run` and `Dispose` are empty.
