/** BandDataTask: the background task that keeps the Band's heart-rate,
    distance and skin-temperature sensors running, folds their readings into
    one in-flight BandData sample, and on every timer tick appends a clone of
    a complete sample to the recorded list and persists the list.

    The Band SDK, the storage API, the clock and the host are outside the
    model: their answers arrive as parameters, and the requests the task
    makes of them are appended to `effects`. */
module BackgroundTask {
  import opened Wrappers
  import opened Values
  import opened Sensors
  import opened BandDataRecord

  /** A connected IBandClient; only its identity matters here. */
  datatype BandClient = BandClient(id: nat)

  /** A request the task makes of the outside world, in the order made. */
  datatype Effect =
    | StartReadings(sensor: Sensor)     // StartReadingsAsync on that sensor
    | StopReadings(sensor: Sensor)      // StopReadingsAsync on that sensor
    | PersistRecords                    // SaveRecordedHealth: the whole list written to BandData.json
    | ClientDisposed(client: BandClient)
    | TaskUnregistered                  // BackgroundTaskProvider.UnregisterBandDataTask
    | DeferralCompleted                 // deferral.Complete()

  /** The fields of one distance reading the handler copies. */
  datatype DistanceReading = DistanceReading(currentMotion: MotionType, pace: Double, speed: Double, totalDistance: Int64)

  /** One ReadingChanged event, as the handler of its sensor receives it. */
  datatype Reading =
    | HeartRateChanged(heartRate: Int32)
    | DistanceChanged(distance: DistanceReading)
    | SkinTemperatureChanged(temperature: Double)
  {
    /** The sensor that raised the event. */
    function Source(): Sensor {
      match this
      case HeartRateChanged(_) => HeartRate
      case DistanceChanged(_) => Distance
      case SkinTemperatureChanged(_) => SkinTemperature
    }

    /** The sample after the handler copies the reading into it. */
    function WriteTo(sample: Sample): Sample {
      match this
      case HeartRateChanged(heartRate) => sample.(heartRate := heartRate)
      case DistanceChanged(d) =>
        sample.(motionType := d.currentMotion, pace := d.pace, speed := d.speed, totalDistance := d.totalDistance)
      case SkinTemperatureChanged(temperature) => sample.(skinTemperature := temperature)
    }
  }

  /** The sensors that raised `readings`, in order. */
  function Sources(readings: seq<Reading>): seq<Sensor> {
    seq(|readings|, i requires 0 <= i < |readings| => readings[i].Source())
  }

  /** The sample after the handlers copy `readings` into it, in order. */
  function Absorb(sample: Sample, readings: seq<Reading>): Sample
    decreases |readings|
  {
    if readings == [] then sample
    else readings[|readings| - 1].WriteTo(Absorb(sample, readings[..|readings| - 1]))
  }

  /** No reading handler writes CapturedAt: only a tick stamps it. */
  lemma {:induction false} AbsorbKeepsCapturedAt(sample: Sample, readings: seq<Reading>)
    ensures Absorb(sample, readings).capturedAt == sample.capturedAt
    decreases |readings|
  {
    if readings != [] {
      AbsorbKeepsCapturedAt(sample, readings[..|readings| - 1]);
    }
  }

  /** A heart-rate reading leaves the sample's heart rate at its value until
      the next heart-rate reading. */
  lemma {:induction false} AbsorbLastHeartRate(sample: Sample, readings: seq<Reading>, bpm: Int32, rest: seq<Reading>)
    requires forall k :: 0 <= k < |rest| ==> !rest[k].HeartRateChanged?
    ensures Absorb(sample, readings + [HeartRateChanged(bpm)] + rest).heartRate == bpm
    decreases |rest|
  {
    var all := readings + [HeartRateChanged(bpm)] + rest;
    if rest == [] {
      assert all[..|all| - 1] == readings;
    } else {
      var shorter := rest[..|rest| - 1];
      assert all[..|all| - 1] == readings + [HeartRateChanged(bpm)] + shorter;
      AbsorbLastHeartRate(sample, readings, bpm, shorter);
    }
  }

  /** What LoadRecordedData produced: it threw, it deserialised a null
      list, or it produced a list of records. */
  datatype LoadOutcome = LoadThrew | LoadedNull | Loaded(records: seq<BandData>)

  /** The InvalidOperationException SetupBand throws. */
  datatype SetupError = NoBandAvailable | ConnectionFailed | ConsentNotGranted

  /** The answers of the outside world during setup. */
  datatype Environment = Environment(
    load: LoadOutcome,        // LoadRecordedData
    bandFound: bool,          // GetBandsAsync yielded at least one band
    client: Option<BandClient>, // ConnectAsync; None for null
    consentGranted: bool,     // heart-rate consent is Granted
    started: SensorFlags)     // which awaited StartReadingsAsync calls did not throw

  /** The requests to start the three sensors, in the order made. */
  const StartAll: seq<Effect> := [StartReadings(HeartRate), StartReadings(Distance), StartReadings(SkinTemperature)]

  /** The requests to stop the three sensors, in the order made. */
  const StopAll: seq<Effect> := [StopReadings(HeartRate), StopReadings(Distance), StopReadings(SkinTemperature)]

  /** The requests CompleteDeferral makes when it finds `client` held. */
  function CompletionEffects(client: Option<BandClient>): (r: seq<Effect>)
    ensures |r| == if client.Some? then 7 else 3
    ensures r[0] == PersistRecords && r[|r| - 2] == TaskUnregistered && r[|r| - 1] == DeferralCompleted
    ensures client.Some? ==> r[1..5] == StopAll + [ClientDisposed(client.value)]
  {
    [PersistRecords]
    + (if client.Some? then StopAll + [ClientDisposed(client.value)] else [])
    + [TaskUnregistered, DeferralCompleted]
  }

  class BandDataTask {
    var bandClient: Option<BandClient>
    var bandData: BandData?
    /** RecordedData; None while it is null. */
    var recordedData: Option<seq<BandData>>
    var isDistanceReceived: bool
    var isHeartRateReceived: bool
    var isSkinTemperatureReceived: bool
    var isDistanceOn: bool
    var isHeartRateOn: bool
    var isSkinTemperatureOn: bool
    var isDataSaving: bool
    /** The recording timer has been set going (it is never stopped). */
    var timerArmed: bool
    var effects: seq<Effect>

    /** The "on" flags. */
    function On(): SensorFlags
      reads this
    {
      SensorFlags(isHeartRateOn, isDistanceOn, isSkinTemperatureOn)
    }

    /** The "received this period" flags. */
    function Received(): SensorFlags
      reads this
    {
      SensorFlags(isHeartRateReceived, isDistanceReceived, isSkinTemperatureReceived)
    }

    /** The recorded list holds each instance once, and never the in-flight
        sample, so writing the in-flight sample leaves every record as is. */
    ghost predicate Valid()
      reads this
    {
      recordedData.Some? ==> Distinct(recordedData.value) && bandData !in recordedData.value
    }

    /** A task object as the host creates it. */
    constructor ()
      ensures Valid()
      ensures bandClient == None && bandData == null && recordedData == None
      ensures On() == NoSensors && Received() == NoSensors
      ensures !isDataSaving && !timerArmed && effects == []
    {
      bandClient := None;
      bandData := null;
      recordedData := None;
      isDistanceReceived, isHeartRateReceived, isSkinTemperatureReceived := false, false, false;
      isDistanceOn, isHeartRateOn, isSkinTemperatureOn := false, false, false;
      isDataSaving := false;
      timerArmed := false;
      effects := [];
    }

    /** AnySensorsOn. */
    function AnySensorsOn(): (r: bool)
      reads this
      ensures r == AnyOn(On())
      ensures !r <==> On() == NoSensors
    {
      isDistanceOn || isHeartRateOn || isSkinTemperatureOn
    }

    /** IsDataReceived: raises the received flag of every sensor that is
        off, then reports whether all three flags are raised. */
    method IsDataReceived() returns (r: bool)
      modifies this`isDistanceReceived, this`isHeartRateReceived, this`isSkinTemperatureReceived
      ensures Received() == MarkOff(On(), old(Received()))
      ensures r == AllReported(On(), old(Received()))
      ensures r <==> Received() == AllSensors
    {
      if !isDistanceOn {
        isDistanceReceived := true;
      }
      if !isHeartRateOn {
        isHeartRateReceived := true;
      }
      if !isSkinTemperatureOn {
        isSkinTemperatureReceived := true;
      }
      r := isDistanceReceived && isHeartRateReceived && isSkinTemperatureReceived;
    }

    /** ResetReceivedFlags: the only place a received flag is lowered. */
    method ResetReceivedFlags()
      modifies this`isDistanceReceived, this`isHeartRateReceived, this`isSkinTemperatureReceived
      ensures Received() == NoSensors
    {
      isHeartRateReceived := false;
      isDistanceReceived := false;
      isSkinTemperatureReceived := false;
    }

    /** OnSkinTemperatureChanged: dropped while a save is in progress;
        otherwise writes the temperature and raises its received flag. */
    method OnSkinTemperatureChanged(temperature: Double)
      requires Valid() && bandData != null
      modifies this`isSkinTemperatureReceived, bandData`skinTemperature
      ensures Valid()
      ensures old(isDataSaving) ==> Received() == old(Received()) && bandData.Snapshot() == old(bandData.Snapshot())
      ensures !old(isDataSaving) ==>
        && Received() == old(Received()).With(SkinTemperature)
        && bandData.Snapshot() == old(bandData.Snapshot()).(skinTemperature := temperature)
    {
      if isDataSaving {
        return;
      }
      bandData.skinTemperature := temperature;
      isSkinTemperatureReceived := true;
    }

    /** OnDistanceChanged: dropped while a save is in progress; otherwise
        writes motion type, pace, speed and total distance and raises its
        received flag. */
    method OnDistanceChanged(reading: DistanceReading)
      requires Valid() && bandData != null
      modifies this`isDistanceReceived, bandData`motionType, bandData`pace, bandData`speed, bandData`totalDistance
      ensures Valid()
      ensures old(isDataSaving) ==> Received() == old(Received()) && bandData.Snapshot() == old(bandData.Snapshot())
      ensures !old(isDataSaving) ==>
        && Received() == old(Received()).With(Distance)
        && bandData.Snapshot() == old(bandData.Snapshot()).(
             motionType := reading.currentMotion, pace := reading.pace,
             speed := reading.speed, totalDistance := reading.totalDistance)
    {
      if isDataSaving {
        return;
      }
      bandData.motionType := reading.currentMotion;
      bandData.pace := reading.pace;
      bandData.speed := reading.speed;
      bandData.totalDistance := reading.totalDistance;
      isDistanceReceived := true;
    }

    /** OnHeartRateChanged: dropped while a save is in progress; otherwise
        writes the heart rate and raises its received flag. */
    method OnHeartRateChanged(heartRate: Int32)
      requires Valid() && bandData != null
      modifies this`isHeartRateReceived, bandData`heartRate
      ensures Valid()
      ensures old(isDataSaving) ==> Received() == old(Received()) && bandData.Snapshot() == old(bandData.Snapshot())
      ensures !old(isDataSaving) ==>
        && Received() == old(Received()).With(HeartRate)
        && bandData.Snapshot() == old(bandData.Snapshot()).(heartRate := heartRate)
    {
      if isDataSaving {
        return;
      }
      bandData.heartRate := heartRate;
      isHeartRateReceived := true;
    }

    /** SaveData up to its `await`. Skipped when a save is in progress.
        Otherwise asks IsDataReceived; for a complete sample it raises the
        save guard, stamps CapturedAt with `now`, clones the sample and, when
        the list is not null and does not already hold that very instance,
        appends the clone. `awaiting` says whether the persist step is now
        pending (EndSaveData); if not, the guard is lowered at once. */
    method BeginSaveData(now: DateTime) returns (awaiting: bool)
      requires Valid() && bandData != null
      modifies this`isDistanceReceived, this`isHeartRateReceived, this`isSkinTemperatureReceived
      modifies this`isDataSaving, this`recordedData, bandData`capturedAt
      ensures Valid()
      ensures old(isDataSaving) ==>
        && !awaiting && isDataSaving
        && Received() == old(Received()) && recordedData == old(recordedData)
        && bandData.Snapshot() == old(bandData.Snapshot())
      ensures !old(isDataSaving) ==>
        && awaiting == AllReported(On(), old(Received()))
        && Received() == MarkOff(On(), old(Received()))
        && isDataSaving == awaiting
      ensures !awaiting ==> recordedData == old(recordedData) && bandData.Snapshot() == old(bandData.Snapshot())
      ensures awaiting ==> bandData.Snapshot() == old(bandData.Snapshot()).(capturedAt := now)
      ensures awaiting ==> (recordedData.Some? <==> old(recordedData).Some?)
      ensures awaiting && recordedData.Some? ==>
        var records, before := recordedData.value, old(recordedData).value;
        && |records| == |before| + 1
        && records[..|before|] == before
        && fresh(records[|before|])
        && records[|before|].Snapshot() == bandData.Snapshot().(totalDistance := 0)
      ensures recordedData.Some? ==>
        forall k :: 0 <= k < |old(recordedData).value| ==>
          recordedData.value[k].Snapshot() == old(recordedData.value[k].Snapshot())
    {
      if isDataSaving {
        return false;
      }
      var complete := IsDataReceived();
      if complete {
        isDataSaving := true;
        bandData.capturedAt := now;
        var health := bandData.Clone();
        if recordedData.Some? {
          if health !in recordedData.value {
            recordedData := Some(recordedData.value + [health]);
          }
        }
        awaiting := true;
      } else {
        isDataSaving := false;
        awaiting := false;
      }
    }

    /** SaveData after its `await`: the persist step (whose failures are
        swallowed) and the lowering of the save guard. */
    method EndSaveData()
      modifies this`isDataSaving, this`effects
      ensures !isDataSaving
      ensures effects == old(effects) + [PersistRecords]
    {
      effects := effects + [PersistRecords];
      isDataSaving := false;
    }

    /** One timer tick, SaveData, with nothing interleaved at its `await`.
        The received flags are never lowered, and the save guard is down on
        return unless another save was already in progress. */
    method SaveData(now: DateTime)
      requires Valid() && bandData != null
      modifies this`isDistanceReceived, this`isHeartRateReceived, this`isSkinTemperatureReceived
      modifies this`isDataSaving, this`recordedData, this`effects, bandData`capturedAt
      ensures Valid()
      ensures old(isDataSaving) ==>
        && isDataSaving && Received() == old(Received()) && recordedData == old(recordedData)
        && effects == old(effects) && bandData.Snapshot() == old(bandData.Snapshot())
      ensures !old(isDataSaving) ==>
        && !isDataSaving
        && Received() == MarkOff(On(), old(Received()))
        && Includes(Received(), old(Received()))
      ensures !old(isDataSaving) && !AllReported(On(), old(Received())) ==>
        && recordedData == old(recordedData) && effects == old(effects)
        && bandData.Snapshot() == old(bandData.Snapshot())
      ensures !old(isDataSaving) && AllReported(On(), old(Received())) ==>
        && bandData.Snapshot() == old(bandData.Snapshot()).(capturedAt := now)
        && effects == old(effects) + [PersistRecords]
        && (recordedData.Some? <==> old(recordedData).Some?)
      ensures !old(isDataSaving) && AllReported(On(), old(Received())) && recordedData.Some? ==>
        var records, before := recordedData.value, old(recordedData).value;
        && |records| == |before| + 1
        && records[..|before|] == before
        && fresh(records[|before|])
        && records[|before|].Snapshot() == bandData.Snapshot().(totalDistance := 0)
      ensures recordedData.Some? ==>
        forall k :: 0 <= k < |old(recordedData).value| ==>
          recordedData.value[k].Snapshot() == old(recordedData.value[k].Snapshot())
    {
      var awaiting := BeginSaveData(now);
      if awaiting {
        EndSaveData();
      }
    }

    /** StartSensorsRunning: attempts heart rate, distance and skin
        temperature in turn, each on its own. A sensor is on afterwards
        exactly when its own start succeeded; with no client every attempt
        fails before reaching the Band. */
    method StartSensorsRunning(started: SensorFlags)
      requires Valid()
      modifies this`isHeartRateOn, this`isDistanceOn, this`isSkinTemperatureOn, this`effects
      ensures Valid()
      ensures forall s :: On().Get(s) == (bandClient.Some? && started.Get(s))
      ensures bandClient.Some? ==> On() == started && effects == old(effects) + StartAll
      ensures bandClient.None? ==> On() == NoSensors && effects == old(effects)
    {
      if bandClient.Some? {
        effects := effects + [StartReadings(HeartRate)];
        isHeartRateOn := started.heartRate;
        effects := effects + [StartReadings(Distance)];
        isDistanceOn := started.distance;
        effects := effects + [StartReadings(SkinTemperature)];
        isSkinTemperatureOn := started.skinTemperature;
      } else {
        isHeartRateOn := false;
        isDistanceOn := false;
        isSkinTemperatureOn := false;
      }
    }

    /** StopSensorsRunning: asks each sensor to stop, swallowing failures,
        and clears each "on" flag whatever the answer. */
    method StopSensorsRunning()
      requires Valid() && bandClient.Some?
      modifies this`isHeartRateOn, this`isDistanceOn, this`isSkinTemperatureOn, this`effects
      ensures Valid()
      ensures On() == NoSensors && !AnySensorsOn()
      ensures effects == old(effects) + StopAll
    {
      effects := effects + [StopReadings(HeartRate)];
      isHeartRateOn := false;
      effects := effects + [StopReadings(Distance)];
      isDistanceOn := false;
      effects := effects + [StopReadings(SkinTemperature)];
      isSkinTemperatureOn := false;
    }

    /** SetupSensors: stops any sensor still on, starts all three, and sets
        the recording timer going. */
    method SetupSensors(started: SensorFlags)
      requires Valid() && bandClient.Some?
      modifies this`isHeartRateOn, this`isDistanceOn, this`isSkinTemperatureOn, this`effects, this`timerArmed
      ensures Valid()
      ensures On() == started && timerArmed
      ensures effects == old(effects) + (if AnyOn(old(On())) then StopAll else []) + StartAll
    {
      timerArmed := false;
      if AnySensorsOn() {
        StopSensorsRunning();
      }
      StartSensorsRunning(started);
      timerArmed := true;
    }

    /** CompleteDeferral: persists the list; with a client, stops every
        sensor and disposes and forgets the client; then unregisters the
        task and completes the deferral. Nothing stops it from running more
        than once. */
    method CompleteDeferral()
      requires Valid()
      modifies this`isHeartRateOn, this`isDistanceOn, this`isSkinTemperatureOn, this`effects, this`bandClient
      ensures Valid()
      ensures bandClient == None
      ensures effects == old(effects) + CompletionEffects(old(bandClient))
      ensures On() == if old(bandClient).Some? then NoSensors else old(On())
    {
      effects := effects + [PersistRecords];
      if bandClient.Some? {
        StopSensorsRunning();
        effects := effects + [ClientDisposed(bandClient.value)];
        bandClient := None;
      }
      effects := effects + [TaskUnregistered, DeferralCompleted];
    }

    /** OnTaskCanceled: the host cancelled the task. */
    method OnTaskCanceled()
      requires Valid()
      modifies this`isHeartRateOn, this`isDistanceOn, this`isSkinTemperatureOn, this`effects, this`bandClient
      ensures Valid()
      ensures bandClient == None
      ensures effects == old(effects) + CompletionEffects(old(bandClient))
      ensures On() == if old(bandClient).Some? then NoSensors else old(On())
    {
      CompleteDeferral();
    }

    /** Dispose: completes the deferral only while a client is held, so it
        does nothing after CompleteDeferral has run with a client. */
    method Dispose()
      requires Valid()
      modifies this`isHeartRateOn, this`isDistanceOn, this`isSkinTemperatureOn, this`effects, this`bandClient
      ensures Valid()
      ensures bandClient == None
      ensures old(bandClient).None? ==> effects == old(effects) && On() == old(On())
      ensures old(bandClient).Some? ==>
        On() == NoSensors && effects == old(effects) + CompletionEffects(old(bandClient))
    {
      if bandClient.Some? {
        CompleteDeferral();
      }
    }

    /** SetupBand: loads the recorded list (an exception gives an empty
        list), finds a band, connects, checks heart-rate consent, resets the
        received flags, creates the in-flight sample and sets up the
        sensors. Each failure throws before the later steps. */
    method SetupBand(env: Environment) returns (outcome: Outcome<SetupError>)
      requires env.load.Loaded? ==> Distinct(env.load.records)
      requires env.load.Loaded? ==> bandData !in env.load.records
      modifies this
      ensures Valid()
      ensures recordedData == match env.load
        case LoadThrew => Some([])
        case LoadedNull => None
        case Loaded(records) => Some(records)
      ensures outcome == (if !env.bandFound then Fail(NoBandAvailable)
                          else if env.client.None? then Fail(ConnectionFailed)
                          else if !env.consentGranted then Fail(ConsentNotGranted)
                          else Pass)
      ensures env.bandFound ==> bandClient == env.client
      ensures !env.bandFound ==> bandClient == old(bandClient)
      ensures outcome.Fail? ==>
        && On() == old(On()) && Received() == old(Received()) && bandData == old(bandData)
        && effects == old(effects) && timerArmed == old(timerArmed)
      ensures outcome.Pass? ==>
        && Received() == NoSensors && On() == env.started && timerArmed
        && bandData != null && fresh(bandData) && bandData.Snapshot() == DefaultSample
        && effects == old(effects) + (if AnyOn(old(On())) then StopAll else []) + StartAll
      ensures isDataSaving == old(isDataSaving)
    {
      recordedData := match env.load
        case LoadThrew => Some([])
        case LoadedNull => None
        case Loaded(records) => Some(records);
      if !env.bandFound {
        return Fail(NoBandAvailable);
      }
      bandClient := env.client;
      if bandClient.None? {
        return Fail(ConnectionFailed);
      }
      if !env.consentGranted {
        return Fail(ConsentNotGranted);
      }
      ResetReceivedFlags();
      bandData := new BandData();
      SetupSensors(env.started);
      return Pass;
    }

    /** Run: sets the band up and, if setup threw, completes the deferral
        at once. */
    method Run(env: Environment) returns (outcome: Outcome<SetupError>)
      requires env.load.Loaded? ==> Distinct(env.load.records)
      requires env.load.Loaded? ==> bandData !in env.load.records
      modifies this
      ensures Valid()
      ensures recordedData == match env.load
        case LoadThrew => Some([])
        case LoadedNull => None
        case Loaded(records) => Some(records)
      ensures isDataSaving == old(isDataSaving)
      ensures outcome.Pass? <==> env.bandFound && env.client.Some? && env.consentGranted
      ensures outcome.Fail? ==> bandClient == None
      ensures outcome.Fail? ==>
        Received() == old(Received()) && bandData == old(bandData) && timerArmed == old(timerArmed)
      ensures !env.bandFound ==>
        && effects == old(effects) + CompletionEffects(old(bandClient))
        && On() == if old(bandClient).Some? then NoSensors else old(On())
      ensures env.bandFound && env.client.None? ==>
        effects == old(effects) + CompletionEffects(None) && On() == old(On())
      ensures env.bandFound && env.client.Some? && !env.consentGranted ==>
        effects == old(effects) + CompletionEffects(env.client) && On() == NoSensors
      ensures outcome.Pass? ==>
        && bandClient == env.client && On() == env.started && Received() == NoSensors && timerArmed
        && bandData != null && fresh(bandData) && bandData.Snapshot() == DefaultSample
        && effects == old(effects) + (if AnyOn(old(On())) then StopAll else []) + StartAll
    {
      outcome := SetupBand(env);
      if outcome.Fail? {
        CompleteDeferral();
      }
    }
  }

  /** A run of ReadingChanged events, each delivered to its sensor's
      handler in turn. While a save is in progress every one is dropped;
      otherwise the received flags are those of Receive over the events'
      sensors and the sample holds the events' values in arrival order. */
  method DeliverReadings(task: BandDataTask, readings: seq<Reading>)
    requires task.Valid() && task.bandData != null
    modifies task`isHeartRateReceived, task`isDistanceReceived, task`isSkinTemperatureReceived
    modifies task.bandData`heartRate, task.bandData`motionType, task.bandData`pace, task.bandData`speed
    modifies task.bandData`totalDistance, task.bandData`skinTemperature
    ensures task.Valid()
    ensures task.isDataSaving ==>
      task.Received() == old(task.Received()) && task.bandData.Snapshot() == old(task.bandData.Snapshot())
    ensures !task.isDataSaving ==>
      && task.Received() == Receive(old(task.Received()), Sources(readings))
      && task.bandData.Snapshot() == Absorb(old(task.bandData.Snapshot()), readings)
  {
    ghost var received, sample := task.Received(), task.bandData.Snapshot();
    for i := 0 to |readings|
      invariant task.Valid() && task.bandData != null
      invariant task.isDataSaving ==> task.Received() == received && task.bandData.Snapshot() == sample
      invariant !task.isDataSaving ==>
        && task.Received() == Receive(received, Sources(readings[..i]))
        && task.bandData.Snapshot() == Absorb(sample, readings[..i])
    {
      match readings[i] {
        case HeartRateChanged(heartRate) => task.OnHeartRateChanged(heartRate);
        case DistanceChanged(distance) => task.OnDistanceChanged(distance);
        case SkinTemperatureChanged(temperature) => task.OnSkinTemperatureChanged(temperature);
      }
      assert readings[..i + 1][..i] == readings[..i];
      assert Sources(readings[..i + 1]) == Sources(readings[..i]) + [readings[i].Source()];
      ReceiveAppend(received, Sources(readings[..i]), [readings[i].Source()]);
    }
    assert readings[..|readings|] == readings;
  }

  /** A period from cleared flags: after a run of readings, the next tick
      finds the sample complete exactly when every sensor that is on has
      raised at least one of the readings, whatever their order. */
  method ReadingsThenCheck(task: BandDataTask, readings: seq<Reading>) returns (complete: bool)
    requires task.Valid() && task.bandData != null && !task.isDataSaving
    requires task.Received() == NoSensors
    modifies task`isHeartRateReceived, task`isDistanceReceived, task`isSkinTemperatureReceived
    modifies task.bandData`heartRate, task.bandData`motionType, task.bandData`pace, task.bandData`speed
    modifies task.bandData`totalDistance, task.bandData`skinTemperature
    ensures complete <==> forall s :: task.On().Get(s) ==> s in Sources(readings)
    ensures task.bandData.Snapshot() == Absorb(old(task.bandData.Snapshot()), readings)
  {
    DeliverReadings(task, readings);
    CompleteIffEveryOnSensorRead(task.On(), Sources(readings));
    complete := task.IsDataReceived();
  }

  /** A whole period with all three sensors on: readings arrive skin
      temperature, heart rate, distance; the next tick records exactly one
      clone of the sample, stamped with the tick's time. */
  method OnePeriod(task: BandDataTask, temperature: Double, heartRate: Int32, distance: DistanceReading, now: DateTime)
    requires task.Valid() && task.bandData != null && !task.isDataSaving
    requires task.On() == AllSensors && task.Received() == NoSensors
    requires task.recordedData.Some?
    modifies task, task.bandData
    ensures task.Valid() && !task.isDataSaving
    ensures task.recordedData.Some? && |task.recordedData.value| == |old(task.recordedData.value)| + 1
    ensures task.recordedData.value[|task.recordedData.value| - 1].Snapshot()
         == old(task.bandData.Snapshot()).(
              skinTemperature := temperature, heartRate := heartRate, motionType := distance.currentMotion,
              pace := distance.pace, speed := distance.speed, totalDistance := 0, capturedAt := now)
  {
    task.OnSkinTemperatureChanged(temperature);
    task.OnHeartRateChanged(heartRate);
    task.OnDistanceChanged(distance);
    task.SaveData(now);
  }
  /** A tick runs up to its `await`; meanwhile a heart-rate reading and a
      second tick arrive and are both dropped by the save guard; then the
      first tick finishes. One record is added and one persist is made. */
  method ReadingAndTickDuringSave(task: BandDataTask, heartRate: Int32, first: DateTime, second: DateTime)
    requires task.Valid() && task.bandData != null && !task.isDataSaving
    requires AllReported(task.On(), task.Received())
    modifies task, task.bandData
    ensures task.bandData == old(task.bandData)
    ensures task.Valid() && !task.isDataSaving
    ensures task.bandData.heartRate == old(task.bandData.heartRate)
    ensures task.bandData.capturedAt == first
    ensures task.effects == old(task.effects) + [PersistRecords]
    ensures task.recordedData.Some? <==> old(task.recordedData).Some?
    ensures task.recordedData.Some? ==> |task.recordedData.value| == |old(task.recordedData).value| + 1
  {
    var awaiting := task.BeginSaveData(first);
    task.OnHeartRateChanged(heartRate);
    task.SaveData(second);
    task.EndSaveData();
  }

  /** SaveData never lowers the received flags, so once a tick has found
      the sample complete the next tick finds it complete too, with no
      reading in between, and records the same readings again. */
  method TwoTicksWithoutReadings(task: BandDataTask, first: DateTime, second: DateTime)
    requires task.Valid() && task.bandData != null && !task.isDataSaving && task.recordedData.Some?
    requires AllReported(task.On(), task.Received())
    modifies task, task.bandData
    ensures task.Valid() && task.recordedData.Some?
    ensures |task.recordedData.value| == |old(task.recordedData).value| + 2
    ensures task.effects == old(task.effects) + [PersistRecords, PersistRecords]
    ensures task.Received() == AllSensors
  {
    task.SaveData(first);
    task.SaveData(second);
  }

  /** Completing with a client and then disposing: Dispose finds no client
      and does nothing. */
  method CompleteThenDispose(task: BandDataTask)
    requires task.Valid() && task.bandClient.Some?
    modifies task
    ensures task.bandClient == None && task.On() == NoSensors
    ensures task.effects == old(task.effects) + [PersistRecords] + StopAll
                            + [ClientDisposed(old(task.bandClient).value), TaskUnregistered, DeferralCompleted]
  {
    task.CompleteDeferral();
    task.Dispose();
  }

  /** No band is found, so Run completes the deferral; a cancellation that
      arrives afterwards completes it, and unregisters the task, again. */
  method CancelAfterFailedSetup(task: BandDataTask, env: Environment)
    requires task.bandClient == None && !env.bandFound
    requires env.load.Loaded? ==> Distinct(env.load.records)
    requires env.load.Loaded? ==> task.bandData !in env.load.records
    modifies task
    ensures task.effects == old(task.effects)
      + [PersistRecords, TaskUnregistered, DeferralCompleted]
      + [PersistRecords, TaskUnregistered, DeferralCompleted]
  {
    var outcome := task.Run(env);
    task.OnTaskCanceled();
  }
}
