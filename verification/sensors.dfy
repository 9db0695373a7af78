/** The three data sensors of the background task and the per-sensor
    "on" and "received this period" flags it keeps for them, as values. */
module Sensors {

  datatype Sensor = HeartRate | Distance | SkinTemperature

  /** One boolean per data sensor. */
  datatype SensorFlags = SensorFlags(heartRate: bool, distance: bool, skinTemperature: bool)
  {
    function Get(s: Sensor): bool {
      match s
      case HeartRate => heartRate
      case Distance => distance
      case SkinTemperature => skinTemperature
    }

    /** The same flags with `s`'s raised. */
    function With(s: Sensor): (r: SensorFlags)
      ensures r.Get(s)
      ensures forall t :: t != s ==> r.Get(t) == Get(t)
    {
      match s
      case HeartRate => this.(heartRate := true)
      case Distance => this.(distance := true)
      case SkinTemperature => this.(skinTemperature := true)
    }
  }

  const NoSensors: SensorFlags := SensorFlags(false, false, false)
  const AllSensors: SensorFlags := SensorFlags(true, true, true)

  /** `a` has every flag `b` has. */
  ghost predicate Includes(a: SensorFlags, b: SensorFlags) {
    forall s :: b.Get(s) ==> a.Get(s)
  }

  /** AnySensorsOn: at least one data sensor is on. */
  function AnyOn(on: SensorFlags): (r: bool)
    ensures r <==> exists s :: on.Get(s)
    ensures !r <==> on == NoSensors
  {
    assert on.Get(HeartRate) == on.heartRate && on.Get(Distance) == on.distance;
    assert on.Get(SkinTemperature) == on.skinTemperature;
    on.distance || on.heartRate || on.skinTemperature
  }

  /** The value IsDataReceived returns: every sensor that is on has
      reported this period, a sensor that is off counting as reported. */
  function AllReported(on: SensorFlags, received: SensorFlags): (r: bool)
    ensures r <==> forall s :: on.Get(s) ==> received.Get(s)
  {
    var r := (received.distance || !on.distance)
      && (received.heartRate || !on.heartRate)
      && (received.skinTemperature || !on.skinTemperature);
    assert on.Get(HeartRate) == on.heartRate && on.Get(Distance) == on.distance;
    assert on.Get(SkinTemperature) == on.skinTemperature;
    assert r ==> forall s :: on.Get(s) ==> received.Get(s) by {
      if r {
        forall s | on.Get(s) ensures received.Get(s) {
          assert s == HeartRate || s == Distance || s == SkinTemperature;
        }
      }
    }
    r
  }

  /** The received flags IsDataReceived leaves behind: the flag of every
      sensor that is off is raised, the others are kept. */
  function MarkOff(on: SensorFlags, received: SensorFlags): (r: SensorFlags)
    ensures forall s :: r.Get(s) <==> received.Get(s) || !on.Get(s)
    ensures Includes(r, received)
  {
    SensorFlags(
      received.heartRate || !on.heartRate,
      received.distance || !on.distance,
      received.skinTemperature || !on.skinTemperature)
  }

  /** The received flags after the reading handlers run for `readings`, in
      that order, while no save is in progress. */
  function Receive(received: SensorFlags, readings: seq<Sensor>): SensorFlags
    decreases |readings|
  {
    if readings == [] then received else Receive(received.With(readings[0]), readings[1..])
  }

  /** After a run of readings, a sensor's received flag is set exactly when
      it was set before or the sensor is among the readings. */
  lemma {:induction false} ReceiveMarks(received: SensorFlags, readings: seq<Sensor>, s: Sensor)
    ensures Receive(received, readings).Get(s) <==> received.Get(s) || s in readings
    decreases |readings|
  {
    if readings != [] {
      ReceiveMarks(received.With(readings[0]), readings[1..], s);
      assert readings == [readings[0]] + readings[1..];
    }
  }

  /** Handling one run of readings and then another is handling the two
      runs as one. */
  lemma {:induction false} ReceiveAppend(received: SensorFlags, first: seq<Sensor>, second: seq<Sensor>)
    ensures Receive(received, first + second) == Receive(Receive(received, first), second)
    decreases |first|
  {
    if first == [] {
      assert first + second == second;
    } else {
      ReceiveAppend(received.With(first[0]), first[1..], second);
      assert (first + second)[1..] == first[1..] + second;
    }
  }

  /** Readings never lower a received flag. */
  lemma ReceiveNeverClears(received: SensorFlags, readings: seq<Sensor>)
    ensures Includes(Receive(received, readings), received)
  {
    forall s | received.Get(s) ensures Receive(received, readings).Get(s) {
      ReceiveMarks(received, readings, s);
    }
  }

  /** Completeness does not depend on the order, or the repetitions, in
      which the readings arrive: only on which sensors reported. */
  lemma CompletionOrderIndependent(on: SensorFlags, received: SensorFlags, first: seq<Sensor>, second: seq<Sensor>)
    requires forall s :: s in first <==> s in second
    ensures AllReported(on, Receive(received, first)) == AllReported(on, Receive(received, second))
  {
    forall s ensures Receive(received, first).Get(s) == Receive(received, second).Get(s) {
      ReceiveMarks(received, first, s);
      ReceiveMarks(received, second, s);
    }
  }

  /** From cleared flags, the sample is complete exactly when every sensor
      that is on appears among the readings. */
  lemma CompleteIffEveryOnSensorRead(on: SensorFlags, readings: seq<Sensor>)
    ensures AllReported(on, Receive(NoSensors, readings)) <==> forall s :: on.Get(s) ==> s in readings
  {
    forall s ensures Receive(NoSensors, readings).Get(s) <==> s in readings {
      ReceiveMarks(NoSensors, readings, s);
    }
  }

  /** Marking the sensors that are off does not change the verdict, and
      afterwards the verdict is simply "every flag is raised". */
  lemma MarkOffKeepsVerdict(on: SensorFlags, received: SensorFlags)
    ensures AllReported(on, MarkOff(on, received)) == AllReported(on, received)
    ensures AllReported(on, received) <==> MarkOff(on, received) == AllSensors
  {
  }

  /** All three sensors on; readings arrive skin temperature, heart rate,
      distance. The sample becomes complete with the third and not before. */
  lemma ThreeSensorsScenario()
    ensures !AllReported(AllSensors, Receive(NoSensors, [SkinTemperature]))
    ensures !AllReported(AllSensors, Receive(NoSensors, [SkinTemperature, HeartRate]))
    ensures AllReported(AllSensors, Receive(NoSensors, [SkinTemperature, HeartRate, Distance]))
  {
    CompleteIffEveryOnSensorRead(AllSensors, [SkinTemperature]);
    CompleteIffEveryOnSensorRead(AllSensors, [SkinTemperature, HeartRate]);
    CompleteIffEveryOnSensorRead(AllSensors, [SkinTemperature, HeartRate, Distance]);
  }

  /** The distance sensor failed to start; one heart-rate and one skin
      temperature reading complete the sample. */
  lemma DistanceOffScenario()
    ensures AllReported(SensorFlags(true, false, true), Receive(NoSensors, [HeartRate, SkinTemperature]))
    ensures !AllReported(SensorFlags(true, false, true), Receive(NoSensors, [HeartRate]))
  {
    CompleteIffEveryOnSensorRead(SensorFlags(true, false, true), [HeartRate, SkinTemperature]);
    CompleteIffEveryOnSensorRead(SensorFlags(true, false, true), [HeartRate]);
  }
}
