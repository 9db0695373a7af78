/** The BandData record: the in-flight sample the background task fills in
    and the snapshots it keeps. Its properties are written in place and
    instances are compared by reference, so it is a class. */
module BandDataRecord {
  import opened Values

  /** The values of a BandData's seven properties at one moment. */
  datatype Sample = Sample(
    pace: Double,
    speed: Double,
    totalDistance: Int64,
    motionType: MotionType,
    heartRate: Int32,
    skinTemperature: Double,
    capturedAt: DateTime)

  /** What `new BandData()` holds: every property at its default. */
  const DefaultSample: Sample := Sample(Zero, Zero, 0, Unknown, 0, Zero, 0)

  class BandData {
    var pace: Double
    var speed: Double
    var totalDistance: Int64
    var motionType: MotionType
    var heartRate: Int32
    var skinTemperature: Double
    var capturedAt: DateTime

    /** The current values of the properties. */
    function Snapshot(): Sample
      reads this
    {
      Sample(pace, speed, totalDistance, motionType, heartRate, skinTemperature, capturedAt)
    }

    /** `new BandData()`. */
    constructor ()
      ensures Snapshot() == DefaultSample
    {
      pace, speed, totalDistance, motionType := Zero, Zero, 0, Unknown;
      heartRate, skinTemperature, capturedAt := 0, Zero, 0;
    }

    /** Clone(): a new instance whose initialiser copies CapturedAt,
        MotionType, Pace, Speed, HeartRate and SkinTemperature. TotalDistance
        is not copied and keeps its default 0. The original is not written
        (the method may modify nothing that already exists). */
    method Clone() returns (c: BandData)
      ensures fresh(c)
      ensures c.Snapshot() == Snapshot().(totalDistance := 0)
    {
      c := new BandData();
      c.capturedAt := capturedAt;
      c.motionType := motionType;
      c.pace := pace;
      c.speed := speed;
      c.heartRate := heartRate;
      c.skinTemperature := skinTemperature;
    }
  }

  /** No two positions of `records` hold the same instance. */
  ghost predicate Distinct(records: seq<BandData>) {
    forall i, j :: 0 <= i < j < |records| ==> records[i] != records[j]
  }
}
