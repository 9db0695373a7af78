/** The BandHealth record: seven properties, a value equality over five of
    them, and a clone that copies six. */
module BandHealthRecord {
  import opened Values

  /** An object handed to `Equals(object)`: null, a BandHealth, or an instance
      of some other class. */
  datatype Object = Null | Health(health: BandHealth) | OtherObject

  /** A BandHealth record. Nothing in the model writes to one after it is
      built, so it is a value. */
  datatype BandHealth = BandHealth(
    pace: Double,
    speed: Double,
    totalDistance: Int64,
    motionType: MotionType,
    heartRate: Int32,
    skinTemperature: Double,
    capturedAt: DateTime)
  {
    /** The five properties Equals compares, none of them NaN, agree with
        `other`'s. TotalDistance and CapturedAt take no part. */
    ghost predicate SameReading(other: BandHealth) {
      && heartRate == other.heartRate
      && motionType == other.motionType
      && pace == other.pace && pace != NaN
      && speed == other.speed && speed != NaN
      && skinTemperature == other.skinTemperature && skinTemperature != NaN
    }

    /** Equals(object): false for null and for any object that is not a
        BandHealth; otherwise C#'s `==` on heart rate, skin temperature,
        motion type, pace and speed. */
    function Equals(obj: Object): (r: bool)
      ensures !obj.Health? ==> !r
      ensures obj.Health? ==> (r <==> SameReading(obj.health))
    {
      match obj
      case Health(health) =>
        && heartRate == health.heartRate
        && DoubleEquals(skinTemperature, health.skinTemperature)
        && motionType == health.motionType
        && DoubleEquals(pace, health.pace)
        && DoubleEquals(speed, health.speed)
      case _ => false
    }

    /** Clone(): a new record whose initialiser copies every property except
        TotalDistance, which keeps its default. */
    function Clone(): (c: BandHealth)
      ensures c == this.(totalDistance := 0)
      ensures c.totalDistance == 0
    {
      BandHealth(
        pace := pace,
        speed := speed,
        totalDistance := 0,
        motionType := motionType,
        heartRate := heartRate,
        skinTemperature := skinTemperature,
        capturedAt := capturedAt)
    }
  }

  /** Equals is symmetric. */
  lemma EqualsSymmetric(a: BandHealth, b: BandHealth)
    ensures a.Equals(Health(b)) == b.Equals(Health(a))
  {
  }

  /** Two records that differ only in TotalDistance and CapturedAt are equal
      or unequal to any third record alike, on either side of Equals. */
  lemma EqualsIgnoresDistanceAndTime(a: BandHealth, b: BandHealth, distance: Int64, at: DateTime)
    ensures a.Equals(Health(b)) == a.Equals(Health(b.(totalDistance := distance, capturedAt := at)))
    ensures a.Equals(Health(b)) == a.(totalDistance := distance, capturedAt := at).Equals(Health(b))
  {
  }

  /** A record with a NaN among its compared doubles is not equal to itself. */
  lemma NaNBreaksReflexivity(h: BandHealth)
    requires h.pace == NaN || h.speed == NaN || h.skinTemperature == NaN
    ensures !h.Equals(Health(h))
  {
  }

  /** Away from NaN, a clone equals its original, in both directions, even
      though its TotalDistance was reset. */
  lemma CloneEqualsOriginal(h: BandHealth)
    requires h.pace != NaN && h.speed != NaN && h.skinTemperature != NaN
    ensures h.Clone().Equals(Health(h)) && h.Equals(Health(h.Clone()))
  {
  }

  /** Cloning twice gives the same record as cloning once. */
  lemma CloneIdempotent(h: BandHealth)
    ensures h.Clone().Clone() == h.Clone()
  {
  }
}
