/** The primitive CLR and Band SDK value types the records are built from. */
module Values {

  /** System.Int32. */
  newtype Int32 = x: int | -0x8000_0000 <= x < 0x8000_0000

  /** System.Int64. */
  newtype Int64 = x: int | -0x8000_0000_0000_0000 <= x < 0x8000_0000_0000_0000

  /** System.DateTime as its tick count; default(DateTime) is 0 ticks. */
  newtype DateTime = ticks: int | 0 <= ticks <= 3155378975999999999

  /** Microsoft.Band.Sensors.MotionType; its default value is Unknown. */
  datatype MotionType = Unknown | Idle | Walking | Jogging | Running

  /** System.Double, kept opaque except for the values IEEE equality singles
      out. Positive and negative zero share `Finite(0.0)`: they compare equal. */
  datatype Double = Finite(value: real) | PositiveInfinity | NegativeInfinity | NaN

  /** default(double). */
  const Zero: Double := Finite(0.0)

  /** C#'s `==` on two doubles: NaN equals nothing, not even itself; every
      other value equals exactly itself. */
  function DoubleEquals(a: Double, b: Double): (r: bool)
    ensures r ==> a == b
    ensures a == b && a != NaN ==> r
    ensures a == NaN || b == NaN ==> !r
  {
    match a
    case NaN => false
    case _ => a == b
  }
}
