/** InverseBooleanToVisibilityConverter: a XAML value converter that shows
    an element when a flag is false and collapses it when the flag is true. */
module VisibilityConverters {

  /** Windows.UI.Xaml.Visibility. */
  datatype Visibility = Visible | Collapsed

  /** A boxed binding value as the converter sees it. */
  datatype Object = Null | Boolean(b: bool) | VisibilityValue(v: Visibility) | OtherObject

  /** Convert: a bool becomes Visible when false and Collapsed when true;
      null or anything that is not a bool becomes null. */
  function Convert(value: Object): (r: Object)
    ensures r != Null <==> value.Boolean?
    ensures r != Null ==> r.VisibilityValue? && (r.v == Visible <==> !value.b)
  {
    match value
    case Boolean(b) => if !b then VisibilityValue(Visible) else VisibilityValue(Collapsed)
    case _ => Null
  }

  /** ConvertBack: a Visibility becomes `true` exactly when it is not
      Visible; null or anything that is not a Visibility becomes null. */
  function ConvertBack(value: Object): (r: Object)
    ensures r != Null <==> value.VisibilityValue?
    ensures r != Null ==> r.Boolean? && (r.b <==> value.v == Collapsed)
  {
    match value
    case VisibilityValue(v) => Boolean(v != Visible)
    case _ => Null
  }

  /** Every bool survives Convert followed by ConvertBack. */
  lemma BooleanRoundTrip(b: bool)
    ensures ConvertBack(Convert(Boolean(b))) == Boolean(b)
  {
  }

  /** Every Visibility survives ConvertBack followed by Convert. */
  lemma VisibilityRoundTrip(v: Visibility)
    ensures Convert(ConvertBack(VisibilityValue(v))) == VisibilityValue(v)
  {
  }

  /** Convert is one-to-one on the values it converts. */
  lemma ConvertInjective(x: Object, y: Object)
    requires Convert(x) != Null && Convert(x) == Convert(y)
    ensures x == y
  {
  }
}
