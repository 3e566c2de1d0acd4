/** The arithmetic half of the slat spacing calculator: what the three input
    fields must hold before anything is computed, and the width of one space
    between slats.

    The user enters the span between the inside edges of the two end slats
    (`distance`, in cm), the number of spaces between slats and the width of
    one slat. With `n` spaces there are `n - 1` inner slats inside the span and
    two end slats outside it. */
module Spacing {

  datatype Option<T> = None | Some(value: T)

  /** One input field as the calculator sees it: left blank (the empty
      string), or holding text whose parse gave a number (`Some`) or NaN
      (`None`). */
  datatype Field<T> = Blank | Entered(parsed: Option<T>)

  /** What the inputs allow: nothing yet, the "Please enter valid numbers!"
      message, or a computation on the parsed values. */
  datatype Verdict =
    | Incomplete
    | Invalid
    | Accepted(distance: real, spaces: int, width: real)

  /** True when the field holds a number. */
  predicate IsNumber<T>(f: Field<T>)
  {
    f.Entered? && f.parsed.Some?
  }

  /** The checks `calculateSpacing` makes before computing: any blank field
      stops it silently; a NaN parse or at most one space gives the error
      message. Distance and width are not required to be positive. */
  function Check(distance: Field<real>, spaces: Field<int>, width: Field<real>): (v: Verdict)
    ensures v.Incomplete? <==> (distance.Blank? || spaces.Blank? || width.Blank?)
    ensures v.Accepted? <==>
      (IsNumber(distance) && IsNumber(spaces) && IsNumber(width) && spaces.parsed.value > 1)
    ensures v.Invalid? <==>
      (!distance.Blank? && !spaces.Blank? && !width.Blank? &&
       (!IsNumber(distance) || !IsNumber(spaces) || !IsNumber(width) || spaces.parsed.value <= 1))
    ensures v.Accepted? ==>
      v.spaces > 1 && v.distance == distance.parsed.value &&
      v.spaces == spaces.parsed.value && v.width == width.parsed.value
  {
    if distance.Blank? || spaces.Blank? || width.Blank? then
      Incomplete
    else if distance.parsed.None? || spaces.parsed.None? || width.parsed.None?
            || spaces.parsed.value <= 1 then
      Invalid
    else
      Accepted(distance.parsed.value, spaces.parsed.value, width.parsed.value)
  }

  /** The width of one space when `spaces` spaces and `spaces - 1` inner slats
      of width `width` fill the span `distance` exactly. It is negative when the
      slats alone are wider than the span; that is not rejected. */
  function SpaceWidth(distance: real, spaces: int, width: real): (g: real)
    requires spaces > 1
    ensures (spaces - 1) as real * width + spaces as real * g == distance
  {
    (distance - (spaces - 1) as real * width) / spaces as real
  }

  /** The space width is the only width that fills the span. */
  lemma SpaceWidthUnique(distance: real, spaces: int, width: real, g: real)
    requires spaces > 1
    requires (spaces - 1) as real * width + spaces as real * g == distance
    ensures g == SpaceWidth(distance, spaces, width)
  {
    var s := SpaceWidth(distance, spaces, width);
    assert spaces as real * g == spaces as real * s;
    assert spaces as real * (g - s) == 0.0;
  }

  /** The space width is negative exactly when the inner slats are together
      wider than the span. */
  lemma SpaceWidthNegative(distance: real, spaces: int, width: real)
    requires spaces > 1
    ensures SpaceWidth(distance, spaces, width) < 0.0 <==> (spaces - 1) as real * width > distance
  {
    var g := SpaceWidth(distance, spaces, width);
    assert spaces as real * g == distance - (spaces - 1) as real * width;
    if g < 0.0 {
      assert spaces as real * g < 0.0;
    } else {
      assert spaces as real * g >= 0.0;
    }
  }

  /** Unscaled width of a row of `slats` slats of width `width` with a space of
      width `gap` between each neighbouring pair: one slat, then a slat and a
      space for every further slat. */
  function RequiredWidth(slats: int, width: real, gap: real): (r: real)
    ensures r == width + (slats - 1) as real * (width + gap)
  {
    slats as real * width + (slats - 1) as real * gap
  }

  /** The sketch adds the two end slats to the span: drawn with one slat more
      than there are spaces, the row is the span plus two slat widths. */
  lemma RequiredWidthOfSketch(distance: real, spaces: int, width: real)
    requires spaces > 1
    ensures RequiredWidth(spaces + 1, width, SpaceWidth(distance, spaces, width)) == distance + 2.0 * width
  {
    var g := SpaceWidth(distance, spaces, width);
    var n := spaces as real;
    assert (spaces + 1) as real == n + 1.0;
    assert (spaces + 1 - 1) as real == n;
    assert (n - 1.0) * width + n * g == distance;
    calc {
      RequiredWidth(spaces + 1, width, g);
      (n + 1.0) * width + n * g;
      (n - 1.0) * width + n * g + 2.0 * width;
      distance + 2.0 * width;
    }
  }
}
