/** Worked examples of the calculator on concrete inputs, proved as lemmas. */
module Scenarios {
  import opened Spacing
  import opened Sketch

  /** 100 cm of span, 4 spaces and 10 cm slats on a 1280-pixel window: the
      space is 17.5 cm, the sketch shows 5 slats and 4 spaces on a 300-pixel
      canvas, starting 20 pixels from its left edge. */
  lemma HundredCentimetreSpan()
    ensures Check(Entered(Some(100.0)), Entered(Some(4)), Entered(Some(10.0))) == Accepted(100.0, 4, 10.0)
    ensures SpaceWidth(100.0, 4, 10.0) == 17.5
    ensures CanvasWidth(1280, RequiredWidth(5, 10.0, 17.5)) == 300
    ensures var r := Rects(1280, 5, 10.0, 17.5);
      |r| == 9 && Count(r, Slat) == 5 && Count(r, Space) == 4 && r[0].x == 20.0 && r[8].x + r[8].w == 280.0
  {
    assert SpaceWidth(100.0, 4, 10.0) == 17.5;
    CalculatedSketch(1280, 100.0, 4, 10.0);
  }

  /** A single space is rejected whatever the other two fields hold. */
  lemma SingleSpaceRejected(distance: real, width: real)
    ensures Check(Entered(Some(distance)), Entered(Some(1)), Entered(Some(width))) == Invalid
  {
  }

  /** 10 cm of span, 2 spaces and an 8 cm slat leave 1 cm spaces. */
  lemma TightFit()
    ensures Check(Entered(Some(10.0)), Entered(Some(2)), Entered(Some(8.0))) == Accepted(10.0, 2, 8.0)
    ensures SpaceWidth(10.0, 2, 8.0) == 1.0
  {
  }
}
