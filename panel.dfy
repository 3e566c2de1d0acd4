/** The calculator page: its three input fields, the result line and the
    canvas the sketch is drawn on, and the three actions that change them. */
module Panel {
  import opened Spacing
  import opened Sketch

  /** The result line under the inputs: empty, the validation message, or the
      computed space width (shown as "Spacing between slats: X.XX cm"). */
  datatype Message = NoMessage | EnterValidNumbers | SpacingBetweenSlats(cm: real)

  class Calculator {
    var distance: Field<real>
    var spaces: Field<int>
    var width: Field<real>
    var result: Message
    /** The canvas: its size and what has been drawn on it since it was last
        cleared, the rectangles in drawing order and the guide line. */
    var canvasWidth: int
    var canvasHeight: int
    var drawn: seq<Rect>
    var guide: Option<Line>

    /** The canvas shows the sketch of `slats` slats of `slatWidth` cm with
        spaces of `spacing` cm, sized for a window `innerWidth` pixels wide. */
    predicate Shows(innerWidth: int, slats: nat, slatWidth: real, spacing: real)
      reads this
    {
      canvasHeight == CanvasHeight &&
      canvasWidth == CanvasWidth(innerWidth, RequiredWidth(slats, slatWidth, spacing)) &&
      drawn == Rects(innerWidth, slats, slatWidth, spacing) &&
      guide == Guide(innerWidth, slats, slatWidth, spacing)
    }

    /** A fresh page: blank fields, no result and an empty canvas of the
        default 300 by 150 size. */
    constructor ()
      ensures distance == Blank && spaces == Blank && width == Blank && result == NoMessage
      ensures canvasWidth == 300 && canvasHeight == CanvasHeight && drawn == [] && guide == None
    {
      distance, spaces, width, result := Blank, Blank, Blank, NoMessage;
      canvasWidth, canvasHeight, drawn, guide := 300, CanvasHeight, [], None;
    }

    method EnterDistance(f: Field<real>)
      modifies this`distance
      ensures distance == f
    {
      distance := f;
    }

    method EnterSpaces(f: Field<int>)
      modifies this`spaces
      ensures spaces == f
    {
      spaces := f;
    }

    method EnterWidth(f: Field<real>)
      modifies this`width
      ensures width == f
    {
      width := f;
    }

    /** The Calculate button (and every window resize). With a field blank
        nothing changes; with invalid inputs only the result line changes and
        the previous sketch stays; otherwise the result is the space width
        and the canvas shows one slat more than there are spaces. */
    method Calculate(innerWidth: int)
      modifies this
      ensures distance == old(distance) && spaces == old(spaces) && width == old(width)
      ensures Check(distance, spaces, width).Incomplete? ==> result == old(result)
      ensures Check(distance, spaces, width).Invalid? ==> result == EnterValidNumbers
      ensures !Check(distance, spaces, width).Accepted? ==>
        canvasWidth == old(canvasWidth) && canvasHeight == old(canvasHeight) &&
        drawn == old(drawn) && guide == old(guide)
      ensures Check(distance, spaces, width).Accepted? ==>
        var v := Check(distance, spaces, width);
        var gap := SpaceWidth(v.distance, v.spaces, v.width);
        result == SpacingBetweenSlats(gap) && Shows(innerWidth, v.spaces + 1, v.width, gap)
    {
      var v := Check(distance, spaces, width);
      match v
      case Incomplete =>
        return;
      case Invalid =>
        result := EnterValidNumbers;
        return;
      case Accepted(d, n, w) =>
        var gap := SpaceWidth(d, n, w);
        result := SpacingBetweenSlats(gap);
        DrawSketch(innerWidth, n + 1, w, gap);
    }

    /** Sizes the canvas, which clears it, then draws the row of slats and
        spaces and the guide line above it. */
    method DrawSketch(innerWidth: int, slats: nat, slatWidth: real, spacing: real)
      modifies this`canvasWidth, this`canvasHeight, this`drawn, this`guide
      ensures Shows(innerWidth, slats, slatWidth, spacing)
    {
      canvasHeight := CanvasHeight;
      var required := RequiredWidth(slats, slatWidth, spacing);
      canvasWidth := CanvasWidth(innerWidth, required);
      drawn, guide := [], None;
      if required != 0.0 {
        var scale := ScaleX(canvasWidth, required);
        var x := OriginX(canvasWidth, required, scale);
        var firstInner := FirstInnerEdge(x, slatWidth, scale);
        var lastInner := LastInnerEdge(x, slats, slatWidth, spacing, scale);
        SketchUnfold(innerWidth, slats, slatWidth, spacing);
        DrawRow(x, slats, slatWidth, spacing, scale);
        var lineY := StartY - LineLift;
        guide := Some(Line(firstInner, lineY, lastInner, lineY));
      }
    }

    /** The drawing loop: from `x` rightwards, a slat, then unless it was the
        last slat a space, `slats` times, each rectangle starting where the
        previous one ended. */
    method DrawRow(x: real, slats: nat, slatWidth: real, spacing: real, scale: real)
      modifies this`drawn
      ensures drawn == old(drawn) + Layout(x, slats, slatWidth, spacing, scale)
    {
      var left := x;
      var i := 0;
      while i < slats
        invariant 0 <= i <= slats
        invariant drawn + Layout(left, slats - i, slatWidth, spacing, scale)
                  == old(drawn) + Layout(x, slats, slatWidth, spacing, scale)
      {
        LayoutStep(drawn, left, slats - i, slatWidth, spacing, scale);
        ghost var next := left + Pitch(slatWidth, spacing, scale);
        drawn := drawn + [Rect(Slat, left, StartY, slatWidth * scale, ElementHeight)];
        left := left + slatWidth * scale;
        if i < slats - 1 {
          drawn := drawn + [Rect(Space, left, StartY, spacing * scale, ElementHeight)];
          left := left + spacing * scale;
          assert left == next;
        }
        i := i + 1;
      }
      assert Layout(left, 0, slatWidth, spacing, scale) == [];
      assert drawn + [] == drawn;
    }

    /** The Reset button: blank fields, no result, and a cleared canvas that
        keeps its size. */
    method Reset()
      modifies this
      ensures distance == Blank && spaces == Blank && width == Blank && result == NoMessage
      ensures drawn == [] && guide == None
      ensures canvasWidth == old(canvasWidth) && canvasHeight == old(canvasHeight)
    {
      distance, spaces, width, result := Blank, Blank, Blank, NoMessage;
      drawn, guide := [], None;
    }
  }
}
