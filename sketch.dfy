/** The geometry of the sketch the calculator draws: the canvas size, the
    horizontal scale, the row of alternating slat and space rectangles and the
    guide line over the span. Everything here is a pure function of the inputs;
    the canvas that receives the drawing is in module Panel. */
module Sketch {
  import opened Spacing

  /** The canvas height set before every drawing, in pixels. */
  const CanvasHeight: int := 150
  const MinCanvasWidth: real := 300.0
  const MaxCanvasWidth: real := 600.0
  /** Horizontal room kept free around the row: half of it on each side. */
  const Margin: real := 40.0
  /** Height of every slat and space rectangle. */
  const ElementHeight: real := 50.0
  /** Top of the row, which centres it vertically on the canvas. */
  const StartY: real := (CanvasHeight as real - ElementHeight) / 2.0
  /** How far the guide line sits above the row. */
  const LineLift: real := 20.0

  datatype Kind = Slat | Space

  /** A filled rectangle, as `fillRect(x, y, w, h)` receives it. */
  datatype Rect = Rect(kind: Kind, x: real, y: real, w: real, h: real)

  /** A stroked segment from (x1, y1) to (x2, y2). */
  datatype Line = Line(x1: real, y1: real, x2: real, y2: real)

  function Min(a: real, b: real): real { if a <= b then a else b }
  function Max(a: real, b: real): real { if a >= b then a else b }

  /** The upper bound on the canvas width: 90% of the window, at most 600. */
  function WidthCap(innerWidth: int): (c: real)
    ensures c <= innerWidth as real * 0.9 && c <= MaxCanvasWidth
    ensures c == innerWidth as real * 0.9 || c == MaxCanvasWidth
  {
    Min(innerWidth as real * 0.9, MaxCanvasWidth)
  }

  /** The canvas width asked for: the row plus its margin, held below the cap
      and then raised to at least 300. */
  function ClampedWidth(innerWidth: int, required: real): (c: real)
    ensures MinCanvasWidth <= c <= MaxCanvasWidth
    ensures c == MinCanvasWidth || c == required + Margin || c == WidthCap(innerWidth)
  {
    Max(MinCanvasWidth, Min(WidthCap(innerWidth), required + Margin))
  }

  /** Which of the three values the clamp picks. The minimum wins over the
      cap: in a window narrower than 300 / 0.9 pixels the canvas is 300 wide,
      wider than the cap. */
  lemma ClampedWidthCases(innerWidth: int, required: real)
    ensures WidthCap(innerWidth) < MinCanvasWidth ==> ClampedWidth(innerWidth, required) == MinCanvasWidth
    ensures required + Margin <= MinCanvasWidth ==> ClampedWidth(innerWidth, required) == MinCanvasWidth
    ensures MinCanvasWidth <= required + Margin <= WidthCap(innerWidth) ==>
      ClampedWidth(innerWidth, required) == required + Margin
    ensures MinCanvasWidth <= WidthCap(innerWidth) <= required + Margin ==>
      ClampedWidth(innerWidth, required) == WidthCap(innerWidth)
  {
  }

  /** The canvas width as read back from the canvas, which keeps only the
      integer part of what it is given. */
  function CanvasWidth(innerWidth: int, required: real): (w: int)
    ensures 300 <= w <= 600
    ensures w as real <= ClampedWidth(innerWidth, required) < w as real + 1.0
  {
    ClampedWidth(innerWidth, required).Floor
  }

  /** Pixels per centimetre: the canvas width less the margin, over the row. */
  function ScaleX(canvasWidth: int, required: real): (s: real)
    requires required != 0.0
    ensures s * required == canvasWidth as real - Margin
  {
    (canvasWidth as real - Margin) / required
  }

  /** Where the row starts so that it sits in the middle of the canvas: the
      room left of the row equals the room right of it. */
  function OriginX(canvasWidth: int, required: real, scale: real): (x: real)
    ensures x == canvasWidth as real - (x + required * scale)
  {
    (canvasWidth as real - required * scale) / 2.0
  }

  /** The row is centred with half the margin on the left. */
  lemma OriginIsHalfMargin(canvasWidth: int, required: real)
    requires required != 0.0
    ensures OriginX(canvasWidth, required, ScaleX(canvasWidth, required)) == Margin / 2.0
  {
  }

  /** The rectangles the drawing loop emits from `x` onwards for `slats`
      slats of `width` cm separated by spaces of `gap` cm, at `scale` pixels
      per cm: a slat, then (unless it was the last) a space, then the rest of
      the row. */
  function Layout(x: real, slats: nat, width: real, gap: real, scale: real): (r: seq<Rect>)
    ensures |r| == if slats == 0 then 0 else 2 * slats - 1
    decreases slats
  {
    if slats == 0 then []
    else if slats == 1 then [Rect(Slat, x, StartY, width * scale, ElementHeight)]
    else [Rect(Slat, x, StartY, width * scale, ElementHeight),
          Rect(Space, x + width * scale, StartY, gap * scale, ElementHeight)]
         + Layout(x + Pitch(width, gap, scale), slats - 1, width, gap, scale)
  }

  /** One turn of the drawing loop: whatever was drawn before, followed by
      the row from `x`, is the same as that drawing with a slat at `x` and,
      unless it was the last slat, a space after it, followed by the rest of
      the row. */
  lemma LayoutStep(drawn: seq<Rect>, x: real, slats: nat, width: real, gap: real, scale: real)
    requires slats >= 1
    ensures drawn + Layout(x, slats, width, gap, scale) ==
      if slats == 1 then drawn + [Rect(Slat, x, StartY, width * scale, ElementHeight)]
      else drawn + [Rect(Slat, x, StartY, width * scale, ElementHeight)]
                 + [Rect(Space, x + width * scale, StartY, gap * scale, ElementHeight)]
                 + Layout(x + Pitch(width, gap, scale), slats - 1, width, gap, scale)
  {
  }

  /** The kind at each position of a row: slats at even positions. */
  function KindAt(k: int): Kind
  {
    if k % 2 == 0 then Slat else Space
  }

  /** Rectangles alternate slat/space starting with a slat, each has the
      scaled width of its kind, all share one top and one height, and each
      begins where the one before it ends. */
  lemma {:induction false} LayoutShape(x: real, slats: nat, width: real, gap: real, scale: real)
    ensures var r := Layout(x, slats, width, gap, scale);
      forall k | 0 <= k < |r| ::
        r[k].kind == KindAt(k) && r[k].w == (if k % 2 == 0 then width * scale else gap * scale) &&
        r[k].y == StartY && r[k].h == ElementHeight
    ensures var r := Layout(x, slats, width, gap, scale);
      forall k | 0 <= k < |r| - 1 :: r[k + 1].x == r[k].x + r[k].w
    ensures slats > 0 ==> Layout(x, slats, width, gap, scale)[0].x == x
    decreases slats
  {
    if slats >= 2 {
      var r := Layout(x, slats, width, gap, scale);
      var rest := Layout(x + Pitch(width, gap, scale), slats - 1, width, gap, scale);
      LayoutShape(x + Pitch(width, gap, scale), slats - 1, width, gap, scale);
      assert r == [r[0], r[1]] + rest;
      forall k | 2 <= k < |r|
        ensures r[k].kind == KindAt(k) && r[k].w == (if k % 2 == 0 then width * scale else gap * scale)
      {
        assert r[k] == rest[k - 2];
        assert (k - 2) % 2 == k % 2;
      }
      forall k | 0 <= k < |r| - 1
        ensures r[k + 1].x == r[k].x + r[k].w
      {
        if k >= 2 {
          assert r[k] == rest[k - 2] && r[k + 1] == rest[k - 1];
        }
      }
    }
  }

  /** How far apart the left edges of neighbouring slats are drawn. */
  function Pitch(width: real, gap: real, scale: real): real
  {
    width * scale + gap * scale
  }

  /** The last rectangle of a row is a slat that starts `slats - 1` pitches
      after the first. */
  lemma {:induction false} LayoutLast(x: real, slats: nat, width: real, gap: real, scale: real)
    requires slats >= 1
    ensures var r := Layout(x, slats, width, gap, scale);
      r[|r| - 1].kind == Slat && r[|r| - 1].w == width * scale &&
      r[|r| - 1].x == x + (slats - 1) as real * Pitch(width, gap, scale)
    decreases slats
  {
    if slats >= 2 {
      var p := Pitch(width, gap, scale);
      var r := Layout(x, slats, width, gap, scale);
      var rest := Layout(x + p, slats - 1, width, gap, scale);
      LayoutLast(x + p, slats - 1, width, gap, scale);
      assert |r| == 2 + |rest|;
      assert r[|r| - 1] == rest[|rest| - 1];
      PitchSteps(x, slats - 1, p);
    }
  }

  /** Starting one pitch further on and taking one pitch fewer lands on the
      same place. */
  lemma PitchSteps(x: real, m: nat, p: real)
    requires m >= 1
    ensures x + p + (m - 1) as real * p == x + m as real * p
  {
    assert (m - 1) as real == m as real - 1.0;
  }

  /** The row ends one scaled row width to the right of where it starts. */
  lemma LayoutEnd(x: real, slats: nat, width: real, gap: real, scale: real)
    requires slats >= 1
    ensures var r := Layout(x, slats, width, gap, scale);
      r[|r| - 1].x + r[|r| - 1].w == x + RequiredWidth(slats, width, gap) * scale
  {
    LayoutLast(x, slats, width, gap, scale);
    var m := (slats - 1) as real;
    calc {
      x + m * Pitch(width, gap, scale) + width * scale;
      x + (m * width + m * gap + width) * scale;
      x + ((m + 1.0) * width + m * gap) * scale;
      { assert slats as real == m + 1.0; }
      x + RequiredWidth(slats, width, gap) * scale;
    }
  }

  /** Number of rectangles of one kind. */
  function Count(rs: seq<Rect>, kind: Kind): nat
  {
    if rs == [] then 0 else (if rs[0].kind == kind then 1 else 0) + Count(rs[1..], kind)
  }

  lemma CountConcat(a: seq<Rect>, b: seq<Rect>, kind: Kind)
    ensures Count(a + b, kind) == Count(a, kind) + Count(b, kind)
  {
    if a != [] {
      assert (a + b)[1..] == a[1..] + b;
      CountConcat(a[1..], b, kind);
    } else {
      assert a + b == b;
    }
  }

  /** A row of `slats` slats holds exactly `slats` slat rectangles and one
      space rectangle fewer. */
  lemma {:induction false} LayoutCounts(x: real, slats: nat, width: real, gap: real, scale: real)
    requires slats >= 1
    ensures Count(Layout(x, slats, width, gap, scale), Slat) == slats
    ensures Count(Layout(x, slats, width, gap, scale), Space) == slats - 1
    decreases slats
  {
    var a := Rect(Slat, x, StartY, width * scale, ElementHeight);
    if slats == 1 {
      assert Layout(x, slats, width, gap, scale) == [a];
      assert [a][1..] == [];
    } else {
      var b := Rect(Space, x + width * scale, StartY, gap * scale, ElementHeight);
      var rest := Layout(x + Pitch(width, gap, scale), slats - 1, width, gap, scale);
      LayoutCounts(x + Pitch(width, gap, scale), slats - 1, width, gap, scale);
      assert Layout(x, slats, width, gap, scale) == [a, b] + rest;
      CountConcat([a, b], rest, Slat);
      CountConcat([a, b], rest, Space);
      assert [a, b][1..] == [b];
      assert [b][1..] == [];
    }
  }

  /** Where the guide line starts: the inner edge of the first slat. */
  function FirstInnerEdge(x: real, width: real, scale: real): real
  {
    x + width * scale
  }

  /** Where the guide line ends, computed from the first inner edge by
      stepping over `slats - 2` slat-and-space pairs and one more space: the
      left edge of the slat `slats - 1` pitches after the first. */
  function LastInnerEdge(x: real, slats: int, width: real, gap: real, scale: real): (e: real)
    ensures e == x + (slats - 1) as real * Pitch(width, gap, scale)
  {
    FirstInnerEdge(x, width, scale) + (slats - 2) as real * (width * scale + gap * scale) + gap * scale
  }

  /** The guide line runs from the right edge of the first slat rectangle to
      the left edge of the last one, and covers `slats - 1` spaces and
      `slats - 2` slats. */
  lemma GuideMeetsEndSlats(x: real, slats: nat, width: real, gap: real, scale: real)
    requires slats >= 2
    ensures var r := Layout(x, slats, width, gap, scale);
      FirstInnerEdge(x, width, scale) == r[0].x + r[0].w &&
      LastInnerEdge(x, slats, width, gap, scale) == r[|r| - 1].x
    ensures LastInnerEdge(x, slats, width, gap, scale) - FirstInnerEdge(x, width, scale) ==
      ((slats - 1) as real * gap + (slats - 2) as real * width) * scale
  {
    LayoutShape(x, slats, width, gap, scale);
    LayoutLast(x, slats, width, gap, scale);
    var m := (slats - 1) as real;
    var p := Pitch(width, gap, scale);
    assert (slats - 2) as real == m - 1.0;
    calc {
      LastInnerEdge(x, slats, width, gap, scale) - FirstInnerEdge(x, width, scale);
      (m - 1.0) * (width * scale + gap * scale) + gap * scale;
      (m * gap + (m - 1.0) * width) * scale;
    }
  }

  /** The rectangles of a sketch of `slats` slats of width `width` and spaces
      of width `gap` (both in cm) on a canvas sized for a window `innerWidth`
      pixels wide: the row scaled to fill the canvas less the margin, and
      centred. A row of width zero makes the scale infinite and every
      coordinate NaN, which the canvas ignores: nothing is drawn. */
  function Rects(innerWidth: int, slats: nat, width: real, gap: real): (r: seq<Rect>)
    ensures |r| == if slats == 0 || RequiredWidth(slats, width, gap) == 0.0 then 0 else 2 * slats - 1
  {
    var required := RequiredWidth(slats, width, gap);
    if required == 0.0 then []
    else
      var canvasWidth := CanvasWidth(innerWidth, required);
      var scale := ScaleX(canvasWidth, required);
      Layout(OriginX(canvasWidth, required, scale), slats, width, gap, scale)
  }

  /** The guide line of the same sketch: drawn exactly when the row has a
      width, horizontal, 20 pixels above the row. */
  function Guide(innerWidth: int, slats: nat, width: real, gap: real): (g: Option<Line>)
    ensures g.Some? <==> RequiredWidth(slats, width, gap) != 0.0
    ensures g.Some? ==> g.value.y1 == 30.0 && g.value.y2 == 30.0
  {
    var required := RequiredWidth(slats, width, gap);
    if required == 0.0 then None
    else
      var canvasWidth := CanvasWidth(innerWidth, required);
      var scale := ScaleX(canvasWidth, required);
      var x := OriginX(canvasWidth, required, scale);
      Some(Line(FirstInnerEdge(x, width, scale), StartY - LineLift,
                LastInnerEdge(x, slats, width, gap, scale), StartY - LineLift))
  }

  /** The sketch for a row of non-zero width, step by step as it is drawn. */
  lemma SketchUnfold(innerWidth: int, slats: nat, width: real, gap: real)
    requires RequiredWidth(slats, width, gap) != 0.0
    ensures var required := RequiredWidth(slats, width, gap);
      var canvasWidth := CanvasWidth(innerWidth, required);
      var scale := ScaleX(canvasWidth, required);
      var x := OriginX(canvasWidth, required, scale);
      Rects(innerWidth, slats, width, gap) == Layout(x, slats, width, gap, scale) &&
      Guide(innerWidth, slats, width, gap) ==
        Some(Line(FirstInnerEdge(x, width, scale), StartY - LineLift,
                  LastInnerEdge(x, slats, width, gap, scale), StartY - LineLift))
  {
  }

  /** Whatever the window width, the scaled row starts half a margin from the
      left edge of the canvas and ends half a margin from its right edge. */
  lemma RowCentred(innerWidth: int, slats: nat, width: real, gap: real)
    requires slats >= 1
    requires RequiredWidth(slats, width, gap) != 0.0
    ensures var r := Rects(innerWidth, slats, width, gap);
      var canvasWidth := CanvasWidth(innerWidth, RequiredWidth(slats, width, gap));
      |r| == 2 * slats - 1 &&
      r[0].x == Margin / 2.0 &&
      r[|r| - 1].x + r[|r| - 1].w == canvasWidth as real - Margin / 2.0
  {
    SketchUnfold(innerWidth, slats, width, gap);
    CentredOnCanvas(CanvasWidth(innerWidth, RequiredWidth(slats, width, gap)), slats, width, gap);
  }

  /** The same on a canvas of any width, before the canvas width is fixed. */
  lemma CentredOnCanvas(canvasWidth: int, slats: nat, width: real, gap: real)
    requires slats >= 1
    requires RequiredWidth(slats, width, gap) != 0.0
    ensures var required := RequiredWidth(slats, width, gap);
      var scale := ScaleX(canvasWidth, required);
      var r := Layout(OriginX(canvasWidth, required, scale), slats, width, gap, scale);
      r[0].x == Margin / 2.0 &&
      r[|r| - 1].x + r[|r| - 1].w == canvasWidth as real - Margin / 2.0
  {
    var required := RequiredWidth(slats, width, gap);
    var scale := ScaleX(canvasWidth, required);
    var x := OriginX(canvasWidth, required, scale);
    OriginIsHalfMargin(canvasWidth, required);
    LayoutShape(x, slats, width, gap, scale);
    LayoutEnd(x, slats, width, gap, scale);
  }

  /** With one slat more than spaces and the computed space width, the guide
      line meets the inner edges of the end slats, sits 20 pixels above the
      row, and is as long as the span at drawing scale. */
  lemma GuideSpansDistance(innerWidth: int, distance: real, spaces: int, width: real)
    requires spaces > 1
    requires distance + 2.0 * width != 0.0
    ensures var gap := SpaceWidth(distance, spaces, width);
      RequiredWidth(spaces + 1, width, gap) != 0.0 &&
      var r := Rects(innerWidth, spaces + 1, width, gap);
      var g := Guide(innerWidth, spaces + 1, width, gap);
      var canvasWidth := CanvasWidth(innerWidth, distance + 2.0 * width);
      g == Some(Line(r[0].x + r[0].w, 30.0, r[|r| - 1].x, 30.0)) &&
      g.value.x2 - g.value.x1 == distance * ScaleX(canvasWidth, distance + 2.0 * width)
  {
    var gap := SpaceWidth(distance, spaces, width);
    RequiredWidthOfSketch(distance, spaces, width);
    var required := RequiredWidth(spaces + 1, width, gap);
    assert required == distance + 2.0 * width;
    var canvasWidth := CanvasWidth(innerWidth, required);
    var scale := ScaleX(canvasWidth, required);
    var x := OriginX(canvasWidth, required, scale);
    SketchUnfold(innerWidth, spaces + 1, width, gap);
    GuideMeetsEndSlats(x, spaces + 1, width, gap, scale);
    GuideLength(x, distance, spaces, width, scale);
  }

  /** Between the inner edges of the end slats lie the span's spaces and inner
      slats, so the guide line is as long as the span, scaled. */
  lemma GuideLength(x: real, distance: real, spaces: int, width: real, scale: real)
    requires spaces > 1
    ensures var gap := SpaceWidth(distance, spaces, width);
      LastInnerEdge(x, spaces + 1, width, gap, scale) - FirstInnerEdge(x, width, scale) == distance * scale
  {
    var gap := SpaceWidth(distance, spaces, width);
    var n := spaces as real;
    assert (spaces + 1 - 2) as real == n - 1.0;
    assert (n - 1.0) * width + n * gap == distance;
    calc {
      LastInnerEdge(x, spaces + 1, width, gap, scale) - FirstInnerEdge(x, width, scale);
      (n - 1.0) * (width * scale + gap * scale) + gap * scale;
      ((n - 1.0) * width + n * gap) * scale;
      distance * scale;
    }
  }

  /** What one valid calculation draws for a span `distance`, `spaces` spaces
      and slat width `width`: one slat more than spaces, alternating and
      touching, centred on the canvas, and a guide line at height 30 whose
      ends meet the inner edges of the end slats and whose length is the
      span at drawing scale. */
  lemma CalculatedSketch(innerWidth: int, distance: real, spaces: int, width: real)
    requires spaces > 1
    requires distance + 2.0 * width != 0.0
    ensures var gap := SpaceWidth(distance, spaces, width);
      var r := Rects(innerWidth, spaces + 1, width, gap);
      var canvasWidth := CanvasWidth(innerWidth, distance + 2.0 * width);
      |r| == 2 * spaces + 1 &&
      Count(r, Slat) == spaces + 1 && Count(r, Space) == spaces &&
      r[0].x == 20.0 && r[|r| - 1].x + r[|r| - 1].w == canvasWidth as real - 20.0 &&
      Guide(innerWidth, spaces + 1, width, gap) ==
        Some(Line(r[0].x + r[0].w, 30.0, r[|r| - 1].x, 30.0)) &&
      r[|r| - 1].x - (r[0].x + r[0].w) == distance * ScaleX(canvasWidth, distance + 2.0 * width)
  {
    var gap := SpaceWidth(distance, spaces, width);
    RequiredWidthOfSketch(distance, spaces, width);
    var required := RequiredWidth(spaces + 1, width, gap);
    var canvasWidth := CanvasWidth(innerWidth, required);
    var scale := ScaleX(canvasWidth, required);
    SketchUnfold(innerWidth, spaces + 1, width, gap);
    RowCentred(innerWidth, spaces + 1, width, gap);
    LayoutCounts(OriginX(canvasWidth, required, scale), spaces + 1, width, gap, scale);
    GuideSpansDistance(innerWidth, distance, spaces, width);
  }
}
