# Slat spacing calculator — a Dafny model

The calculator page of the QR_Generator_LWJ web app (`app/panel/page.js`)
works out how wide the spaces between slats must be. The user enters three
values:

- the span between the inside edges of the two end slats;
- the number of spaces;
- the width of one slat.

With `n` spaces the span holds `n - 1` inner slats and `n` equal spaces. The
two end slats sit outside it. The page shows the space width and draws a
proportional sketch on a canvas. The sketch has `n + 1` slats, alternating
with `n` spaces, plus a grey guide line over the span.

The model has three modules plus one of worked examples:

- `Spacing` (spacing.dfy) holds the input checks and the space-width formula.
  A field is `Blank` (the empty string) or `Entered` with a parsed value that
  may be NaN (`None`).
- `Sketch` (sketch.dfy) holds the canvas geometry as pure functions:
  - the clamped and integer canvas width;
  - the horizontal scale and the centring offset;
  - the row of rectangles (`Layout`) and the guide line.

  Lemmas prove that the row alternates and that neighbouring rectangles
  touch. They prove the row holds `N` slats and `N - 1` spaces, sits 20 px
  from each canvas edge, and that the guide line spans the inner edges of
  the end slats, with a length equal to the span at drawing scale.
- `Panel` (panel.dfy) holds the page state as a class `Calculator`. Its
  fields are the three inputs, the result line and the canvas: its size, the
  rectangles drawn since it was last cleared, and the guide line.
  - `Calculate` and `Reset` model the two buttons.
  - `DrawSketch` sizes and clears the canvas.
  - `DrawRow` is the drawing loop. It appends one rectangle at a time while
    moving `x` to the right.
- `Scenarios` (scenarios.dfy) holds worked examples, proved as lemmas:
  100/4/10 gives 17.5, one space is rejected, and 10/2/8 gives 1.

Three facts about the code are easy to miss:

- The code never checks that the span or the slat width is positive. Any
  parsed number is accepted, and a negative space width is a normal result.
- The canvas width is `max(300, min(min(0.9 * innerWidth, 600), row + 40))`.
  In a window narrower than 334 px (where `0.9 * innerWidth < 300`) the
  300 px minimum beats the cap. So the width is always between 300 and 600,
  but it is not always below `0.9 * innerWidth` (`Sketch.ClampedWidthCases`).
- The space width divides the span by `n` while the sketch draws `n + 1`
  slats. This matches the input label "Span between inside edge of end
  slats" (app/panel/page.js:118): the two end slats lie outside the span.
  The drawn row is always the span plus two slat widths
  (`Spacing.RequiredWidthOfSketch`), and the guide line between the end
  slats' inner edges is exactly the span at drawing scale
  (`Sketch.GuideSpansDistance`).

## Model

| member | source | states |
|---|---|---|
| `Spacing.Check` | app/panel/page.js:14-27 | Any blank field means nothing is computed. All three fields filled, but one a NaN or the space count at most 1, means the validation message. Otherwise the parsed values are accepted with at least 2 spaces. Each of the three cases holds exactly when its condition does. |
| `Spacing.SpaceWidth` | app/panel/page.js:29 | The space width fills the span: `(n - 1) * w + n * g == T`. |
| `Spacing.SpaceWidthUnique` | app/panel/page.js:29 | Any width that fills the span that way equals the computed space width. |
| `Spacing.SpaceWidthNegative` | app/panel/page.js:29 | The space width is negative exactly when the inner slats are wider than the span. Such a width is still returned, not rejected. |
| `Spacing.RequiredWidth` | app/panel/page.js:45 | The unscaled row width is one slat plus a slat and a space for every further slat. `Sketch.LayoutEnd` proves that the drawn row spans exactly this width times the scale. |
| `Spacing.RequiredWidthOfSketch` | app/panel/page.js:29-45 | Drawn with `n + 1` slats, the unscaled row `N * w + (N - 1) * g` equals the span plus two slat widths. |
| `Sketch.WidthCap` | app/panel/page.js:44 | The cap is at most 90% of the window width and at most 600, and it equals one of the two, so it is the smaller. |
| `Sketch.ClampedWidth` | app/panel/page.js:43-51 | The requested canvas width is between 300 and 600. It is one of 300, the row plus 40, or the cap `min(0.9 * innerWidth, 600)`. |
| `Sketch.ClampedWidthCases` | app/panel/page.js:43-51 | Which of the three the clamp picks. A cap below 300 gives 300. A row plus margin between 300 and the cap gives exactly that. A cap between 300 and the row plus margin gives the cap. |
| `Sketch.CanvasWidth` | app/panel/page.js:48-51 | The canvas width read back is the integer part of the clamped width. It is between 300 and 600. |
| `Sketch.ScaleX` | app/panel/page.js:54 | The scale maps the row onto the canvas width less the 40 px margin: `scale * row == W - 40`. |
| `Sketch.OriginX` | app/panel/page.js:59 | The row starts so that the room left of it equals the room right of it on the canvas. |
| `Sketch.OriginIsHalfMargin` | app/panel/page.js:54-59 | The row starts at `x = 20` on a canvas of any width. |
| `Sketch.Layout` | app/panel/page.js:70-80 | `N` slats give `2N - 1` rectangles, and zero slats give none. |
| `Sketch.LayoutStep` | app/panel/page.js:70-80 | A proof step for the invariant of `Panel.Calculator.DrawRow`, not a separate property: `Layout` unfolded once after an existing drawing. One turn of the loop: a slat at `x`, then a space right after it unless it was the last slat, then the rest of the row one pitch further on. |
| `Sketch.LayoutShape` | app/panel/page.js:55-80 | Rectangles alternate slat, space, ..., starting with a slat. Each is as wide as its kind at drawing scale. All have `y = 50` and height 50. Each starts where the one before it ends. |
| `Sketch.LayoutLast` | app/panel/page.js:70-80 | The last rectangle is a slat. It starts `N - 1` pitches after the first. |
| `Sketch.LayoutEnd` | app/panel/page.js:45-80 | The row ends `row * scale` to the right of its start, where `row` is the unscaled row width `N * w + (N - 1) * g`. |
| `Sketch.LayoutCounts` | app/panel/page.js:70-80 | A row of `N` slats holds exactly `N` slat rectangles and `N - 1` space rectangles. |
| `Sketch.FirstInnerEdge` | app/panel/page.js:62 | Where the guide line starts. It has no contract of its own: `Sketch.GuideMeetsEndSlats` proves it is the right edge of the first rectangle. |
| `Sketch.LastInnerEdge` | app/panel/page.js:63-66 | The source's closed form for where the guide line ends equals the row start plus `N - 1` pitches, which is where the last slat is drawn. |
| `Sketch.GuideMeetsEndSlats` | app/panel/page.js:62-66 | The guide line starts at the right edge of the first rectangle and ends at the left edge of the last. Its length is `N - 1` spaces and `N - 2` slats at drawing scale. |
| `Sketch.GuideLength` | app/panel/page.js:29-66 | With `n + 1` slats and the computed space width, the guide line from the first inner edge to the last one is as long as the span times the scale. |
| `Sketch.Rects` | app/panel/page.js:45-80 | The rectangles drawn for a sketch: `2N - 1` of them for a row of non-zero width, none for a row of zero width, whose coordinates would all be NaN. |
| `Sketch.Guide` | app/panel/page.js:62-88 | The guide line is drawn exactly when the row has a non-zero width. It is horizontal, at `y = 30`. |
| `Sketch.CentredOnCanvas` | app/panel/page.js:54-80 | On a canvas of any width `W`, the row scaled to it starts at `x = 20` and ends at `W - 20`. |
| `Sketch.RowCentred` | app/panel/page.js:43-80 | For any window width, the sketch of a row of non-zero width has `2N - 1` rectangles. They run from `x = 20` to `W - 20`, where `W` is the canvas width chosen for that window. |
| `Sketch.GuideSpansDistance` | app/panel/page.js:62-88 | With `n + 1` slats and the computed space width, the guide line lies at `y = 30` from the first slat's inner edge to the last slat's inner edge. Its length is the span times the scale. |
| `Sketch.CalculatedSketch` | app/panel/page.js:29-88 | What a valid calculation draws: `2n + 1` rectangles, `n + 1` slats and `n` spaces, from `x = 20` to `W - 20`, with the guide line between the end slats' inner edges at `y = 30`, as long as the span at drawing scale. |
| `Panel.Calculator.constructor` | app/panel/page.js:7-11 | A new page has blank fields, no result and an empty canvas. |
| `Panel.Calculator.EnterDistance` | app/panel/page.js:123 | Editing the span field replaces its value. |
| `Panel.Calculator.EnterSpaces` | app/panel/page.js:131 | Editing the spaces field replaces its value. |
| `Panel.Calculator.EnterWidth` | app/panel/page.js:139 | Editing the width field replaces its value. |
| `Panel.Calculator.Calculate` | app/panel/page.js:13-32 | The inputs are never changed. With a blank field, nothing changes. With invalid numbers, only the result becomes the validation message and the previous sketch stays. Otherwise the result is the space width, and the canvas shows the sketch of `n + 1` slats with that spacing. |
| `Panel.Calculator.DrawSketch` | app/panel/page.js:34-90 | Afterwards the canvas is 150 px high and `CanvasWidth` wide, and it holds exactly the sketch's rectangles and guide line. A row of zero width leaves it empty. |
| `Panel.Calculator.DrawRow` | app/panel/page.js:70-80 | The loop appends exactly the row `Layout` describes to what is already drawn. |
| `Panel.Calculator.Reset` | app/panel/page.js:92-99 | Fields and result become blank. The canvas is cleared but keeps its size. |
| `Scenarios.HundredCentimetreSpan` | app/panel/page.js:13-32 | 100 cm, 4 spaces and 10 cm slats give a 17.5 cm space. The sketch is 9 rectangles (5 slats, 4 spaces) from `x = 20` to `x = 280` on a 300 px canvas. |
| `Scenarios.SingleSpaceRejected` | app/panel/page.js:19-27 | A space count of 1 gives the validation message. |
| `Scenarios.TightFit` | app/panel/page.js:29 | 10 cm, 2 spaces and 8 cm slats give a 1 cm space. |

## Left out

- Text parsing: `parseFloat`/`parseInt` (prefix parsing, truncation of
  "2.5" to 2, Infinity) is not modelled. A field arrives already parsed, as
  `Blank`, `Entered(None)` for NaN or `Entered(Some(v))`.
- Result formatting: `toFixed(2)` and the "Spacing between slats: … cm"
  text are not modelled. The result holds the exact space width.
- Floating point: arithmetic is exact over `real`.
  - A row of width zero (span `== -2 * width`) would make the scale infinite
    and every coordinate NaN in the browser, and the canvas ignores
    non-finite coordinates. The model therefore draws no rectangles and no
    line in that case, rather than computing NaNs.
  - Overflow and rounding are not modelled.
- Canvas integer conversion: the canvas keeps the integer part of the width
  it is given. This is modelled as `Floor`, which agrees because the value
  is always at least 300.
- Canvas 2D API: colours, line width, `beginPath`/`stroke` and pixel output
  are not modelled. Rectangles and the guide line are recorded as data.
- `drawSketch`'s first parameter is never used in the source, so the model
  leaves it out.
- Event wiring:
  - The resize listener and React hooks (app/panel/page.js:101-104) are not
    modelled. Every resize is one more `Calculate` call with the new window
    width, and `window.innerWidth` is passed in as a parameter.
  - React's deferred state updates are modelled as immediate assignments.
- Markup: the JSX, including the legend that splits the result text
  (app/panel/page.js:106-187), is not modelled.
- Other pages are not part of this model:
  - app/page.js (QR generation and download, URL checks);
  - app/news/page.js and app/api/news/route.js (a proxied HTTP fetch);
  - next.config.mjs (framework configuration).
- `Panel.Calculator.DrawRow`: in the source the drawing loop sits inside
  `drawSketch`. Here it is a method of its own that `DrawSketch` calls, with
  the same statements in the same order.
