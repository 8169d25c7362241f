# Mandelbrot explorer — a Dafny model

A model of the browser Mandelbrot explorer's page component, written for
Dafny 4.11. It covers four parts of the component:

- **The escape-time evaluator** `mandelbrot`. It iterates z ← z² + c from 0
  until |z|² > 4 or the iteration budget is spent. An escaped orbit gets the
  smoothed count `iteration + 1 − nu`.
- **The six colour schemes.** They are monochrome, classical, ember, azure,
  amethyst and sage. Each maps an escape value and the budget to an RGB
  triple.
- **The render pass.** For every pixel it takes the plane point under the
  pixel, evaluates and colours it, and stores the colour as four bytes at
  offset `(py·width + px)·4` of an RGBA buffer.
- **The interaction state.** This is the view centre, magnification, budget,
  scheme key and drag bookkeeping, together with the handlers that change it:
  press, move, release, leave, slider input and change, palette click and
  reset.

Files:

- `numerics.dfy`: the platform math functions (square root, power, sine,
  logarithm, pi). They are passed as one record, and `Lawful` states the few
  facts about them that the proofs use.
- `escape.dfy`: the evaluator as a loop, proved against a recursive
  specification (`Orbit`, `EscapeCount`, `EscapeValue`).
- `palette.dfy`: the scheme registry, the six schemes and their byte-range
  lemmas.
- `viewport.dfy`: the pixel ↔ plane map, click recentring and drag panning.
- `render.dfy`: the buffer layout and the nested render loops, proved to
  produce `Frame`, the specified image.
- `interaction.dfy`: the `Explorer` class, with one method per handler, and
  a few client scenarios (a click, a drag, a wobble, leaving mid-drag, reset).

Two behaviours of the code are worth knowing:

- With a budget of 1 every point is reported as interior (value 1). The loop
  runs out of budget before its escape test can fire (`BudgetOneLooksInterior`).
- A point far from the set can get a negative escape value. A point with
  |c|² > 4 escapes after one step with value 2 − log₂(log₂|c|)
  (`FarPointEscapesAtOnce`), which is negative once |c| > 16. The model
  claims nothing about the sign of escaped values.

## Model

| member | source | states |
|---|---|---|
| Escape.Mandelbrot | app/page.jsx:114-133 | The loop returns exactly `EscapeValue`. That is the budget when the orbit stayed in the radius-2 disc for the whole budget. Otherwise it is the first escape index k, smoothed to k + 1 − nu(\|z_k\|²). |
| Escape.Step | app/page.jsx:120-122 | One iteration z ← z² + c keeps a point on the real axis there when c is real. |
| Escape.StepSquaresModulus | app/page.jsx:120-122 | Before c is added, a step squares the squared modulus: \|z²\|² = (\|z\|²)². |
| Escape.Orbit | app/page.jsx:115-124 | The orbit of a real c stays on the real axis, so the loop of a point on the real axis never leaves it. |
| Escape.Nu | app/page.jsx:127-128 | The smoothing term nu = log₂(log₂\|z\|) is 0 on the escape circle \|z\|² = 4, given lawful logarithms. |
| Escape.EscapeCount | app/page.jsx:119-124 | The integer count the loop stops at never exceeds the budget. |
| Escape.FirstEscapeFromIsFirst | app/page.jsx:119-124 | Scanning from index k, where no earlier point escaped: every point before the stop index stayed in the disc, and the stop index has escaped unless it is the budget. |
| Escape.EscapeCountIsFirstEscape | app/page.jsx:119-124 | The count is the first index whose orbit point left the disc, or the budget. |
| Escape.NuPositive | app/page.jsx:126-130 | For an escaped orbit (\|z\|² > 4) the smoothing term nu is positive. |
| Escape.EscapeValueBounds | app/page.jsx:114-133 | The result is at most the budget. It equals the budget exactly when no orbit point before the budget escaped (both directions). |
| Escape.NeverEscapedIsInterior | app/page.jsx:126-132 | An orbit that stays in the disc for the whole budget is reported with the budget itself. |
| Escape.CardioidCentreOrbit | app/page.jsx:119-124 | The orbit of c = −0.5 stays real and within [−0.5, 0]. |
| Escape.CardioidCentreIsInterior | app/page.jsx:114-133 | c = −0.5 is reported as interior for every budget. |
| Escape.FarPointEscapesAtOnce | app/page.jsx:114-133 | For \|c\|² > 4 and a budget ≥ 2: the loop stops after one step, the result is 2 − nu(\|c\|²), and it lies below the budget. |
| Escape.BudgetOneLooksInterior | app/page.jsx:119-133 | With a budget of 1 every point gets the value 1. |
| Palette.LookupFindsExactlyTheNamedScheme | app/page.jsx:49-106 | A key finds a scheme exactly when it is that scheme's registered name. |
| Palette.Lookup | app/page.jsx:151 | A key finds a scheme only under that scheme's own name, and finds nothing when no scheme has that name. |
| Palette.MonochromeColour | app/page.jsx:50-55 | Monochrome paints the budget with its interior tone [0,0,0], and every colour it gives is a grey. |
| Palette.ClassicalColour | app/page.jsx:56-65 | Classical paints the budget with its interior tone [0,3,10]. |
| Palette.EmberColour | app/page.jsx:66-75 | Ember paints the budget with its interior tone [0,0,0]. |
| Palette.AzureColour | app/page.jsx:76-85 | Azure paints the budget with its interior tone [0,8,15]. |
| Palette.AmethystColour | app/page.jsx:86-95 | Amethyst paints the budget with its interior tone [10,0,15]. |
| Palette.SageColour | app/page.jsx:96-105 | Sage paints the budget with its interior tone [5,10,5]. |
| Palette.InteriorColour | app/page.jsx:49-106 | The interior tones are monochrome [0,0,0], classical [0,3,10], ember [0,0,0], azure [0,8,15], amethyst [10,0,15] and sage [5,10,5], each a byte triple. |
| Palette.Paint | app/page.jsx:49-106 | Every scheme paints an escape value equal to the budget with its interior tone. |
| Palette.PaintInByteRange | app/page.jsx:49-106 | For an escape value in [0, budget], every scheme's channels already fit in a byte. |
| Palette.MonochromeInByteRange | app/page.jsx:50-55 | The monochrome grey √t·255, floored, is a byte. |
| Palette.ClassicalInByteRange | app/page.jsx:56-65 | The classical polynomial channels are bytes. The proof uses (1−s)s³ ≤ 27/256. |
| Palette.EmberInByteRange | app/page.jsx:66-75 | The ember channels, clipped by min/max, are bytes. |
| Palette.AzureInByteRange | app/page.jsx:76-85 | The azure channels are bytes. |
| Palette.AmethystInByteRange | app/page.jsx:86-95 | The amethyst channels are bytes, given a sine in [0,1] on [0,π]. |
| Palette.SageInByteRange | app/page.jsx:96-105 | The sage channels are bytes. |
| Viewport.AxisRoundTrip | app/page.jsx:147-148 | On one axis, pixel → plane → pixel and plane → pixel → plane are identities. |
| Viewport.ToPlane | app/page.jsx:147-148 | On one axis, the middle pixel shows the centre, pixels past the middle show larger coordinates and pixels before it smaller ones. |
| Viewport.PlanePoint | app/page.jsx:147-148 | The middle pixel shows the view centre, and a pixel lies left of (above) the middle exactly when its plane point lies below the centre's real (imaginary) part. |
| Viewport.PixelPlaneRoundTrip | app/page.jsx:147-148 | The render's pixel-to-plane map is a bijection with an explicit inverse. |
| Viewport.MiddlePixelShowsCentre | app/page.jsx:147-148 | The middle pixel (width/2, height/2) shows the view centre. |
| Viewport.RecentreLandsOnClickedPoint | app/page.jsx:199-203 | The click's new centre is exactly the plane point the render drew at the clicked fraction of the canvas. |
| Viewport.Recentre | app/page.jsx:199-203 | A click in the middle keeps the centre; a click past the middle moves it up, one before the middle moves it down. |
| Viewport.PanKeepsGrabbedPoint | app/page.jsx:188-190 | After a pan by dx, the plane point under the pointer is the one that was under it when the drag began. |
| Viewport.Pan | app/page.jsx:188-190 | No movement keeps the start centre; dragging towards larger pixel coordinates moves the centre down, and the other way up, so the picture follows the pointer. |
| Render.DecodeInCanvas | app/page.jsx:153 | Every byte position of a w×h buffer decodes to a pixel inside the canvas and a channel, and encoding them gives the position back. |
| Render.Clamp | app/page.jsx:154-156 | Storing into the clamped buffer keeps a byte unchanged and saturates anything below at 0 and above at 255. |
| Render.Channel | app/page.jsx:154-157 | Byte 3 of a pixel is 255; bytes 0 to 2 are the red, green and blue of a colour whose channels already fit in a byte. |
| Render.EncodeInBuffer | app/page.jsx:153-157 | `(py·w + px)·4 + k` for an in-canvas pixel and k < 4 lies inside the w·h·4 buffer and decodes back to (px, py, k). |
| Render.ImageAt | app/page.jsx:153-157 | Byte k of pixel (px, py) of an image is that pixel's channel k. |
| Render.ImageIsOpaque | app/page.jsx:157 | Every alpha byte is 255. |
| Render.FramePixel | app/page.jsx:145-160 | Pixel (px, py) of the frame holds the active scheme's colour for the escape value of the plane point under it, clamped, with alpha 255. |
| Render.ShadePixel | app/page.jsx:147-151 | One step of the pass computes the colour that `Frame` specifies for that pixel. |
| Render.RenderColumn | app/page.jsx:146-159 | The inner loop writes every row of column px with its specified bytes and keeps the columns already written. |
| Render.RenderPass | app/page.jsx:135-165 | The nested loops fill the whole buffer with exactly `Frame`: every position written, with the specified bytes. |
| Render.CardioidCentreColour | app/page.jsx:145-151 | In a view centred on −0.5, the middle pixel gets the scheme's interior tone. |
| Render.CardioidCentrePixel | app/page.jsx:145-160 | That middle pixel's four bytes are the interior tone and 255. |
| Render.InitialMiddlePixel | app/page.jsx:37-40 | The first frame on the 1000×1000 canvas has [0, 3, 10, 255] at byte offset (500·1000 + 500)·4. |
| Interaction.Explorer.constructor | app/page.jsx:37-47 | The initial state is centre (−0.5, 0), magnification 1, budget 150, scheme "classical", not dragging, then one render of the initial view. |
| Interaction.Explorer.Render | app/page.jsx:135-165 | The canvas becomes the frame of the current view. If the scheme key names no scheme it stays as it was. One render is counted. |
| Interaction.Explorer.Painted | app/page.jsx:151-161 | With a key that names a scheme, a render leaves a full w·h·4 buffer whose every alpha byte is 255; with a key that names none, the render fails before drawing and the previous pixels stay. |
| Interaction.Explorer.MouseDown | app/page.jsx:167-176 | Starts a drag, not yet moved. Records the pointer and the centre. The view and canvas are unchanged. |
| Interaction.Explorer.MouseMove | app/page.jsx:178-192 | A no-op unless dragging. While dragging, the centre is the start centre minus (dx/rect width)·3/zoom on each axis, and the magnification is unchanged. The moved flag becomes and stays true once \|dx\| or \|dy\| exceeds 3. No render. |
| Interaction.Explorer.MouseUp | app/page.jsx:194-213 | A no-op unless dragging. An unmoved press recentres on the clicked fraction with the old magnification, then multiplies the magnification by 2.5. A moved drag keeps the view. Either way it renders, and the magnification never decreases. The drag ends when the render succeeds; when the scheme key names no scheme the awaited render fails and both flags keep their values. |
| Interaction.Explorer.MouseLeave | app/page.jsx:215-222 | Never changes the view. Renders only when a drag has moved. Always clears both flags. |
| Interaction.Explorer.IterationsInput | app/page.jsx:224-227 | Sets the budget and changes nothing else; no render. |
| Interaction.Explorer.IterationsChange | app/page.jsx:229-231 | Renders the current view. |
| Interaction.Explorer.PaletteClick | app/page.jsx:233-241 | Stores the button's key, or "classical" when it is empty, so the active scheme is the one the button selects (`SchemeFor`), and renders. |
| Interaction.Explorer.Reset | app/page.jsx:243-251 | Restores centre (−0.5, 0), magnification 1 and budget 150, keeps the scheme, and renders. |
| Interaction.ClickInTheMiddle | app/page.jsx:194-213 | A click in the middle of the display keeps the centre and gives magnification 2.5. |
| Interaction.ClickLeftOfCentre | app/page.jsx:194-213 | A click a quarter of the way across the initial view moves the real centre to −1.25. |
| Interaction.DragRight | app/page.jsx:178-213 | Dragging 100 px right on a 1000 px display at magnification 1 moves the real centre from −0.5 to −0.8 and keeps it there on release. |
| Interaction.WobbleIsAClick | app/page.jsx:178-213 | A move of at most 3 px is still a click. The zoom lands on the point that was under the press. |
| Interaction.LeaveMidDrag | app/page.jsx:178-222 | Leaving mid-drag keeps the panned centre and ends the drag. |
| Interaction.UnknownSchemeKeepsDragging | app/page.jsx:194-213 | With a key that names no scheme, a click still zooms to 2.5, but the release stops at the failed render: the press stays a drag and a later move pans to −0.62. |
| Interaction.ResetKeepsScheme | app/page.jsx:233-251 | After a palette choice, a budget change and a zoom, reset restores the initial view with the chosen scheme. |

## Left out

- **Floating point.** Numbers are exact reals: rounding, overflow to infinity and NaN are not modelled. Negative escape values (for example at points with \|c\| > 16) make the JavaScript colour formulas produce NaN, which the byte buffer stores as 0. The model leaves such values to the abstract square root and power.
- **Transcendental functions.** `Math.log`, `Math.sqrt`, `Math.pow`, `Math.sin` and `Math.PI` are parameters (the `Math` record), constrained only by the laws in `Lawful`. `Math.floor` is Dafny's `.Floor`, and `Math.min`/`Math.max` are written out.
- **Asynchrony.** The render waits 50 ms before drawing (app/page.jsx:139), and release awaits it. The model performs each render at once, so it does not model overlapping renders, or a render reading state that changed during its wait.
- **Presentation.** These are not modelled: the loading overlay and CSS classes, the cursor style, `updateDisplay` (coordinate read-out), the slider's text display and the palette buttons' active marking. Nor is `handleDownload` (file export), or the listener registration and clean-up (app/page.jsx:261-283).
- Interaction.Explorer.MouseMove and Interaction.Explorer.MouseUp: the canvas's on-page box (`getBoundingClientRect`) is a parameter. A zero-sized box, which divides by zero in the source, is excluded by the precondition.
- Interaction.Explorer.IterationsInput: the model takes the parsed integer. `parseInt` and the slider's 50–1000 range are not modelled; the precondition is only that the budget is at least 1.
- Interaction.Explorer.PaletteClick: an unknown key is stored as given, as in the source (the page's own buttons carry only the six scheme names). The model treats every key other than the six names as naming nothing, so every render then fails before drawing, and the model keeps the previous canvas. A release, which waits for its render, stops at the failure and leaves the drag open (`Interaction.Explorer.MouseUp`, `UnknownSchemeKeepsDragging`). The source's failure also leaves the loading overlay on; that is not modelled. Keys that name a member the registry object inherits are not modelled either: in the source, `"toString"` and `"toLocaleString"` find a function that returns `"[object Object]"`, whose first three characters are stored as 0, so the render completes with every pixel [0, 0, 0, 255] and a release then ends the drag; the model keeps the previous canvas and leaves the drag open for them.
- Render.RenderPass: the model requires a canvas with positive width and height. The page's canvas is 1000×1000 (app/page.jsx:298).
- **Page layout.** The JSX markup and app/layout.jsx are not part of this model.
