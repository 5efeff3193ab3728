# Scroll-synchronised drone page, modelled in Dafny

This project models the client-side logic of a landing page. A scroll-driven "cinematic"
sequence is gated behind an access-code login and comes with an admin panel that mints
invite codes. It covers five parts:

- **Image-sequence scrubber** (`components/Drone.tsx`). The modules are `FrameNaming`,
  `FramePreload`, `FrameRender` and `FrameOverlay`. They cover the zero-padded frame file
  names, the preload loop and its load/error counter, the scroll-progress-to-frame
  rounding, the "contain" fit on the canvas, and the canvas resize.
- **Video scrubber** (`src/components/Drone.tsx`), module `VideoDrone`. Scroll progress
  times the duration gives the seek target. The seek goes through `fastSeek` when the
  element has it and through `currentTime` otherwise.
- **Text overlay**, shared by both scrubbers (modules `Overlay` and `Motion`). Four panels
  each fade in and out over their own scroll window and drift upwards.
- **Page** (`src/app/page.tsx`), module `Page`. Its two state variables, `user` and
  `showWelcome`, decide which screens are shown.
- **Login gate** (`src/components/LoginOverlay.tsx`) and **invite generator**
  (`src/components/InviteGenerator.tsx`), modules `LoginOverlay` and `InviteGenerator`.
  Both are form state machines. The HTTP round-trip is an input outcome: a parsed response,
  or a thrown exception.

Geometry and scroll arithmetic use Dafny's `real`, which is exact rational arithmetic.

Modelling choices:

- `useTransform` with its default clamping is the assumed library contract
  `Motion.Interpolate`: clamped piecewise-linear interpolation. Every property of opacity,
  drift and frame index rests on that assumption.
- The source's branch `canvasRatio > imgRatio` is written cross-multiplied,
  `cw * ih > iw * ch`. `FrameRender.CanvasWiderIsRatio` proves that this is the ratio
  comparison for non-zero sizes. For a zero-sized canvas it gives the same branch as the
  floating-point comparison does (`Infinity > r`, `NaN > r`).
- A detached `Image`'s `width`/`height` are its natural size, so the fit is computed from
  `naturalWidth`/`naturalHeight`.
- The two `async` handlers are split at their `await`: `Begin…` is everything before the
  request, `Complete…` everything after it, and `Handle…` is the two in sequence.
  - `Begin…` requires the submit button to be enabled, because the button is its only
    caller.
  - `Complete…` requires a pending request.
- The login response's `data.data` is an `Option<User>`. `None` stands for a missing or
  falsy payload, which `handleLogin` stores as it is.
- The scrubber's canvas keeps, as `picture`, the images drawn since it was last cleared.
  Assigning a canvas's `width` or `height` clears its bitmap. So `handleResize` leaves the
  canvas blank until the next scroll change redraws it, since nothing redraws immediately.

Two consequences of the authored keyframes:

- For the window [0.25, 0.45] the opacity reaches 1 only at 0.30, and at 0.275 it is 0.5
  (`FrameOverlay.SecondPanelFade`).
- The first panel fades over (-0.05, 0.2) but drifts over (0, 0.2). It is therefore fully
  visible at the top of the scroll (`FrameOverlay.FirstPanelAtTop`).

The functions that model the source's own expressions are the following. The lemmas in the
table state their properties.

- `FrameNaming.ImgPath` is `IMG_PATH` (components/Drone.tsx:8-9).
- `Overlay.ScrollOpacity` and `Overlay.ScrollY` are `useScrollOpacity` and `useScrollY`
  (components/Drone.tsx:163-177 and src/components/Drone.tsx:79-93). `Overlay.Opacity` and
  `Overlay.Offset` apply them to a panel.
- `FrameRender.CurrentIndex` is `currentIndex` (components/Drone.tsx:24), and
  `FrameRender.FrameIndex` is the `Math.round(index)` lookup of line 61.
- `Page.Visible` gives the JSX conditions of src/app/page.tsx:29-56. `Page.Step` applies
  the two state updates: `handleLogin` (lines 20-23) and the welcome screen's `onComplete`
  (line 39).
- The preloaded list and the drawn list are one list. `FramePreload` keeps each image by
  its file name, and `FrameRender.Img` adds the decoding state that `render` reads. Entry k
  of the list has `src == ImgPath(k + 1)`, and `FrameRender.SelectFrameOnProgress` proves
  that the image drawn at progress p is then the file of frame `FrameIndex(p) + 1`.

## Model

| member | source | states |
|---|---|---|
| `Motion.Interpolate` | components/Drone.tsx:164-168 | assumed `useTransform` behaviour: below the first input point it gives the first output, and from the last (strictly ordered) input point on it gives the last output |
| `Motion.InterpolateWithin` | components/Drone.tsx:164-168 | the interpolated value never leaves a band that contains every keyframe output |
| `Motion.InterpolateOnSegment` | components/Drone.tsx:164-168 | between two neighbouring strictly ordered keyframes, the value is the straight line through them |
| `Motion.TwoPointMonotone` | components/Drone.tsx:24 | a two-keyframe transform moves in the direction of its outputs as progress grows |
| `Overlay.ScrollOpacityOrdered` | components/Drone.tsx:163-169 | the fade inputs [s, s+0.05, e-0.05, e] are non-decreasing iff e - s >= 0.1, and strictly increasing iff e - s > 0.1 |
| `Overlay.ScrollYOrdered` | components/Drone.tsx:171-177 | the drift inputs [s, e] are in order iff s <= e |
| `Overlay.Opacity` | components/Drone.tsx:163-169 | a panel's opacity always lies in [0, 1] |
| `Overlay.Offset` | components/Drone.tsx:171-177 | a panel's offset always lies between its start offset and -20 |
| `Overlay.OpacityOutside` | components/Drone.tsx:163-169 | at or before the window's start, and at or after its end, the opacity is 0 |
| `Overlay.OpacityHold` | components/Drone.tsx:163-169 | between s+0.05 and e-0.05 the opacity is 1 |
| `Overlay.OpacityRampUp` | components/Drone.tsx:163-169 | on [s, s+0.05] the opacity is (p - s)/0.05 |
| `Overlay.OpacityRampDown` | components/Drone.tsx:163-169 | on [e-0.05, e] the opacity is (e - p)/0.05 |
| `Overlay.OffsetShape` | components/Drone.tsx:171-177 | the offset is its start value before the window and -20 after it, and linear inside it |
| `Overlay.OffsetMonotone` | components/Drone.tsx:171-177 | a panel starting at or above -20 only drifts upwards as progress grows |
| `Overlay.AtMostOneVisible` | components/Drone.tsx:180-231 | for panels with separated fade windows, at most one has non-zero opacity at any progress |
| `FrameNaming.Decimal` | components/Drone.tsx:9 | `toString()` of a natural number is a non-empty string of digits with no leading zero |
| `FrameNaming.PadStart` | components/Drone.tsx:9 | `padStart` gives length max(len, width), keeps the string as the suffix and fills the front with the pad character |
| `FrameNaming.ParseDecimalOfDecimal` | components/Drone.tsx:9 | reading the decimal string back gives the number |
| `FrameNaming.DecimalLength` | components/Drone.tsx:9 | numbers below 1000 take at most 3 digits, and larger ones more |
| `FrameNaming.ParseLeadingZeros` | components/Drone.tsx:9 | leading '0' padding does not change the value read back |
| `FrameNaming.ImgPathField` | components/Drone.tsx:8-9 | for index < 1000 the path is the prefix, then exactly 3 digits that read back as the index, then ".jpg" |
| `FrameNaming.ImgPathWideField` | components/Drone.tsx:8-9 | from 1000 on the field is wider than 3, because padStart never truncates |
| `FrameNaming.ImgPathInjective` | components/Drone.tsx:8-9 | distinct indices below 1000 have distinct paths |
| `FrameNaming.ImgPathFirst` | components/Drone.tsx:8-9 | frame 1 is "/frames/ezgif-frame-001.jpg" |
| `FrameNaming.ImgPathMiddle` | components/Drone.tsx:8-9 | frame 121 is "/frames/ezgif-frame-121.jpg" |
| `FrameNaming.ImgPathLast` | components/Drone.tsx:8-9 | frame 240 is "/frames/ezgif-frame-240.jpg" |
| `FramePreload.PreloadSources` | components/Drone.tsx:39-46 | the loop creates exactly FRAME_COUNT images, entry k pointing at the file of frame k+1 |
| `FramePreload.Preloader.constructor` | components/Drone.tsx:27-47 | on mount, `images` is empty, `isLoading` is true, the counter is 0 and the sources are in frame order |
| `FramePreload.Preloader.OnImageLoad` | components/Drone.tsx:31-37 | each callback adds 1 to the counter; images are published and loading ends exactly when the counter equals FRAME_COUNT, and otherwise nothing else changes |
| `FramePreload.Preloader.DeliverCompletions` | components/Drone.tsx:42-44 | any sequence of load/error callbacks has an effect that depends only on its length; the ready branch runs once exactly when the counter passes FRAME_COUNT |
| `FramePreload.MountAndLoad` | components/Drone.tsx:27-47 | from mount, the component becomes ready iff at least FRAME_COUNT callbacks fired, whatever their order; then it holds every frame's file in order, and the ready branch has run exactly once |
| `FrameRender.JsRound` | components/Drone.tsx:61 | `Math.round` gives the nearest integer, with halves rounded up |
| `FrameRender.FrameIndexRange` | components/Drone.tsx:24 | the index always lies in [0, 239], and for p in [0, 1] it is round(p × 239) |
| `FrameRender.FrameIndexMonotone` | components/Drone.tsx:61 | the frame index is non-decreasing in scroll progress |
| `FrameRender.FrameIndexHalfway` | components/Drone.tsx:61 | at p = 0.5 the index is 120, which shows file "/frames/ezgif-frame-121.jpg" |
| `FrameRender.SelectFrame` | components/Drone.tsx:51-62 | nothing is drawn while loading or with no images; otherwise the image drawn is exactly `images[Math.round(index)]`, and it is drawn iff that entry exists, is complete and has non-zero width |
| `FrameRender.SelectFrameOnProgress` | components/Drone.tsx:61-62 | with FRAME_COUNT images loaded, the frame at FrameIndex(p) is drawn iff it is decoded, and otherwise the previous picture stays; for the preloaded list that frame is file FrameIndex(p) + 1 |
| `FrameRender.CanvasWiderIsRatio` | components/Drone.tsx:67-72 | for non-zero sizes the cross-multiplied test is `canvasRatio > imgRatio` |
| `FrameRender.ContainFit` | components/Drone.tsx:65-82 | one drawn side equals the canvas side, the image's aspect ratio is kept, both offsets are >= 0, and 2·offset + size equals the canvas size on both axes |
| `FrameRender.FitsAcross` | components/Drone.tsx:72-76 | when the canvas is relatively wider, the image scaled to the canvas height is no wider than the canvas |
| `FrameRender.FitsDown` | components/Drone.tsx:77-82 | otherwise, the image scaled to the canvas width is no taller than the canvas |
| `FrameRender.ContainFitScale` | components/Drone.tsx:65-82 | the drawn size is the image scaled by min(cw/iw, ch/ih), the largest scale at which it fits |
| `FrameRender.ContainFitWideImage` | components/Drone.tsx:77-81 | canvas 800x600 with image 1600x900 gives offset (0, 75) and size 800x450 |
| `FrameRender.ContainFitTallImage` | components/Drone.tsx:72-76 | canvas 800x600 with image 900x1600 gives offset (231.25, 0) and size 337.5x600 |
| `FrameRender.Canvas.constructor` | components/Drone.tsx:137-140 | a new canvas is 300x150 and blank |
| `FrameRender.Canvas.Render` | components/Drone.tsx:60-86 | when a frame is selected, the canvas is cleared and then shows exactly that frame at the contain-fit rectangle; otherwise it is unchanged |
| `FrameRender.Canvas.HandleResize` | components/Drone.tsx:104-113 | with a parent, the canvas takes the parent's client size and nothing is redrawn (its bitmap is cleared by the resize); without one, nothing changes |
| `FrameRender.LoadingEnds` | components/Drone.tsx:50-120 | when loading ends both effects re-run in order: the initial draw (line 89) is followed by `handleResize()` (line 117), which resizes the canvas to its parent and leaves it blank |
| `FrameOverlay.PanelsSeparated` | components/Drone.tsx:184-220 | the four authored windows leave room for both ramps, every keyframe list is strictly increasing, and the windows follow one another without overlap |
| `FrameOverlay.OnePanelAtATime` | components/Drone.tsx:184-220 | at any progress at most one of the four panels is visible |
| `FrameOverlay.FirstPanelAtTop` | components/Drone.tsx:184 | at progress 0 the first panel is fully visible, at offset +20 |
| `FrameOverlay.SecondPanelFade` | components/Drone.tsx:194 | the window [0.25, 0.45] gives opacity 0, 0.5, 1, 1, 0.5, 0 at 0.25, 0.275, 0.30, 0.40, 0.425, 0.45 |
| `FrameOverlay.PanelsDriftUp` | components/Drone.tsx:171-177 | every panel drifts from +20 at its window start to -20 at its end, monotonically |
| `VideoDrone.TargetTime` | src/components/Drone.tsx:29-31 | a target time exists iff the duration is known and non-zero |
| `VideoDrone.TargetTimeWithinVideo` | src/components/Drone.tsx:28-31 | for p in [0, 1] and duration d > 0 the target lies in [0, d], with 0 at p = 0 and d at p = 1 |
| `VideoDrone.TargetTimeMonotone` | src/components/Drone.tsx:31 | the target time is non-decreasing in progress |
| `VideoDrone.Video.constructor` | src/components/Drone.tsx:55-62 | a new video has no known duration, position 0 and no seeks |
| `VideoDrone.Video.LoadMetadata` | src/components/Drone.tsx:21-25 | once metadata arrives, the duration is known |
| `VideoDrone.Video.OnScrollChange` | src/components/Drone.tsx:28-42 | without a duration nothing changes; otherwise exactly one seek to latest × duration happens, by `fastSeek` if present and by setting `currentTime` if not |
| `VideoDrone.PanelsMatchFrameVariant` | src/components/Drone.tsx:102-149 | the four windows equal the image-sequence variant's (so they are separated), and only the drift start differs |
| `VideoDrone.PanelsDriftUp` | src/components/Drone.tsx:87-93 | every panel drifts from 0 at its window start to -20 at its end, monotonically |
| `VideoDrone.OnePanelAtATime` | src/components/Drone.tsx:102-149 | at any progress at most one panel is visible |
| `Page.VisibilityRules` | src/app/page.tsx:29-56 | the gate is shown iff there is no user; the scrubber iff there is a user; the welcome screen (greeting the user's name) iff there is a user and `showWelcome`; banner and generator (with the user's access code) iff there is a user and not `showWelcome` |
| `Page.ScreensExclusive` | src/app/page.tsx:29-56 | gate and content are never both shown, nor welcome screen and generator; with content shown, exactly one of welcome screen and banner is shown (at least one, and never both) |
| `Page.UserNeverReset` | src/app/page.tsx:20-39 | from a state with a user, every possible sequence of events keeps that same user, so the gate never returns |
| `Page.Home.constructor` | src/app/page.tsx:16-17 | the page starts with no user and no welcome screen |
| `Page.Home.HandleLogin` | src/app/page.tsx:20-23 | `user` becomes the reported data and `showWelcome` becomes true |
| `Page.Home.OnWelcomeComplete` | src/app/page.tsx:39 | `showWelcome` becomes false and the user is unchanged |
| `Page.LoginThenWelcome` | src/app/page.tsx:20-56 | after a login the welcome screen greets the user over the scrubber; after it completes, the banner and the generator with the user's access code appear |
| `InviteGenerator.FailureMessage` | src/components/InviteGenerator.tsx:39-40 | the failure message is never empty: the server's error text if truthy, else "Failed to generate code" |
| `InviteGenerator.Generator.constructor` | src/components/InviteGenerator.tsx:13-18 | the generator starts closed, with empty name, details and error, no code and not loading |
| `InviteGenerator.Generator.Open` | src/components/InviteGenerator.tsx:56 | only `isOpen` changes, and it becomes true |
| `InviteGenerator.Generator.Close` | src/components/InviteGenerator.tsx:72 | closes the form and clears the code and the name, leaving details, error and loading as they were |
| `InviteGenerator.Generator.SetName` | src/components/InviteGenerator.tsx:89 | the name becomes the typed text |
| `InviteGenerator.Generator.SetDetails` | src/components/InviteGenerator.tsx:100 | the notes become the typed text |
| `InviteGenerator.Generator.BeginGenerate` | src/components/InviteGenerator.tsx:20-35 | loading starts, error and code are cleared, and the request carries the admin code, name and notes |
| `InviteGenerator.Generator.CompleteGenerate` | src/components/InviteGenerator.tsx:37-48 | success shows `new_code` with no error; a failed response shows `data.error` or the default message, with no code; an exception shows its message; loading always ends; a code and an error are never shown together |
| `InviteGenerator.Generator.HandleGenerate` | src/components/InviteGenerator.tsx:20-49 | the whole handler for one outcome leaves the form open with the same name and notes and the button enabled again |
| `LoginOverlay.UpperChar` | src/components/LoginOverlay.tsx:44 | ASCII upper-casing of one character: a-z map to A-Z, and every other character is left as it is |
| `LoginOverlay.ToUpper` | src/components/LoginOverlay.tsx:44 | `toUpperCase` keeps the length and upper-cases each character |
| `LoginOverlay.ToUpperNormalises` | src/components/LoginOverlay.tsx:44 | an upper-cased text has no lower-case letter and is left unchanged by upper-casing again |
| `LoginOverlay.Login.constructor` | src/components/LoginOverlay.tsx:5-7 | the gate starts with empty code and error, not loading, with no login reported |
| `LoginOverlay.Login.OnChange` | src/components/LoginOverlay.tsx:44 | the stored code is the typed text upper-cased |
| `LoginOverlay.Login.BeginLogin` | src/components/LoginOverlay.tsx:12-21 | loading starts, the error is cleared and the request carries the code |
| `LoginOverlay.Login.CompleteLogin` | src/components/LoginOverlay.tsx:23-33 | success reports `data.data` to `onLogin` exactly once with no error; a failed response gives "Invalid Access Code", an exception "Connection failed", and neither reports a login; loading always ends |
| `LoginOverlay.Login.HandleLogin` | src/components/LoginOverlay.tsx:12-34 | the whole handler for one outcome, after which the button is enabled again and the code unchanged |
| `LoginOverlay.GateThenPage` | src/components/LoginOverlay.tsx:25-28 | a successful login with a user hides the gate and starts the welcome screen; a failed one keeps the gate with an error message |

The submit rules are predicates on the classes:

- `InviteGenerator.Generator.SubmitDisabled` is `loading || name == ""`
  (src/components/InviteGenerator.tsx:107).
- `LoginOverlay.Login.SubmitDisabled` is `loading` (src/components/LoginOverlay.tsx:53).

Each `Begin…` method requires the button enabled and ensures it disabled afterwards. Each
`Handle…` method ensures it enabled again.

`Valid()` on `Generator` and on `Login` states the invariant that every handler keeps:

- `Generator`: while loading, neither a code nor an error is shown, and a code and an error
  are never shown together.
- `Login`: the code is upper case; while loading no error is shown; an error is only ever
  one of the two fixed messages.

## Left out

- Network I/O: `fetch`, `res.json()`, the endpoint URL and JSON encoding. Each request is
  the record its body would carry, and each response is an abstract outcome.
- framer-motion: the scroll measurement of `useScroll` and the interpolation of
  `useTransform`. `Motion.Interpolate` is an assumed contract, not a verified model of the
  library.
- Canvas and video APIs: `getContext`, `clearRect`, `drawImage`, `fastSeek`, `currentTime`.
  They are recorded as the rectangle drawn or the seek issued. Seeking itself, decoding and
  buffering are outside the model. The null checks on the canvas ref and on the 2D context
  (components/Drone.tsx:53-57) and on the video ref are left out, because they concern
  mounting.
- Scheduling: the `requestAnimationFrame` deferral of redraws, the registration and
  teardown of subscriptions and listeners, and the initial `render(currentIndex.get())`
  and `handleResize()` calls. They are ordinary calls of the modelled methods. One
  consequence is proved (`FrameRender.LoadingEnds`): in the commit where loading ends, the
  initial draw is wiped by the resize effect, so the canvas is blank until the first scroll
  change.
- src/components/WelcomeScreen.tsx is not part of this model: it is animation markup and a
  4.5 s timer. Its completion is the `WelcomeComplete` event.
- Floating point: NaN or infinite durations, rounding error in ratios and products. The
  model uses exact `real`s, and an unknown duration is `None`.
- `FrameNaming.Decimal`: `toString` is modelled for non-negative integers only, which is
  every index the loop produces.
- `LoginOverlay.UpperChar`: only a-z are mapped. JavaScript's `toUpperCase` also
  upper-cases every other cased letter, such as 'é' to 'É', and the model leaves those
  unchanged.
- `LoginOverlay.ToUpper`: only ASCII letters are upper-cased. Full Unicode upper-casing,
  such as 'ß' becoming "SS" and changing the length, is not modelled.
- JavaScript truthiness of untyped server fields is reduced to `Option` values. A present
  but non-string `data.error` or `new_code`, and a non-boolean `data.success`, are not
  modelled.
- `InviteGenerator.Generator.BeginGenerate`, `LoginOverlay.Login.BeginLogin`: these require
  the submit button to be enabled. A second submit before React re-renders the disabled
  button, which would leave two requests in flight, is not modelled.
- next.config.ts (deployment settings), JSX markup and styling, the debug overlay
  (components/Drone.tsx:146-151) and the clipboard write
  (src/components/InviteGenerator.tsx:119) are not modelled.
