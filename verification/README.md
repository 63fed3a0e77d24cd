# Zoom controller of react-svg-timeline, modelled in Dafny

This project models the zoom controller of the timeline widget: the `useZoom` hook.
The hook takes the visible domain `[start, end]`, the outer bounds
`[maxDomainStart, maxDomainEnd]`, the zoom-level ladder, the host's gate flag
`isDomainChangePossible`, a time scale and two callbacks. From these it derives:

- `zoomWidth`, the ladder neighbours and the enablement flags `isZoomInPossible` and `isZoomOutPossible`;
- the committing operations `onZoomIn`, `onZoomOut`, `onZoomReset` and `onZoomInCustom`;
- the preview-only operation `onZoomInCustomInProgress`.

The hook holds no state, so every operation is a Dafny function of the props.
A callback invocation becomes the function's result:

- `Some(Commit(domain, animated))` stands for `onDomainChange(domain, animated)`;
- `Some(Preview(millisAtCursor, startMillis, endMillis))` stands for `onCursorMove(...)`;
- `None` means the operation does nothing.

The helpers the hook imports (`useZoomLevels`, `zoomScaleWidth`, `getDomainSpan`) are function-valued fields of a
`Collaborators` record, and `timeScale.invert` is a function-valued field of the props. They carry no properties,
so every result holds whatever those helpers compute.

Files:

- `timeline_model.dfy`: `Domain`, `ZoomLevel`, the selection returned by `useZoomLevels`, and the collaborators.
- `use_zoom.dfy`: module `UseZoom`, covering the derived values, the five operations and the lemmas that relate them.
- `gestures.dfy`: module `Gestures`. One render's handlers receive a burst of gestures and produce the callbacks the host observes. Each gesture triggers at most one callback, and the callbacks come in gesture order.
- `linear_time_scale.dfy`: module `LinearTimeScale`. An explicit linear time-to-pixel scale over the pixel range `[0, width]`. It lets the custom-zoom operations be stated in pixel terms.

Time values are `real`. The controller only adds, subtracts, compares and halves them.

The two type names `ZoomLevels` and `ZoomScale` become one datatype, `ZoomLevel`. It has the sentinels `Minimum` and
`Maximum`, plus `Level(name)` for each configured level. A configured level's name is never `'minimum'` or
`'maximum'`, so comparing with the `Minimum` constructor is the source's string comparison with `'minimum'`.

`isZoomOutPossible` is not "the domain differs from the bounds" in general: `src/timeline/hooks/useZoom.ts:48`
compares only widths. For a domain inside the bounds the two agree (`UseZoom.ZoomOutDisabledIffAtBounds`); only a
domain outside them, as in `UseZoom.ShiftedFullWidthDisablesZoomOut`, shows the difference.

## Model

| member | source | states |
|---|---|---|
| `UseZoom.DeriveValues` | src/timeline/hooks/useZoom.ts:41-48 | Passes the ladder neighbours through. `zoomWidth` is the width of the next smaller level. `isZoomInPossible` holds iff that level is not `minimum`. `isZoomOutPossible` holds iff the domain is strictly narrower than the bound span. |
| `UseZoom.SetDomainAnimated` | src/timeline/hooks/useZoom.ts:50 | Commits the given domain unchanged, with `animated = true`. |
| `UseZoom.FocalTime` | src/timeline/hooks/useZoom.ts:57 | A supplied cursor time is used as it is, including zero (nullish, not falsy, default). Otherwise the focal time is equidistant from both ends of the domain and lies inside an ordered domain. |
| `UseZoom.UpdateDomain` | src/timeline/hooks/useZoom.ts:52-62 | Commits iff the gate is open. Every commit is animated. The committed domain is `getDomainSpan` over the bounds, around the focal time, with the given level's width. |
| `UseZoom.OnZoomIn` | src/timeline/hooks/useZoom.ts:64-67 | Commits iff the gate is open, animated. The committed window uses the advertised `zoomWidth` around the focal time. |
| `UseZoom.OnZoomOut` | src/timeline/hooks/useZoom.ts:68-71 | Commits iff the gate is open, animated. The committed window uses the width of the next bigger level around the focal time. |
| `UseZoom.OnZoomInCustom` | src/timeline/hooks/useZoom.ts:73-82 | Commits iff the gate is open, animated. The committed domain is `[invert(mouseStartX), invert(mouseEndX)]` in that order. |
| `UseZoom.OnZoomInCustomInProgress` | src/timeline/hooks/useZoom.ts:84-93 | Reports a preview iff the gate is open and `onCursorMove` is present. The arguments are `(invert(x1), invert(x0), invert(x1))`. It never commits a domain. |
| `UseZoom.OnZoomReset` | src/timeline/hooks/useZoom.ts:95-99 | Commits iff the gate is open, animated. The committed domain is exactly `[maxDomainStart, maxDomainEnd]`. |
| `UseZoom.ClosedGateIsSilent` | src/timeline/hooks/useZoom.ts:54-99 | With the gate closed, none of the five operations invokes a callback. |
| `UseZoom.DerivedIgnoresGate` | src/timeline/hooks/useZoom.ts:43-48 | The derived values and flags are the same whatever the gate flag is. |
| `UseZoom.ZoomInAndOutShareOneRule` | src/timeline/hooks/useZoom.ts:64-71 | Zoom-in and zoom-out differ only in the ladder neighbour they use. When both neighbours have the same width, they commit the same thing. |
| `UseZoom.ZoomInIgnoresEnablement` | src/timeline/hooks/useZoom.ts:47-65 | `onZoomIn` is not gated by `isZoomInPossible`. With the gate open and the flag false, it commits the span with the `minimum` level's width. |
| `UseZoom.ZoomOutIgnoresEnablement` | src/timeline/hooks/useZoom.ts:48-70 | `onZoomOut` is not gated by `isZoomOutPossible`. With the gate open and the flag false, it still commits the span with the next bigger level's width. |
| `UseZoom.PreviewMatchesCommit` | src/timeline/hooks/useZoom.ts:73-93 | The preview shown during a drag has the start and end of the domain the drop commits. The cursor time is the end. |
| `UseZoom.ResetDisablesZoomOut` | src/timeline/hooks/useZoom.ts:48-99 | Once the reset domain is applied, `isZoomOutPossible` is false. |
| `UseZoom.ZoomOutDisabledIffAtBounds` | src/timeline/hooks/useZoom.ts:44-48 | For a domain inside the bounds, zoom-out is disabled if and only if the domain is exactly `[maxDomainStart, maxDomainEnd]`. |
| `UseZoom.ShiftedFullWidthDisablesZoomOut` | src/timeline/hooks/useZoom.ts:44-48 | A full-width domain shifted off the bounds is not the bounds, yet it disables zoom-out. |
| `Gestures.Dispatch` | src/timeline/hooks/useZoom.ts:101-113 | Each returned operation invokes at most one callback, and none when the gate is closed. With the gate open, every operation except the preview commits, and the preview reports a cursor move if and only if `onCursorMove` is present. Each callback carries exactly the result of the operation the gesture invokes. Every commit is animated and never comes from the preview. |
| `Gestures.FromCommit` | src/timeline/hooks/useZoom.ts:50 | An `onDomainChange` call carries the commit's domain and animation flag. |
| `Gestures.Effects` | src/timeline/hooks/useZoom.ts:35-39 | A burst of gestures invokes at most one callback per gesture. |
| `Gestures.EffectsAppend` | src/timeline/hooks/useZoom.ts:35-39 | The callbacks of two bursts handled one after the other are the first burst's followed by the second's, so callbacks come in gesture order. |
| `Gestures.ClosedGateSilencesBurst` | src/timeline/hooks/useZoom.ts:54-99 | With the gate closed, a whole burst of gestures invokes no callback. |
| `Gestures.BurstCommitsAreAnimated` | src/timeline/hooks/useZoom.ts:50-97 | Every domain change in a burst has `animated = true`. |
| `Gestures.OpenGateCommitCount` | src/timeline/hooks/useZoom.ts:54-99 | With the gate open, the number of commits equals the number of gestures other than drag previews. |
| `Gestures.OpenGateFullLog` | src/timeline/hooks/useZoom.ts:54-93 | With the gate open and `onCursorMove` present, every gesture in a burst invokes exactly one callback. |
| `Gestures.PreviewsNeverCommit` | src/timeline/hooks/useZoom.ts:84-93 | A burst of drag previews yields only cursor moves and commits no domain. With the gate open and `onCursorMove` present, it yields one cursor move per gesture. |
| `LinearTimeScale.TimeScale.Invert` | src/timeline/hooks/useZoom.ts:14 | Pixel 0 maps to the domain start and pixel `width` maps to the domain end. |
| `LinearTimeScale.InvertApply` | src/timeline/hooks/useZoom.ts:14 | Pixel-to-time undoes time-to-pixel. |
| `LinearTimeScale.InvertStrictlyIncreasing` | src/timeline/hooks/useZoom.ts:14 | Pixel-to-time preserves and reflects strict order. |
| `LinearTimeScale.CustomZoomReachesAnyWindow` | src/timeline/hooks/useZoom.ts:73-82 | Custom zoom is not snapped to the ladder. Dragging between the pixels of any two times commits exactly that window. |
| `LinearTimeScale.RightToLeftDragInvertsDomain` | src/timeline/hooks/useZoom.ts:76-78 | For an increasing scale, a drag yields an inverted domain if and only if it goes right to left. |
| `LinearTimeScale.CustomZoomExample` | src/timeline/hooks/useZoom.ts:73-82 | Pixels 0..100 show times 0..100000. Dragging from pixel 10 to pixel 50 commits `[10000, 50000]`. |

## Left out

- `useCallback` memoisation and its dependency arrays: no observable semantics. Each operation is a plain function of the props.
- Internals of `useZoomLevels`, `zoomScaleWidth` and `getDomainSpan`: their source is not part of this model. They are uninterpreted, so centring, clamping and ladder ordering are not assumed.
- The zoom-in-then-zoom-out round trip to the original level's width is not stated. It depends entirely on those internals.
- d3's `ScaleLinear` is not modelled. `timeScale.invert` is an uninterpreted function. `LinearTimeScale` is one increasing linear instance over the pixel range `[0, width]`, used only in the lemmas about custom zoom. Degenerate scales are not modelled.
- `onCursorMove` is represented only by whether the host supplied it. Its own behaviour belongs to the host.
- `onDomainChange` is represented by the `Commit` result. Animation timing, and how the host applies a commit, are not modelled.
- Floating-point behaviour (NaN, infinities, rounding of the midpoint) is not modelled. Times are exact reals.
- example/src/CustomizedTimeline.tsx: event rendering, not part of the zoom controller.
