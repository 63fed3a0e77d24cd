/**
 * The zoom controller of `useZoom`: the values it derives from the current
 * domain, and the five zoom operations. Each operation is a function of the
 * hook's props; the callback it would invoke becomes its result
 * (`Some(Commit(..))` for `onDomainChange`, `Some(Preview(..))` for
 * `onCursorMove`, `None` for "nothing happens").
 */
module UseZoom {
  import opened Wrappers
  import opened TimelineModel

  /** The hook's props. `onDomainChange` is the caller of the `Commit` results;
      `timeScale` is represented by its `invert`; `onCursorMove` only by whether
      the host supplied it. */
  datatype Props = Props(
    domain: Domain,
    maxDomainStart: real,
    maxDomainEnd: real,
    zoomLevels: seq<ZoomLevel>,
    isDomainChangePossible: bool,
    invert: real -> real,
    hasCursorMove: bool)

  /** The arguments of one `onDomainChange(domain, animated)` call. */
  datatype Commit = Commit(domain: Domain, animated: bool)

  /** The arguments of one `onCursorMove(millisAtCursor, startMillis, endMillis)` call. */
  datatype Preview = Preview(millisAtCursor: real, startMillis: real, endMillis: real)

  /** The plain values the hook returns beside its operations. */
  datatype Derived = Derived(
    currentZoomScale: ZoomLevel,
    zoomWidth: real,
    nextSmallerZoomScale: ZoomLevel,
    nextBiggerZoomScale: ZoomLevel,
    isZoomInPossible: bool,
    isZoomOutPossible: bool)

  /** The ladder position of the current domain, as `useZoomLevels` reports it. */
  function Selection(p: Props, c: Collaborators): ZoomLevelSelection
  {
    c.zoomLevelsOf(p.domain, p.zoomLevels)
  }

  /** Width of the full bound span, `maxDomainEnd - maxDomainStart`. */
  function MaxDomainWidth(p: Props): real
  {
    p.maxDomainEnd - p.maxDomainStart
  }

  /** The derived values: the ladder neighbours as selected, the width of one
      zoom-in step, and the two enablement flags. */
  function DeriveValues(p: Props, c: Collaborators): (v: Derived)
    ensures v.currentZoomScale == Selection(p, c).currentZoomScale
    ensures v.nextSmallerZoomScale == Selection(p, c).nextSmallerZoomScale
    ensures v.nextBiggerZoomScale == Selection(p, c).nextBiggerZoomScale
    ensures v.zoomWidth == c.zoomScaleWidth(v.nextSmallerZoomScale)
    ensures v.isZoomInPossible <==> v.nextSmallerZoomScale != Minimum
    ensures v.isZoomOutPossible <==> p.domain.end - p.domain.start < p.maxDomainEnd - p.maxDomainStart
  {
    var sel := Selection(p, c);
    Derived(
      sel.currentZoomScale,
      c.zoomScaleWidth(sel.nextSmallerZoomScale),
      sel.nextSmallerZoomScale,
      sel.nextBiggerZoomScale,
      sel.nextSmallerZoomScale != Minimum,
      p.domain.Width() < MaxDomainWidth(p))
  }

  /** `setDomainAnimated`: every commit the controller makes is animated. */
  function SetDomainAnimated(newDomain: Domain): (r: Commit)
    ensures r.domain == newDomain && r.animated
  {
    Commit(newDomain, true)
  }

  /** `timeAtCursor ?? (domain[0] + domain[1]) / 2`: a supplied cursor time is
      used as it is (zero included); otherwise the point equidistant from both
      ends of the current domain. */
  function FocalTime(domain: Domain, timeAtCursor: Option<real>): (f: real)
    ensures timeAtCursor.Some? ==> f == timeAtCursor.value
    ensures timeAtCursor.None? ==> f - domain.start == domain.end - f
    ensures timeAtCursor.None? && domain.start <= domain.end ==> domain.start <= f <= domain.end
  {
    match timeAtCursor
    case Some(t) => t
    case None => (domain.start + domain.end) / 2.0
  }

  /** `updateDomain(zoomScale)(timeAtCursor)`: gated by `isDomainChangePossible`,
      commits the span of the level's width around the focal time, animated. */
  function UpdateDomain(p: Props, c: Collaborators, zoomScale: ZoomLevel, timeAtCursor: Option<real>): (r: Option<Commit>)
    ensures r.Some? <==> p.isDomainChangePossible
    ensures r.Some? ==> r.value.animated
    ensures r.Some? ==>
      r.value.domain == c.getDomainSpan(p.maxDomainStart, p.maxDomainEnd, FocalTime(p.domain, timeAtCursor),
                                        c.zoomScaleWidth(zoomScale))
  {
    if p.isDomainChangePossible then
      var newZoomWidth := c.zoomScaleWidth(zoomScale);
      Some(SetDomainAnimated(
        c.getDomainSpan(p.maxDomainStart, p.maxDomainEnd, FocalTime(p.domain, timeAtCursor), newZoomWidth)))
    else
      None
  }

  /** `onZoomIn(timeAtCursor?)`: commits a window of the advertised `zoomWidth`
      (the next smaller level's width) around the focal time. */
  function OnZoomIn(p: Props, c: Collaborators, timeAtCursor: Option<real>): (r: Option<Commit>)
    ensures r.Some? <==> p.isDomainChangePossible
    ensures r.Some? ==> r.value.animated
    ensures r.Some? ==>
      r.value.domain == c.getDomainSpan(p.maxDomainStart, p.maxDomainEnd, FocalTime(p.domain, timeAtCursor),
                                        DeriveValues(p, c).zoomWidth)
  {
    UpdateDomain(p, c, Selection(p, c).nextSmallerZoomScale, timeAtCursor)
  }

  /** `onZoomOut(timeAtCursor?)`: as `onZoomIn`, with the next bigger level's width. */
  function OnZoomOut(p: Props, c: Collaborators, timeAtCursor: Option<real>): (r: Option<Commit>)
    ensures r.Some? <==> p.isDomainChangePossible
    ensures r.Some? ==> r.value.animated
    ensures r.Some? ==>
      r.value.domain == c.getDomainSpan(p.maxDomainStart, p.maxDomainEnd, FocalTime(p.domain, timeAtCursor),
                                        c.zoomScaleWidth(DeriveValues(p, c).nextBiggerZoomScale))
  {
    UpdateDomain(p, c, Selection(p, c).nextBiggerZoomScale, timeAtCursor)
  }

  /** `onZoomInCustom(mouseStartX, mouseEndX)`: commits the two inverted pixel
      positions, in drag order, neither sorted nor snapped to the ladder. */
  function OnZoomInCustom(p: Props, mouseStartX: real, mouseEndX: real): (r: Option<Commit>)
    ensures r.Some? <==> p.isDomainChangePossible
    ensures r.Some? ==> r.value.animated
    ensures r.Some? ==> r.value.domain.start == p.invert(mouseStartX)
    ensures r.Some? ==> r.value.domain.end == p.invert(mouseEndX)
  {
    if p.isDomainChangePossible then
      var newMin := p.invert(mouseStartX);
      var newMax := p.invert(mouseEndX);
      Some(SetDomainAnimated(Domain(newMin, newMax)))
    else
      None
  }

  /** `onZoomInCustomInProgress(mouseStartX, mouseEndX)`: never commits; reports
      `(end, start, end)` of the dragged window to `onCursorMove` when the gate
      is open and the callback is present. */
  function OnZoomInCustomInProgress(p: Props, mouseStartX: real, mouseEndX: real): (r: Option<Preview>)
    ensures r.Some? <==> p.isDomainChangePossible && p.hasCursorMove
    ensures r.Some? ==> r.value.millisAtCursor == p.invert(mouseEndX)
    ensures r.Some? ==> r.value.startMillis == p.invert(mouseStartX)
    ensures r.Some? ==> r.value.endMillis == p.invert(mouseEndX)
  {
    if p.isDomainChangePossible && p.hasCursorMove then
      var newMin := p.invert(mouseStartX);
      var newMax := p.invert(mouseEndX);
      Some(Preview(newMax, newMin, newMax))
    else
      None
  }

  /** `onZoomReset()`: commits the whole bound span, animated. */
  function OnZoomReset(p: Props): (r: Option<Commit>)
    ensures r.Some? <==> p.isDomainChangePossible
    ensures r.Some? ==> r.value.animated
    ensures r.Some? ==> r.value.domain.start == p.maxDomainStart && r.value.domain.end == p.maxDomainEnd
  {
    if p.isDomainChangePossible then
      Some(SetDomainAnimated(Domain(p.maxDomainStart, p.maxDomainEnd)))
    else
      None
  }

  // ---------------------------------------------------------------------------
  // Properties relating the operations and the derived values
  // ---------------------------------------------------------------------------

  /** With the gate closed, no operation invokes either callback. */
  lemma ClosedGateIsSilent(p: Props, c: Collaborators, t: Option<real>, x0: real, x1: real)
    requires !p.isDomainChangePossible
    ensures OnZoomIn(p, c, t).None? && OnZoomOut(p, c, t).None? && OnZoomReset(p).None?
    ensures OnZoomInCustom(p, x0, x1).None? && OnZoomInCustomInProgress(p, x0, x1).None?
  {
  }

  /** The derived values do not depend on the gate flag. */
  lemma DerivedIgnoresGate(p: Props, c: Collaborators, gate: bool)
    ensures DeriveValues(p.(isDomainChangePossible := gate), c) == DeriveValues(p, c)
  {
  }

  /** `onZoomIn` and `onZoomOut` follow one rule and differ only in the ladder
      neighbour they take: when both neighbours have the same width they commit
      the same thing. */
  lemma ZoomInAndOutShareOneRule(p: Props, c: Collaborators, t: Option<real>)
    requires c.zoomScaleWidth(Selection(p, c).nextSmallerZoomScale)
          == c.zoomScaleWidth(Selection(p, c).nextBiggerZoomScale)
    ensures OnZoomIn(p, c, t) == OnZoomOut(p, c, t)
  {
  }

  /** `onZoomIn` is not gated by `isZoomInPossible`: with the gate open and the
      flag false, it still commits, with the width of the `minimum` sentinel. */
  lemma ZoomInIgnoresEnablement(p: Props, c: Collaborators, t: Option<real>)
    requires p.isDomainChangePossible && !DeriveValues(p, c).isZoomInPossible
    ensures OnZoomIn(p, c, t) == Some(Commit(
      c.getDomainSpan(p.maxDomainStart, p.maxDomainEnd, FocalTime(p.domain, t), c.zoomScaleWidth(Minimum)), true))
  {
  }

  /** `onZoomOut` is not gated by `isZoomOutPossible` either: with the gate open
      it commits even when the domain already spans the whole bounds. */
  lemma ZoomOutIgnoresEnablement(p: Props, c: Collaborators, t: Option<real>)
    requires p.isDomainChangePossible && !DeriveValues(p, c).isZoomOutPossible
    ensures OnZoomOut(p, c, t) == Some(Commit(
      c.getDomainSpan(p.maxDomainStart, p.maxDomainEnd, FocalTime(p.domain, t),
                      c.zoomScaleWidth(DeriveValues(p, c).nextBiggerZoomScale)), true))
  {
  }

  /** The preview reported while dragging is the window the drop commits:
      its start and end are the committed domain's, and the cursor sits at the end. */
  lemma PreviewMatchesCommit(p: Props, x0: real, x1: real)
    requires p.isDomainChangePossible && p.hasCursorMove
    ensures OnZoomInCustomInProgress(p, x0, x1).Some? && OnZoomInCustom(p, x0, x1).Some?
    ensures OnZoomInCustomInProgress(p, x0, x1).value.startMillis == OnZoomInCustom(p, x0, x1).value.domain.start
    ensures OnZoomInCustomInProgress(p, x0, x1).value.endMillis == OnZoomInCustom(p, x0, x1).value.domain.end
    ensures OnZoomInCustomInProgress(p, x0, x1).value.millisAtCursor == OnZoomInCustom(p, x0, x1).value.domain.end
  {
  }

  /** Once the host has applied a reset, zoom-out is disabled. */
  lemma ResetDisablesZoomOut(p: Props, c: Collaborators)
    requires p.isDomainChangePossible
    ensures !DeriveValues(p.(domain := OnZoomReset(p).value.domain), c).isZoomOutPossible
  {
  }

  /** For a domain inside the bounds, zoom-out is disabled exactly when the
      domain is the bounds. */
  lemma ZoomOutDisabledIffAtBounds(p: Props, c: Collaborators)
    requires p.maxDomainStart <= p.domain.start && p.domain.end <= p.maxDomainEnd
    ensures !DeriveValues(p, c).isZoomOutPossible <==> p.domain == Domain(p.maxDomainStart, p.maxDomainEnd)
  {
  }

  /** A full-width domain shifted off the bounds still disables zoom-out, so the
      flag is not "the domain differs from the bounds". */
  lemma ShiftedFullWidthDisablesZoomOut(p: Props, c: Collaborators)
    requires p.domain == Domain(p.maxDomainStart + 10.0, p.maxDomainEnd + 10.0)
    ensures p.domain != Domain(p.maxDomainStart, p.maxDomainEnd)
    ensures !DeriveValues(p, c).isZoomOutPossible
  {
  }
}
