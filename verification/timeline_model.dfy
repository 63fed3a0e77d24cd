/** The optional-value wrapper used for `timeAtCursor?` and for "no callback fired". */
module Wrappers {
  datatype Option<+T> = None | Some(value: T)
}

/**
 * The value types the zoom controller consumes, and the collaborators it imports
 * but whose source is not part of this model (`useZoomLevels`, `zoomScaleWidth`,
 * `getDomainSpan`). The collaborators are carried as plain functions with no
 * promised properties, so every result proved about the controller holds for
 * whatever those functions compute.
 */
module TimelineModel {

  /** A time window `[start, end]` in milliseconds. No ordering is imposed:
      a right-to-left custom drag produces `end < start`. */
  datatype Domain = Domain(start: real, end: real)
  {
    /** `domain[1] - domain[0]`; negative for an inverted window. */
    function Width(): real { end - start }
  }

  /** The name of a configured level; never one of the sentinel spellings, so
      `Level(name)` cannot stand for `'minimum'` or `'maximum'`. */
  type LevelName = s: string | s != "minimum" && s != "maximum"

  /** A rung of the zoom ladder: the two sentinels and the configured levels in between. */
  datatype ZoomLevel = Minimum | Level(name: LevelName) | Maximum

  /** What `useZoomLevels(domain, zoomLevels)` returns. */
  datatype ZoomLevelSelection = ZoomLevelSelection(
    currentZoomScale: ZoomLevel,
    nextSmallerZoomScale: ZoomLevel,
    nextBiggerZoomScale: ZoomLevel)

  /** The imported helpers, taken as uninterpreted functions. */
  datatype Collaborators = Collaborators(
    // useZoomLevels(domain, zoomLevels)
    zoomLevelsOf: (Domain, seq<ZoomLevel>) -> ZoomLevelSelection,
    // zoomScaleWidth(zoomScale)
    zoomScaleWidth: ZoomLevel -> real,
    // getDomainSpan(maxDomainStart, maxDomainEnd, focalTime, width)
    getDomainSpan: (real, real, real, real) -> Domain)
}
