/**
 * The hook's operations as the host sees them: every gesture handled by one
 * render's handlers invokes at most one callback, and a burst of gestures
 * handled before the host re-renders yields the callbacks in gesture order.
 */
module Gestures {
  import opened Wrappers
  import opened TimelineModel
  import opened UseZoom

  /** One invocation of an operation the hook returns. */
  datatype Gesture =
    | ZoomIn(timeAtCursor: Option<real>)
    | ZoomOut(timeAtCursor: Option<real>)
    | ZoomReset
    | ZoomInCustom(mouseStartX: real, mouseEndX: real)
    | ZoomInCustomInProgress(mouseStartX: real, mouseEndX: real)

  /** One callback invocation observed by the host. */
  datatype Effect =
    | DomainChange(commit: Commit)
    | CursorMove(preview: Preview)

  /** The callback, if any, that one gesture invokes. */
  function Dispatch(p: Props, c: Collaborators, g: Gesture): (e: Option<Effect>)
    ensures !p.isDomainChangePossible ==> e.None?
    ensures p.isDomainChangePossible && !g.ZoomInCustomInProgress? ==> e.Some? && e.value.DomainChange?
    ensures e.Some? && e.value.DomainChange? ==> e.value.commit.animated && !g.ZoomInCustomInProgress?
    ensures e.Some? && e.value.CursorMove? ==> g.ZoomInCustomInProgress? && p.hasCursorMove
    ensures p.isDomainChangePossible && p.hasCursorMove && g.ZoomInCustomInProgress? ==> e.Some? && e.value.CursorMove?
    // what each callback carries: the result of the operation the gesture invokes
    ensures e.Some? && g.ZoomIn? ==> e.value.DomainChange? && OnZoomIn(p, c, g.timeAtCursor) == Some(e.value.commit)
    ensures e.Some? && g.ZoomOut? ==> e.value.DomainChange? && OnZoomOut(p, c, g.timeAtCursor) == Some(e.value.commit)
    ensures e.Some? && g.ZoomReset? ==> e.value.DomainChange? && OnZoomReset(p) == Some(e.value.commit)
    ensures e.Some? && g.ZoomInCustom? ==>
      e.value.DomainChange? && OnZoomInCustom(p, g.mouseStartX, g.mouseEndX) == Some(e.value.commit)
    ensures e.Some? && g.ZoomInCustomInProgress? ==>
      e.value.CursorMove? && OnZoomInCustomInProgress(p, g.mouseStartX, g.mouseEndX) == Some(e.value.preview)
  {
    match g
    case ZoomIn(t) => FromCommit(OnZoomIn(p, c, t))
    case ZoomOut(t) => FromCommit(OnZoomOut(p, c, t))
    case ZoomReset => FromCommit(OnZoomReset(p))
    case ZoomInCustom(x0, x1) => FromCommit(OnZoomInCustom(p, x0, x1))
    case ZoomInCustomInProgress(x0, x1) =>
      match OnZoomInCustomInProgress(p, x0, x1)
      case Some(v) => Some(CursorMove(v))
      case None => None
  }

  /** An `onDomainChange` call as an effect. */
  function FromCommit(r: Option<Commit>): (e: Option<Effect>)
    ensures e.Some? <==> r.Some?
    ensures e.Some? ==> e.value.DomainChange? && e.value.commit == r.value
  {
    match r
    case Some(cm) => Some(DomainChange(cm))
    case None => None
  }

  /** The callbacks a burst of gestures invokes, in order: at most one per gesture. */
  function Effects(p: Props, c: Collaborators, gs: seq<Gesture>): (log: seq<Effect>)
    ensures |log| <= |gs|
    decreases |gs|
  {
    if gs == [] then []
    else
      var rest := Effects(p, c, gs[1..]);
      match Dispatch(p, c, gs[0])
      case Some(e) => [e] + rest
      case None => rest
  }

  /** Number of `onDomainChange` calls in a log. */
  function Commits(log: seq<Effect>): nat
  {
    if log == [] then 0
    else (if log[0].DomainChange? then 1 else 0) + Commits(log[1..])
  }

  /** Number of gestures that go through `onDomainChange` (all but the drag preview). */
  function CommittingGestures(gs: seq<Gesture>): nat
  {
    if gs == [] then 0
    else (if gs[0].ZoomInCustomInProgress? then 0 else 1) + CommittingGestures(gs[1..])
  }

  /** The callbacks of two bursts handled one after the other are those of the
      first burst followed by those of the second: order is kept. */
  lemma {:induction false} EffectsAppend(p: Props, c: Collaborators, a: seq<Gesture>, b: seq<Gesture>)
    ensures Effects(p, c, a + b) == Effects(p, c, a) + Effects(p, c, b)
    decreases |a|
  {
    if a != [] {
      assert (a + b)[0] == a[0];
      assert (a + b)[1..] == a[1..] + b;
      EffectsAppend(p, c, a[1..], b);
    } else {
      assert a + b == b;
    }
  }

  /** With the gate closed, a whole burst invokes no callback at all. */
  lemma {:induction false} ClosedGateSilencesBurst(p: Props, c: Collaborators, gs: seq<Gesture>)
    requires !p.isDomainChangePossible
    ensures Effects(p, c, gs) == []
    decreases |gs|
  {
    if gs != [] {
      ClosedGateSilencesBurst(p, c, gs[1..]);
    }
  }

  /** No path commits with `animated = false`. */
  lemma {:induction false} BurstCommitsAreAnimated(p: Props, c: Collaborators, gs: seq<Gesture>)
    ensures forall i :: 0 <= i < |Effects(p, c, gs)| && Effects(p, c, gs)[i].DomainChange? ==>
      Effects(p, c, gs)[i].commit.animated
    decreases |gs|
  {
    if gs != [] {
      BurstCommitsAreAnimated(p, c, gs[1..]);
    }
  }

  /** With the gate open, every gesture except the drag preview commits exactly once. */
  lemma {:induction false} OpenGateCommitCount(p: Props, c: Collaborators, gs: seq<Gesture>)
    requires p.isDomainChangePossible
    ensures Commits(Effects(p, c, gs)) == CommittingGestures(gs)
    decreases |gs|
  {
    if gs != [] {
      OpenGateCommitCount(p, c, gs[1..]);
      var rest := Effects(p, c, gs[1..]);
      match Dispatch(p, c, gs[0])
      case Some(e) =>
        assert ([e] + rest)[1..] == rest;
      case None =>
    }
  }

  /** With the gate open and `onCursorMove` present, every gesture invokes
      exactly one callback. */
  lemma {:induction false} OpenGateFullLog(p: Props, c: Collaborators, gs: seq<Gesture>)
    requires p.isDomainChangePossible && p.hasCursorMove
    ensures |Effects(p, c, gs)| == |gs|
    decreases |gs|
  {
    if gs != [] {
      OpenGateFullLog(p, c, gs[1..]);
    }
  }

  /** Drag previews never commit a domain: a burst of them yields only cursor
      moves, and with the gate open and `onCursorMove` present, one per gesture. */
  lemma {:induction false} PreviewsNeverCommit(p: Props, c: Collaborators, gs: seq<Gesture>)
    requires forall i :: 0 <= i < |gs| ==> gs[i].ZoomInCustomInProgress?
    ensures forall i :: 0 <= i < |Effects(p, c, gs)| ==> Effects(p, c, gs)[i].CursorMove?
    ensures Commits(Effects(p, c, gs)) == 0
    ensures p.isDomainChangePossible && p.hasCursorMove ==> |Effects(p, c, gs)| == |gs|
    decreases |gs|
  {
    if gs != [] {
      PreviewsNeverCommit(p, c, gs[1..]);
      var rest := Effects(p, c, gs[1..]);
      match Dispatch(p, c, gs[0])
      case Some(e) =>
        assert ([e] + rest)[1..] == rest;
      case None =>
    }
  }
}
