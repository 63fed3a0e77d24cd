/**
 * One concrete coordinate mapping: a linear scale from the time domain
 * `[start, end]` onto the pixel range `[0, width]`. The controller itself only
 * ever calls `invert`; this instance lets the custom-zoom operations be stated
 * in pixel terms.
 */
module LinearTimeScale {
  import opened Wrappers
  import opened TimelineModel
  import opened UseZoom

  datatype TimeScale = TimeScale(domain: Domain, width: real)
  {
    /** A non-degenerate, increasing scale. */
    predicate Valid() { domain.start < domain.end && 0.0 < width }

    /** Time to pixel. */
    function Apply(t: real): real
      requires Valid()
    {
      (t - domain.start) * width / domain.Width()
    }

    /** Pixel to time. */
    function Invert(x: real): (t: real)
      requires Valid()
      ensures x == 0.0 ==> t == domain.start
      ensures x == width ==> t == domain.end
    {
      domain.start + x * domain.Width() / width
    }
  }

  /** Pixel-to-time undoes time-to-pixel. */
  lemma InvertApply(s: TimeScale, t: real)
    requires s.Valid()
    ensures s.Invert(s.Apply(t)) == t
  {
    var w := s.domain.Width();
    var x := s.Apply(t);
    assert x * w == (t - s.domain.start) * s.width;
    assert x * w / s.width == t - s.domain.start;
  }

  /** Pixel-to-time preserves and reflects strict order. */
  lemma InvertStrictlyIncreasing(s: TimeScale, x0: real, x1: real)
    requires s.Valid()
    ensures x0 < x1 <==> s.Invert(x0) < s.Invert(x1)
  {
    var k := s.domain.Width() / s.width;
    assert 0.0 < k;
    var lo, hi := s.Invert(x0), s.Invert(x1);
    assert hi - lo == (x1 - x0) * k;
    if x0 < x1 {
      assert 0.0 < (x1 - x0) * k;
      assert lo < hi;
    } else {
      assert (x1 - x0) * k <= 0.0;
      assert hi <= lo;
    }
  }

  /** `timeScale.invert` of the props is this scale's `Invert`. */
  ghost predicate InvertsBy(p: Props, s: TimeScale)
    requires s.Valid()
  {
    forall x :: p.invert(x) == s.Invert(x)
  }

  /** Custom zoom is not snapped to the ladder: dragging between the pixels of
      any two times commits exactly that window. */
  lemma CustomZoomReachesAnyWindow(p: Props, s: TimeScale, a: real, b: real)
    requires s.Valid() && InvertsBy(p, s) && p.isDomainChangePossible
    ensures OnZoomInCustom(p, s.Apply(a), s.Apply(b)) == Some(Commit(Domain(a, b), true))
  {
    InvertApply(s, a);
    InvertApply(s, b);
  }

  /** A right-to-left drag, and only such a drag, commits an inverted domain. */
  lemma RightToLeftDragInvertsDomain(p: Props, s: TimeScale, x0: real, x1: real)
    requires s.Valid() && InvertsBy(p, s) && p.isDomainChangePossible
    ensures OnZoomInCustom(p, x0, x1).Some?
    ensures OnZoomInCustom(p, x0, x1).value.domain.end < OnZoomInCustom(p, x0, x1).value.domain.start <==> x1 < x0
  {
    InvertStrictlyIncreasing(s, x1, x0);
  }

  /** Pixels 0..100 showing times 0..100000: a drag from pixel 10 to pixel 50
      commits `[10000, 50000]`. */
  lemma CustomZoomExample(p: Props)
    requires p.isDomainChangePossible
    requires InvertsBy(p, TimeScale(Domain(0.0, 100000.0), 100.0))
    ensures OnZoomInCustom(p, 10.0, 50.0) == Some(Commit(Domain(10000.0, 50000.0), true))
  {
    var s := TimeScale(Domain(0.0, 100000.0), 100.0);
    assert p.invert(10.0) == s.Invert(10.0);
    assert p.invert(50.0) == s.Invert(50.0);
  }
}
