/** The parts of UIScrollView the decelerator reads and writes, and the sample
    closure that `decelerate` hands to the animation: it turns a progress value
    into a point of the curve, clamps it and writes the vertical offset. */
module Scroll {
  import opened Geometry
  import opened Timing

  class ScrollView {
    var contentOffset: Point
    /** `contentSize.height` */
    var contentHeight: real
    /** `frame.height` */
    var frameHeight: real
    var isTracking: bool
    var isDragging: bool
    var isDecelerating: bool

    constructor (contentOffset: Point, contentHeight: real, frameHeight: real)
      ensures this.contentOffset == contentOffset
      ensures this.contentHeight == contentHeight && this.frameHeight == frameHeight
      ensures !isTracking && !isDragging && !isDecelerating
    {
      this.contentOffset := contentOffset;
      this.contentHeight := contentHeight;
      this.frameHeight := frameHeight;
      isTracking, isDragging, isDecelerating := false, false, false;
    }

    /** `isUserInteracted`: the user touches, drags, or the view still
        decelerates on its own. Any one of the three flags is enough, and
        with all three clear the view is left alone. */
    predicate IsUserInteracted(): (b: bool)
      reads this
      ensures isTracking ==> b
      ensures isDragging ==> b
      ensures isDecelerating ==> b
      ensures !isTracking && !isDragging && !isDecelerating ==> !b
    {
      isTracking || isDragging || isDecelerating
    }
  }

  function Max(a: real, b: real): real
  {
    if a >= b then a else b
  }

  function Min(a: real, b: real): real
  {
    if a <= b then a else b
  }

  /** The vertical offset the sample closure writes for a curve point at
      `pointY`. A release towards the top (negative vertical velocity) only
      stops at the top edge; any other release is kept within the scrollable
      range `[0, contentHeight - frameHeight]`, which collapses to the top edge
      when the content is shorter than the frame. */
  function ClampedOffsetY(releaseVelocityY: real, pointY: real, contentHeight: real, frameHeight: real): (y: real)
    ensures y >= 0.0
    ensures pointY < 0.0 ==> y == 0.0
    ensures releaseVelocityY < 0.0 && pointY >= 0.0 ==> y == pointY
    ensures releaseVelocityY >= 0.0 && contentHeight >= frameHeight ==>
      && y <= contentHeight - frameHeight
      && (0.0 <= pointY <= contentHeight - frameHeight ==> y == pointY)
      && (pointY > contentHeight - frameHeight ==> y == contentHeight - frameHeight)
    ensures releaseVelocityY >= 0.0 && contentHeight < frameHeight ==> y == 0.0
  {
    if releaseVelocityY < 0.0 then
      Max(pointY, 0.0)
    else
      Max(0.0, Min(pointY, contentHeight - frameHeight))
  }

  /** The curve time a progress value stands for, `progress * duration`. */
  function TimeAt(progress: real, duration: real): real
  {
    progress * duration
  }

  /** What the animation closure captures: the timing parameters and decay
      law of the curve, the vertical component of the release velocity as
      given (before scaling), and the weak reference to the scroll view. */
  datatype ScrollAnimations = ScrollAnimations(
    timing: ScrollTimingParameters,
    law: DecayLaw,
    releaseVelocityY: real,
    scrollView: ScrollView?)
  {
    /** The objects a sample may write. */
    function Footprint(): set<object>
    {
      if scrollView == null then {} else {scrollView}
    }

    /** The offset written for `progress` on a view of the given heights:
        the curve is evaluated at `progress * duration` and clamped. */
    function OffsetYAt(progress: real, contentHeight: real, frameHeight: real): real
    {
      ClampedOffsetY(releaseVelocityY,
                     PointAt(timing, TimeAt(progress, Duration(timing, law)), law).y,
                     contentHeight, frameHeight)
    }
  }

  /** The closure of `decelerate`: writes the clamped vertical offset of
      `point` into the scroll view if it is still there; nothing else changes. */
  method ApplyPoint(scrollView: ScrollView?, releaseVelocityY: real, point: Point)
    modifies scrollView
    ensures scrollView != null ==>
      && scrollView.contentOffset == old(scrollView.contentOffset).(y :=
           ClampedOffsetY(releaseVelocityY, point.y, old(scrollView.contentHeight), old(scrollView.frameHeight)))
      && unchanged(scrollView`contentHeight, scrollView`frameHeight,
                   scrollView`isTracking, scrollView`isDragging, scrollView`isDecelerating)
  {
    if scrollView == null {
      return;
    }
    var y := ClampedOffsetY(releaseVelocityY, point.y, scrollView.contentHeight, scrollView.frameHeight);
    scrollView.contentOffset := scrollView.contentOffset.(y := y);
  }

  /** The closure of `beginScrollAnimation`: evaluates the curve at
      `progress * duration` and hands the point to the closure of `decelerate`. */
  method ApplyProgress(a: ScrollAnimations, progress: real)
    modifies a.Footprint()
    ensures a.scrollView != null ==>
      && a.scrollView.contentOffset == old(a.scrollView.contentOffset).(y :=
           a.OffsetYAt(progress, a.scrollView.contentHeight, a.scrollView.frameHeight))
      && unchanged(a.scrollView`contentHeight, a.scrollView`frameHeight,
                   a.scrollView`isTracking, a.scrollView`isDragging, a.scrollView`isDecelerating)
  {
    var point := PointAt(a.timing, TimeAt(progress, Duration(a.timing, a.law)), a.law);
    ApplyPoint(a.scrollView, a.releaseVelocityY, point);
  }

  /** A degenerate curve (rate outside (0, 1) or zero velocity) is at the zero
      point at every time, so every sample writes the top edge, offset 0,
      whatever the offset was when the release happened. */
  lemma DegenerateReleaseWritesTop(a: ScrollAnimations, progress: real, contentHeight: real, frameHeight: real)
    requires !PointMoves(a.timing)
    ensures a.OffsetYAt(progress, contentHeight, frameHeight) == 0.0
  {
  }
}
