/** The decelerator: turns a release of the scroll view into a running
    TimerAnimation over the decay curve, and cancels it when the user touches
    the view again. */
module Decelerator {
  import opened Geometry
  import opened Timing
  import opened Scroll
  import opened Animation

  /** A release: its velocity and the raw value of the deceleration rate. */
  datatype ScrollingDeceleration = ScrollingDeceleration(velocity: Point, decelerationRate: real)

  /** `==` of ScrollingDeceleration: compares velocity and rate; two releases
      are equal exactly when they are the same value. */
  function Equals(lhs: ScrollingDeceleration, rhs: ScrollingDeceleration): (r: bool)
    ensures r <==> lhs == rhs
  {
    lhs.velocity == rhs.velocity && lhs.decelerationRate == rhs.decelerationRate
  }

  /** The velocity handed to the curve: horizontal as given, vertical scaled
      by `1000 * threshold`, so a release at rest stays at rest. */
  function ScaledVelocity(velocity: Point, threshold: real): (r: Point)
    ensures r.x == velocity.x
    ensures velocity == Zero ==> r == Zero
  {
    Point(velocity.x, velocity.y * 1000.0 * threshold)
  }

  /** With a positive threshold the scaling neither creates nor removes
      motion: the scaled velocity is zero exactly when the release velocity is. */
  lemma ScalingKeepsRest(velocity: Point, threshold: real)
    requires threshold > 0.0
    ensures ScaledVelocity(velocity, threshold) == Zero <==> velocity == Zero
  {
    if velocity.y != 0.0 {
      assert 1000.0 * threshold > 0.0;
      assert velocity.y * (1000.0 * threshold) != 0.0;
      assert velocity.y * 1000.0 * threshold == velocity.y * (1000.0 * threshold);
    }
  }

  /** With the decelerator's threshold 0.1 the vertical factor is 100. */
  lemma DefaultScaling(velocity: Point)
    ensures ScaledVelocity(velocity, 0.1) == Point(velocity.x, 100.0 * velocity.y)
  {
  }

  /** The timing parameters `beginScrollAnimation` builds for a release seen
      at `offset`. */
  function TimingFor(offset: Point, deceleration: ScrollingDeceleration, threshold: real): ScrollTimingParameters
  {
    ScrollTimingParameters(offset, ScaledVelocity(deceleration.velocity, threshold),
                           deceleration.decelerationRate, threshold)
  }

  class ScrollingDecelerator {
    /** The weak reference to the scroll view. */
    var scrollView: ScrollView?
    var scrollingAnimation: TimerAnimation?
    const threshold: real := 0.1
    /** The closed-form decay formulas the timing parameters evaluate. */
    const law: DecayLaw

    /** The stored animation, if any, keeps the invariant of a run. */
    predicate Valid()
      reads this, scrollingAnimation
    {
      scrollingAnimation != null ==> scrollingAnimation.Valid()
    }

    constructor (scrollView: ScrollView, law: DecayLaw)
      ensures Valid()
      ensures this.scrollView == scrollView && scrollingAnimation == null
      ensures threshold == 0.1 && this.law == law
    {
      this.scrollView := scrollView;
      scrollingAnimation := null;
      this.law := law;
    }

    /** `decelerate(by:)`: without a scroll view nothing happens. Otherwise a
        new animation is started at media time `now` over the curve from the
        current offset with the scaled velocity, with no completion, and
        stored; a previous animation is not invalidated and keeps running. */
    method Decelerate(deceleration: ScrollingDeceleration, now: real)
      requires Valid()
      modifies this
      ensures Valid()
      ensures scrollView == old(scrollView)
      ensures old(scrollView) == null ==> scrollingAnimation == old(scrollingAnimation)
      ensures old(scrollView) != null ==>
        var a := scrollingAnimation;
        && a != null && fresh(a) && a.Valid()
        && a.isRunning && a.effects == [] && !a.hasCompletion
        && a.firstFrameTimestamp == now && a.animations.scrollView == scrollView
        && a.animations == ScrollAnimations(TimingFor(scrollView.contentOffset, deceleration, threshold),
                                            law, deceleration.velocity.y, scrollView)
        && a.duration == Duration(a.animations.timing, law)
    {
      if scrollView == null {
        return;
      }
      var velocity := ScaledVelocity(deceleration.velocity, threshold);
      scrollingAnimation := BeginScrollAnimation(scrollView.contentOffset, velocity,
                                                 deceleration.decelerationRate,
                                                 deceleration.velocity.y, scrollView, now);
    }

    /** `beginScrollAnimation`: builds the timing parameters and starts an
        animation whose closure samples them. */
    method BeginScrollAnimation(initialContentOffset: Point, initialVelocity: Point, decelerationRate: real,
                                releaseVelocityY: real, target: ScrollView?, now: real)
      returns (a: TimerAnimation)
      ensures fresh(a) && a.Valid() && a.isRunning && a.effects == [] && !a.hasCompletion
      ensures a.firstFrameTimestamp == now
      ensures a.animations == ScrollAnimations(
        ScrollTimingParameters(initialContentOffset, initialVelocity, decelerationRate, threshold),
        law, releaseVelocityY, target)
      ensures a.duration == Duration(a.animations.timing, law)
    {
      var timing := ScrollTimingParameters(initialContentOffset, initialVelocity, decelerationRate, threshold);
      a := new TimerAnimation(Duration(timing, law), ScrollAnimations(timing, law, releaseVelocityY, target), false, now);
    }

    /** `invalidateIfNeeded`: when the scroll view is there and the user
        interacts with it, invalidates the stored animation and forgets it;
        otherwise nothing changes. */
    method InvalidateIfNeeded()
      requires Valid()
      modifies this, if scrollingAnimation == null then {} else {scrollingAnimation}
      ensures Valid()
      ensures scrollView == old(scrollView)
      ensures !(scrollView != null && scrollView.IsUserInteracted()) ==>
        && scrollingAnimation == old(scrollingAnimation)
        && (scrollingAnimation != null ==> unchanged(scrollingAnimation))
      ensures scrollView != null && scrollView.IsUserInteracted() ==>
        && scrollingAnimation == null
        && var a := old(scrollingAnimation);
           a != null ==>
             && a.Valid() && !a.isRunning
             && a.effects == if old(a.isRunning) then old(a.effects) + StopEffects(a.hasCompletion, false)
                             else old(a.effects)
    {
      if !(scrollView != null && scrollView.IsUserInteracted()) {
        return;
      }
      if scrollingAnimation != null {
        scrollingAnimation.Invalidate();
      }
      scrollingAnimation := null;
    }
  }

  /** A release with zero velocity gives, for any positive threshold, a
      degenerate curve: zero duration and no motion. */
  lemma RestReleaseIsDegenerate(offset: Point, rate: real, threshold: real, law: DecayLaw)
    requires threshold > 0.0
    ensures !PointMoves(TimingFor(offset, ScrollingDeceleration(Zero, rate), threshold))
    ensures Duration(TimingFor(offset, ScrollingDeceleration(Zero, rate), threshold), law) == 0.0
  {
    ScalingKeepsRest(Zero, threshold);
  }

  /** A release at rest (zero velocity) of a view scrolled to offset 50: the
      curve is degenerate, so the first tick finishes the run and writes
      offset 0 rather than leaving the view where it was, because the
      degenerate point is the zero point. */
  method ZeroVelocityRelease(law: DecayLaw, now: real, tick: real)
    returns (offsetY: real, running: bool)
    requires tick >= now
    ensures offsetY == 0.0 && !running
  {
    var view, run := ReleaseAtRest(law, now);
    FirstTickOfDegenerateRun(run, view, tick);
    offsetY, running := view.contentOffset.y, run.isRunning;
  }

  /** The release half of the scenario: a view at offset 50 released at rest
      holds a new running animation of zero duration over a degenerate curve. */
  method ReleaseAtRest(law: DecayLaw, now: real) returns (view: ScrollView, run: TimerAnimation)
    ensures fresh(view) && fresh(run)
    ensures run.Valid() && run.isRunning && run.firstFrameTimestamp == now
    ensures run.animations.scrollView == view && run.duration == 0.0
    ensures !PointMoves(run.animations.timing)
  {
    view := new ScrollView(Point(0.0, 50.0), 1000.0, 500.0);
    var decelerator := new ScrollingDecelerator(view, law);
    decelerator.Decelerate(ScrollingDeceleration(Zero, 0.998), now);
    run := decelerator.scrollingAnimation;
    RestReleaseIsDegenerate(view.contentOffset, 0.998, decelerator.threshold, law);
  }

  /** The tick half: the first tick of a run of zero duration over a
      degenerate curve finishes it and writes offset 0 to its view. */
  method FirstTickOfDegenerateRun(run: TimerAnimation, view: ScrollView, tick: real)
    requires run.Valid() && run.isRunning && tick >= run.firstFrameTimestamp
    requires run.animations.scrollView == view && run.duration == 0.0
    requires !PointMoves(run.animations.timing)
    modifies run, view
    ensures view.contentOffset.y == 0.0 && !run.isRunning
  {
    run.Step(tick);
    DegenerateReleaseWritesTop(run.animations, 1.0, view.contentHeight, view.frameHeight);
  }

  /** The user touches the view during a run: `invalidateIfNeeded` stops the
      run and forgets it, and a tick that still arrives writes nothing. */
  method TouchStopsRun(law: DecayLaw, velocityY: real, now: real, firstTick: real, lateTick: real)
    returns (offsetBefore: real, offsetAfter: real, running: bool, forgotten: bool)
    requires now <= firstTick <= lateTick
    ensures offsetAfter == offsetBefore && !running && forgotten
  {
    var view := new ScrollView(Point(0.0, 50.0), 1000.0, 500.0);
    var decelerator := new ScrollingDecelerator(view, law);
    decelerator.Decelerate(ScrollingDeceleration(Point(0.0, velocityY), 0.998), now);
    var run := decelerator.scrollingAnimation;
    run.Step(firstTick);
    view.isTracking := true;
    decelerator.InvalidateIfNeeded();
    offsetBefore := view.contentOffset.y;
    run.Step(lateTick);
    offsetAfter, running := view.contentOffset.y, run.isRunning;
    forgotten := decelerator.scrollingAnimation == null;
  }

  /** A second release replaces the stored animation without invalidating
      the first: the first keeps running and its link stays registered. */
  method SecondReleaseKeepsFirstRun(law: DecayLaw, first: ScrollingDeceleration,
                                    second: ScrollingDeceleration, now: real, later: real)
    returns (firstRunning: bool, firstLinkActive: bool, replaced: bool)
    ensures firstRunning && firstLinkActive && replaced
  {
    var view := new ScrollView(Point(0.0, 0.0), 1000.0, 500.0);
    var decelerator := new ScrollingDecelerator(view, law);
    decelerator.Decelerate(first, now);
    var firstRun := decelerator.scrollingAnimation;
    decelerator.Decelerate(second, later);
    firstRunning, firstLinkActive := firstRun.isRunning, firstRun.linkActive;
    replaced := decelerator.scrollingAnimation != firstRun;
  }
}
