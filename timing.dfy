/** The timing parameters of one deceleration (ScrollTimingParameters): the
    duration of the glide and the content offset at a given time. */
module Timing {
  import opened Geometry

  datatype ScrollTimingParameters = ScrollTimingParameters(
    initialContentOffset: Point,
    initialVelocity: Point,
    decelerationRate: real,
    threshold: real)

  /** The closed-form decay formulas, which need `log`, `pow` and `sqrt` and
      are therefore left uninterpreted:
      - `duration(rate, threshold, velocity)` stands for
        `log(-dCoeff * threshold / velocity.length) / dCoeff` with `dCoeff = 1000 * log(rate)`;
      - `displacement(rate, time)` stands for `(pow(rate, 1000 * time) - 1) / dCoeff`,
        the factor by which the initial velocity is scaled at `time`. */
  datatype DecayLaw = DecayLaw(
    duration: (real, real, Point) -> real,
    displacement: (real, real) -> real)

  /** The guard of `duration`: the rate lies in (0, 1) and `length != 0`. */
  predicate DurationMoves(p: ScrollTimingParameters)
  {
    p.decelerationRate < 1.0 && p.decelerationRate > 0.0 && HasLength(p.initialVelocity)
  }

  /** The guard of `point(at:)`: the rate lies in (0, 1) and the velocity is not `.zero`. */
  predicate PointMoves(p: ScrollTimingParameters)
  {
    p.decelerationRate < 1.0 && p.decelerationRate > 0.0 && p.initialVelocity != Zero
  }

  /** `duration`: zero when the guard fails, the decay law's value otherwise. */
  function Duration(p: ScrollTimingParameters, law: DecayLaw): (d: real)
    ensures p.decelerationRate <= 0.0 || p.decelerationRate >= 1.0 || p.initialVelocity == Zero ==> d == 0.0
    ensures d != 0.0 ==> 0.0 < p.decelerationRate < 1.0 && p.initialVelocity != Zero
  {
    if DurationMoves(p) then
      law.duration(p.decelerationRate, p.threshold, p.initialVelocity)
    else
      0.0
  }

  /** `point(at: time)`: the zero point when the guard fails, otherwise the
      initial offset plus the decayed multiple of the initial velocity. */
  function PointAt(p: ScrollTimingParameters, time: real, law: DecayLaw): (r: Point)
    ensures !PointMoves(p) ==> r == Zero
    ensures PointMoves(p) ==>
      (r.x - p.initialContentOffset.x) * p.initialVelocity.y == (r.y - p.initialContentOffset.y) * p.initialVelocity.x
  {
    if PointMoves(p) then
      Add(p.initialContentOffset, Scale(law.displacement(p.decelerationRate, time), p.initialVelocity))
    else
      Zero
  }

  /** The two guards, written differently, accept exactly the same parameters. */
  lemma GuardsAgree(p: ScrollTimingParameters)
    ensures DurationMoves(p) <==> PointMoves(p)
  {
  }

  /** A rate outside (0, 1) or a zero velocity gives a zero duration and the
      zero point at every time, whatever the decay law. */
  lemma DegenerateCurve(p: ScrollTimingParameters, law: DecayLaw)
    requires p.decelerationRate <= 0.0 || p.decelerationRate >= 1.0 || p.initialVelocity == Zero
    ensures Duration(p, law) == 0.0
    ensures forall time :: PointAt(p, time, law) == Zero
  {
  }

  /** With a rate in (0, 1) and a non-zero velocity both members follow the
      decay law: the duration is the law's, and the point is the initial
      offset moved along the initial velocity. */
  lemma MovingCurve(p: ScrollTimingParameters, law: DecayLaw)
    requires 0.0 < p.decelerationRate < 1.0 && p.initialVelocity != Zero
    ensures Duration(p, law) == law.duration(p.decelerationRate, p.threshold, p.initialVelocity)
    ensures forall time :: (PointAt(p, time, law) ==
      Add(p.initialContentOffset, Scale(law.displacement(p.decelerationRate, time), p.initialVelocity)))
  {
    GuardsAgree(p);
  }

  /** A decay law whose displacement is zero at time zero (`pow(rate, 0) == 1`). */
  ghost predicate StartsAtRest(law: DecayLaw)
  {
    forall rate :: 0.0 < rate < 1.0 ==> law.displacement(rate, 0.0) == 0.0
  }

  /** At time zero a moving curve is at the initial offset, while a degenerate
      one is at the zero point: the two cases disagree unless the offset is zero. */
  lemma PointAtTimeZero(p: ScrollTimingParameters, law: DecayLaw)
    requires StartsAtRest(law)
    ensures PointAt(p, 0.0, law) == if PointMoves(p) then p.initialContentOffset else Zero
  {
  }

  /** A moving curve whose velocity has no vertical component keeps the
      initial vertical offset at every time. */
  lemma HorizontalMotionKeepsY(p: ScrollTimingParameters, law: DecayLaw, time: real)
    requires PointMoves(p) && p.initialVelocity.y == 0.0
    ensures PointAt(p, time, law).y == p.initialContentOffset.y
  {
  }
}
