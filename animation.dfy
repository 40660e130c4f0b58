/** The frame-driven animation (TimerAnimation): started once, it samples
    progress on every display-link tick until the duration has elapsed or it
    is invalidated, and reports its end to an optional completion. */
module Animation {
  import opened Scroll

  /** The effects a run has on the outside world, in order: a call of the
      animations closure, the release of the display link, a call of the
      completion. */
  datatype Effect = Sampled(progress: real) | LinkStopped | Completed(isFinished: bool)

  /** What a tick on a running animation does. */
  datatype TickDecision = Finish | Progress(fraction: real)

  /** The choice `step` makes for a tick `elapsed` seconds after the first
      frame: finish once the duration has elapsed (or is zero), otherwise
      sample `elapsed / duration`, a fraction in [0, 1) that is that share of
      the duration. */
  function Decide(elapsed: real, duration: real): (d: TickDecision)
    requires elapsed >= 0.0
    ensures d.Finish? <==> elapsed >= duration || duration == 0.0
    ensures d.Progress? ==> 0.0 <= d.fraction < 1.0
  {
    if elapsed >= duration || duration == 0.0 then
      Finish
    else
      QuotientBounds(elapsed, duration);
      Progress(elapsed / duration)
  }

  /** The share of a positive duration that an earlier time has elapsed lies
      in [0, 1); `Decide` needs it stated on its own. */
  lemma QuotientBounds(e: real, d: real)
    requires 0.0 <= e < d
    ensures 0.0 <= e / d < 1.0
  {
  }

  /** A sampled fraction is the share of the duration that has elapsed. */
  lemma DecideFraction(elapsed: real, duration: real)
    requires elapsed >= 0.0
    ensures Decide(elapsed, duration).Progress? ==> Decide(elapsed, duration).fraction * duration == elapsed
  {
  }

  /** Later ticks never go back: once a run would finish it finishes at every
      later time, and a later sample has a larger fraction. */
  lemma DecideMonotone(earlier: real, later: real, duration: real)
    requires 0.0 <= earlier <= later
    ensures Decide(earlier, duration).Finish? ==> Decide(later, duration).Finish?
    ensures earlier < later && Decide(later, duration).Progress? ==>
      Decide(earlier, duration).fraction < Decide(later, duration).fraction
  {
  }

  /** The effects of stopping: the link is released, then the completion (if
      any) is told whether the run finished. */
  function StopEffects(hasCompletion: bool, isFinished: bool): seq<Effect>
  {
    [LinkStopped] + (if hasCompletion then [Completed(isFinished)] else [])
  }

  function StopLength(hasCompletion: bool): nat
  {
    if hasCompletion then 2 else 1
  }

  predicate OnlySamples(t: seq<Effect>)
  {
    SamplesBefore(t, |t|)
  }

  /** The first `k` effects are all samples. */
  predicate SamplesBefore(t: seq<Effect>, k: int)
  {
    forall i | 0 <= i < k && i < |t| :: t[i].Sampled?
  }

  predicate ProgressInUnitInterval(t: seq<Effect>)
  {
    forall i | 0 <= i < |t| && t[i].Sampled? :: 0.0 <= t[i].progress <= 1.0
  }

  /** The shape of the effects of one run: only samples while it runs; once
      stopped, samples followed by the stop effects, and a run that finished
      naturally sampled progress 1 just before stopping. */
  predicate Lifecycle(t: seq<Effect>, running: bool, hasCompletion: bool)
  {
    ProgressInUnitInterval(t) &&
    if running then
      OnlySamples(t)
    else
      var k := |t| - StopLength(hasCompletion);
      && k >= 0
      && SamplesBefore(t, k)
      && t[k] == LinkStopped
      && (hasCompletion ==> t[|t| - 1].Completed?)
      && (hasCompletion && t[|t| - 1] == Completed(true) ==> k >= 1 && t[k - 1] == Sampled(1.0))
  }

  /** The number of completion calls among the effects. */
  function CompletionCount(t: seq<Effect>): nat
  {
    if t == [] then 0
    else (if t[|t| - 1].Completed? then 1 else 0) + CompletionCount(t[..|t| - 1])
  }

  lemma {:induction false} CompletionCountOfSamples(t: seq<Effect>)
    requires OnlySamples(t)
    ensures CompletionCount(t) == 0
  {
    if t != [] {
      CompletionCountOfSamples(t[..|t| - 1]);
    }
  }

  lemma {:induction false} CompletionCountAppend(a: seq<Effect>, b: seq<Effect>)
    ensures CompletionCount(a + b) == CompletionCount(a) + CompletionCount(b)
  {
    if b != [] {
      assert (a + b)[..|a + b| - 1] == a + b[..|b| - 1];
      CompletionCountAppend(a, b[..|b| - 1]);
    } else {
      assert a + b == a;
    }
  }

  /** The completion fires at most once per run: never while it runs, and
      exactly once after it stopped when there is a completion. */
  lemma CompletionFiresAtMostOnce(t: seq<Effect>, running: bool, hasCompletion: bool)
    requires Lifecycle(t, running, hasCompletion)
    ensures CompletionCount(t) == if !running && hasCompletion then 1 else 0
    ensures CompletionCount(t) <= 1
  {
    if running {
      CompletionCountOfSamples(t);
    } else {
      var k := |t| - StopLength(hasCompletion);
      assert t == t[..k] + t[k..];
      assert OnlySamples(t[..k]);
      CompletionCountOfSamples(t[..k]);
      CompletionCountAppend(t[..k], t[k..]);
      if hasCompletion {
        assert t[k..] == [LinkStopped] + [t[|t| - 1]];
        CompletionCountAppend([LinkStopped], [t[|t| - 1]]);
      } else {
        assert t[k..] == [LinkStopped];
      }
    }
  }

  /** Once the link was released or the completion called, no sample follows. */
  lemma NoSampleAfterStop(t: seq<Effect>, running: bool, hasCompletion: bool)
    requires Lifecycle(t, running, hasCompletion)
    ensures forall i, j | 0 <= i < j < |t| && !t[i].Sampled? :: !t[j].Sampled?
  {
  }

  /** The two trace facts for one animation: whatever sequence of ticks and
      invalidations it went through, its completion fired at most once (and
      exactly once after the stop, when there is one), and no sample follows
      its stop. */
  lemma RunCompletesAtMostOnce(a: TimerAnimation)
    requires a.Valid()
    ensures CompletionCount(a.effects) == if !a.isRunning && a.hasCompletion then 1 else 0
    ensures CompletionCount(a.effects) <= 1
    ensures forall i, j | 0 <= i < j < |a.effects| && !a.effects[i].Sampled? :: !a.effects[j].Sampled?
  {
    CompletionFiresAtMostOnce(a.effects, a.isRunning, a.hasCompletion);
    NoSampleAfterStop(a.effects, a.isRunning, a.hasCompletion);
  }

  class TimerAnimation {
    const duration: real
    /** The animations closure; the only one the decelerator builds. */
    const animations: ScrollAnimations
    /** Whether an (optional) completion closure was given. */
    const hasCompletion: bool
    /** The media time of construction. */
    const firstFrameTimestamp: real
    var isRunning: bool
    /** The weak `displayLink` is non-nil: the link is registered and fires `step`. */
    var linkActive: bool
    /** The effects of this run so far. */
    var effects: seq<Effect>

    predicate Valid()
      reads this
    {
      linkActive == isRunning && Lifecycle(effects, isRunning, hasCompletion)
    }

    /** `init`: takes `now` as the first-frame timestamp, registers the display link. */
    constructor (duration: real, animations: ScrollAnimations, hasCompletion: bool, now: real)
      ensures Valid()
      ensures this.duration == duration && this.animations == animations
      ensures this.hasCompletion == hasCompletion && firstFrameTimestamp == now
      ensures isRunning && linkActive && effects == []
    {
      this.duration := duration;
      this.animations := animations;
      this.hasCompletion := hasCompletion;
      firstFrameTimestamp := now;
      isRunning := true;
      linkActive := true;
      effects := [];
    }

    /** `invalidate`: stops a running animation and reports `false`; on a
        stopped one does nothing. */
    method Invalidate()
      requires Valid()
      modifies this
      ensures Valid() && !isRunning && !linkActive
      ensures effects == if old(isRunning) then old(effects) + StopEffects(hasCompletion, false) else old(effects)
    {
      if !isRunning {
        return;
      }
      isRunning := false;
      StopDisplayLink();
      Complete(false);
      assert effects[..|old(effects)|] == old(effects);
    }

    /** `step`: the display-link callback at media time `now`. A stopped
        animation ignores it. A running one either samples progress 1, stops,
        releases the link and reports `true`, or samples the elapsed fraction
        and keeps running. */
    method Step(now: real)
      requires Valid() && now >= firstFrameTimestamp
      modifies this, animations.Footprint()
      ensures Valid()
      ensures !old(isRunning) ==> !isRunning && effects == old(effects) && unchanged(animations.Footprint())
      ensures old(isRunning) ==>
        match Decide(now - firstFrameTimestamp, duration)
        case Finish =>
          && !isRunning && !linkActive
          && effects == old(effects) + [Sampled(1.0)] + StopEffects(hasCompletion, true)
          && SampleWritten(1.0)
        case Progress(fraction) =>
          && isRunning && linkActive
          && effects == old(effects) + [Sampled(fraction)]
          && SampleWritten(fraction)
    {
      if !isRunning {
        return;
      }
      var elapsed := now - firstFrameTimestamp;
      if elapsed >= duration || duration == 0.0 {
        Sample(1.0);
        isRunning := false;
        StopDisplayLink();
        Complete(true);
        assert effects[..|old(effects)|] == old(effects);
      } else {
        Sample(elapsed / duration);
      }
    }

    /** The scroll view (if still there) holds the offset of a sample at
        `progress`, and nothing else of it changed. */
    twostate predicate SampleWritten(progress: real)
      reads this, animations.Footprint()
    {
      var v := animations.scrollView;
      v != null ==>
        && v.contentOffset == old(v.contentOffset).(y := animations.OffsetYAt(progress, v.contentHeight, v.frameHeight))
        && unchanged(v`contentHeight, v`frameHeight, v`isTracking, v`isDragging, v`isDecelerating)
    }

    /** Calls the animations closure and records the call. */
    method Sample(progress: real)
      modifies this, animations.Footprint()
      ensures effects == old(effects) + [Sampled(progress)]
      ensures isRunning == old(isRunning) && linkActive == old(linkActive)
      ensures SampleWritten(progress)
    {
      ApplyProgress(animations, progress);
      effects := effects + [Sampled(progress)];
    }

    /** `stopDisplayLink`: pauses and invalidates the link if there is one,
        and drops the reference. */
    method StopDisplayLink()
      modifies this
      ensures !linkActive && isRunning == old(isRunning)
      ensures effects == old(effects) + (if old(linkActive) then [LinkStopped] else [])
    {
      if linkActive {
        effects := effects + [LinkStopped];
      }
      linkActive := false;
    }

    /** `completion?(isFinished)`: calls the completion if there is one. */
    method Complete(isFinished: bool)
      modifies this
      ensures isRunning == old(isRunning) && linkActive == old(linkActive)
      ensures effects == old(effects) + (if hasCompletion then [Completed(isFinished)] else [])
    {
      if hasCompletion {
        effects := effects + [Completed(isFinished)];
      }
    }
  }
}
