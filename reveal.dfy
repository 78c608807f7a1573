/**
 * The two frame animations animate_date schedules on the date label
 * (src/Dial.c:35-54): the slide-in and the delayed slide-out that carries
 * the stopped handler. The animation engine that plays them is outside the
 * model; an animation here is the record the engine is handed.
 */
module DateReveal {
  import opened Geometry

  /** DATE_ANIMATION_DURATION_IN, in milliseconds. */
  const DURATION_IN := 400
  /** DATE_ANIMATION_DURATION_OUT, in milliseconds. */
  const DURATION_OUT := 200
  /** DATE_VISIBILITY_DURATION: the slide-out's delay, in milliseconds. */
  const VISIBILITY_DURATION := 4000

  /** Pebble's AnimationCurve values. */
  datatype Curve = Linear | EaseIn | EaseOut | EaseInOut

  /**
   * A scheduled property animation of the label's frame: it starts `delay`
   * milliseconds after scheduling and runs for `duration`.
   */
  datatype Animation = Animation(from: Rect, to: Rect, duration: nat, delay: nat, curve: Curve, hasStoppedHandler: bool)
  {
    function Start(): nat { delay }
    function End(): nat { delay + duration }
  }

  /** The animation created at src/Dial.c:39-43. */
  function SlideIn(p: Platform): Animation {
    Animation(DateFrameOffscreen(p), DateFrameOnscreen(p), DURATION_IN, 0, EaseInOut, false)
  }

  /** The animation created at src/Dial.c:45-53. */
  function SlideOut(p: Platform): Animation {
    Animation(DateFrameOnscreen(p), DateFrameOffscreen(p), DURATION_OUT, VISIBILITY_DURATION, EaseIn, true)
  }

  /**
   * One reveal cycle, in the order animate_date schedules it. The slide-out
   * starts only after the slide-in has ended, takes the label from where the
   * slide-in left it back to where it started, and ends last. Only the
   * slide-out carries a stopped handler.
   */
  function RevealCycle(p: Platform): (c: seq<Animation>)
    ensures |c| == 2
    ensures c[1].from == c[0].to && c[1].to == c[0].from
    ensures c[0].Start() == 0 && c[0].End() <= c[1].Start() && c[1].Start() < c[1].End()
    ensures !c[0].hasStoppedHandler && c[1].hasStoppedHandler
  {
    [SlideIn(p), SlideOut(p)]
  }

  /**
   * The slide-in takes the label from wholly above the screen to wholly inside
   * the root layer's bounds, and the slide-out returns it to wholly above them.
   */
  lemma RevealCycleVisibility(p: Platform)
    ensures var c := RevealCycle(p);
      c[0].from.Disjoint(Screen(p)) && c[0].to.Inside(Screen(p)) && c[1].to.Disjoint(Screen(p))
  {
    DateFramesPlacement(p);
  }

  /** Where a reveal cycle stands, by time since the trigger. */
  datatype Phase = SlidingIn | Holding | SlidingOut | Idle

  /**
   * The phase `t` milliseconds after the trigger, read off the cycle's two
   * animation windows: sliding in during [0, 400), holding the label still
   * during [400, 4000), sliding out during [4000, 4200), idle afterwards.
   */
  function PhaseAt(p: Platform, t: nat): (ph: Phase)
    ensures t < DURATION_IN <==> ph == SlidingIn
    ensures DURATION_IN <= t < VISIBILITY_DURATION <==> ph == Holding
    ensures VISIBILITY_DURATION <= t < VISIBILITY_DURATION + DURATION_OUT <==> ph == SlidingOut
    ensures VISIBILITY_DURATION + DURATION_OUT <= t <==> ph == Idle
  {
    var c := RevealCycle(p);
    if t < c[0].End() then SlidingIn
    else if t < c[1].Start() then Holding
    else if t < c[1].End() then SlidingOut
    else Idle
  }
}
