/**
 * The watchface's mutable state and the handlers that update it
 * (src/Dial.c:11-19, 31-81, 102-106).
 *
 * One Dial object stands for the file's globals: the frames of the four
 * background layers, the date label's text and frame, the dateIsAnimating
 * flag, and what has been handed to the animation engine. The engine is
 * represented by the log of animations scheduled so far and the number of
 * them it has reported stopped; the animations still in flight are the
 * rest of the log.
 */
module Watchface {
  import opened Geometry
  import opened ClockProjection
  import opened DateLabel
  import opened DateReveal

  class Dial {
    const platform: Platform
    /** The frames of s_background_layers[0..3]. */
    const backgroundLayers: array<Rect>
    /** date_frame_onscreen and date_frame_offscreen, fixed at window load. */
    const dateFrameOnscreen: Rect
    const dateFrameOffscreen: Rect

    /** The text of s_date_layer. */
    var dateText: string
    /** The frame of s_date_layer as the last finished animation left it. */
    var dateFrame: Rect
    var dateIsAnimating: bool
    /** Every animation ever passed to animation_schedule, oldest first. */
    var scheduled: seq<Animation>
    /** How many of `scheduled` the engine has reported stopped. */
    var stoppedCount: nat

    /**
     * The reveal guard's invariant: the log is a sequence of whole reveal
     * cycles, all of them finished except possibly the last, and the flag
     * is set exactly while some animation of that last cycle is in flight.
     */
    ghost predicate Valid()
      reads this
    {
      && backgroundLayers.Length == TILE_COUNT
      && dateFrameOnscreen == DateFrameOnscreen(platform)
      && dateFrameOffscreen == DateFrameOffscreen(platform)
      && |scheduled| % 2 == 0
      && (forall k :: 0 <= k < |scheduled| ==> scheduled[k] == RevealCycle(platform)[k % 2])
      && stoppedCount <= |scheduled| <= stoppedCount + 2
      && (dateIsAnimating <==> stoppedCount < |scheduled|)
    }

    /** The animations scheduled and not yet reported stopped. */
    ghost function InFlight(): seq<Animation>
      reads this
      requires Valid()
    {
      scheduled[stoppedCount..]
    }

    /**
     * At most one reveal cycle is in flight: nothing, the whole cycle, or
     * its slide-out alone; and the flag says whether anything is.
     */
    lemma AtMostOneCycleInFlight()
      requires Valid()
      ensures var c := RevealCycle(platform);
        InFlight() == [] || InFlight() == c || InFlight() == c[1..]
      ensures dateIsAnimating <==> InFlight() != []
    {
    }

    /**
     * main_window_load's part of the state: every background layer covers
     * the window bounds, the label rests at the offscreen frame with no
     * text, and nothing is animating.
     */
    constructor (p: Platform)
      ensures Valid() && platform == p && fresh(backgroundLayers)
      ensures forall i :: 0 <= i < TILE_COUNT ==> backgroundLayers[i] == Screen(p)
      ensures dateText == "" && dateFrame == dateFrameOffscreen
      ensures !dateIsAnimating && scheduled == [] && stoppedCount == 0
    {
      platform := p;
      backgroundLayers := new Rect[TILE_COUNT](_ => Screen(p));
      dateFrameOnscreen := DateFrameOnscreen(p);
      dateFrameOffscreen := DateFrameOffscreen(p);
      dateText := "";
      dateFrame := DateFrameOffscreen(p);
      dateIsAnimating := false;
      scheduled := [];
      stoppedCount := 0;
    }

    /** draw_clock: lay the four background tiles out for the time of day. */
    method DrawClock(hour: int, minute: int)
      requires Valid() && ValidTime(hour, minute)
      modifies backgroundLayers
      ensures backgroundLayers[..] == ClockTiles(platform, hour, minute)
    {
      var offset := BackgroundOffset(MinutesSinceMidnight(hour, minute));
      for i := 0 to TILE_COUNT
        invariant forall k :: 0 <= k < i ==> backgroundLayers[k] == TileFrame(platform, offset, k)
      {
        backgroundLayers[i] := TileFrame(platform, offset, i);
      }
    }

    /** draw_date: set the label's text from the weekday and day of month. */
    method DrawDate(wday: int, mday: int)
      requires Valid() && 0 <= wday < |DAYS_OF_WEEK|
      modifies this`dateText
      ensures Valid() && dateText == DateText(wday, mday)
    {
      dateText := DateText(wday, mday);
    }

    /** tick_handler: redraw the clock and the date; the reveal is untouched. */
    method TickHandler(hour: int, minute: int, wday: int, mday: int)
      requires Valid() && ValidTime(hour, minute) && 0 <= wday < |DAYS_OF_WEEK|
      modifies this, backgroundLayers
      ensures Valid()
      ensures backgroundLayers[..] == ClockTiles(platform, hour, minute)
      ensures dateText == DateText(wday, mday)
      ensures dateFrame == old(dateFrame) && dateIsAnimating == old(dateIsAnimating)
      ensures scheduled == old(scheduled) && stoppedCount == old(stoppedCount)
    {
      DrawClock(hour, minute);
      DrawDate(wday, mday);
    }

    /**
     * animate_date: ignored while a reveal is in flight; otherwise raise the
     * flag and schedule the slide-in and the delayed slide-out.
     */
    method AnimateDate()
      requires Valid()
      modifies this
      ensures Valid()
      ensures dateIsAnimating
      ensures old(dateIsAnimating) ==> scheduled == old(scheduled)
      ensures !old(dateIsAnimating) ==> scheduled == old(scheduled) + RevealCycle(platform)
      ensures stoppedCount == old(stoppedCount)
      ensures dateText == old(dateText) && dateFrame == old(dateFrame)
    {
      if dateIsAnimating {
        return;
      }
      dateIsAnimating := true;

      var slideIn := Animation(dateFrameOffscreen, dateFrameOnscreen, DURATION_IN, 0, EaseInOut, false);
      scheduled := scheduled + [slideIn];

      var slideOut := Animation(dateFrameOnscreen, dateFrameOffscreen, DURATION_OUT, VISIBILITY_DURATION, EaseIn, true);
      scheduled := scheduled + [slideOut];
    }

    /** tap_handler: every tap asks for a reveal. */
    method TapHandler()
      requires Valid()
      modifies this
      ensures Valid()
      ensures dateIsAnimating
      ensures old(dateIsAnimating) ==> scheduled == old(scheduled)
      ensures !old(dateIsAnimating) ==> scheduled == old(scheduled) + RevealCycle(platform)
      ensures stoppedCount == old(stoppedCount)
      ensures dateText == old(dateText) && dateFrame == old(dateFrame)
    {
      AnimateDate();
    }

    /**
     * date_animation_stopped_handler: lower the flag, whether or not the
     * animation ran to its end. Only AnimationStopped calls it, when the
     * stopped animation carries this handler, as only the engine calls it in
     * the source; on its own it does not keep Valid().
     */
    method DateAnimationStoppedHandler(finished: bool)
      modifies this`dateIsAnimating
      ensures !dateIsAnimating
    {
      dateIsAnimating := false;
    }

    /**
     * The engine reports that the oldest in-flight animation has stopped.
     * (The slide-in of a cycle ends at 400 ms, its slide-out at 4200 ms,
     * and a cycle starts only after the previous one stopped, so stops
     * arrive in scheduling order.) A finished animation leaves the label
     * at its target frame; the stopped handler runs if the animation has
     * one. The flag falls exactly when the slide-out stops, and then the
     * label is back where it rests hidden.
     */
    method AnimationStopped(finished: bool)
      requires Valid() && stoppedCount < |scheduled|
      modifies this
      ensures Valid()
      ensures scheduled == old(scheduled) && stoppedCount == old(stoppedCount) + 1
      ensures dateIsAnimating <==> !old(scheduled[stoppedCount]).hasStoppedHandler
      ensures finished ==> dateFrame == old(scheduled[stoppedCount]).to
      ensures !finished ==> dateFrame == old(dateFrame)
      ensures finished && !dateIsAnimating ==> dateFrame == dateFrameOffscreen
      ensures dateText == old(dateText)
    {
      var stopped := scheduled[stoppedCount];
      assert stopped == RevealCycle(platform)[stoppedCount % 2];
      stoppedCount := stoppedCount + 1;
      if finished {
        dateFrame := stopped.to;
      }
      if stopped.hasStoppedHandler {
        DateAnimationStoppedHandler(finished);
      }
    }
  }

  /**
   * An example run of the full reveal cycle, not a model of any source
   * function. On a rectangular watch: a tap starts the cycle, a second
   * tap during it is ignored, the slide-in stopping keeps the guard up, and
   * the slide-out stopping lowers it with the label hidden again.
   */
  method RevealScenario()
  {
    var dial := new Dial(Rectangular);
    dial.TapHandler();
    assert dial.dateIsAnimating && |dial.scheduled| == 2;
    dial.TapHandler();
    assert |dial.scheduled| == 2;
    dial.AnimationStopped(true);
    assert dial.dateIsAnimating && dial.dateFrame == dial.dateFrameOnscreen;
    dial.TapHandler();
    assert |dial.scheduled| == 2;
    dial.AnimationStopped(true);
    assert !dial.dateIsAnimating && dial.dateFrame == DateFrameOffscreen(Rectangular);
    dial.TapHandler();
    assert |dial.scheduled| == 4;
  }
}
