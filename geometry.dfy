/**
 * Screen profiles and rectangles of the Dial watchface.
 *
 * The watchface is built for two Pebble display shapes; which one is chosen
 * at compile time decides the screen size (src/Dial.c:4-5) and the size of
 * the date label's frames (src/Dial.c:102-103). Here the choice is a value
 * of type Platform, so every fact below is proved for both shapes at once.
 */
module Geometry {

  /** The two display shapes the watchface is compiled for. */
  datatype Platform = Rectangular | Round
  {
    /** SCREEN_WIDTH */
    function Width(): int {
      if Round? then 180 else 144
    }

    /** SCREEN_HEIGHT */
    function Height(): int {
      if Round? then 180 else 168
    }
  }

  /** Width in pixels of one background tile (BACKGROUND_WIDTH). */
  const BACKGROUND_WIDTH := 1366

  /** A Pebble GRect: origin (x, y) and size (w, h). */
  datatype Rect = Rect(x: int, y: int, w: int, h: int)
  {
    function Right(): int { x + w }
    function Bottom(): int { y + h }

    /** Every pixel of this rectangle lies inside `outer`. */
    predicate Inside(outer: Rect) {
      outer.x <= x && Right() <= outer.Right() && outer.y <= y && Bottom() <= outer.Bottom()
    }

    /** No pixel of this rectangle lies inside `outer`. */
    predicate Disjoint(outer: Rect) {
      Right() <= outer.x || outer.Right() <= x || Bottom() <= outer.y || outer.Bottom() <= y
    }

    /** The fields fit the 16-bit integers a GRect is made of. */
    predicate FitsGRect() {
      FitsInt16(x) && FitsInt16(y) && FitsInt16(w) && FitsInt16(h)
    }
  }

  predicate FitsInt16(v: int) {
    -0x8000 <= v < 0x8000
  }

  /** The bounds of the window's root layer: the whole screen. */
  function Screen(p: Platform): Rect {
    Rect(0, 0, p.Width(), p.Height())
  }

  /**
   * The frame the date label occupies while it is shown: to the right of the
   * needle, near the top of the screen.
   */
  function DateFrameOnscreen(p: Platform): Rect {
    Rect(p.Width() / 2 + 2, if p.Round? then 30 else 20, if p.Round? then 67 else p.Width() / 2 - 2, 15)
  }

  /** The frame the date label rests at while it is hidden. */
  function DateFrameOffscreen(p: Platform): Rect {
    var on := DateFrameOnscreen(p);
    Rect(on.x, -50, on.w, on.h)
  }

  /**
   * On both platforms the onscreen frame lies wholly inside the root layer's bounds and
   * the offscreen frame is the same rectangle moved up until its bottom edge
   * is at -35, wholly above the screen; both fit a GRect.
   */
  lemma DateFramesPlacement(p: Platform)
    ensures var on, off := DateFrameOnscreen(p), DateFrameOffscreen(p);
      on.Inside(Screen(p)) && on.FitsGRect() &&
      off.x == on.x && off.w == on.w && off.h == on.h && off.y < on.y &&
      off.Bottom() < 0 && off.Disjoint(Screen(p)) && off.FitsGRect()
  {
    assert p.Width() / 2 == if p.Round? then 90 else 72;
  }

  lemma DateFramesConcrete()
    ensures DateFrameOnscreen(Rectangular) == Rect(74, 20, 70, 15)
    ensures DateFrameOnscreen(Round) == Rect(92, 30, 67, 15)
    ensures DateFrameOffscreen(Rectangular).Bottom() == DateFrameOffscreen(Round).Bottom() == -35
  {
  }
}
