/**
 * The time-to-scroll projection of draw_clock (src/Dial.c:56-65).
 *
 * The background is a strip of four copies of one 1366-pixel image laid side
 * by side. The time of day picks a horizontal offset into the strip: over a
 * full day the strip travels two image widths to the left.
 */
module ClockProjection {
  import opened Geometry

  const MINS_IN_DAY := 24 * 60

  /** Number of background layers (s_background_layers[4]). */
  const TILE_COUNT := 4

  /** The largest offset any time of day produces: 1439 * 2732 / 1440. */
  const MAX_OFFSET := 2730

  /** A time of day as localtime reports it in tm_hour and tm_min. */
  predicate ValidTime(hour: int, minute: int) {
    0 <= hour < 24 && 0 <= minute < 60
  }

  /** Minutes since midnight: a minute of the day. */
  function MinutesSinceMidnight(hour: int, minute: int): (m: int)
    requires ValidTime(hour, minute)
    ensures 0 <= m < MINS_IN_DAY
  {
    hour * 60 + minute
  }

  /**
   * Hour and minute can be read back from the minute count, so distinct
   * times of day give distinct minute counts.
   */
  lemma MinutesRoundTrip(hour: int, minute: int)
    requires ValidTime(hour, minute)
    ensures MinutesSinceMidnight(hour, minute) / 60 == hour
    ensures MinutesSinceMidnight(hour, minute) % 60 == minute
  {
  }

  /**
   * The horizontal scroll offset for `mins` minutes after midnight:
   * mins * BACKGROUND_WIDTH * 2 / 1440 in 64-bit arithmetic. Every operand is
   * non-negative and far below 2^63, so C's truncating division is the floor
   * and nothing overflows. The result is the largest whole number of pixels
   * not beyond the exact proportion of two image widths.
   */
  function BackgroundOffset(mins: int): (offset: int)
    requires 0 <= mins < MINS_IN_DAY
    ensures 0 <= offset <= MAX_OFFSET < 2 * BACKGROUND_WIDTH
    ensures offset * MINS_IN_DAY <= mins * (2 * BACKGROUND_WIDTH) < (offset + 1) * MINS_IN_DAY
  {
    mins * BACKGROUND_WIDTH * 2 / MINS_IN_DAY
  }

  /** The offset for a time of day. */
  function TimeOffset(hour: int, minute: int): int
    requires ValidTime(hour, minute)
  {
    BackgroundOffset(MinutesSinceMidnight(hour, minute))
  }

  /** Midnight is the baseline: the offset does not wrap below zero. */
  lemma OffsetAtMidnight()
    ensures TimeOffset(0, 0) == 0
  {
  }

  /** Noon is exactly one image width into the strip. */
  lemma OffsetAtNoon()
    ensures TimeOffset(12, 0) == BACKGROUND_WIDTH
  {
  }

  /** A later time of the same day never scrolls the strip back. */
  lemma OffsetMonotonic(h1: int, m1: int, h2: int, m2: int)
    requires ValidTime(h1, m1) && ValidTime(h2, m2)
    requires h1 < h2 || (h1 == h2 && m1 <= m2)
    ensures TimeOffset(h1, m1) <= TimeOffset(h2, m2)
  {
  }

  /**
   * Each minute moves the strip by one or two pixels (2732 / 1440 lies
   * between 1 and 2), so the scroll never stalls and never jumps.
   */
  lemma OffsetStep(mins: int)
    requires 0 <= mins < MINS_IN_DAY - 1
    ensures 1 <= BackgroundOffset(mins + 1) - BackgroundOffset(mins) <= 2
  {
  }

  /** The x coordinate of tile i, anchored so that tile 1 starts at mid-screen at midnight. */
  function TileX(p: Platform, offset: int, i: int): int {
    -offset + p.Width() / 2 + BACKGROUND_WIDTH * (i - 1)
  }

  /** The frame of tile i: full screen height, one image wide. */
  function TileFrame(p: Platform, offset: int, i: int): Rect {
    Rect(TileX(p, offset, i), 0, BACKGROUND_WIDTH, p.Height())
  }

  /**
   * The four tile frames for an offset. They lie on the screen's top edge,
   * span its height and are placed edge to edge, tile 1 starting at
   * mid-screen shifted left by the offset.
   */
  function Tiles(p: Platform, offset: int): (ts: seq<Rect>)
    ensures |ts| == TILE_COUNT
    ensures forall i :: 0 <= i < |ts| ==> ts[i].y == 0 && ts[i].w == BACKGROUND_WIDTH && ts[i].h == p.Height()
    ensures forall i :: 0 <= i < |ts| - 1 ==> ts[i + 1].x == ts[i].Right()
    ensures ts[1].x == p.Width() / 2 - offset
  {
    seq(TILE_COUNT, i => TileFrame(p, offset, i))
  }

  /** The frames draw_clock gives the background layers at a time of day. */
  function ClockTiles(p: Platform, hour: int, minute: int): seq<Rect>
    requires ValidTime(hour, minute)
  {
    Tiles(p, TimeOffset(hour, minute))
  }

  /**
   * The tile that shows screen column x: for every offset a time can produce
   * and every column on the screen there is one.
   */
  function CoveringTile(p: Platform, offset: int, x: int): (i: int)
    requires 0 <= offset <= MAX_OFFSET
    requires 0 <= x < p.Width()
    ensures 0 <= i < TILE_COUNT
    ensures Tiles(p, offset)[i].x <= x < Tiles(p, offset)[i].Right()
  {
    (x - TileX(p, offset, 0)) / BACKGROUND_WIDTH
  }

  /** Some tile of `ts` shows screen column x. */
  predicate ColumnCovered(ts: seq<Rect>, x: int) {
    exists i :: 0 <= i < |ts| && ts[i].x <= x < ts[i].Right()
  }

  /** At every time of day the tiles leave no screen column uncovered. */
  lemma TilesCoverScreen(p: Platform, hour: int, minute: int)
    requires ValidTime(hour, minute)
    ensures forall x :: 0 <= x < p.Width() ==> ColumnCovered(ClockTiles(p, hour, minute), x)
  {
    var offset := TimeOffset(hour, minute);
    var ts := Tiles(p, offset);
    forall x | 0 <= x < p.Width()
      ensures ColumnCovered(ts, x)
    {
      var i := CoveringTile(p, offset, x);
      assert ts[i].x <= x < ts[i].Right();
    }
  }

  /**
   * The strip overhangs both screen edges: tile 0 starts at or left of
   * SCREEN_WIDTH/2 - 1366 and tile 3 ends at or right of
   * SCREEN_WIDTH/2 + 4098 - 2730.
   */
  lemma TilesOverhangScreen(p: Platform, hour: int, minute: int)
    requires ValidTime(hour, minute)
    ensures var ts := ClockTiles(p, hour, minute);
      ts[0].x <= p.Width() / 2 - BACKGROUND_WIDTH < 0 &&
      ts[3].Right() >= p.Width() / 2 + 3 * BACKGROUND_WIDTH - MAX_OFFSET > p.Width()
  {
  }

  /**
   * GRect stores 16-bit coordinates; no tile frame at any time of day is
   * truncated by the conversion.
   */
  lemma TilesFitGRect(p: Platform, hour: int, minute: int)
    requires ValidTime(hour, minute)
    ensures forall i :: 0 <= i < TILE_COUNT ==> ClockTiles(p, hour, minute)[i].FitsGRect()
  {
  }

  /**
   * A 144-pixel screen at noon: the anchor tile 1 starts at 72 - 1366 = -1294
   * and tile 2 at mid-screen, 72.
   */
  lemma NoonTiles()
    ensures ClockTiles(Rectangular, 12, 0)[1].x == -1294
    ensures ClockTiles(Rectangular, 12, 0)[2].x == 72
  {
  }
}
