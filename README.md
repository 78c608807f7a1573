# Dial watchface — a Dafny model

Dial is a Pebble watchface that shows the time of day as a scrolling strip. A
1366-pixel background image is repeated four times side by side, and over one
day the strip moves two image widths to the left past a fixed orange needle.
A tap slides a small date label ("WED 15") down from above the screen in
400 ms. It then holds still until 4 seconds after the tap and slides back up
in 200 ms. The slide-out's 4000 ms delay counts from the tap, so the label
rests fully shown for 3.6 seconds. A flag stops a second tap from
starting a second reveal while one is in progress.

This project models the three pieces of logic in `src/Dial.c` and proves
what they promise:

- **Clock projection** (`clock.dfy`, module `ClockProjection`). This covers
  minutes since midnight, the scroll offset `mins * 1366 * 2 / 1440`, and the
  four tile frames anchored on tile 1. The proofs cover:
  - bounds of the offset and its exact floor meaning;
  - the offset is monotonic and moves 1 or 2 pixels per minute;
  - tiles are edge to edge, cover the whole screen with no gap, and fit the
    16-bit fields of a `GRect`.
  - the frames are a function (`ClockTiles`) of hour and minute alone, so
    equal times give identical frames.
- **Date label** (`date_label.dfy`, module `DateLabel`). This covers the
  weekday table, the `%d` conversion and what `snprintf` leaves in the 7-byte
  buffer. The proofs show that:
  - every real date fits the buffer without being cut;
  - the label is exactly name, space and unpadded day;
  - the label can be decoded back to the weekday and the day.
- **Reveal guard** (`reveal.dfy`, module `DateReveal`, and `watchface.dfy`,
  module `Watchface`). The two animation records `animate_date` schedules are
  modelled as data. Their timing windows and the frames they move between are
  proved to be consistent. The class `Dial` holds the file's globals:
  - the background layer frames, as an `array`;
  - the label text and frame;
  - `dateIsAnimating`;
  - the log of scheduled animations, and how many of them have been reported
    stopped.

  `Dial.Valid()` is the guard's invariant: at most one reveal cycle is ever in
  flight, and the flag is set exactly while one is.
- **Geometry** (`geometry.dfy`, module `Geometry`). This covers the two screen
  profiles and the label's onscreen and offscreen frames. The profiles are
  rectangular 144×168 and round 180×180, which the C code picks with
  `PBL_IF_ROUND_ELSE`. Here the profile is a `Platform` value, so every result
  holds for both.

Two facts about the code shape the model:

- There are exactly four tiles, anchored on tile 1. Over a day the strip
  travels `2 * BACKGROUND_WIDTH` = 2732 pixels. At noon on a 144-pixel screen,
  tile 1 starts at -1294 and tile 2 at 72 (`NoonTiles`).
- There is no hold timer. Both animations are scheduled at the tap, and the
  hold comes from the slide-out's 4000 ms delay. The one piece of state is the
  `dateIsAnimating` flag. The stages of a reveal (sliding in, holding, sliding
  out, idle) are given only as a function of the time since the tap
  (`PhaseAt`), read off the two animation records.

Inputs come from the host as parameters:
- the time of day as `hour`, `minute`, `wday` and `mday`, as `localtime`
  fills `struct tm`;
- taps, as calls to `TapHandler`;
- the animation engine's stop notifications, as calls to `AnimationStopped`.

## Model

| member | source | states |
|---|---|---|
| `Geometry.Platform.Width` | src/Dial.c:4-4 | Defines SCREEN_WIDTH: 180 on the round watch and 144 otherwise |
| `Geometry.Platform.Height` | src/Dial.c:5-5 | Defines SCREEN_HEIGHT: 180 on the round watch and 168 otherwise |
| `Geometry.Screen` | src/Dial.c:89-90 | Defines the root layer's `bounds`: (0, 0, SCREEN_WIDTH, SCREEN_HEIGHT) |
| `Geometry.DateFrameOnscreen` | src/Dial.c:102-102 | Defines date_frame_onscreen: x = SCREEN_WIDTH/2 + 2, y = 30 on the round watch and 20 otherwise, width 67 on the round watch and SCREEN_WIDTH/2 − 2 otherwise, height 15 |
| `Geometry.DateFrameOffscreen` | src/Dial.c:103-103 | Defines date_frame_offscreen: the onscreen frame's x and size, with y = -50 |
| `Geometry.DateFramesPlacement` | src/Dial.c:102-103 | On both platforms the onscreen label frame lies wholly inside the root layer's bounds (0, 0, SCREEN_WIDTH, SCREEN_HEIGHT). The offscreen frame has the same x, width and height, sits higher, and has its bottom edge above y = 0, so it is disjoint from the screen. Both fit a 16-bit GRect |
| `Geometry.DateFramesConcrete` | src/Dial.c:102-103 | The onscreen frames are (74, 20, 70, 15) on the 144×168 screen and (92, 30, 67, 15) on the 180×180 screen; the offscreen frames' bottom edge is at -35 |
| `ClockProjection.MinutesSinceMidnight` | src/Dial.c:58-58 | A valid hour and minute give a minute of the day in [0, 1440) |
| `ClockProjection.MinutesRoundTrip` | src/Dial.c:58-58 | Hour and minute are recovered from the minute count by division and remainder by 60, so distinct times give distinct counts |
| `ClockProjection.BackgroundOffset` | src/Dial.c:57-59 | The offset lies in [0, 2730], strictly below two image widths (2732). It is the floor of mins·2732/1440: offset·1440 ≤ mins·2732 < (offset+1)·1440 |
| `ClockProjection.TimeOffset` | src/Dial.c:57-59 | Defines the scroll offset draw_clock computes for an hour and minute: BackgroundOffset of the minutes since midnight |
| `ClockProjection.OffsetAtMidnight` | src/Dial.c:57-59 | At 00:00 the offset is 0 and does not wrap negative |
| `ClockProjection.OffsetAtNoon` | src/Dial.c:57-59 | At 12:00 the offset is exactly one image width, 1366 |
| `ClockProjection.OffsetMonotonic` | src/Dial.c:57-59 | A later time of the same day never gives a smaller offset |
| `ClockProjection.OffsetStep` | src/Dial.c:59-59 | Each further minute moves the offset by at least 1 and at most 2 pixels |
| `ClockProjection.TileX` | src/Dial.c:62-62 | Defines the x of tile i: −offset + SCREEN_WIDTH/2 + 1366·(i − 1) |
| `ClockProjection.TileFrame` | src/Dial.c:62-62 | Defines the frame of tile i: (TileX, 0, 1366, SCREEN_HEIGHT) |
| `ClockProjection.ClockTiles` | src/Dial.c:57-62 | Defines the four frames draw_clock sets for an hour and minute. Being a function of the time alone, equal times give identical frames |
| `ClockProjection.Tiles` | src/Dial.c:61-62 | There are four tile frames. Each has y = 0, width 1366 and the screen's height. Each tile starts where the previous one ends, and tile 1 starts at SCREEN_WIDTH/2 minus the offset |
| `ClockProjection.CoveringTile` | src/Dial.c:61-62 | For every offset a time can produce and every screen column, there is a tile index in 0..3 whose frame contains that column |
| `ClockProjection.TilesCoverScreen` | src/Dial.c:61-62 | At every valid time of day, every column in [0, SCREEN_WIDTH) is covered by one of the four tiles |
| `ClockProjection.TilesOverhangScreen` | src/Dial.c:61-62 | Tile 0 starts at or left of SCREEN_WIDTH/2 − 1366 < 0. Tile 3 ends at or right of SCREEN_WIDTH/2 + 4098 − 2730 > SCREEN_WIDTH |
| `ClockProjection.TilesFitGRect` | src/Dial.c:62-62 | Every tile frame field fits the 16-bit GRect fields, so the conversion at the GRect call truncates nothing |
| `ClockProjection.NoonTiles` | src/Dial.c:57-62 | At noon on the 144-pixel screen, tile 1 starts at -1294 and tile 2 at 72 |
| `DateLabel.Digits` | src/Dial.c:69-69 | The %d digits of a natural number are all decimal digits. There is no leading zero and no padding. There is one digit below 10 and two digits from 10 to 99 |
| `DateLabel.DigitValue` | src/Dial.c:69-69 | The value of a digit character is below 10, and DigitChar maps it back to the same character |
| `DateLabel.FormatDecimal` | src/Dial.c:69-69 | %d of any int: it starts with '-' exactly when the value is negative. The rest is one or more digits, with no leading zero unless the digits are the single "0", that read back as the value's magnitude. So the string is fixed: no padding |
| `DateLabel.ParseDigitsOfDigits` | src/Dial.c:69-69 | Reading the formatted digits back gives the number: the conversion loses nothing |
| `DateLabel.Snprintf` | src/Dial.c:68-69 | What snprintf leaves in a buffer of n bytes is a prefix of the text shorter than n. It is the whole text when the text is shorter than n, and exactly its first n − 1 characters otherwise |
| `DateLabel.DateText` | src/Dial.c:68-69 | The label draw_date writes, for any day value. It is shorter than the 7-byte buffer and always begins with the weekday name and a space |
| `DateLabel.DateTextFits` | src/Dial.c:68-69 | For wday in 0..6 and mday in 1..31 the label is the weekday name, a space and the unpadded day. It is at most 6 characters, so buffer[7] holds it uncut |
| `DateLabel.DateTextDecodes` | src/Dial.c:21-29 | From a label: the first three characters match exactly the name of its weekday, a space follows, and the digits after it read back as the day of the month, with no leading zero |
| `DateLabel.WednesdayFifteenth` | src/Dial.c:21-29 | Weekday 3, day 15 gives "WED 15" |
| `DateReveal.SlideIn` | src/Dial.c:39-43 | Defines the slide-in record: offscreen → onscreen, 400 ms, no delay, ease-in-out, no stopped handler |
| `DateReveal.SlideOut` | src/Dial.c:45-53 | Defines the slide-out record: onscreen → offscreen, 200 ms after a 4000 ms delay, ease-in, with the stopped handler |
| `DateReveal.RevealCycle` | src/Dial.c:39-53 | A reveal schedules two animations. The slide-in starts at 0. The slide-out starts no earlier than the slide-in ends (4000 ≥ 400) and runs for a positive time. It starts where the slide-in ends and ends where the slide-in began. Only the slide-out has a stopped handler |
| `DateReveal.RevealCycleVisibility` | src/Dial.c:39-46 | The slide-in moves the label from wholly outside the root layer's bounds to wholly inside them. The slide-out returns it to wholly outside |
| `DateReveal.PhaseAt` | src/Dial.c:41-48 | After a tap the label slides in during [0, 400), holds during [400, 4000) and slides out during [4000, 4200). After that it is idle |
| `Watchface.Dial.AtMostOneCycleInFlight` | src/Dial.c:31-54 | Under the guard invariant, the animations in flight are none, one whole reveal cycle, or its slide-out alone. The flag is set exactly when something is in flight |
| `Watchface.Dial.constructor` | src/Dial.c:96-106 | After window load every background layer covers the screen bounds. The label has no text and rests at the offscreen frame, the flag is clear and nothing is scheduled |
| `Watchface.Dial.DrawClock` | src/Dial.c:56-65 | The loop leaves the four layer frames equal to the tile frames for the given time of day |
| `Watchface.Dial.DrawDate` | src/Dial.c:67-72 | The label text becomes what snprintf writes for the weekday name and day |
| `Watchface.Dial.TickHandler` | src/Dial.c:78-81 | A tick redraws the tiles and the date text and leaves the reveal state (flag, schedule, label frame) alone |
| `Watchface.Dial.AnimateDate` | src/Dial.c:35-54 | With the flag set, nothing changes and nothing is scheduled. With it clear, the flag is set and exactly the slide-in and the slide-out are appended to the schedule. The guard invariant is kept either way |
| `Watchface.Dial.TapHandler` | src/Dial.c:74-76 | A tap behaves exactly as animate_date |
| `Watchface.Dial.DateAnimationStoppedHandler` | src/Dial.c:31-33 | The handler clears the flag whatever its finished argument |
| `Watchface.Dial.AnimationStopped` | src/Dial.c:49-51 | When the oldest in-flight animation stops, the flag is cleared exactly if that animation carries the stopped handler, i.e. is the slide-out. A finished animation leaves the label at its target. So when the flag clears after a finished slide-out, the label is at the offscreen frame. The guard invariant is kept |

## Left out

- Creating, destroying and parenting windows, layers, bitmaps and text layers (src/Dial.c:88-122) is host plumbing. Only the frames those calls set are modelled.
- `init`, `deinit` and `main` (src/Dial.c:124-149) subscribe to services and run the event loop, which is not modelled. The initial `draw_clock` / `draw_date` in `init` is the same as one `TickHandler` call.
- The needle (src/Dial.c:83-86) is a rasterizer call whose height is the floating-point `SCREEN_HEIGHT * 0.6`.
- The animation engine is left out: interpolation, easing curves, timers and `animation_schedule`'s own bookkeeping. An animation is the record it is handed, and its completion is the external `AnimationStopped` event.
- AnimationStopped: a stop is assumed to concern the oldest animation in flight. This follows from the timing: the slide-in ends at 400 ms and the slide-out at 4200 ms, and a new cycle starts only after the slide-out has stopped. The engine's clock is not modelled.
- AnimationStopped: when an animation stops unfinished, the label keeps the last frame a finished animation gave it. In reality it would stay wherever the interpolation had reached. Nothing in the watchface unschedules an animation, so this case does not arise.
- `APP_LOG` (src/Dial.c:70) is I/O. Font and resource loading (src/Dial.c:95, 105) is I/O too.
- DrawClock and TickHandler require 0 ≤ hour < 24 and 0 ≤ minute < 60, as `localtime` supplies. With absurd `tm_hour` values the 32-bit product `tm_hour * 60` could overflow, and that is not modelled.
- DateTextFits and DateTextDecodes cover mday in 1..31, as `localtime` supplies. `DateText` itself is defined for every integer day, including the `-` sign and snprintf's truncation.
- Text alignment, colours and the background colour (src/Dial.c:107-110, 126) are not modelled.
- On the round watch, "inside the screen" means inside the 180×180 root-layer bounds, not the visible disc. The corner (158, 30) of the onscreen frame (92, 30, 67, 15) lies about 90.7 px from the centre (90, 90), just outside the disc of radius 90. Clipping by the display's shape is not modelled.
- Tile counts other than four are not modelled: the code has only the four-tile layout.
