# Ping-pong clock usermod, modelled in Dafny

The WLED usermod `PingPongClockUsermod` turns an LED strip wired behind a
wall of ping-pong balls into a clock. Before every frame is shown, WLED
calls `handleOverlayDraw`. It paints four seven-segment-like digits and
a two-LED colon over the frame. Each digit is drawn by `drawNumber`, from a
10×10 table of LED offsets (`numbers`), relative to the first LED of the
digit's 20-LED panel. `loop` blinks the colon about once a second, driven by
`millis()`. When a DS3231 real-time clock is fitted and enabled, `setup`
brings the chip up and seeds WLED's clock (`toki`) from it. After that,
`loop` writes toki's time back to the chip on each new second whenever the
two disagree.

The project has five modules, one per file:

- `Host` (`host.dfy`): the collaborators the usermod calls but does not own.
  These are the strip, the DS3231 driver, toki, the pin manager and the I2C
  bus. Each is a small class holding the values it reports and a log of the
  calls made on it. `unsigned long` and `uint32_t` are the subset type `U32`.
- `Glyphs` (`glyphs.dfy`): the digit table (`Glyphs.Numbers`, rows
  `Row0`..`Row9` as in the source) and its shape. A decoder
  `ReadDigit` tells the ten glyphs apart by probing a few LEDs; lemmas prove
  every row reads back as its own digit.
- `Overlay` (`overlay.dfy`): the layout constants and the exact sequence of
  `setPixelColor` calls one overlay draw makes, as pure functions. Lemmas
  prove what those calls light up.
- `RtcSync` (`rtc_sync.dfy`): the blink arithmetic with its 32-bit
  wrap-around, the RTC correction made by `loop`, and the outcomes of
  `setup`, as pure functions. Lemmas cover single calls; for the blink they
  also cover whole runs of `loop`. No lemma iterates the RTC correction over
  a run.
- `Usermod` (`usermod.dfy`): the class `PingPongClockUsermod`, with its fields
  and the methods `DrawNumber`, `HandleOverlayDraw`, `Setup` and `Loop`. Each
  method is proved against the functions above.

The model follows the code where the code and its comments disagree:

- The comment on `baseM` calls it the ones place of the minutes. The code
  draws the tens of the minute there and the ones at `baseMM`.
- `setup` reserves `sclPin` twice and never reserves `sdaPin`.
- `rtcEnabled` starts false and nothing in the file sets it. The model keeps
  it as a field, so `Setup` and `Loop` are proved for both values.

`DrawNumber` picks the glyph row. It passes the row to `PaintRow`, which
holds `drawNumber`'s ten-step loop.

## Model

| member | source | states |
|---|---|---|
| `Glyphs.LitOffsets` | usermods/usermod_v2_ping_pong_clock/usermod_v2_ping_pong_clock.h:152-156 | The entries of a row that `drawNumber` lights: at most one per slot, and never the -1 sentinel. |
| `Glyphs.GlyphRowShape` | usermods/usermod_v2_ping_pong_clock/usermod_v2_ping_pong_clock.h:44-56 | Every row of `numbers` has ten slots. Each slot is -1 or an offset 0..19. The -1 slots form a trailing run, and the lit offsets rise strictly, so no LED is listed twice. Each row reads back as its own digit. |
| `Glyphs.EightLightsAll` | usermods/usermod_v2_ping_pong_clock/usermod_v2_ping_pong_clock.h:54 | The row for 8 uses all ten slots: nothing in it is a sentinel. |
| `Glyphs.GlyphLightsFive` | usermods/usermod_v2_ping_pong_clock/usermod_v2_ping_pong_clock.h:44-56 | Every digit lights at least five LEDs. |
| `Glyphs.LitOffsetsMembers` | usermods/usermod_v2_ping_pong_clock/usermod_v2_ping_pong_clock.h:154 | The offsets `drawNumber` lights are exactly the row's entries greater than -1. |
| `Glyphs.LitOffsetsPrefix` | usermods/usermod_v2_ping_pong_clock/usermod_v2_ping_pong_clock.h:152-156 | In a well-formed row, the lit offsets are the row's slots before the first -1, in order, and every slot after them is -1. |
| `Glyphs.GlyphReadsBack` | usermods/usermod_v2_ping_pong_clock/usermod_v2_ping_pong_clock.h:44-56 | The font is unambiguous. For every digit, the decoder applied to the LEDs `drawNumber` lights returns that digit, so no two digits share a glyph. |
| `Overlay.Tens` | usermods/usermod_v2_ping_pong_clock/usermod_v2_ping_pong_clock.h:167 | `(v / 10) % 10` is a digit, and for a value below 100 it is `v / 10`. |
| `Overlay.Ones` | usermods/usermod_v2_ping_pong_clock/usermod_v2_ping_pong_clock.h:168-170 | `v % 10` is a digit that differs from v by a multiple of ten, and is v itself below ten. |
| `Overlay.DigitsRecompose` | usermods/usermod_v2_ping_pong_clock/usermod_v2_ping_pong_clock.h:167-170 | The tens and ones that are drawn give the value back for any value below 100. |
| `Overlay.PaintRowExact` | usermods/usermod_v2_ping_pong_clock/usermod_v2_ping_pong_clock.h:152-156 | The loop over a well-formed row writes exactly the slots before the first -1, at `base + entry`, in row order. |
| `Overlay.PaintLitStep` | usermods/usermod_v2_ping_pong_clock/usermod_v2_ping_pong_clock.h:154-155 | One step of the loop: slot i adds one write at `entry + base` if the entry is above -1, and nothing otherwise. |
| `Overlay.DigitWrites` | usermods/usermod_v2_ping_pong_clock/usermod_v2_ping_pong_clock.h:150-157 | The writes of `drawNumber(base, d)`: every digit makes between five and ten writes. |
| `Overlay.DigitWritesExact` | usermods/usermod_v2_ping_pong_clock/usermod_v2_ping_pong_clock.h:150-157 | `drawNumber(base, d)` makes at most ten writes. Write i goes to `base + numbers[d][i]` in the configured colour. The slots after the last write are all -1. |
| `Overlay.DigitWritesInPanel` | usermods/usermod_v2_ping_pong_clock/usermod_v2_ping_pong_clock.h:150-157 | `drawNumber(base, d)` stays inside LEDs base..base+19. Its LEDs rise strictly, so none is written twice, and all use one colour. |
| `Overlay.DrawOneAtEight` | usermods/usermod_v2_ping_pong_clock/usermod_v2_ping_pong_clock.h:150-157 | `drawNumber(8, 1)` lights LEDs 21, 22, 23, 26 and 27, in that order. |
| `Overlay.LayoutBlocks` | usermods/usermod_v2_ping_pong_clock/usermod_v2_ping_pong_clock.h:36-40 | The four digit panels [8,27], [36,55], [78,97] and [106,125] and the colon LEDs 64 and 65 are pairwise disjoint. Writes confined to them never touch an LED twice. |
| `Overlay.OverlayNoPixelTwice` | usermods/usermod_v2_ping_pong_clock/usermod_v2_ping_pong_clock.h:159-172 | One overlay draw writes no LED twice and stays within LEDs 8..125. Every write uses `RGBW32(colorR, colorG, colorB, 0)`. |
| `Overlay.ColonWrites` | usermods/usermod_v2_ping_pong_clock/usermod_v2_ping_pong_clock.h:162-166 | With the colon on, two writes, to LEDs 64 and 65 in that order, in the given colour; with it off, none. |
| `Overlay.OverlayWrites` | usermods/usermod_v2_ping_pong_clock/usermod_v2_ping_pong_clock.h:159-172 | The writes of one overlay draw: nothing exactly when the clock is disabled; when enabled, between 20 and 42 writes. |
| `Overlay.OverlayColon` | usermods/usermod_v2_ping_pong_clock/usermod_v2_ping_pong_clock.h:162-166 | LEDs 64 and 65 are written exactly when the clock is enabled and the colon is on. They are then the first two writes. |
| `Overlay.OverlayPanels` | usermods/usermod_v2_ping_pong_clock/usermod_v2_ping_pong_clock.h:167-170 | Each panel shows exactly the glyph of its digit. The panel at 36 shows the hour's tens and 8 the hour's ones; 78 shows the minute's tens and 106 its ones. |
| `Overlay.ReadTimeOfDigits` | usermods/usermod_v2_ping_pong_clock/usermod_v2_ping_pong_clock.h:167-170 | Panels that read back as the tens and ones of an hour below 24 and a minute below 60 show that time. |
| `Overlay.OverlayShowsTime` | usermods/usermod_v2_ping_pong_clock/usermod_v2_ping_pong_clock.h:159-172 | For every hour 0..23 and minute 0..59, the time read back off the LEDs of an enabled overlay is hour:minute. |
| `Overlay.FourteenOhSeven` | usermods/usermod_v2_ping_pong_clock/usermod_v2_ping_pong_clock.h:167-170 | At 14:07 the panels show the glyphs 1 and 4 for the hour and 0 and 7 for the minute, which read back as 14:07. |
| `RtcSync.Elapsed` | usermods/usermod_v2_ping_pong_clock/usermod_v2_ping_pong_clock.h:87 | `millis() - lastTime` in unsigned long arithmetic is the 32-bit value that takes lastTime to millis() modulo 2^32. Without a wrap it is the plain difference; across a wrap it is `2^32 - last + now`. |
| `RtcSync.ElapsedUnique` | usermods/usermod_v2_ping_pong_clock/usermod_v2_ping_pong_clock.h:87 | No other 32-bit value takes lastTime to millis(). |
| `RtcSync.BlinkStep` | usermods/usermod_v2_ping_pong_clock/usermod_v2_ping_pong_clock.h:87-91 | The colon flips exactly when more than 1000 ms have elapsed, and lastTime then becomes the reading. Otherwise nothing changes. |
| `RtcSync.BlinkStepIdempotent` | usermods/usermod_v2_ping_pong_clock/usermod_v2_ping_pong_clock.h:87-91 | A second pass at the same millis() reading changes nothing, so the colon flips at most once per reading. |
| `RtcSync.BlinkAcrossWrap` | usermods/usermod_v2_ping_pong_clock/usermod_v2_ping_pong_clock.h:87 | Across a millis() overflow (lastTime 0xFFFFFF00, reading 2000), 2256 ms have elapsed and the colon flips. |
| `RtcSync.TogglesSpaced` | usermods/usermod_v2_ping_pong_clock/usermod_v2_ping_pong_clock.h:87-91 | Over any run of `loop` calls, every colon flip comes more than 1000 ms (wrapping difference) after the previous flip, or after the initial lastTime. |
| `RtcSync.RunBlinkFollowsToggles` | usermods/usermod_v2_ping_pong_clock/usermod_v2_ping_pong_clock.h:87-91 | After a run, colonOn has flipped once per toggle. lastTime is the reading of the last toggle, or unchanged if there was none. |
| `RtcSync.ChecksRtc` | usermods/usermod_v2_ping_pong_clock/usermod_v2_ping_pong_clock.h:92-95 | `loop` goes on to the chip exactly when the RTC is enabled, the strip is not updating, setup did not disable the RTC, and toki ticked, with the guards nested as in the source. |
| `RtcSync.CorrectionCalls` | usermods/usermod_v2_ping_pong_clock/usermod_v2_ping_pong_clock.h:92-103 | `loop` makes no RTC call unless the RTC is enabled, the strip is not updating, setup did not disable the RTC, and toki ticked. Then it reads the chip first. It adjusts the chip exactly when toki's second differs from the chip's time. |
| `RtcSync.CorrectionSyncsRtc` | usermods/usermod_v2_ping_pong_clock/usermod_v2_ping_pong_clock.h:97-101 | After a `loop` call that consults the RTC, the chip holds toki's second. Otherwise the chip's time is untouched. |
| `RtcSync.CorrectionSettles` | usermods/usermod_v2_ping_pong_clock/usermod_v2_ping_pong_clock.h:98-101 | Once corrected, the next consulting call at the same second only reads the chip and does not adjust it again. |
| `RtcSync.SetupOutcomeOf` | usermods/usermod_v2_ping_pong_clock/usermod_v2_ping_pong_clock.h:61-81 | Setup does nothing exactly when the RTC is disabled. It seeds WLED's clock exactly when the RTC is enabled, the pins are granted, the chip answers, and it has not lost power. |
| `RtcSync.SetupErrorText` | usermods/usermod_v2_ping_pong_clock/usermod_v2_ping_pong_clock.h:63-75 | A pin or chip failure records an error text other than "No Error". Every other outcome keeps the previous text. |
| `RtcSync.SetupRtcCalls` | usermods/usermod_v2_ping_pong_clock/usermod_v2_ping_pong_clock.h:69-78 | `rtc.begin()` is called only once the pins are granted. The chip's time is read only on a seeded setup, and setup never adjusts the chip. |
| `RtcSync.SetupClockCalls` | usermods/usermod_v2_ping_pong_clock/usermod_v2_ping_pong_clock.h:76-81 | WLED's clock is touched only on a seeded setup. It is set first, to the chip's Unix time, with no-ms accuracy and the RTC as source. |
| `RtcSync.SetupKeepsErrorState` | usermods/usermod_v2_ping_pong_clock/usermod_v2_ping_pong_clock.h:63-75 | Setup keeps rtcError and rtcErrorDisabled in agreement: the flag is set exactly when the text names an error. Setup never clears the flag. |
| `Usermod.HwPinSda` | usermods/usermod_v2_ping_pong_clock/usermod_v2_ping_pong_clock.h:6-12 | The default SDA pin is a GPIO its chip has (21 on the ESP32, 4 elsewhere). |
| `Usermod.HwPinScl` | usermods/usermod_v2_ping_pong_clock/usermod_v2_ping_pong_clock.h:6-12 | The default SCL pin is a GPIO its chip has (22 on the ESP32, 5 elsewhere) and never the SDA pin. |
| `Usermod.I2cPins` | usermods/usermod_v2_ping_pong_clock/usermod_v2_ping_pong_clock.h:62 | The pins reserved for I2C are the SCL pin twice, as outputs. The SDA pin is not reserved unless it equals SCL. |
| `Usermod.PingPongClockUsermod.constructor` | usermods/usermod_v2_ping_pong_clock/usermod_v2_ping_pong_clock.h:6-32 | Boot defaults: lastTime 0, colon on, RTC disabled with "No Error", clock enabled in white (0xFF, 0xFF, 0xFF). I2C pins are SDA 21/SCL 22 on the ESP32 and SDA 4/SCL 5 elsewhere. |
| `Usermod.PingPongClockUsermod.Colour` | usermods/usermod_v2_ping_pong_clock/usermod_v2_ping_pong_clock.h:155 | The colour of every lit LED: the configured red, green and blue, with the white channel off. |
| `Usermod.PingPongClockUsermod.DrawNumber` | usermods/usermod_v2_ping_pong_clock/usermod_v2_ping_pong_clock.h:150-157 | Appends exactly the writes of the digit's glyph, in the configured colour, to the strip's call log. |
| `Usermod.PingPongClockUsermod.PaintRow` | usermods/usermod_v2_ping_pong_clock/usermod_v2_ping_pong_clock.h:152-156 | The ten-step loop appends one write at `base + entry` for each entry above -1, in row order. |
| `Usermod.PingPongClockUsermod.HandleOverlayDraw` | usermods/usermod_v2_ping_pong_clock/usermod_v2_ping_pong_clock.h:159-172 | Appends exactly the overlay writes for the current enable flag, colon state and time. |
| `Usermod.PingPongClockUsermod.Setup` | usermods/usermod_v2_ping_pong_clock/usermod_v2_ping_pong_clock.h:59-83 | Makes the pin request, RTC calls and clock calls of its outcome, and no others. It points the bus at the configured pins once they are granted, records failures, and never clears rtcErrorDisabled. |
| `Usermod.PingPongClockUsermod.Loop` | usermods/usermod_v2_ping_pong_clock/usermod_v2_ping_pong_clock.h:85-104 | Updates lastTime and colonOn as `BlinkStep`, whether or not the RTC is in use. It makes exactly the correction calls on the chip, leaves the chip holding the time those calls set, and leaves the error state alone (it cannot change it). |

## Left out

- `addToJsonInfo`, `addToConfig`, `readFromConfig`: these only copy fields to and from WLED's JSON documents. JSON is not modelled.
- `getId`: returns a registration constant. Usermod registration is not modelled.
- Pin manager, `Wire`, RTClib and the DS3231 I2C protocol, toki, the strip and `updateLocalTime`: the model keeps the values they report and the calls made on them. Of their own behaviour it keeps only the two stores below.
- `Host.Rtc.Adjust` and `Host.Toki.SetTime`: each stores the Unix time it is given exactly. That holds only for times in 2000-2099, the range a DS3231 holds. RTClib's `DateTime(uint32_t)` subtracts the 1970-2000 offset without a check, so an earlier `toki.second()` would be stored wrongly and re-adjusted on every tick. `Setup`, `Loop`, `CorrectionSyncsRtc` and `CorrectionSettles` rely on the exact store.
- `RGBW32`: the packing into a 32-bit word, including masking each component to a byte, is not modelled. A colour is its four components.
- `hour(localTime)` and `minute(localTime)`: converting WLED's local time to clock fields is not modelled. `HandleOverlayDraw` takes hour and minute as natural numbers. `OverlayShowsTime` assumes TimeLib's ranges 0..23 and 0..59.
- `Usermod.PingPongClockUsermod.Loop`: `loop` reads `millis()` twice, at lines 87 and 89. The model uses one reading per call, so a millisecond passing between the two reads is not modelled.
- `time_t`: `toki.second()` is stored in a `time_t` and compared with the chip's `uint32_t` Unix time. Both are modelled as 32-bit unsigned values.
- `baseH`, `baseHH`, `baseM`, `baseMM` and `colon`: nothing in the class changes these members, so they are modelled as constants.
- `Usermod.PingPongClockUsermod.DrawNumber`: it requires a digit 0..9. The source indexes `numbers[number]` without a check, and every caller passes a value reduced modulo 10.
