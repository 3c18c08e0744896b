/** The ping-pong clock usermod itself: its settings and run-time state,
    and the four operations WLED calls on it — setup at boot, loop on every
    main-loop pass, handleOverlayDraw before every frame is shown, and the
    drawNumber helper that paints one digit. */
module Usermod {
  import opened Host
  import opened Glyphs
  import opened Overlay
  import opened RtcSync

  /** The default I2C data pin: GPIO 21 on the ESP32, GPIO 4 elsewhere;
      a GPIO its chip has (0..39 on the ESP32, 0..16 on the ESP8266). */
  function HwPinSda(esp32: bool): (pin: int)
    ensures 0 <= pin < 40
    ensures !esp32 ==> pin <= 16
  {
    if esp32 then 21 else 4
  }

  /** The default I2C clock pin: GPIO 22 on the ESP32, GPIO 5 elsewhere;
      a GPIO its chip has, and never the data pin. */
  function HwPinScl(esp32: bool): (pin: int)
    ensures 0 <= pin < 40
    ensures !esp32 ==> pin <= 16
    ensures pin != HwPinSda(esp32)
  {
    if esp32 then 22 else 5
  }

  /** The pins setup asks the pin manager for: the SCL pin twice, both as
      outputs. The SDA pin is not among them unless it is the SCL pin. */
  function I2cPins(sda: int, scl: int): (pins: seq<ManagedPin>)
    ensures |pins| == 2 && forall p :: p in pins ==> p == ManagedPin(scl, true)
    ensures sda != scl ==> forall p :: p in pins ==> p.pin != sda
  {
    [ManagedPin(scl, true), ManagedPin(scl, true)]
  }

  /** Appending five runs of writes one after the other appends their
      concatenation. A helper Dafny proves unaided; HandleOverlayDraw calls
      it so that its own proof need not regroup the five runs. */
  lemma AppendFive(w: seq<PixelWrite>, a: seq<PixelWrite>, b: seq<PixelWrite>, d: seq<PixelWrite>,
                   e: seq<PixelWrite>, f: seq<PixelWrite>)
    ensures w + a + b + d + e + f == w + (a + b + d + e + f)
  {
  }

  class PingPongClockUsermod {
    /** millis() at the last colon toggle. */
    var lastTime: U32
    var colonOn: bool
    /** Whether a DS3231 is fitted; false unless the firmware is edited. */
    var rtcEnabled: bool
    /** Set for good once setup could not bring the RTC up. */
    var rtcErrorDisabled: bool
    var rtcError: string
    /** The DS3231 on the I2C bus. */
    const rtc: Rtc

    var pingPongClockEnabled: bool
    var colorR: int
    var colorG: int
    var colorB: int
    var sdaPin: int
    var sclPin: int

    /** rtcError and rtcErrorDisabled tell the same story: the error state
        is closed under setup (SetupKeepsErrorState), so the text is one of
        the three setup writes and the flag is set exactly when it names an
        error. Setup keeps it; loop reads the flag but changes neither. */
    ghost predicate Valid()
      reads this
    {
      ErrorStateAgrees(rtcError, rtcErrorDisabled)
    }

    /** The boot defaults: colon on, RTC off and without error, the clock
        enabled in white, and the board's default I2C pins. */
    constructor (rtc: Rtc, esp32: bool)
      ensures Valid()
      ensures lastTime == 0 && colonOn && !rtcEnabled && !rtcErrorDisabled && rtcError == NoError
      ensures this.rtc == rtc
      ensures pingPongClockEnabled && colorR == 0xFF && colorG == 0xFF && colorB == 0xFF
      ensures sdaPin == HwPinSda(esp32) && sclPin == HwPinScl(esp32)
    {
      lastTime := 0;
      colonOn := true;
      rtcEnabled := false;
      rtcErrorDisabled := false;
      rtcError := NoError;
      this.rtc := rtc;
      pingPongClockEnabled := true;
      colorR, colorG, colorB := 0xFF, 0xFF, 0xFF;
      sdaPin, sclPin := HwPinSda(esp32), HwPinScl(esp32);
    }

    /** The colour of every lit LED: the configured red, green and blue,
        with the white channel always off. */
    function Colour(): (c: Color)
      reads this
      ensures c.r == colorR && c.g == colorG && c.b == colorB
      ensures c.w == 0
    {
      RGBW32(colorR, colorG, colorB, 0)
    }

    /** The blink state held in lastTime and colonOn. */
    function BlinkState(): Blink
      reads this
    {
      Blink(lastTime, colonOn)
    }

    /** Lights digit `number` on the panel starting at LED `base`, in the
        configured colour. */
    method DrawNumber(strip: Strip, base: int, number: int)
      requires IsDigit(number)
      modifies strip`writes
      ensures strip.writes == old(strip.writes) + DigitWrites(base, number, Colour())
    {
      GlyphRowLength(number);
      PaintRow(strip, base, Numbers[number]);
    }

    /** drawNumber's loop over the ten slots of one glyph row: one
        setPixelColor at base + entry for every entry above the sentinel,
        in row order. */
    method PaintRow(strip: Strip, base: int, row: seq<int>)
      requires |row| == RowLength
      modifies strip`writes
      ensures strip.writes == old(strip.writes) + Paint(base, LitOffsets(row), Colour())
    {
      for i := 0 to RowLength
        invariant old(strip.writes) + Paint(base, LitOffsets(row), Colour())
                  == strip.writes + Paint(base, LitFrom(row, i), Colour())
      {
        PaintLitStep(base, row, i, Colour());
        if row[i] > Sentinel {
          ghost var write := PixelWrite(row[i] + base, Colour());
          assert strip.writes + ([write] + Paint(base, LitFrom(row, i + 1), Colour()))
              == strip.writes + [write] + Paint(base, LitFrom(row, i + 1), Colour());
          strip.SetPixelColor(row[i] + base, Colour());
        }
      }
    }

    /** Draws the clock over the current frame at the local time
        hour:minute: nothing when the clock is disabled; otherwise the colon
        when it is on, then the tens and ones of the hour and of the
        minute. */
    method HandleOverlayDraw(strip: Strip, hour: nat, minute: nat)
      modifies strip`writes
      ensures strip.writes == old(strip.writes) + OverlayWrites(pingPongClockEnabled, colonOn, hour, minute, Colour())
    {
      ghost var before := strip.writes;
      if pingPongClockEnabled {
        if colonOn {
          strip.SetPixelColor(Colon0, Colour());
          strip.SetPixelColor(Colon1, Colour());
        }
        assert strip.writes == before + ColonWrites(colonOn, Colour());
        DrawNumber(strip, BaseHH, Tens(hour));
        DrawNumber(strip, BaseH, Ones(hour));
        DrawNumber(strip, BaseM, Tens(minute));
        DrawNumber(strip, BaseMM, Ones(minute));
        AppendFive(before, ColonWrites(colonOn, Colour()),
          DigitWrites(BaseHH, Tens(hour), Colour()), DigitWrites(BaseH, Ones(hour), Colour()),
          DigitWrites(BaseM, Tens(minute), Colour()), DigitWrites(BaseMM, Ones(minute), Colour()));
      }
    }

    /** Brings the RTC up at boot when it is enabled: reserve the I2C pins,
        point the bus at them, start the chip, and seed WLED's clock from it
        unless it lost power. A failure records its text and disables the
        RTC for the rest of the run. */
    method Setup(pins: PinManager, wire: Wire, toki: Toki)
      requires Valid()
      modifies this`rtcError, this`rtcErrorDisabled, pins`requests, wire, rtc`calls, toki`second, toki`calls
      ensures Valid()
      ensures var o := SetupOutcomeOf(rtcEnabled, pins.grants, rtc.answers, rtc.powerLost);
        && pins.requests == old(pins.requests) + (if rtcEnabled then [PinRequest(I2cPins(sdaPin, sclPin), HwI2c)] else [])
        && rtc.calls == old(rtc.calls) + SetupRtcCalls(o)
        && toki.calls == old(toki.calls) + SetupClockCalls(o, rtc.unixtime)
        && toki.second == (if o == Seeded then rtc.unixtime else old(toki.second))
        && rtcError == SetupErrorText(o, old(rtcError))
        && rtcErrorDisabled == (old(rtcErrorDisabled) || Disables(o))
        && (o == Skipped || o == PinAllocFailed ==> unchanged(wire))
        && (o != Skipped && o != PinAllocFailed ==> wire.sda == sdaPin && wire.scl == sclPin)
    {
      ghost var o := SetupOutcomeOf(rtcEnabled, pins.grants, rtc.answers, rtc.powerLost);
      SetupKeepsErrorState(o, rtcError, rtcErrorDisabled);
      if rtcEnabled {
        var granted := pins.AllocateMultiplePins(I2cPins(sdaPin, sclPin), HwI2c);
        if !granted {
          assert o == PinAllocFailed;
          rtcError := "Pin Alloc Error";
          rtcErrorDisabled := true;
          return;
        }
        wire.Pins(sdaPin, sclPin);
        var began := rtc.Begin();
        if !began {
          assert o == NoChip;
          rtcError := "No Chip Error";
          rtcErrorDisabled := true;
          return;
        }
        var lost := rtc.LostPower();
        if !lost {
          assert o == Seeded;
          var t := rtc.Now();
          toki.SetTime(t, NoMsAccuracy, SourceRtc);
          toki.UpdateLocalTime();
        } else {
          assert o == Unseeded;
        }
      }
    }

    /** One main-loop pass at millis() reading now: toggle the colon once
        more than a second has passed, then, if the RTC is enabled, the
        strip is idle, setup succeeded and toki has just ticked, set the
        chip to toki's second whenever the two disagree. */
    method Loop(now: U32, strip: Strip, toki: Toki)
      modifies this`lastTime, this`colonOn, rtc`calls, rtc`unixtime
      ensures BlinkState() == BlinkStep(old(BlinkState()), now)
      ensures var calls := CorrectionCalls(rtcEnabled, strip.updating, rtcErrorDisabled, toki.tick, toki.second, old(rtc.unixtime));
        && rtc.calls == old(rtc.calls) + calls
        && rtc.unixtime == RtcTimeAfter(old(rtc.unixtime), calls)
    {
      if Elapsed(now, lastTime) > BlinkInterval {
        lastTime := now;
        colonOn := !colonOn;
      }
      CorrectionSyncsRtc(rtcEnabled, strip.updating, rtcErrorDisabled, toki.tick, toki.second, rtc.unixtime);
      if rtcEnabled {
        if strip.IsUpdating() {
          return;
        }
        if !rtcErrorDisabled && toki.IsTick() {
          var t := toki.second;
          var chip := rtc.Now();
          if t != chip {
            rtc.Adjust(t);
          }
        }
      }
    }
  }
}
