/** The decisions the usermod takes around time: the colon blink driven by
    millis(), the once-per-tick correction of the DS3231 from WLED's clock
    in loop, and what setup does with the RTC at boot. */
module RtcSync {
  import opened Host

  /** The colon toggles once more than this many milliseconds have passed. */
  const BlinkInterval := 1000

  /** millis() - lastTime computed in unsigned long arithmetic: it wraps
      around modulo 2^32, so it is the time passed even across a millis()
      overflow. */
  function Elapsed(now: U32, last: U32): (e: U32)
    ensures (last + e) % TwoTo32 == now
    ensures last <= now ==> e == now - last
    ensures now < last ==> e == TwoTo32 - last + now
  {
    (now - last) % TwoTo32
  }

  /** The elapsed time is the only 32-bit value that takes last to now. */
  lemma ElapsedUnique(now: U32, last: U32, e: U32)
    requires (last + e) % TwoTo32 == now
    ensures e == Elapsed(now, last)
  {
    if last + e >= TwoTo32 {
      assert last + e - TwoTo32 == now;
    } else {
      assert last + e == now;
    }
  }

  /** The blink state: when the colon last toggled, and whether it is on. */
  datatype Blink = Blink(lastTime: U32, colonOn: bool)

  /** The colon is due to toggle at millis() reading now. */
  predicate Due(b: Blink, now: U32)
  {
    Elapsed(now, b.lastTime) > BlinkInterval
  }

  /** The blink part of one loop call at millis() reading now. */
  function BlinkStep(b: Blink, now: U32): (r: Blink)
    ensures r.colonOn != b.colonOn <==> Due(b, now)
    ensures Due(b, now) ==> r.lastTime == now
    ensures !Due(b, now) ==> r == b
  {
    if Due(b, now) then Blink(now, !b.colonOn) else b
  }

  /** A second loop call at the same millis() reading changes nothing: the
      colon toggles at most once per instant. */
  lemma BlinkStepIdempotent(b: Blink, now: U32)
    ensures BlinkStep(BlinkStep(b, now), now) == BlinkStep(b, now)
  {
    assert Elapsed(now, now) == 0;
  }

  /** The blink survives a millis() overflow: 256 ms before the wrap plus
      2000 ms after it is more than a second, so the colon toggles. */
  lemma BlinkAcrossWrap()
    ensures BlinkStep(Blink(0xFFFF_FF00, true), 2000) == Blink(2000, false)
    ensures Elapsed(2000, 0xFFFF_FF00) == 2256
  {
  }

  /** The blink state after loop has run at each millis() reading in turn. */
  function RunBlink(b: Blink, times: seq<U32>): Blink
    decreases |times|
  {
    if times == [] then b else RunBlink(BlinkStep(b, times[0]), times[1..])
  }

  /** The millis() readings, in order, at which the colon toggled. */
  function Toggles(b: Blink, times: seq<U32>): (ts: seq<U32>)
    ensures |ts| <= |times|
    decreases |times|
  {
    if times == [] then []
    else
      (if Due(b, times[0]) then [times[0]] else [])
      + Toggles(BlinkStep(b, times[0]), times[1..])
  }

  /** Over any run of loop calls the colon toggles at most once a second:
      the first toggle comes more than 1000 ms after the last one before
      the run, and each toggle more than 1000 ms after the one before it,
      measured as the wrapping unsigned difference. */
  lemma {:induction false} TogglesSpaced(b: Blink, times: seq<U32>)
    ensures var ts := Toggles(b, times);
      && (|ts| > 0 ==> Elapsed(ts[0], b.lastTime) > BlinkInterval)
      && (forall k :: 0 <= k < |ts| - 1 ==> Elapsed(ts[k + 1], ts[k]) > BlinkInterval)
    decreases |times|
  {
    if times != [] {
      var b' := BlinkStep(b, times[0]);
      TogglesSpaced(b', times[1..]);
      var rest := Toggles(b', times[1..]);
      if Due(b, times[0]) {
        assert b'.lastTime == times[0];
        var ts := [times[0]] + rest;
        forall k | 0 <= k < |ts| - 1
          ensures Elapsed(ts[k + 1], ts[k]) > BlinkInterval
        {
          if k > 0 {
            assert ts[k] == rest[k - 1] && ts[k + 1] == rest[k];
          }
        }
      } else {
        assert b' == b;
      }
    }
  }

  /** After a run, the colon has flipped once per toggle, and lastTime is
      the reading of the last toggle (or unchanged if none). */
  lemma {:induction false} RunBlinkFollowsToggles(b: Blink, times: seq<U32>)
    ensures var ts := Toggles(b, times);
      && RunBlink(b, times).colonOn == (b.colonOn != (|ts| % 2 == 1))
      && RunBlink(b, times).lastTime == (if ts == [] then b.lastTime else ts[|ts| - 1])
    decreases |times|
  {
    if times != [] {
      RunBlinkFollowsToggles(BlinkStep(b, times[0]), times[1..]);
    }
  }

  /** loop consults the RTC only when it is enabled, the strip is not in
      the middle of an update, setup left it usable, and toki has just
      ticked over to a new second. The guards nest as loop tests them:
      the strip is asked only when the RTC is enabled, and a busy strip
      ends the pass before the error flag and the tick are looked at. */
  predicate ChecksRtc(rtcEnabled: bool, updating: bool, errorDisabled: bool, tick: bool): (b: bool)
    ensures b <==> rtcEnabled && !updating && !errorDisabled && tick
  {
    if !rtcEnabled then false
    else if updating then false
    else !errorDisabled && tick
  }

  /** The RTC calls of one loop call, given toki's second and the time the
      chip holds: read the chip, and set it to toki's second if the two
      differ. */
  function CorrectionCalls(rtcEnabled: bool, updating: bool, errorDisabled: bool, tick: bool,
                           second: U32, rtcTime: U32): (calls: seq<RtcCall>)
    ensures calls == [] <==> !ChecksRtc(rtcEnabled, updating, errorDisabled, tick)
    ensures ChecksRtc(rtcEnabled, updating, errorDisabled, tick) ==> calls[0] == RtcCall.Now
    ensures (exists t :: RtcCall.Adjust(t) in calls)
              <==> ChecksRtc(rtcEnabled, updating, errorDisabled, tick) && second != rtcTime
  {
    if !ChecksRtc(rtcEnabled, updating, errorDisabled, tick) then []
    else if second != rtcTime then [RtcCall.Now, RtcCall.Adjust(second)]
    else [RtcCall.Now]
  }

  /** The time the chip holds after a sequence of calls on it. */
  function RtcTimeAfter(t: U32, calls: seq<RtcCall>): U32
    decreases |calls|
  {
    if calls == [] then t
    else RtcTimeAfter(if calls[0].Adjust? then calls[0].unixtime else t, calls[1..])
  }

  /** After a loop call that consults the RTC, the chip holds toki's
      second; otherwise its time is untouched. */
  lemma CorrectionSyncsRtc(rtcEnabled: bool, updating: bool, errorDisabled: bool, tick: bool,
                           second: U32, rtcTime: U32)
    ensures RtcTimeAfter(rtcTime, CorrectionCalls(rtcEnabled, updating, errorDisabled, tick, second, rtcTime))
      == if ChecksRtc(rtcEnabled, updating, errorDisabled, tick) then second else rtcTime
  {
    var calls := CorrectionCalls(rtcEnabled, updating, errorDisabled, tick, second, rtcTime);
    if ChecksRtc(rtcEnabled, updating, errorDisabled, tick) {
      if second != rtcTime {
        var tail := [RtcCall.Adjust(second)];
        assert calls[1..] == tail && tail[1..] == [];
        assert RtcTimeAfter(rtcTime, calls) == RtcTimeAfter(rtcTime, tail);
        assert RtcTimeAfter(rtcTime, tail) == RtcTimeAfter(second, []);
      } else {
        assert calls[1..] == [];
      }
    }
  }

  /** A correction is never repeated: once the chip agrees with toki,
      the next consulting loop call only reads it. */
  lemma CorrectionSettles(second: U32, rtcTime: U32)
    ensures var t := RtcTimeAfter(rtcTime, CorrectionCalls(true, false, false, true, second, rtcTime));
      CorrectionCalls(true, false, false, true, second, t) == [RtcCall.Now]
  {
    CorrectionSyncsRtc(true, false, false, true, second, rtcTime);
  }

  /** How setup ended. */
  datatype SetupOutcome =
    | Skipped         // the RTC is not enabled: setup does nothing
    | PinAllocFailed  // the I2C pins could not be reserved
    | NoChip          // no DS3231 answered rtc.begin()
    | Unseeded        // the chip lost power, so its time is not trusted
    | Seeded          // WLED's clock was set from the chip

  /** The outcome of setup, from whether the RTC is enabled, whether the pin
      manager grants the pins, whether the chip answers, and whether it
      reports a power loss. */
  function SetupOutcomeOf(rtcEnabled: bool, pinsGranted: bool, chipAnswers: bool, powerLost: bool): (o: SetupOutcome)
    ensures o == Seeded <==> rtcEnabled && pinsGranted && chipAnswers && !powerLost
    ensures o == Skipped <==> !rtcEnabled
  {
    if !rtcEnabled then Skipped
    else if !pinsGranted then PinAllocFailed
    else if !chipAnswers then NoChip
    else if powerLost then Unseeded
    else Seeded
  }

  /** The text of rtcError before any failure. */
  const NoError := "No Error"

  /** An outcome that leaves the RTC unusable for the rest of the run. */
  predicate Disables(o: SetupOutcome)
  {
    o == PinAllocFailed || o == NoChip
  }

  /** rtcError after setup: the failure's text, or the previous text. */
  function SetupErrorText(o: SetupOutcome, previous: string): (text: string)
    ensures Disables(o) ==> text != NoError
    ensures !Disables(o) ==> text == previous
  {
    match o
    case PinAllocFailed => "Pin Alloc Error"
    case NoChip => "No Chip Error"
    case _ => previous
  }

  /** The calls setup makes on the DS3231, in order. */
  function SetupRtcCalls(o: SetupOutcome): (calls: seq<RtcCall>)
    ensures (RtcCall.Begin in calls) <==> !(o == Skipped || o == PinAllocFailed)
    ensures (RtcCall.Now in calls) <==> o == Seeded
    ensures forall t :: RtcCall.Adjust(t) !in calls
  {
    match o
    case Skipped => []
    case PinAllocFailed => []
    case NoChip => [RtcCall.Begin]
    case Unseeded => [RtcCall.Begin, RtcCall.LostPower]
    case Seeded => [RtcCall.Begin, RtcCall.LostPower, RtcCall.Now]
  }

  /** The calls setup makes on WLED's clock: only a seeded setup sets toki
      to the chip's Unix time t and refreshes the local time. */
  function SetupClockCalls(o: SetupOutcome, t: U32): (calls: seq<ClockCall>)
    ensures calls != [] <==> o == Seeded
    ensures o == Seeded ==> calls[0] == ClockCall.SetTime(t, NoMsAccuracy, SourceRtc)
  {
    if o == Seeded then [ClockCall.SetTime(t, NoMsAccuracy, SourceRtc), ClockCall.UpdateLocalTime] else []
  }

  /** The rtcError text and the rtcErrorDisabled flag agree: the flag is
      set exactly when the text names an error. */
  ghost predicate ErrorStateAgrees(text: string, disabled: bool)
  {
    (disabled <==> text != NoError)
    && (text == NoError || text == "Pin Alloc Error" || text == "No Chip Error")
  }

  /** Setup keeps text and flag in agreement, and never clears the flag:
      a failure disables the RTC for good. */
  lemma SetupKeepsErrorState(o: SetupOutcome, text: string, disabled: bool)
    requires ErrorStateAgrees(text, disabled)
    ensures ErrorStateAgrees(SetupErrorText(o, text), disabled || Disables(o))
  {
  }
}
