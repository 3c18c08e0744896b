/** The collaborators the usermod calls but does not own: the LED strip, the
    DS3231 real-time clock, WLED's time keeper (toki and localTime), the pin
    manager and the I2C bus. Each is reduced to the values it reports and a
    log of the calls made on it, so that the usermod's contracts can say
    exactly which calls happen. The only behaviour of their own that is
    modelled is that Rtc.Adjust and Toki.SetTime store the Unix time they
    are given exactly, which holds for times in 2000-2099, the range the
    DS3231 can hold. */
module Host {

  const TwoTo32 := 0x1_0000_0000

  /** `unsigned long` (millis(), lastTime) and `uint32_t` (Unix seconds) on
      the ESP8266 and ESP32. */
  type U32 = x: int | 0 <= x < TwoTo32

  /** The colour RGBW32(r, g, b, w); its packing into a 32-bit word is not
      modelled, so two colours are equal exactly when their components are. */
  datatype Color = RGBW32(r: int, g: int, b: int, w: int)

  /** One strip.setPixelColor(index, color) call. */
  datatype PixelWrite = PixelWrite(index: int, color: Color)

  /** The LED strip: every setPixelColor call in order, and whether a
      transfer to the LEDs is in progress (isUpdating()). */
  class Strip {
    var writes: seq<PixelWrite>
    var updating: bool

    /** A strip with nothing written yet. */
    constructor (updating: bool)
      ensures writes == [] && this.updating == updating
    {
      writes := [];
      this.updating := updating;
    }

    method SetPixelColor(index: int, color: Color)
      modifies this`writes
      ensures writes == old(writes) + [PixelWrite(index, color)]
    {
      writes := writes + [PixelWrite(index, color)];
    }

    predicate IsUpdating()
      reads this
    {
      updating
    }
  }

  /** One call on the DS3231 driver. */
  datatype RtcCall = Begin | LostPower | Now | Adjust(unixtime: U32)

  /** The DS3231 chip as the driver sees it: whether it answers the
      handshake, its power-loss flag, the Unix time it holds, and every call
      made on it. */
  class Rtc {
    var answers: bool
    var powerLost: bool
    var unixtime: U32
    var calls: seq<RtcCall>

    /** A chip that nothing has been asked of yet. */
    constructor (answers: bool, powerLost: bool, unixtime: U32)
      ensures this.answers == answers && this.powerLost == powerLost
      ensures this.unixtime == unixtime && calls == []
    {
      this.answers := answers;
      this.powerLost := powerLost;
      this.unixtime := unixtime;
      calls := [];
    }

    method Begin() returns (ok: bool)
      modifies this`calls
      ensures ok == answers && calls == old(calls) + [RtcCall.Begin]
    {
      ok := answers;
      calls := calls + [RtcCall.Begin];
    }

    method LostPower() returns (lost: bool)
      modifies this`calls
      ensures lost == powerLost && calls == old(calls) + [RtcCall.LostPower]
    {
      lost := powerLost;
      calls := calls + [RtcCall.LostPower];
    }

    /** rtc.now().unixtime() */
    method Now() returns (t: U32)
      modifies this`calls
      ensures t == unixtime && calls == old(calls) + [RtcCall.Now]
    {
      t := unixtime;
      calls := calls + [RtcCall.Now];
    }

    /** rtc.adjust(DateTime(t)) */
    method Adjust(t: U32)
      modifies this`unixtime, this`calls
      ensures unixtime == t && calls == old(calls) + [RtcCall.Adjust(t)]
    {
      unixtime := t;
      calls := calls + [RtcCall.Adjust(t)];
    }
  }

  /** The accuracy and source tags passed with a time to toki. */
  datatype Accuracy = NoMsAccuracy
  datatype TimeSource = SourceRtc

  /** One call that sets or refreshes WLED's notion of the time. */
  datatype ClockCall = SetTime(unixtime: U32, accuracy: Accuracy, source: TimeSource) | UpdateLocalTime

  /** WLED's time keeper: toki's current second and tick flag, and the calls
      that set toki's time or refresh localTime from it (updateLocalTime). */
  class Toki {
    var second: U32
    var tick: bool
    var calls: seq<ClockCall>

    /** A time keeper at second `second` that has not been set yet. */
    constructor (second: U32, tick: bool)
      ensures this.second == second && this.tick == tick && calls == []
    {
      this.second := second;
      this.tick := tick;
      calls := [];
    }

    method SetTime(t: U32, accuracy: Accuracy, source: TimeSource)
      modifies this`second, this`calls
      ensures second == t && calls == old(calls) + [ClockCall.SetTime(t, accuracy, source)]
    {
      second := t;
      calls := calls + [ClockCall.SetTime(t, accuracy, source)];
    }

    method UpdateLocalTime()
      modifies this`calls
      ensures calls == old(calls) + [ClockCall.UpdateLocalTime]
    {
      calls := calls + [ClockCall.UpdateLocalTime];
    }

    predicate IsTick()
      reads this
    {
      tick
    }
  }

  /** The owner tag of a pin reservation. */
  datatype PinOwner = HwI2c

  /** PinManagerPinType: a pin and whether it is an output. */
  datatype ManagedPin = ManagedPin(pin: int, isOutput: bool)

  /** One allocateMultiplePins request. */
  datatype PinRequest = PinRequest(pins: seq<ManagedPin>, owner: PinOwner)

  /** The pin manager: whether it grants requests, and every request made. */
  class PinManager {
    var grants: bool
    var requests: seq<PinRequest>

    /** A pin manager with no requests made yet. */
    constructor (grants: bool)
      ensures this.grants == grants && requests == []
    {
      this.grants := grants;
      requests := [];
    }

    method AllocateMultiplePins(pins: seq<ManagedPin>, owner: PinOwner) returns (ok: bool)
      modifies this`requests
      ensures ok == grants && requests == old(requests) + [PinRequest(pins, owner)]
    {
      ok := grants;
      requests := requests + [PinRequest(pins, owner)];
    }
  }

  /** The I2C bus (Wire) and the pins it was last told to use. */
  class Wire {
    var sda: int
    var scl: int

    /** A bus on the given pins. */
    constructor (sda: int, scl: int)
      ensures this.sda == sda && this.scl == scl
    {
      this.sda := sda;
      this.scl := scl;
    }

    method Pins(sda: int, scl: int)
      modifies this
      ensures this.sda == sda && this.scl == scl
    {
      this.sda := sda;
      this.scl := scl;
    }
  }
}
