/**
 * The API side of the ASIX SIGMA / SIGMA2 driver
 * (src/hardware/asix-sigma/api.c): the serial-number check of scan and the
 * defaults it sets, the get / set / list switches, and the register
 * programming of dev_acquisition_start (trigger pin, clock select, post-
 * trigger time). The driver's protocol.c and protocol.h are not part of
 * this model: the samplerate table, sigma_set_samplerate,
 * sigma_convert_trigger and the trigger LUT are inputs, and the LEDSEL bit
 * positions are parameters.
 */
module AsixSigma {
  import opened Common

  const Khz200: nat := 200_000
  const Mhz50: nat := 50_000_000
  const Mhz100: nat := 100_000_000
  const Mhz200: nat := 200_000_000

  /** channel_names[]: the cable's pins 1 to 16. */
  const ChannelNames: seq<string> :=
    ["1", "2", "3", "4", "5", "6", "7", "8", "9", "10", "11", "12", "13", "14", "15", "16"]

  // ---------------------------------------------------------------
  // scan
  // ---------------------------------------------------------------

  /** scan accepts a serial number only in the SIGMA / SIGMA2 range. */
  predicate SerialAccepted(serial: nat) {
    !(serial < 0xa601_0000 || serial > 0xa602_ffff)
  }

  /**
   * The accepted range is exactly the serials whose upper 16 bits are the
   * SIGMA (0xa601) or SIGMA2 (0xa602) prefix.
   */
  lemma SerialFamilies(serial: nat)
    ensures SerialAccepted(serial) <==> serial / 0x1_0000 == 0xa601 || serial / 0x1_0000 == 0xa602
  {
    var q := serial / 0x1_0000;
    assert serial == q * 0x1_0000 + serial % 0x1_0000;
    if q <= 0xa600 {
      assert q * 0x1_0000 <= 0xa600 * 0x1_0000;
    } else if q >= 0xa603 {
      assert q * 0x1_0000 >= 0xa603 * 0x1_0000;
    }
  }

  /** The fields of struct dev_context that this file reads and writes. */
  datatype Settings = Settings(
    curSamplerate: nat,
    limitMsec: nat,
    captureRatio: nat,
    /** devc->cur_firmware != -1: sigma_set_samplerate has loaded a bitstream. */
    firmwareLoaded: bool)

  /** The settings scan gives a new device: the table's first samplerate, no limit, a 50 % capture ratio. */
  function ScanDefaults(samplerates: seq<nat>): (c: Settings)
    requires |samplerates| > 0
    ensures c.limitMsec == 0 && c.captureRatio == 50 && !c.firmwareLoaded && c.curSamplerate == samplerates[0]
  {
    Settings(samplerates[0], 0, 50, false)
  }

  // ---------------------------------------------------------------
  // config_get / config_set / config_list
  // ---------------------------------------------------------------

  /** config_get; without a device instance it fails with SR_ERR. */
  function Get(hasSdi: bool, c: Settings, key: Key): (r: (Status, Option<Variant>))
    ensures r.0 == Ok <==> r.1.Some?
    ensures !hasSdi ==> r.0 == Err
    ensures hasSdi ==> (r.0 == Ok <==> key in {Samplerate, LimitMsec, CaptureRatio})
    ensures hasSdi && r.0 != Ok ==> r.0 == ErrNa
  {
    if !hasSdi then (Err, None)
    else if key == Samplerate then (Ok, Some(VUint64(c.curSamplerate)))
    else if key == LimitMsec then (Ok, Some(VUint64(c.limitMsec)))
    else if key == CaptureRatio then (Ok, Some(VUint64(c.captureRatio)))
    else (ErrNa, None)
  }

  const Two64: nat := 0x1_0000_0000_0000_0000

  /**
   * The LIMIT_SAMPLES case: the sample count is turned into a time limit
   * in milliseconds at the current samplerate, with the uint64 product
   * tmp * 1000 wrapping as C's does.
   */
  function SamplesToMsec(samples: nat, rate: nat): nat
    requires rate > 0
  {
    ((samples * 1000) % Two64) / rate
  }

  /**
   * When the product does not wrap, the time limit is the time the samples
   * take, rounded down to a whole millisecond.
   */
  lemma SamplesToMsecRounding(samples: nat, rate: nat)
    requires rate > 0 && samples * 1000 < Two64
    ensures SamplesToMsec(samples, rate) * rate <= samples * 1000 < (SamplesToMsec(samples, rate) + 1) * rate
  {
    var p := samples * 1000;
    assert p % Two64 == p;
    var q := p / rate;
    assert p == q * rate + p % rate;
  }

  /**
   * sigma_set_samplerate only accepts the rates of the driver's table, all
   * of them positive: a successful call never stores a zero rate.
   */
  predicate RateCallSound(key: Key, value: nat, rateResult: Status) {
    key == Samplerate && rateResult == Ok ==> value > 0
  }

  /**
   * config_set, with the status of sigma_set_samplerate as rateResult.
   * Setting the samplerate records the requested rate when that call
   * succeeds. LIMIT_SAMPLES is stored as a time limit.
   */
  function Set(status: DevStatus, c: Settings, key: Key, value: nat, rateResult: Status): (r: (Status, Settings))
    requires c.curSamplerate > 0 && RateCallSound(key, value, rateResult)
    ensures r.0 != Ok ==> r.1 == c
    ensures status != Active ==> r.0 == ErrDevClosed
    ensures status == Active && key == LimitMsec ==>
      (r.0 == Ok <==> value > 0) && (r.0 != Ok ==> r.0 == Err) && (r.0 == Ok ==> r.1 == c.(limitMsec := value))
    ensures status == Active && key == CaptureRatio ==>
      (r.0 == Ok <==> value <= 100) && (r.0 != Ok ==> r.0 == Err) && (r.0 == Ok ==> r.1 == c.(captureRatio := value))
    ensures status == Active && key == LimitSamples ==>
      r.0 == Ok && r.1 == c.(limitMsec := SamplesToMsec(value, c.curSamplerate))
    ensures status == Active && key !in {Samplerate, LimitMsec, LimitSamples, CaptureRatio} ==> r.0 == ErrNa
    ensures r.1.curSamplerate > 0
  {
    if status != Active then (ErrDevClosed, c)
    else if key == Samplerate then
      (if rateResult != Ok then (rateResult, c) else (Ok, c.(curSamplerate := value, firmwareLoaded := true)))
    else if key == LimitMsec then
      (if value > 0 then (Ok, c.(limitMsec := value)) else (Err, c))
    else if key == LimitSamples then (Ok, c.(limitMsec := SamplesToMsec(value, c.curSamplerate)))
    else if key == CaptureRatio then
      (if value <= 100 then (Ok, c.(captureRatio := value)) else (Err, c))
    else (ErrNa, c)
  }

  /** Set-then-get returns the value for the keys config_get reads back, and LIMIT_SAMPLES reads back as a time. */
  lemma SetThenGet(c: Settings, key: Key, value: nat, rateResult: Status)
    requires c.curSamplerate > 0 && RateCallSound(key, value, rateResult)
    requires Set(Active, c, key, value, rateResult).0 == Ok
    ensures key in {Samplerate, LimitMsec, CaptureRatio} ==>
      Get(true, Set(Active, c, key, value, rateResult).1, key) == (Ok, Some(VUint64(value)))
    ensures key == LimitSamples ==>
      Get(true, Set(Active, c, key, value, rateResult).1, LimitMsec) ==
        (Ok, Some(VUint64(SamplesToMsec(value, c.curSamplerate))))
  {
  }

  /** A capture ratio above 100 % is refused and leaves the settings alone; the settings keep a ratio of at most 100. */
  lemma CaptureRatioStaysBounded(c: Settings, key: Key, value: nat, rateResult: Status)
    requires c.curSamplerate > 0 && c.captureRatio <= 100 && RateCallSound(key, value, rateResult)
    ensures Set(Active, c, key, value, rateResult).1.captureRatio <= 100
  {
  }

  /** devopts[]: the keys and the capabilities the driver lists for a device. */
  const Devopts: seq<ConfOpt> := [
    ConfOpt(LimitMsec, {CapGet, CapSet}),
    ConfOpt(LimitSamples, {CapSet}),
    ConfOpt(Samplerate, {CapGet, CapSet, CapList}),
    ConfOpt(TriggerMatch, {CapList}),
    ConfOpt(CaptureRatio, {CapGet, CapSet})]

  /** trigger_matches[] */
  const TriggerMatches: seq<TriggerMatch> := [MatchZero, MatchOne, MatchRising, MatchFalling]

  /** config_list, with the driver's samplerate table as an input. */
  function List(hasSdi: bool, samplerates: seq<nat>, key: Key): (r: (Status, Option<Variant>))
    ensures r.0 == Ok <==> r.1.Some?
    ensures r.0 == Ok <==> key in {DeviceOptions, Samplerate, TriggerMatch}
    ensures r.0 != Ok ==> r.0 == ErrNa
  {
    if key == DeviceOptions then
      (Ok, Some(VOptions(if hasSdi then Devopts else [ConfOpt(LogicAnalyzer, {})])))
    else if key == Samplerate then (Ok, Some(VSamplerateList(samplerates)))
    else if key == TriggerMatch then (Ok, Some(VMatches(TriggerMatches)))
    else (ErrNa, None)
  }

  /** The option list a device advertises with a capability. */
  predicate Advertises(key: Key, cap: Cap) {
    exists i :: 0 <= i < |Devopts| && Devopts[i].key == key && cap in Devopts[i].caps
  }

  /** config_get answers exactly the keys devopts[] lists as gettable. */
  lemma GetAgreesWithDevopts(c: Settings, key: Key)
    ensures Get(true, c, key).0 == Ok <==> Advertises(key, CapGet)
  {
    if Advertises(key, CapGet) {
      var i :| 0 <= i < |Devopts| && Devopts[i].key == key && CapGet in Devopts[i].caps;
      assert i != 1 && i != 3;
    }
    if key == LimitMsec { assert Devopts[0].key == key; }
    if key == Samplerate { assert Devopts[2].key == key; }
    if key == CaptureRatio { assert Devopts[4].key == key; }
  }

  /** Besides DEVICE_OPTIONS, config_list answers exactly the keys devopts[] lists as listable. */
  lemma ListAgreesWithDevopts(samplerates: seq<nat>, key: Key)
    requires key != DeviceOptions
    ensures List(true, samplerates, key).0 == Ok <==> Advertises(key, CapList)
  {
    if Advertises(key, CapList) {
      var i :| 0 <= i < |Devopts| && Devopts[i].key == key && CapList in Devopts[i].caps;
      assert i == 2 || i == 3;
    }
    if key == Samplerate { assert Devopts[2].key == key; }
    if key == TriggerMatch { assert Devopts[3].key == key; }
  }

  /**
   * Every key devopts[] lists as settable is handled by config_set: the
   * samplerate answers with sigma_set_samplerate's status, the others never
   * with SR_ERR_NA.
   */
  lemma SetAgreesWithDevopts(c: Settings, key: Key, value: nat, rateResult: Status)
    requires c.curSamplerate > 0 && RateCallSound(key, value, rateResult)
    requires Advertises(key, CapSet)
    ensures key == Samplerate ==> Set(Active, c, key, value, rateResult).0 == rateResult
    ensures key != Samplerate ==> Set(Active, c, key, value, rateResult).0 != ErrNa
  {
    var i :| 0 <= i < |Devopts| && Devopts[i].key == key && CapSet in Devopts[i].caps;
    assert i != 3;
    assert key in {Samplerate, LimitMsec, LimitSamples, CaptureRatio};
  }

  // ---------------------------------------------------------------
  // dev_acquisition_start arithmetic
  // ---------------------------------------------------------------

  /** Bit i of a trigger mask. */
  predicate Bit(m: bv16, i: nat)
    requires i < 16
  {
    m & (1 << i) != 0
  }

  /** None of bits 0..p-1 of m is set. */
  predicate ClearBelow(m: bv16, p: nat)
    requires p <= 16
  {
    forall j :: 0 <= j < p ==> !Bit(m, j)
  }

  /** The trigger-pin search from pin i: the first of pins i..7 set in m, or 8. */
  function PinFrom(m: bv16, i: nat): (p: nat)
    requires i <= 8
    ensures i <= p <= 8
    ensures p < 8 ==> Bit(m, p)
    ensures forall j :: i <= j < p ==> !Bit(m, j)
    decreases 8 - i
  {
    if i == 8 then 8 else if Bit(m, i) then i else PinFrom(m, i + 1)
  }

  /**
   * The loop that finds which pin to trigger on in 100 and 200 MHz mode:
   * the lowest of bits 0..7 set in rising | falling, or 8 if none is.
   */
  method TriggerPin(rising: bv16, falling: bv16) returns (pin: nat)
    ensures pin <= 8
    ensures pin < 8 ==> Bit(rising | falling, pin)
    ensures ClearBelow(rising | falling, pin)
    ensures pin == PinFrom(rising | falling, 0)
  {
    pin := 0;
    while pin < 8
      invariant pin <= 8
      invariant PinFrom(rising | falling, pin) == PinFrom(rising | falling, 0)
      invariant ClearBelow(rising | falling, pin)
    {
      if (rising | falling) & (1 << pin) != 0 {
        break;
      }
      pin := pin + 1;
    }
  }

  /**
   * The trigger-select byte of 100 and 200 MHz mode: the LED bit, the pin
   * number masked to three bits, and bit 3 for a falling edge.
   */
  function FastTriggerSelect(ledsel1: nat, pin: nat, falling: bv16): bv8
    requires ledsel1 < 8
  {
    var b := (1 as bv8 << ledsel1) | ((pin % 8) as bv8);
    if falling != 0 then b | (1 << 3) else b
  }

  /**
   * With the LED bit above the pin field, the low three bits carry the pin
   * (a pin of 8 -- no edge at all -- reads as pin 0), and bit 3 is set
   * exactly when a falling edge is asked for.
   */
  lemma FastTriggerSelectFields(ledsel1: nat, pin: nat, falling: bv16)
    requires 4 <= ledsel1 < 8 && pin <= 8
    ensures FastTriggerSelect(ledsel1, pin, falling) & 7 == (pin % 8) as bv8
    ensures (FastTriggerSelect(ledsel1, pin, falling) & 8 != 0) <==> falling != 0
    ensures FastTriggerSelect(ledsel1, pin, falling) & (1 << ledsel1) != 0
  {
    var p := (pin % 8) as bv8;
    assert p & 7 == p && p & 8 == 0 by {
      assert p == 0 || p == 1 || p == 2 || p == 3 || p == 4 || p == 5 || p == 6 || p == 7;
    }
    var l := 1 as bv8 << ledsel1;
    assert l & 15 == 0 && l & l == l by {
      assert ledsel1 == 4 || ledsel1 == 5 || ledsel1 == 6 || ledsel1 == 7;
    }
  }

  /**
   * The clock divider of 50 MHz mode: 50 MHz / rate - 1, truncated as C's
   * int division does.
   */
  function ClockFraction(rate: nat): int
    requires rate > 0
  {
    Mhz50 / rate - 1
  }

  /**
   * For a rate of at most 50 MHz the divider is at least 0; 50 MHz
   * divided by fraction + 1 is no slower than the requested rate, and
   * divided by fraction + 2 it would be slower. A rate that divides 50 MHz
   * is met exactly.
   */
  lemma ClockFractionDivides(rate: nat)
    requires 0 < rate <= Mhz50
    ensures ClockFraction(rate) >= 0
    ensures (ClockFraction(rate) + 1) * rate <= Mhz50 < (ClockFraction(rate) + 2) * rate
    ensures Mhz50 % rate == 0 ==> Mhz50 / (ClockFraction(rate) + 1) == rate
  {
    var q := Mhz50 / rate;
    assert Mhz50 == q * rate + Mhz50 % rate;
    if Mhz50 % rate == 0 {
      assert Mhz50 == rate * q;
    }
  }

  /** The post-trigger register: the capture ratio scaled from percent to 0..255. */
  function PostTrigger(ratio: nat): nat {
    (ratio * 255) / 100
  }

  /** For a ratio the driver accepts, the value fits the 8-bit register and grows with the ratio. */
  lemma PostTriggerFits(ratio: nat, ratio2: nat)
    requires ratio <= ratio2 <= 100
    ensures PostTrigger(ratio) <= PostTrigger(ratio2) <= 255
    ensures PostTrigger(0) == 0 && PostTrigger(50) == 127 && PostTrigger(100) == 255
  {
    assert ratio * 255 <= ratio2 * 255;
  }

  /** The post-trigger register value for a ratio the driver accepts. */
  function PostTriggerByte(ratio: nat): bv8
    requires ratio <= 100
  {
    PostTriggerFits(ratio, 100);
    PostTrigger(ratio) as bv8
  }

  /** The registers dev_acquisition_start writes (their addresses are in protocol.h). */
  datatype Register = TriggerSelect1 | TriggerOption | ClockSelect | PostTriggerReg | ModeReg

  /** One register access of dev_acquisition_start, in the order made. */
  datatype RegWrite =
    | SetRegister(reg: Register, value: bv8)
    | WriteTriggerLut                                  // sigma_build_basic_trigger + sigma_write_trigger_lut
    | WriteTriggerInOut(trgoutBytrigger: bool, trgoutEnable: bool)
    | WriteClockSelect50(async: bool, fraction: int, disabledChannels: nat)

  /** The trigger-select value and the trigger writes of one start, by samplerate. */
  function TriggerWrites(rate: nat, rising: bv16, falling: bv16, ledsel0: nat, ledsel1: nat): (r: (bv8, seq<RegWrite>))
    requires ledsel0 < 8 && ledsel1 < 8
    ensures rate >= Mhz100 ==> (r.1 == [SetRegister(TriggerSelect1, 0x81)] &&
      r.0 == FastTriggerSelect(ledsel1, PinFrom(rising | falling, 0), falling))
    ensures Mhz50 < rate < Mhz100 ==> r == (0, [])
    ensures rate <= Mhz50 ==> r.1 == [WriteTriggerLut]
  {
    if rate >= Mhz100 then
      (FastTriggerSelect(ledsel1, PinFrom(rising | falling, 0), falling), [SetRegister(TriggerSelect1, 0x81)])
    else if rate <= Mhz50 then
      ((1 as bv8 << ledsel1) | (1 as bv8 << ledsel0), [WriteTriggerLut])
    else (0, [])
  }

  /** The clock-select write: 4 channels at 200 MHz, 8 at 100 MHz, otherwise the 50 MHz divider. */
  function ClockWrite(rate: nat): (w: RegWrite)
    requires rate > 0
    ensures rate == Mhz200 <==> w == SetRegister(ClockSelect, 0xf0)
    ensures rate == Mhz100 <==> w == SetRegister(ClockSelect, 0x00)
    ensures rate != Mhz200 && rate != Mhz100 ==> w == WriteClockSelect50(false, ClockFraction(rate), 0)
  {
    if rate == Mhz200 then SetRegister(ClockSelect, 0xf0)
    else if rate == Mhz100 then SetRegister(ClockSelect, 0x00)
    else WriteClockSelect50(false, ClockFraction(rate), 0)
  }

  /**
   * The register writes of dev_acquisition_start once the firmware is
   * loaded, in order: trigger select 0x20, the trigger writes of the rate,
   * the trigger in/out setting and trigger select, the clock, the
   * post-trigger time and the mode register.
   */
  function StartWrites(rate: nat, ratio: nat, rising: bv16, falling: bv16, ledsel0: nat, ledsel1: nat): seq<RegWrite>
    requires rate > 0 && ratio <= 100 && ledsel0 < 8 && ledsel1 < 8
  {
    var t := TriggerWrites(rate, rising, falling, ledsel0, ledsel1);
    [SetRegister(TriggerSelect1, 0x20)] + t.1 +
      [WriteTriggerInOut(true, true), SetRegister(TriggerSelect1, t.0), ClockWrite(rate),
       SetRegister(PostTriggerReg, PostTriggerByte(ratio)), SetRegister(ModeReg, 0x0d)]
  }

  // ---------------------------------------------------------------
  // dev_open
  // ---------------------------------------------------------------

  /**
   * dev_open as written: a failed ftdi_usb_open_desc returns 0, which is
   * SR_OK. Gives the status and whether the device became active.
   */
  function OpenAsWritten(openOk: bool): (Status, bool) {
    if !openOk then (Ok, false) else (Ok, true)
  }

  /** A failed open reports success to the caller, yet leaves the device closed. */
  lemma OpenFailureReportsSuccess()
    ensures OpenAsWritten(false) == (Ok, false)
    ensures OpenAsWritten(false).0 == OpenAsWritten(true).0
  {
  }

  /** dev_open as evidently intended: SR_OK exactly when the device became active. */
  function Open(openOk: bool): (r: (Status, bool))
    ensures r.0 == Ok <==> r.1
    ensures r.1 <==> openOk
  {
    if !openOk then (Err, false) else (Ok, true)
  }

  // ---------------------------------------------------------------
  // The device
  // ---------------------------------------------------------------

  /** One SIGMA: sdi->status, the settings, the trigger masks and what the acquisition start wrote. */
  class SigmaDevice {
    /** The LEDSEL0 and LEDSEL1 bit positions of the trigger-select register. */
    const ledsel0: nat
    const ledsel1: nat
    /** The driver's samplerate table (protocol.c). */
    const samplerates: seq<nat>
    var status: DevStatus
    var settings: Settings
    /** devc->trigger.risingmask and fallingmask, as sigma_convert_trigger left them. */
    var risingMask: bv16
    var fallingMask: bv16
    /** devc->state.state == SIGMA_CAPTURE */
    var capturing: bool
    /** The receive callback is registered. */
    var sourceAdded: bool
    var startTime: nat
    var writes: seq<RegWrite>
    var packets: seq<Packet>

    ghost predicate Valid()
      reads this
    {
      ledsel0 < 8 && ledsel1 < 8 && settings.curSamplerate > 0 && settings.captureRatio <= 100
    }

    /** The device scan registers: initializing, with the scan defaults. */
    constructor (samplerates: seq<nat>, ledsel0: nat, ledsel1: nat)
      requires |samplerates| > 0 && samplerates[0] > 0 && ledsel0 < 8 && ledsel1 < 8
      ensures Valid() && status == Initializing && settings == ScanDefaults(samplerates)
      ensures this.samplerates == samplerates && this.ledsel0 == ledsel0 && this.ledsel1 == ledsel1
      ensures !capturing && !sourceAdded && writes == [] && packets == []
    {
      this.samplerates := samplerates;
      this.ledsel0 := ledsel0;
      this.ledsel1 := ledsel1;
      status := Initializing;
      settings := Settings(samplerates[0], 0, 50, false);
      risingMask, fallingMask := 0, 0;
      capturing := false;
      sourceAdded := false;
      startTime := 0;
      writes := [];
      packets := [];
    }

    /** dev_open (as intended), with the result of ftdi_usb_open_desc as openOk. */
    method DevOpen(openOk: bool) returns (st: Status)
      modifies this`status
      ensures st == Open(openOk).0
      ensures status == if Open(openOk).1 then Active else old(status)
    {
      if !openOk {
        return Err;
      }
      status := Active;
      st := Ok;
    }

    /** dev_close: always ends inactive. */
    method DevClose() returns (st: Status)
      modifies this`status
      ensures st == Ok && status == Inactive
    {
      status := Inactive;
      st := Ok;
    }

    method ConfigGet(key: Key) returns (st: Status, data: Option<Variant>)
      ensures (st, data) == Get(true, settings, key)
    {
      match key {
        case Samplerate => st, data := Ok, Some(VUint64(settings.curSamplerate));
        case LimitMsec => st, data := Ok, Some(VUint64(settings.limitMsec));
        case CaptureRatio => st, data := Ok, Some(VUint64(settings.captureRatio));
        case _ => st, data := ErrNa, None;
      }
    }

    /** config_set, with sigma_set_samplerate's status as rateResult. */
    method ConfigSet(key: Key, value: nat, rateResult: Status) returns (st: Status)
      requires Valid() && RateCallSound(key, value, rateResult)
      modifies this`settings
      ensures Valid()
      ensures (st, settings) == Set(status, old(settings), key, value, rateResult)
    {
      if status != Active {
        return ErrDevClosed;
      }
      st := Ok;
      match key {
        case Samplerate =>
          if rateResult != Ok {
            st := rateResult;
          } else {
            settings := settings.(curSamplerate := value, firmwareLoaded := true);
          }
        case LimitMsec =>
          if value > 0 {
            settings := settings.(limitMsec := value);
          } else {
            st := Err;
          }
        case LimitSamples =>
          settings := settings.(limitMsec := SamplesToMsec(value, settings.curSamplerate));
        case CaptureRatio =>
          if value <= 100 {
            settings := settings.(captureRatio := value);
          } else {
            st := Err;
          }
        case _ =>
          st := ErrNa;
      }
    }

    /**
     * dev_acquisition_start, with the outcome of sigma_convert_trigger as
     * convertResult and the rising and falling masks it fills in the device
     * context, the status of the 200 kHz fallback sigma_set_samplerate as
     * rateResult, and the clock as now.
     */
    method AcquisitionStart(convertResult: Status, rising: bv16, falling: bv16, rateResult: Status, now: nat)
      returns (st: Status)
      requires Valid()
      modifies this`settings, this`writes, this`packets, this`capturing, this`sourceAdded, this`startTime
      modifies this`risingMask, this`fallingMask
      ensures Valid()
      ensures status == Active && convertResult == Ok ==> risingMask == rising && fallingMask == falling
      ensures old(status) != Active ==> st == ErrDevClosed && writes == old(writes) && packets == old(packets)
      ensures old(status) != Active ==> risingMask == old(risingMask) && fallingMask == old(fallingMask)
      ensures status == Active && convertResult != Ok ==> st == Err && writes == old(writes) && capturing == old(capturing)
      ensures status == Active && convertResult == Ok && !old(settings).firmwareLoaded && rateResult != Ok ==>
        st == rateResult && writes == old(writes) && packets == old(packets)
      ensures st == Ok ==>
        (old(settings).firmwareLoaded ==> settings == old(settings)) &&
        (!old(settings).firmwareLoaded ==> settings == old(settings).(curSamplerate := Khz200, firmwareLoaded := true)) &&
        writes == old(writes) + StartWrites(settings.curSamplerate, settings.captureRatio, rising, falling, ledsel0, ledsel1) &&
        packets == old(packets) + [Header] && capturing && sourceAdded && startTime == now
      ensures st == Ok <==> status == Active && convertResult == Ok && (old(settings).firmwareLoaded || rateResult == Ok)
    {
      if status != Active {
        return ErrDevClosed;
      }
      if convertResult != Ok {
        return Err;
      }
      risingMask, fallingMask := rising, falling;
      if !settings.firmwareLoaded {
        if rateResult != Ok {
          return rateResult;
        }
        settings := settings.(curSamplerate := Khz200, firmwareLoaded := true);
      }
      StartCapture(now);
      st := Ok;
    }

    /** The part of dev_acquisition_start after the firmware check: program the registers and start. */
    method StartCapture(now: nat)
      requires Valid()
      modifies this`writes, this`packets, this`capturing, this`sourceAdded, this`startTime
      ensures writes == old(writes) + StartWrites(settings.curSamplerate, settings.captureRatio, risingMask, fallingMask, ledsel0, ledsel1)
      ensures packets == old(packets) + [Header] && capturing && sourceAdded && startTime == now
    {
      var rate := settings.curSamplerate;
      var triggerselect, triggerWrites := TriggerStage(rate);
      var clock := ClockStage(rate);
      var post := PostTriggerByte(settings.captureRatio);
      writes := writes + ([SetRegister(TriggerSelect1, 0x20)] + triggerWrites +
        [WriteTriggerInOut(true, true), SetRegister(TriggerSelect1, triggerselect), clock,
         SetRegister(PostTriggerReg, post), SetRegister(ModeReg, 0x0d)]);
      startTime := now;
      packets := packets + [Header];
      sourceAdded := true;
      capturing := true;
    }

    /** The trigger part of dev_acquisition_start: the writes for the rate and the trigger-select value. */
    method TriggerStage(rate: nat) returns (triggerselect: bv8, ws: seq<RegWrite>)
      requires Valid()
      ensures (triggerselect, ws) == TriggerWrites(rate, risingMask, fallingMask, ledsel0, ledsel1)
    {
      triggerselect := 0;
      ws := [];
      if rate >= Mhz100 {
        ws := [SetRegister(TriggerSelect1, 0x81)];
        var pin := TriggerPin(risingMask, fallingMask);
        triggerselect := FastTriggerSelect(ledsel1, pin, fallingMask);
      } else if rate <= Mhz50 {
        ws := [WriteTriggerLut];
        triggerselect := (1 as bv8 << ledsel1) | (1 as bv8 << ledsel0);
      }
    }

    /** The clock-select part of dev_acquisition_start. */
    method ClockStage(rate: nat) returns (w: RegWrite)
      requires rate > 0
      ensures w == ClockWrite(rate)
    {
      if rate == Mhz200 {
        w := SetRegister(ClockSelect, 0xf0);
      } else if rate == Mhz100 {
        w := SetRegister(ClockSelect, 0x00);
      } else {
        var frac := Mhz50 / rate - 1;
        w := WriteClockSelect50(false, frac, 0);
      }
    }

    /** dev_acquisition_stop */
    method AcquisitionStop() returns (st: Status)
      modifies this`capturing, this`sourceAdded
      ensures st == Ok && !capturing && !sourceAdded
    {
      capturing := false;
      sourceAdded := false;
      st := Ok;
    }
  }
}
