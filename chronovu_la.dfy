/**
 * The API side of the ChronoVu LA8 / LA16 driver
 * (src/hardware/chronovu-la/api.c): the get / set / list switches, the
 * acquisition-parameter packet dev_acquisition_start writes to the FTDI
 * chip, and the block counter of receive_data. The driver's protocol.c
 * and protocol.h are not part of this model: the profile table,
 * NUM_BLOCKS, MAX_NUM_SAMPLES, cv_set_samplerate, cv_samplerate_to_divcount,
 * cv_convert_trigger, cv_write and cv_read_block are parameters or inputs.
 */
module ChronovuLa {
  import opened Common

  /** enum of the two models (CHRONOVU_LA8, CHRONOVU_LA16). */
  datatype Model = La8 | La16

  /** The fields of struct dev_context that config_get / config_set read and write. */
  datatype Settings = Settings(curSamplerate: nat, limitMsec: nat, limitSamples: nat)

  // ---------------------------------------------------------------
  // config_get: the "bus.address" connection string
  // ---------------------------------------------------------------

  /** The decimal digit character of d. */
  function DigitChar(d: nat): (c: char)
    requires d < 10
    ensures '0' <= c <= '9'
  {
    "0123456789"[d]
  }

  /** The value of a decimal digit character. */
  function DigitValue(c: char): (d: nat)
    requires '0' <= c <= '9'
    ensures d < 10
  {
    (c as int - '0' as int) as nat
  }

  predicate IsDigits(s: string) {
    forall i :: 0 <= i < |s| ==> '0' <= s[i] <= '9'
  }

  /** printf's "%d" of a non-negative number. */
  function Decimal(n: nat): (s: string)
    ensures |s| >= 1 && IsDigits(s)
    decreases n
  {
    if n < 10 then [DigitChar(n)] else Decimal(n / 10) + [DigitChar(n % 10)]
  }

  /** The number a string of decimal digits spells. */
  function DecimalValue(s: string): nat
    requires IsDigits(s)
    decreases |s|
  {
    if s == [] then 0 else DecimalValue(s[..|s| - 1]) * 10 + DigitValue(s[|s| - 1])
  }

  /** Reading back what "%d" printed gives the number. */
  lemma {:induction false} DecimalRoundTrip(n: nat)
    ensures DecimalValue(Decimal(n)) == n
    decreases n
  {
    var s := Decimal(n);
    if n < 10 {
      assert s[..0] == [];
    } else {
      DecimalRoundTrip(n / 10);
      assert s[..|s| - 1] == Decimal(n / 10);
      assert DigitValue(s[|s| - 1]) == n % 10;
    }
  }

  /** The string config_get(CONN) returns: "%d.%d" of the USB bus and address. */
  function ConnString(bus: nat, address: nat): string {
    Decimal(bus) + "." + Decimal(address)
  }

  /**
   * The connection string splits at its only dot into the bus and the
   * address: the same "bus.address" form scan's CONN option is parsed from.
   */
  lemma ConnStringParses(bus: nat, address: nat)
    ensures var s := ConnString(bus, address); var k := |Decimal(bus)|;
      k < |s| && s[k] == '.' && IsDigits(s[..k]) && IsDigits(s[k + 1..]) &&
      DecimalValue(s[..k]) == bus && DecimalValue(s[k + 1..]) == address
  {
    var s := ConnString(bus, address);
    var k := |Decimal(bus)|;
    assert s[..k] == Decimal(bus);
    assert s[k + 1..] == Decimal(address);
    DecimalRoundTrip(bus);
    DecimalRoundTrip(address);
  }

  /**
   * config_get. CONN needs a device instance with a USB connection
   * (SR_ERR_ARG otherwise), SAMPLERATE a device instance (SR_ERR_BUG
   * otherwise); every other key is SR_ERR_NA.
   */
  function Get(hasSdi: bool, conn: Option<(nat, nat)>, c: Settings, key: Key): (r: (Status, Option<Variant>))
    ensures r.0 == Ok <==> r.1.Some?
    ensures key !in {Conn, Samplerate} ==> r.0 == ErrNa
    ensures key == Conn ==> (r.0 == Ok <==> hasSdi && conn.Some?) && (r.0 != Ok ==> r.0 == ErrArg)
    ensures key == Conn && r.0 == Ok ==> r.1 == Some(VString(ConnString(conn.value.0, conn.value.1)))
    ensures key == Samplerate ==> r == (if hasSdi then (Ok, Some(VUint64(c.curSamplerate))) else (ErrBug, None))
  {
    if key == Conn then
      (if !hasSdi || conn.None? then (ErrArg, None)
       else (Ok, Some(VString(ConnString(conn.value.0, conn.value.1)))))
    else if key == Samplerate then
      (if !hasSdi then (ErrBug, None) else (Ok, Some(VUint64(c.curSamplerate))))
    else (ErrNa, None)
  }

  // ---------------------------------------------------------------
  // config_set
  // ---------------------------------------------------------------

  /**
   * config_set, with the outcome of cv_set_samplerate as rateOk (that
   * call records the new rate when it succeeds; any failure becomes
   * SR_ERR). A zero time or sample limit is refused.
   */
  function Set(status: DevStatus, c: Settings, key: Key, value: nat, rateOk: bool): (r: (Status, Settings))
    ensures r.0 != Ok ==> r.1 == c
    ensures status != Active ==> r.0 == ErrDevClosed
    ensures status == Active && key == Samplerate ==>
      (r.0 == Ok <==> rateOk) && (r.0 != Ok ==> r.0 == Err) && (r.0 == Ok ==> r.1 == c.(curSamplerate := value))
    ensures status == Active && key == LimitMsec ==>
      (r.0 == Ok <==> value != 0) && (r.0 != Ok ==> r.0 == ErrArg) && (r.0 == Ok ==> r.1 == c.(limitMsec := value))
    ensures status == Active && key == LimitSamples ==>
      (r.0 == Ok <==> value != 0) && (r.0 != Ok ==> r.0 == ErrArg) && (r.0 == Ok ==> r.1 == c.(limitSamples := value))
    ensures status == Active && key !in {Samplerate, LimitMsec, LimitSamples} ==> r.0 == ErrNa
  {
    if status != Active then (ErrDevClosed, c)
    else if key == Samplerate then
      (if !rateOk then (Err, c) else (Ok, c.(curSamplerate := value)))
    else if key == LimitMsec then
      (if value == 0 then (ErrArg, c) else (Ok, c.(limitMsec := value)))
    else if key == LimitSamples then
      (if value == 0 then (ErrArg, c) else (Ok, c.(limitSamples := value)))
    else (ErrNa, c)
  }

  /** What config_set stores, config_get reads back (the samplerate) and no other setting moves. */
  lemma SetThenGet(c: Settings, key: Key, value: nat, rateOk: bool, conn: Option<(nat, nat)>)
    requires Set(Active, c, key, value, rateOk).0 == Ok
    ensures key == Samplerate ==> Get(true, conn, Set(Active, c, key, value, rateOk).1, Samplerate) == (Ok, Some(VUint64(value)))
    ensures key == LimitMsec ==> Set(Active, c, key, value, rateOk).1.limitSamples == c.limitSamples
    ensures key == LimitSamples ==> Set(Active, c, key, value, rateOk).1.limitMsec == c.limitMsec
    ensures Set(Active, c, key, value, rateOk).1.limitMsec != 0 || c.limitMsec == 0
    ensures Set(Active, c, key, value, rateOk).1.limitSamples != 0 || c.limitSamples == 0
  {
  }

  // ---------------------------------------------------------------
  // config_list
  // ---------------------------------------------------------------

  /** devopts[]: the keys and the capabilities the driver lists for a device. */
  const Devopts: seq<ConfOpt> := [
    ConfOpt(LimitMsec, {CapSet}),
    ConfOpt(LimitSamples, {CapSet, CapList}),
    ConfOpt(Conn, {CapGet}),
    ConfOpt(Samplerate, {CapGet, CapSet, CapList}),
    ConfOpt(TriggerMatch, {CapList})]

  /** trigger_matches[] */
  const TriggerMatches: seq<TriggerMatch> := [MatchZero, MatchOne, MatchRising, MatchFalling]

  /** The largest sample count a model can take: all of MAX_NUM_SAMPLES on the LA8, half on the 16-channel LA16. */
  function SampleLimit(model: Model, maxNumSamples: nat): nat {
    if model == La8 then maxNumSamples else maxNumSamples / 2
  }

  /**
   * config_list, with the profile's model and number of trigger matches,
   * MAX_NUM_SAMPLES and the samplerate table cv_fill_samplerates_if_needed
   * builds as inputs. The device-specific keys need a device instance
   * (SR_ERR_BUG otherwise).
   */
  function List(hasSdi: bool, model: Model, numTriggerMatches: nat, maxNumSamples: nat,
                samplerates: seq<nat>, key: Key): (r: (Status, Option<Variant>))
    requires numTriggerMatches <= |TriggerMatches|
    ensures r.0 == Ok <==> r.1.Some?
    ensures key == ScanOptions ==> r == (Ok, Some(VOptions([ConfOpt(Conn, {})])))
    ensures key == DeviceOptions ==>
      r == (Ok, Some(VOptions(if hasSdi then Devopts else [ConfOpt(LogicAnalyzer, {})])))
    ensures key in {Samplerate, LimitSamples, TriggerMatch} ==> (r.0 == Ok <==> hasSdi) && (r.0 != Ok ==> r.0 == ErrBug)
    ensures key == LimitSamples && hasSdi ==> r.1 == Some(VRange(0, SampleLimit(model, maxNumSamples)))
    ensures key == TriggerMatch && hasSdi ==> r.1 == Some(VMatches(TriggerMatches[..numTriggerMatches]))
    ensures key !in {ScanOptions, DeviceOptions, Samplerate, LimitSamples, TriggerMatch} ==> r.0 == ErrNa
  {
    if key == ScanOptions then (Ok, Some(VOptions([ConfOpt(Conn, {})])))
    else if key == DeviceOptions then
      (Ok, Some(VOptions(if hasSdi then Devopts else [ConfOpt(LogicAnalyzer, {})])))
    else if key == Samplerate then
      (if !hasSdi then (ErrBug, None) else (Ok, Some(VSamplerateList(samplerates))))
    else if key == LimitSamples then
      (if !hasSdi then (ErrBug, None) else (Ok, Some(VRange(0, SampleLimit(model, maxNumSamples)))))
    else if key == TriggerMatch then
      (if !hasSdi then (ErrBug, None) else (Ok, Some(VMatches(TriggerMatches[..numTriggerMatches]))))
    else (ErrNa, None)
  }

  /** The LA16 stores two bytes per sample, so its range is half the LA8's and never larger. */
  lemma SampleLimitHalves(maxNumSamples: nat)
    ensures SampleLimit(La16, maxNumSamples) * 2 <= SampleLimit(La8, maxNumSamples)
    ensures SampleLimit(La8, maxNumSamples) < SampleLimit(La16, maxNumSamples) * 2 + 2
  {
  }

  // ---------------------------------------------------------------
  // dev_acquisition_start: the acquisition-parameter packet
  // ---------------------------------------------------------------

  /** The high and the low byte of a 16-bit trigger word. */
  function High(w: bv16): bv8 { ((w & 0xff00) >> 8) as bv8 }
  function Low(w: bv16): bv8 { (w & 0x00ff) as bv8 }

  /** A 16-bit word from its high and its low byte. */
  function Word(hi: bv8, lo: bv8): bv16 { (hi as bv16 << 8) | lo as bv16 }

  /** High and Low split a word into two bytes that Word puts back together. */
  lemma WordRoundTrip(w: bv16)
    ensures Word(High(w), Low(w)) == w
  {
  }

  /**
   * The bytes dev_acquisition_start writes: the divider count, the fixed
   * 0xff, then on the LA8 the low bytes of the trigger pattern and mask, on
   * the LA16 pattern, mask and edge mask as two bytes each.
   */
  function ParamPacket(model: Model, divcount: bv8, pattern: bv16, mask: bv16, edgemask: bv16): (b: seq<bv8>)
    ensures |b| == ParamLength(model)
  {
    if model == La8 then [divcount, 0xff, Low(pattern), Low(mask)]
    else [divcount, 0xff, High(pattern), Low(pattern), High(mask), Low(mask), High(edgemask), Low(edgemask)]
  }

  /** The bytes cv_write is asked to send: 4 on the LA8, 8 on the LA16. */
  function ParamLength(model: Model): nat {
    if model == La8 then 4 else 8
  }

  /**
   * The packet is 4 bytes on the LA8 and 8 on the LA16, byte 1 is always
   * 0xff, and the device can read every parameter back from it: on the LA16
   * each trigger word travels high byte first (whatever the comments beside
   * the code say), on the LA8 the low bytes of pattern and mask, which are
   * all of its 8 channels.
   */
  lemma ParamPacketDecodes(model: Model, divcount: bv8, pattern: bv16, mask: bv16, edgemask: bv16)
    ensures var b := ParamPacket(model, divcount, pattern, mask, edgemask);
      |b| == (if model == La8 then 4 else 8) && b[0] == divcount && b[1] == 0xff &&
      (model == La8 ==> b[2] as bv16 == pattern & 0xff && b[3] as bv16 == mask & 0xff) &&
      (model == La16 ==> Word(b[2], b[3]) == pattern && Word(b[4], b[5]) == mask && Word(b[6], b[7]) == edgemask)
  {
    WordRoundTrip(pattern);
    WordRoundTrip(mask);
    WordRoundTrip(edgemask);
  }

  /** The SDRAM blocks of one acquisition, in order. */
  function Blocks(n: nat): (ps: seq<Packet>)
    ensures |ps| == n && forall i :: 0 <= i < n ==> ps[i] == Block(i)
  {
    seq(n, (i: int) requires 0 <= i => Block(i))
  }

  // ---------------------------------------------------------------
  // receive_data
  // ---------------------------------------------------------------

  /** What one receive_data call does with the FTDI context open. */
  datatype Step = Step(keep: bool, counter: nat, sent: seq<Packet>, stops: bool)

  /**
   * receive_data after a cv_read_block that returned readRet: a failed
   * read stops the acquisition; otherwise the counter counts the block,
   * and the last of numBlocks sends every block and stops.
   */
  function ReceiveStep(counter: nat, numBlocks: nat, readRet: int): (s: Step)
    requires numBlocks >= 1
    ensures s.stops <==> readRet < 0 || counter == numBlocks - 1
    ensures s.stops ==> s.counter == counter && |s.sent| >= 1 && s.sent[|s.sent| - 1] == End
    ensures !s.stops ==> s.keep && s.counter == counter + 1 && s.sent == []
    ensures readRet < 0 ==> !s.keep && s.sent == [End]
    ensures readRet >= 0 && counter == numBlocks - 1 ==> s.keep && s.sent == Blocks(numBlocks) + [End]
  {
    if readRet < 0 then Step(false, counter, [End], true)
    else if counter != numBlocks - 1 then Step(true, counter + 1, [], false)
    else Step(true, counter, Blocks(numBlocks) + [End], true)
  }

  /**
   * What k successful receive_data calls send from a counter, up to the
   * call that stops the acquisition (the source is removed then, so no
   * further call comes).
   */
  function Run(counter: nat, numBlocks: nat, k: nat): seq<Packet>
    requires numBlocks >= 1
    decreases k
  {
    if k == 0 then []
    else
      var s := ReceiveStep(counter, numBlocks, 0);
      if s.stops then s.sent else s.sent + Run(s.counter, numBlocks, k - 1)
  }

  /**
   * From the counter dev_acquisition_start leaves (0), the first
   * numBlocks - 1 reads send nothing; the numBlocks-th sends every block in
   * order and the end packet; later calls add nothing.
   */
  lemma {:induction false} RunCollectsAllBlocks(counter: nat, numBlocks: nat, k: nat)
    requires counter < numBlocks
    ensures k < numBlocks - counter ==> Run(counter, numBlocks, k) == []
    ensures k >= numBlocks - counter ==> Run(counter, numBlocks, k) == Blocks(numBlocks) + [End]
    decreases k
  {
    if k > 0 {
      var s := ReceiveStep(counter, numBlocks, 0);
      if counter == numBlocks - 1 {
        assert Run(counter, numBlocks, k) == s.sent;
      } else {
        assert Run(counter, numBlocks, k) == [] + Run(counter + 1, numBlocks, k - 1);
        RunCollectsAllBlocks(counter + 1, numBlocks, k - 1);
      }
    }
  }

  // ---------------------------------------------------------------
  // The device
  // ---------------------------------------------------------------

  /** One LA8 or LA16 with its FTDI context, its settings and what the driver sent. */
  class ChronovuDevice {
    /** The profile's model, its trigger_constant, and NUM_BLOCKS (protocol.h). */
    const model: Model
    const triggerConstant: nat
    const numBlocks: nat
    var status: DevStatus
    var settings: Settings
    /** devc->ftdic != NULL */
    var hasFtdic: bool
    var divcount: bv8
    /** The trigger words cv_convert_trigger leaves in devc. */
    var triggerPattern: bv16
    var triggerMask: bv16
    var triggerEdgemask: bv16
    var done: int
    var blockCounter: nat
    var triggerFound: bool
    var sourceAdded: bool
    /** The byte strings handed to cv_write, in order. */
    var writes: seq<seq<bv8>>
    var packets: seq<Packet>

    predicate Valid()
      reads this
    {
      numBlocks >= 1 && blockCounter < numBlocks
    }

    /** add_device: a new device with the profile's highest rate and no limits or trigger. */
    constructor (model: Model, maxSamplerate: nat, triggerConstant: nat, numBlocks: nat)
      requires numBlocks >= 1
      ensures Valid()
      ensures this.model == model && this.triggerConstant == triggerConstant && this.numBlocks == numBlocks
      ensures status == Initializing && settings == Settings(maxSamplerate, 0, 0) && !hasFtdic
      ensures triggerPattern == 0 && triggerMask == 0 && triggerEdgemask == 0
      ensures done == 0 && blockCounter == 0 && divcount == 0 && !triggerFound
      ensures !sourceAdded && writes == [] && packets == []
    {
      this.model := model;
      this.triggerConstant := triggerConstant;
      this.numBlocks := numBlocks;
      status := Initializing;
      settings := Settings(maxSamplerate, 0, 0);
      hasFtdic := false;
      divcount := 0;
      triggerPattern := 0;
      triggerMask := 0;
      triggerEdgemask := 0;
      done := 0;
      blockCounter := 0;
      triggerFound := false;
      sourceAdded := false;
      writes := [];
      packets := [];
    }

    /**
     * dev_open with the outcomes of ftdi_new and the return codes of the
     * open, purge and flow-control calls. A negative code from any of the
     * three frees the FTDI context and is returned with the status
     * unchanged; otherwise the device becomes active. A positive
     * flow-control code (never returned by libftdi) is handed back after
     * the device was made active, with the context freed, as written.
     */
    method DevOpen(newOk: bool, openRet: int, purgeRet: int, flowRet: int) returns (st: Status)
      modifies this`status, this`hasFtdic
      ensures !newOk ==> st == Err && status == old(status) && !hasFtdic
      ensures newOk && (openRet < 0 || purgeRet < 0 || flowRet < 0) ==>
        st == Failed(if openRet < 0 then openRet else if purgeRet < 0 then purgeRet else flowRet) &&
        !hasFtdic && status == old(status)
      ensures newOk && openRet >= 0 && purgeRet >= 0 && flowRet >= 0 ==> status == Active
      ensures newOk && openRet >= 0 && purgeRet >= 0 && flowRet == 0 ==> st == Ok && hasFtdic
      ensures newOk && openRet >= 0 && purgeRet >= 0 && flowRet > 0 ==> st == Failed(flowRet) && !hasFtdic
    {
      if !newOk {
        hasFtdic := false;
        return Err;
      }
      hasFtdic := true;
      if openRet < 0 {
        hasFtdic := false;
        return Failed(openRet);
      }
      if purgeRet < 0 {
        hasFtdic := false;
        return Failed(purgeRet);
      }
      if flowRet < 0 {
        hasFtdic := false;
        return Failed(flowRet);
      }
      status := Active;
      if flowRet == 0 {
        return Ok;
      }
      hasFtdic := false;
      st := Failed(flowRet);
    }

    /** dev_close: an inactive device is left alone; a failing ftdi_usb_close is only logged. */
    method DevClose() returns (st: Status)
      modifies this`status
      ensures st == Ok
      ensures status == (if old(status) == Active then Inactive else old(status))
    {
      if status != Active {
        return Ok;
      }
      status := Inactive;
      st := Ok;
    }

    method ConfigGet(hasSdi: bool, conn: Option<(nat, nat)>, key: Key) returns (r: (Status, Option<Variant>))
      ensures r == Get(hasSdi, conn, settings, key)
    {
      r := Get(hasSdi, conn, settings, key);
    }

    /** config_set, with the outcome of cv_set_samplerate as rateOk. */
    method ConfigSet(key: Key, value: nat, rateOk: bool) returns (st: Status)
      modifies this`settings
      ensures (st, settings) == Set(status, old(settings), key, value, rateOk)
    {
      var r := Set(status, settings, key, value, rateOk);
      st := r.0;
      settings := r.1;
    }

    /** Fills the acquisition-parameter buffer buf[] byte by byte; n is bytes_to_write. */
    method FillParams() returns (buf: array<bv8>, n: nat)
      ensures fresh(buf) && n <= buf.Length
      ensures buf[..n] == ParamPacket(model, divcount, triggerPattern, triggerMask, triggerEdgemask)
    {
      buf := new bv8[8];
      buf[0] := divcount;
      buf[1] := 0xff;
      if model == La8 {
        buf[2] := Low(triggerPattern);
        buf[3] := Low(triggerMask);
        n := 4;
      } else {
        buf[2] := High(triggerPattern);
        buf[3] := Low(triggerPattern);
        buf[4] := High(triggerMask);
        buf[5] := Low(triggerMask);
        buf[6] := High(triggerEdgemask);
        buf[7] := Low(triggerEdgemask);
        n := 8;
      }
    }

    /**
     * dev_acquisition_start. Inputs: the divider cv_samplerate_to_divcount
     * computes for the current rate (0xff when it has none), the outcome of
     * cv_convert_trigger with the trigger words it sets, what cv_write
     * returns, and the monotonic clock in microseconds.
     */
    method AcquisitionStart(rateDivcount: bv8, convertOk: bool, pattern: bv16, mask: bv16, edgemask: bv16,
                            written: int, now: int) returns (st: Status)
      requires Valid()
      modifies this`divcount, this`triggerPattern, this`triggerMask, this`triggerEdgemask, this`writes,
        this`packets, this`done, this`blockCounter, this`triggerFound, this`sourceAdded
      ensures Valid()
      ensures old(status) != Active ==> st == ErrDevClosed && writes == old(writes) && packets == old(packets)
      ensures old(status) == Active && !hasFtdic ==> st == ErrBug && writes == old(writes)
      ensures old(status) == Active && hasFtdic ==> divcount == rateDivcount
      ensures old(status) == Active && hasFtdic && (rateDivcount == 0xff || !convertOk) ==>
        st == Err && writes == old(writes) && packets == old(packets)
      ensures old(status) == Active && hasFtdic && rateDivcount != 0xff && convertOk ==>
        writes == old(writes) + [ParamPacket(model, rateDivcount, pattern, mask, edgemask)] &&
        (st == Ok <==> written == ParamLength(model)) &&
        (st != Ok ==> st == Err && packets == old(packets))
      ensures st == Ok ==> (packets == old(packets) + [Header] && sourceAdded && blockCounter == 0 && !triggerFound &&
        done == (rateDivcount as int + 1) * triggerConstant + now + 10_000_000)
    {
      if status != Active {
        return ErrDevClosed;
      }
      if !hasFtdic {
        return ErrBug;
      }
      divcount := rateDivcount;
      if divcount == 0xff {
        return Err;
      }
      if !convertOk {
        return Err;
      }
      triggerPattern, triggerMask, triggerEdgemask := pattern, mask, edgemask;
      st := SendParams(written, now);
    }

    /**
     * The second half of dev_acquisition_start: the parameter packet is
     * written, and only a complete write starts the acquisition.
     */
    method SendParams(written: int, now: int) returns (st: Status)
      requires Valid()
      modifies this`writes, this`packets, this`done, this`blockCounter, this`triggerFound, this`sourceAdded
      ensures Valid()
      ensures writes == old(writes) + [ParamPacket(model, divcount, triggerPattern, triggerMask, triggerEdgemask)]
      ensures st == Ok <==> written == ParamLength(model)
      ensures st != Ok ==> st == Err && packets == old(packets)
      ensures st == Ok ==> (packets == old(packets) + [Header] && sourceAdded && blockCounter == 0 && !triggerFound &&
        done == (divcount as int + 1) * triggerConstant + now + 10_000_000)
    {
      var sent := ParamBytes();
      writes := writes + [sent];
      if written < 0 || written != |sent| {
        return Err;
      }
      Launch(now);
      st := Ok;
    }

    /** The bytes of the parameter buffer that cv_write is given. */
    method ParamBytes() returns (bytes: seq<bv8>)
      ensures bytes == ParamPacket(model, divcount, triggerPattern, triggerMask, triggerEdgemask)
    {
      var buf, n := FillParams();
      bytes := buf[..n];
    }

    /** The header goes out and the source is added, with the acquisition's deadline. */
    method Launch(now: int)
      requires Valid()
      modifies this`packets, this`done, this`blockCounter, this`triggerFound, this`sourceAdded
      ensures Valid()
      ensures packets == old(packets) + [Header] && sourceAdded && blockCounter == 0 && !triggerFound
      ensures done == (divcount as int + 1) * triggerConstant + now + 10_000_000
    {
      packets := packets + [Header];
      done := (divcount as int + 1) * triggerConstant + now + 10_000_000;
      blockCounter := 0;
      triggerFound := false;
      sourceAdded := true;
    }

    /** dev_acquisition_stop: removes the source and sends the end packet. */
    method AcquisitionStop() returns (st: Status)
      modifies this`sourceAdded, this`packets
      ensures st == Ok && !sourceAdded && packets == old(packets) + [End]
    {
      sourceAdded := false;
      packets := packets + [End];
      st := Ok;
    }

    /** Sends every SDRAM block to the session bus, in order. */
    method SendBlocks()
      modifies this`packets
      ensures packets == old(packets) + Blocks(numBlocks)
    {
      var i := 0;
      while i < numBlocks
        invariant i <= numBlocks
        invariant packets == old(packets) + Blocks(i)
      {
        packets := packets + [Block(i)];
        i := i + 1;
      }
    }

    /** receive_data, with what cv_read_block returns as readRet. */
    method ReceiveData(readRet: int) returns (keep: bool)
      requires Valid()
      modifies this`blockCounter, this`packets, this`sourceAdded
      ensures Valid()
      ensures !hasFtdic ==> !keep && packets == old(packets) && blockCounter == old(blockCounter)
      ensures hasFtdic ==> var s := ReceiveStep(old(blockCounter), numBlocks, readRet);
        keep == s.keep && blockCounter == s.counter && packets == old(packets) + s.sent &&
        sourceAdded == (old(sourceAdded) && !s.stops)
    {
      if !hasFtdic {
        return false;
      }
      if readRet < 0 {
        var _ := AcquisitionStop();
        return false;
      }
      if blockCounter != numBlocks - 1 {
        blockCounter := blockCounter + 1;
        return true;
      }
      SendBlocks();
      var _ := AcquisitionStop();
      keep := true;
    }
  }
}
