/**
 * The DSLogic side of the fx2lafw driver (src/hardware/fx2lafw/dslogic.c):
 * the mode bytes of the start and stop commands, and the FPGA
 * configuration -- the 3-byte length announcement, the mode word built
 * bit by bit, and the configuration record sent in one bulk transfer.
 * USB transfers are recorded, their outcomes are inputs.
 * DS_START_FLAGS_MODE_LA lives in the driver's protocol.h, which is not
 * part of this model; it is a parameter.
 */
module Dslogic {
  import opened Common
  import opened DslogicDefs
  import Arith

  /** What the driver hands to libusb, in order. */
  datatype Transfer =
    | Control(request: bv8, data: seq<bv8>)   // a vendor control transfer, OUT
    | Bulk(config: FpgaConfig)                // the configuration record on endpoint 2, OUT

  /** A trigger block of the configuration: its header and its stages. */
  datatype TriggerBlock = TriggerBlock(header: bv32, stages: seq<nat>)

  /**
   * struct dslogic_fpga_config by member, its 32-bit values as numbers
   * below 2^32. The trigger values (trig_glb,
   * trig_adp, trig_sda and the stage arrays) are never written by
   * dslogic_fpga_configure; they keep whatever the stack held.
   */
  datatype FpgaConfig = FpgaConfig(
    sync: bv32,
    modeHeader: bv16, mode: bv16,
    dividerHeader: bv32, divider: nat,
    countHeader: bv32, count: nat,
    trigPosHeader: bv32, trigPos: nat,
    trigGlbHeader: bv16, trigGlb: bv16,
    trigAdpHeader: bv32, trigAdp: bv32,
    trigSdaHeader: bv32, trigSda: bv32,
    /** mask0, mask1, value0, value1, edge0, edge1, count0, count1, logic0, logic1 */
    triggers: seq<TriggerBlock>,
    endSync: bv32)

  /** The headers of the ten trigger blocks, in struct order. */
  const TriggerHeaders: seq<bv32> := [
    CfgTrigMask0, CfgTrigMask1, CfgTrigValue0, CfgTrigValue1, CfgTrigEdge0, CfgTrigEdge1,
    CfgTrigCount0, CfgTrigCount1, CfgTrigLogic0, CfgTrigLogic1]

  // ---------------------------------------------------------------
  // Start and stop
  // ---------------------------------------------------------------

  /** struct dslogic_mode as sent: flags, sample_delay_h, sample_delay_l. */
  function ModeBytes(flags: bv8): seq<bv8> {
    [flags, 0, 0]
  }

  /** The start flags: the logic-analyzer mode, and SAMPLE_WIDE for 16-bit samples. */
  function StartFlags(modeLa: bv8, sampleWide: bool): (f: bv8)
    ensures f & StartFlagsSampleWide != 0 <==> sampleWide || modeLa & StartFlagsSampleWide != 0
    ensures f & !StartFlagsSampleWide == modeLa & !StartFlagsSampleWide
  {
    if sampleWide then modeLa | StartFlagsSampleWide else modeLa
  }

  /**
   * When the logic-analyzer mode does not use the stop bit, a start
   * command never reads as a stop: the device tells them apart by bit 7
   * alone.
   */
  lemma StartIsNotStop(modeLa: bv8, sampleWide: bool)
    requires modeLa & StartFlagsStop == 0
    ensures StartFlags(modeLa, sampleWide) & StartFlagsStop == 0
    ensures ModeBytes(StartFlags(modeLa, sampleWide)) != ModeBytes(StartFlagsStop)
  {
  }

  // ---------------------------------------------------------------
  // The length announcement
  // ---------------------------------------------------------------

  /** Three bytes, least significant first. */
  function Le3(len: bv32): seq<bv8> {
    [(len & 0xff) as bv8, ((len >> 8) & 0xff) as bv8, ((len >> 16) & 0xff) as bv8]
  }

  /**
   * The device reassembles a length below 2^24 from the three bytes; the
   * configuration's 240 words go out as [0xf0, 0, 0].
   */
  lemma Le3RoundTrip(len: bv32)
    requires len < 0x100_0000
    ensures var c := Le3(len); (c[0] as bv32) | (c[1] as bv32 << 8) | (c[2] as bv32 << 16) == len
    ensures Le3((ConfigSize / 2) as bv32) == [0xf0, 0x00, 0x00]
  {
    ConfigHasNoPadding();
  }

  // ---------------------------------------------------------------
  // The mode word
  // ---------------------------------------------------------------

  const Mhz200: nat := 200_000_000
  const Mhz400: nat := 400_000_000

  /** Bit i of a 16-bit word. */
  predicate Bit(v: bv16, i: nat)
    requires i < 16
  {
    (v >> i) & 1 == 1
  }

  /** The test-mode bit of an operation mode: 15 internal, 14 external, 13 loopback, none otherwise. */
  function TestBits(m: OpMode): bv16 {
    if m == InternalTest then 1 << 15
    else if m == ExternalTest then 1 << 14
    else if m == LoopbackTest then 1 << 13
    else 0
  }

  /**
   * The FPGA mode word: the test mode, then external clock (bit 1), clock
   * edge (bit 2), 200 MHz (bit 5), 400 MHz (bit 6), filter (bit 8) and RLE
   * (bit 3). Every other bit (trigger enable, analog, DSO) stays clear.
   */
  function ModeWord(m: OpMode, externalClock: bool, clockEdge: bool, rate: nat, filter: bool, rle: bool): (v: bv16)
    ensures Bit(v, 15) <==> m == InternalTest
    ensures Bit(v, 14) <==> m == ExternalTest
    ensures Bit(v, 13) <==> m == LoopbackTest
    ensures Bit(v, 1) <==> externalClock
    ensures Bit(v, 2) <==> clockEdge
    ensures Bit(v, 3) <==> rle
    ensures Bit(v, 5) <==> rate == Mhz200
    ensures Bit(v, 6) <==> rate == Mhz400
    ensures Bit(v, 8) <==> filter
    ensures v & 0x1e91 == 0
  {
    TestBits(m)
    | (if externalClock then 1 << 1 else 0)
    | (if clockEdge then 1 << 2 else 0)
    | (if rate == Mhz200 then 1 << 5 else 0)
    | (if rate == Mhz400 then 1 << 6 else 0)
    | (if filter then 1 << 8 else 0)
    | (if rle then 1 << 3 else 0)
  }

  /** At most one of the three test-mode bits is set. */
  lemma AtMostOneTestMode(m: OpMode, externalClock: bool, clockEdge: bool, rate: nat, filter: bool, rle: bool)
    ensures var v := ModeWord(m, externalClock, clockEdge, rate, filter, rle);
      !(Bit(v, 15) && Bit(v, 14)) && !(Bit(v, 15) && Bit(v, 13)) && !(Bit(v, 14) && Bit(v, 13))
    ensures var v := ModeWord(m, externalClock, clockEdge, rate, filter, rle); !(Bit(v, 5) && Bit(v, 6))
  {
  }

  /** The settings a mode word carries, as the FPGA reads them. */
  datatype ModeSettings = ModeSettings(test: OpMode, externalClock: bool, clockEdge: bool,
                                       rate200: bool, rate400: bool, filter: bool, rle: bool)

  /** The FPGA's reading of a mode word; normal and stream mode both read as Normal. */
  function DecodeMode(v: bv16): ModeSettings {
    ModeSettings(
      if Bit(v, 15) then InternalTest else if Bit(v, 14) then ExternalTest
      else if Bit(v, 13) then LoopbackTest else Normal,
      Bit(v, 1), Bit(v, 2), Bit(v, 5), Bit(v, 6), Bit(v, 8), Bit(v, 3))
  }

  /** Every setting the mode word carries is read back as the driver had it. */
  lemma ModeWordRoundTrip(m: OpMode, externalClock: bool, clockEdge: bool, rate: nat, filter: bool, rle: bool)
    ensures DecodeMode(ModeWord(m, externalClock, clockEdge, rate, filter, rle)) ==
      ModeSettings(if m == Stream then Normal else m, externalClock, clockEdge,
                   rate == Mhz200, rate == Mhz400, filter, rle)
  {
  }

  // ---------------------------------------------------------------
  // Divider and count
  // ---------------------------------------------------------------

  /** ceil(100 MHz / rate), the divider of the FPGA's 100 MHz base clock. */
  function Divider(rate: nat): (d: nat)
    requires rate > 0
  {
    (MaxSamplerate + rate - 1) / rate
  }

  /**
   * The divider is the smallest one whose rate does not exceed the
   * requested rate: 100 MHz / d <= rate < 100 MHz / (d - 1).
   */
  lemma DividerIsCeiling(rate: nat)
    requires rate > 0
    ensures Divider(rate) * rate >= MaxSamplerate
    ensures (Divider(rate) - 1) * rate < MaxSamplerate
    ensures Divider(rate) >= 1 && Divider(rate) <= MaxSamplerate
  {
    var n := MaxSamplerate + rate - 1;
    var d, r := n / rate, n % rate;
    assert n == d * rate + r && 0 <= r < rate;
    assert d * rate >= MaxSamplerate;
    assert d >= 1;
    assert (d - 1) * rate == d * rate - rate;
    if d >= 2 {
      Arith.MulAtLeast(d - 1, rate);
    }
  }

  const Two32: nat := 0x1_0000_0000

  /** WL32 stores the 64-bit sample limit in a 32-bit field: the count is the limit modulo 2^32. */
  function Count(limitSamples: nat): (c: nat)
    ensures c < Two32
    ensures limitSamples < Two32 ==> c == limitSamples
    ensures limitSamples >= Two32 ==> c < limitSamples
  {
    limitSamples % Two32
  }

  // ---------------------------------------------------------------
  // The device
  // ---------------------------------------------------------------

  /** A DSLogic's settings (struct dev_context) and the transfers made to it. */
  class DslogicDevice {
    var sampleWide: bool
    var opMode: OpMode
    var externalClock: bool
    var clockEdge: bool
    var filter: bool
    var rle: bool
    var curSamplerate: nat
    var limitSamples: nat
    var transfers: seq<Transfer>

    constructor (sampleWide: bool, opMode: OpMode, externalClock: bool, clockEdge: bool, filter: bool, rle: bool,
                 curSamplerate: nat, limitSamples: nat)
      ensures this.sampleWide == sampleWide && this.opMode == opMode && this.externalClock == externalClock
      ensures this.clockEdge == clockEdge && this.filter == filter && this.rle == rle
      ensures this.curSamplerate == curSamplerate && this.limitSamples == limitSamples && transfers == []
    {
      this.sampleWide := sampleWide;
      this.opMode := opMode;
      this.externalClock := externalClock;
      this.clockEdge := clockEdge;
      this.filter := filter;
      this.rle := rle;
      this.curSamplerate := curSamplerate;
      this.limitSamples := limitSamples;
      transfers := [];
    }

    /** Fills struct dslogic_mode: the flags and two zero delay bytes. */
    static method FillMode(flags: bv8) returns (mode: array<bv8>)
      ensures fresh(mode) && mode[..] == ModeBytes(flags)
    {
      mode := new bv8[3];
      mode[0] := flags;
      mode[1], mode[2] := 0, 0;
    }

    /** dslogic_start_acquisition, with the control transfer's return code. */
    method StartAcquisition(modeLa: bv8, ret: int) returns (st: Status)
      modifies this`transfers
      ensures transfers == old(transfers) + [Control(CmdStart, ModeBytes(StartFlags(modeLa, sampleWide)))]
      ensures st == (if ret < 0 then Err else Ok)
    {
      var flags := modeLa;
      if sampleWide {
        flags := flags | StartFlagsSampleWide;
      }
      var mode := FillMode(flags);
      transfers := transfers + [Control(CmdStart, mode[..])];
      st := if ret < 0 then Err else Ok;
    }

    /** dslogic_stop_acquisition, with the control transfer's return code. */
    method StopAcquisition(ret: int) returns (st: Status)
      modifies this`transfers
      ensures transfers == old(transfers) + [Control(CmdStart, ModeBytes(StartFlagsStop))]
      ensures st == (if ret < 0 then Err else Ok)
    {
      var mode := FillMode(StartFlagsStop);
      transfers := transfers + [Control(CmdStart, mode[..])];
      st := if ret < 0 then Err else Ok;
    }

    /** c[]: the length in 16-bit words, least significant byte first. */
    static method FillLength(len: bv32) returns (c: array<bv8>)
      ensures fresh(c) && c[..] == Le3(len)
    {
      c := new bv8[3];
      c[0] := (len & 0xff) as bv8;
      c[1] := ((len >> 8) & 0xff) as bv8;
      c[2] := ((len >> 16) & 0xff) as bv8;
    }

    /** The mode word, built with one |= per setting as the driver does. */
    method BuildModeWord() returns (v16: bv16)
      ensures v16 == ModeWord(opMode, externalClock, clockEdge, curSamplerate, filter, rle)
    {
      v16 := 0;
      if opMode == InternalTest {
        v16 := 1 << 15;
      } else if opMode == ExternalTest {
        v16 := 1 << 14;
      } else if opMode == LoopbackTest {
        v16 := 1 << 13;
      }
      if externalClock {
        v16 := v16 | (1 << 1);
      }
      if clockEdge {
        v16 := v16 | (1 << 2);
      }
      if curSamplerate == Mhz200 {
        v16 := v16 | (1 << 5);
      }
      if curSamplerate == Mhz400 {
        v16 := v16 | (1 << 6);
      }
      if filter {
        v16 := v16 | (1 << 8);
      }
      if rle {
        v16 := v16 | (1 << 3);
      }
    }

    /** The sync words and every header, written over the stack contents. */
    static method WriteHeaders(stack: FpgaConfig) returns (cfg: FpgaConfig)
      requires |stack.triggers| == 10
      ensures cfg == WithHeaders(stack)
    {
      HeaderWidths();
      cfg := stack.(sync := CfgStart);
      cfg := cfg.(modeHeader := CfgMode as bv16);
      cfg := cfg.(dividerHeader := CfgDivider);
      cfg := cfg.(countHeader := CfgCount);
      cfg := cfg.(trigPosHeader := CfgTrigPos);
      cfg := cfg.(trigGlbHeader := CfgTrigGlb as bv16);
      cfg := cfg.(trigAdpHeader := CfgTrigAdp);
      cfg := cfg.(trigSdaHeader := CfgTrigSda);
      var t := cfg.triggers;
      var i := 0;
      while i < 10
        invariant i <= 10 && |t| == 10
        invariant forall j :: 0 <= j < i ==> t[j] == stack.triggers[j].(header := TriggerHeaders[j])
        invariant forall j :: i <= j < 10 ==> t[j] == stack.triggers[j]
      {
        t := t[i := t[i].(header := TriggerHeaders[i])];
        i := i + 1;
      }
      cfg := cfg.(triggers := t);
      cfg := cfg.(endSync := CfgEnd);
    }

    /**
     * dslogic_fpga_configure. Inputs: what the stack held where cfg lives,
     * the return code of the length announcement, and the outcome of the
     * bulk transfer.
     */
    method FpgaConfigure(stack: FpgaConfig, ctrlRet: int, bulkRet: int, transferred: int) returns (st: Status)
      requires |stack.triggers| == 10 && curSamplerate > 0
      modifies this`transfers
      ensures ctrlRet < 0 ==> st == Err && transfers == old(transfers) + [Control(CmdConfig, Le3((ConfigSize / 2) as bv32))]
      ensures ctrlRet >= 0 ==>
        transfers == old(transfers) + [Control(CmdConfig, Le3((ConfigSize / 2) as bv32)),
          Bulk(ConfigRecord(stack, ModeWord(opMode, externalClock, clockEdge, curSamplerate, filter, rle),
                            Divider(curSamplerate), limitSamples))]
      ensures ctrlRet >= 0 ==> st == (if bulkRet < 0 || transferred != ConfigSize then Err else Ok)
    {
      var cfg := WriteHeaders(stack);
      ConfigHasNoPadding();
      var c := FillLength((ConfigSize / 2) as bv32);
      transfers := transfers + [Control(CmdConfig, c[..])];
      if ctrlRet < 0 {
        return Err;
      }
      var v16 := BuildModeWord();
      cfg := cfg.(mode := v16);
      cfg := cfg.(divider := Divider(curSamplerate));
      cfg := cfg.(count := Count(limitSamples));
      cfg := cfg.(trigPos := 50);
      transfers := transfers + [Bulk(cfg)];
      if bulkRet < 0 || transferred != ConfigSize {
        return Err;
      }
      st := Ok;
    }
  }

  /** The ten trigger blocks with their headers written. */
  function WithTriggerHeaders(t: seq<TriggerBlock>): seq<TriggerBlock>
    requires |t| == 10
  {
    seq(10, (i: int) requires 0 <= i < 10 => t[i].(header := TriggerHeaders[i]))
  }

  /** The configuration record after the header writes: sync words and headers over the stack contents. */
  function WithHeaders(stack: FpgaConfig): FpgaConfig
    requires |stack.triggers| == 10
  {
    stack.(sync := CfgStart, modeHeader := CfgMode as bv16, dividerHeader := CfgDivider,
      countHeader := CfgCount, trigPosHeader := CfgTrigPos, trigGlbHeader := CfgTrigGlb as bv16,
      trigAdpHeader := CfgTrigAdp, trigSdaHeader := CfgTrigSda,
      triggers := WithTriggerHeaders(stack.triggers), endSync := CfgEnd)
  }

  /** The record dslogic_fpga_configure sends. */
  function ConfigRecord(stack: FpgaConfig, mode: bv16, divider: nat, limitSamples: nat): FpgaConfig
    requires |stack.triggers| == 10
  {
    WithHeaders(stack).(mode := mode, divider := divider, count := Count(limitSamples), trigPos := 50)
  }

  /**
   * The record dslogic_fpga_configure sends: the sync words and headers,
   * the mode word, the divider, the count and a trigger position of 50,
   * with every trigger value as the stack held it.
   */
  predicate Configured(cfg: FpgaConfig, stack: FpgaConfig, mode: bv16, divider: nat, limitSamples: nat) {
    cfg.sync == CfgStart && cfg.endSync == CfgEnd &&
    cfg.modeHeader as bv32 == CfgMode && cfg.mode == mode &&
    cfg.dividerHeader == CfgDivider && cfg.divider == divider &&
    cfg.countHeader == CfgCount && cfg.count == Count(limitSamples) &&
    cfg.trigPosHeader == CfgTrigPos && cfg.trigPos == 50 &&
    cfg.trigGlbHeader as bv32 == CfgTrigGlb && cfg.trigGlb == stack.trigGlb &&
    cfg.trigAdpHeader == CfgTrigAdp && cfg.trigAdp == stack.trigAdp &&
    cfg.trigSdaHeader == CfgTrigSda && cfg.trigSda == stack.trigSda &&
    |cfg.triggers| == 10 && |stack.triggers| == 10 &&
    (forall i :: 0 <= i < 10 ==> cfg.triggers[i].header == TriggerHeaders[i]) &&
    (forall i :: 0 <= i < 10 ==> cfg.triggers[i].stages == stack.triggers[i].stages)
  }

  /**
   * The record sent frames the configuration with the two sync words, puts
   * every header in place, carries the mode word, divider, count and
   * trigger position, and leaves every trigger value as the stack held it.
   */
  lemma ConfigRecordIsConfigured(stack: FpgaConfig, mode: bv16, divider: nat, limitSamples: nat)
    requires |stack.triggers| == 10
    ensures Configured(ConfigRecord(stack, mode, divider, limitSamples), stack, mode, divider, limitSamples)
  {
    HeaderWidths();
  }
}
