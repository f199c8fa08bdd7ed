/**
 * The DSLogic protocol definitions (src/hardware/fx2lafw/dslogic.h): the
 * vendor commands, the start flags, the operation modes, and the
 * type-length headers of the FPGA configuration, whose length counts
 * 16-bit words and which are in some cases padded with 0xffff.
 */
module DslogicDefs {

  const CmdGetFwVersion: bv8 := 0xb0
  const CmdGetRevidVersion: bv8 := 0xb1
  const CmdStart: bv8 := 0xb2
  const CmdFpgaFw: bv8 := 0xb3
  const CmdConfig: bv8 := 0xb4
  const CmdVth: bv8 := 0xb8

  const NumTriggerStages: nat := 16
  const MaxSamplerate: nat := 100_000_000

  /** The flag bits of the start command's mode byte. */
  const StartFlagsStop: bv8 := 1 << 7
  const StartFlagsClk48Mhz: bv8 := 1 << 6
  const StartFlagsSampleWide: bv8 := 1 << 5

  /** The three flags are distinct single bits. */
  lemma StartFlagsDistinct()
    ensures StartFlagsStop == 0x80 && StartFlagsClk48Mhz == 0x40 && StartFlagsSampleWide == 0x20
    ensures StartFlagsStop & StartFlagsClk48Mhz == 0 && StartFlagsStop & StartFlagsSampleWide == 0
    ensures StartFlagsClk48Mhz & StartFlagsSampleWide == 0
  {
  }

  /** enum dslogic_operation_modes */
  datatype OpMode = Normal | Stream | InternalTest | ExternalTest | LoopbackTest

  /** The enumerator's value: declaration order from 0. */
  function OpModeValue(m: OpMode): (v: nat)
    ensures v < 5
  {
    match m
    case Normal => 0
    case Stream => 1
    case InternalTest => 2
    case ExternalTest => 3
    case LoopbackTest => 4
  }

  /** The enumerators have distinct values, so a mode is recovered from its value. */
  lemma OpModeValueInjective(m: OpMode, n: OpMode)
    ensures OpModeValue(m) == OpModeValue(n) <==> m == n
  {
  }

  /** _DS_CFG(variable, wordcnt): the variable number above the word count. */
  function Cfg(variable: bv32, wordcnt: bv32): bv32 {
    (variable << 8) | wordcnt
  }

  /** _DS_CFG_PAD(variable, wordcnt): the header in the upper 16 bits, 0xffff in the lower. */
  function CfgPad(variable: bv32, wordcnt: bv32): bv32 {
    (Cfg(variable, wordcnt) << 16) | 0xffff
  }

  /**
   * With both parts below 256 the header fits 16 bits and the FPGA reads
   * the variable back from the high byte and the word count from the low.
   */
  lemma CfgDecodes(variable: bv32, wordcnt: bv32)
    requires variable < 0x100 && wordcnt < 0x100
    ensures Cfg(variable, wordcnt) < 0x1_0000
    ensures Cfg(variable, wordcnt) >> 8 == variable && Cfg(variable, wordcnt) & 0xff == wordcnt
  {
  }

  /** The padded header carries the plain header in its upper half and the padding in its lower. */
  lemma CfgPadDecodes(variable: bv32, wordcnt: bv32)
    requires variable < 0x100 && wordcnt < 0x100
    ensures CfgPad(variable, wordcnt) >> 16 == Cfg(variable, wordcnt)
    ensures CfgPad(variable, wordcnt) & 0xffff == 0xffff
  {
    CfgDecodes(variable, wordcnt);
  }

  const CfgStart: bv32 := 0xf5a5f5a5
  const CfgMode: bv32 := Cfg(0, 1)
  const CfgDivider: bv32 := CfgPad(1, 2)
  const CfgCount: bv32 := CfgPad(3, 2)
  const CfgTrigPos: bv32 := CfgPad(5, 2)
  const CfgTrigGlb: bv32 := Cfg(7, 1)
  const CfgTrigAdp: bv32 := CfgPad(10, 2)
  const CfgTrigSda: bv32 := CfgPad(12, 2)
  const CfgTrigMask0: bv32 := CfgPad(16, 16)
  const CfgTrigMask1: bv32 := CfgPad(17, 16)
  const CfgTrigValue0: bv32 := CfgPad(20, 16)
  const CfgTrigValue1: bv32 := CfgPad(21, 16)
  const CfgTrigEdge0: bv32 := CfgPad(24, 16)
  const CfgTrigEdge1: bv32 := CfgPad(25, 16)
  const CfgTrigCount0: bv32 := CfgPad(28, 16)
  const CfgTrigCount1: bv32 := CfgPad(29, 16)
  const CfgTrigLogic0: bv32 := CfgPad(32, 16)
  const CfgTrigLogic1: bv32 := CfgPad(33, 16)
  const CfgEnd: bv32 := 0xfa5afa5a

  /**
   * The unpadded headers (mode, global trigger) fit the uint16_t header
   * fields they are stored in, and say one word follows: the uint16_t
   * value beside them. The 32-bit values carry padded headers saying two
   * words follow.
   */
  lemma HeaderWidths()
    ensures CfgMode == 0x0001 && CfgTrigGlb == 0x0701
    ensures CfgMode < 0x1_0000 && CfgTrigGlb < 0x1_0000
    ensures CfgDivider == 0x0102_ffff && CfgCount == 0x0302_ffff && CfgTrigPos == 0x0502_ffff
    ensures CfgTrigMask0 == 0x1010_ffff && CfgTrigLogic1 == 0x2110_ffff
  {
  }

  /** The sync words open and close a configuration and differ from every header. */
  lemma SyncWordsDistinct()
    ensures CfgStart != CfgEnd
    ensures CfgStart & 0xffff != 0xffff && CfgEnd & 0xffff != 0xffff
    ensures CfgStart >= 0x1_0000 && CfgEnd >= 0x1_0000
  {
  }

  // ---------------------------------------------------------------
  // struct dslogic_fpga_config
  // ---------------------------------------------------------------

  /**
   * The bytes of the members before the trigger arrays: sync, the mode
   * header and mode (uint16_t each), divider, count and trig_pos (header
   * and value, uint32_t each), the trig_glb header and value (uint16_t),
   * trig_adp and trig_sda (uint32_t).
   */
  const HeadSize: nat := 4 + (2 + 2) + (4 + 4) + (4 + 4) + (4 + 4) + (2 + 2) + (4 + 4) + (4 + 4)

  /** A trigger block: a uint32_t header and one element per trigger stage. */
  function TriggerBlockSize(elemSize: nat): nat {
    4 + elemSize * NumTriggerStages
  }

  /**
   * The size of struct dslogic_fpga_config with no padding: the head, the
   * eight blocks of uint16_t stages (mask, value, edge and logic, twice
   * each), the two of uint32_t stages (count), and end_sync.
   */
  const ConfigSize: nat := HeadSize + 8 * TriggerBlockSize(2) + 2 * TriggerBlockSize(4) + 4

  /**
   * The compiler inserts no padding: the two pairs of uint16_t members sit
   * at offsets 4 and 32 and each pair fills four bytes, every block and the
   * head are multiples of four bytes, so every uint32_t member starts on a
   * multiple of four. sizeof is 480 and the length sent before the
   * configuration, sizeof / 2, is 240 words.
   */
  lemma ConfigHasNoPadding()
    ensures HeadSize == 52 && HeadSize % 4 == 0
    ensures TriggerBlockSize(2) % 4 == 0 && TriggerBlockSize(4) % 4 == 0
    ensures ConfigSize == 480 && ConfigSize % 4 == 0 && ConfigSize / 2 == 240
  {
  }

  /**
   * The word counts in the trigger headers against the arrays beside them:
   * a uint16_t block of 16 stages is the 16 words its header announces,
   * while a uint32_t count block holds 32 words under a header announcing 16.
   */
  lemma TriggerHeaderWordCounts()
    ensures (CfgTrigMask0 >> 16) & 0xff == 16 && (CfgTrigLogic1 >> 16) & 0xff == 16
    ensures TriggerBlockSize(2) - 4 == 16 * 2
    ensures (CfgTrigCount0 >> 16) & 0xff == 16 && (CfgTrigCount1 >> 16) & 0xff == 16
    ensures TriggerBlockSize(4) - 4 == 32 * 2
  {
  }
}
