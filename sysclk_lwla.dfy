/**
 * The configuration side of the SysClk LWLA driver
 * (src/hardware/sysclk-lwla/api.c): option lookup against the model's
 * device-option words, the get/set/list switches, the 64-bit channel mask,
 * the trigger masks derived from the session trigger, and the cancel logic
 * of stop and close. The model table (model_info, MAX_LIMIT_MSEC,
 * MAX_LIMIT_SAMPLES, the enumerations) lives in the driver's protocol.h,
 * which is not part of this model: a model is a value of ModelInfo.
 */
module SysclkLwla {
  import opened Common
  import opened Search

  // ---------------------------------------------------------------
  // 64-bit masks, one bit per channel
  // ---------------------------------------------------------------

  /** A uint64 channel mask as its 64 bits, bit i (UINT64_C(1) << i) at position i. */
  type Mask64 = s: seq<bool> | |s| == 64 witness Clear(64)

  /** n clear bits */
  function Clear(n: nat): (s: seq<bool>)
    ensures |s| == n && forall i :: 0 <= i < n ==> !s[i]
  {
    if n == 0 then [] else [false] + Clear(n - 1)
  }

  const NoBits: Mask64 := Clear(64)

  /** (UINT64_C(1) << n) - 1: exactly the bits of channels 0..n-1. */
  function AllChannels(n: nat): (m: Mask64)
    requires n < 64
    ensures forall i :: 0 <= i < 64 ==> (m[i] <==> i < n)
  {
    seq(64, i => i < n)
  }

  // ---------------------------------------------------------------
  // Device-option words and has_devopt
  // ---------------------------------------------------------------

  /** SR_CONF_GET, SR_CONF_SET, SR_CONF_LIST and SR_CONF_MASK of libsigrok.h */
  const ConfGet: bv32 := 0x8000_0000
  const ConfSet: bv32 := 0x4000_0000
  const ConfList: bv32 := 0x2000_0000
  const ConfMask: bv32 := 0x1fff_ffff

  function CapBit(c: Cap): (b: bv32)
    ensures b & ConfMask == 0 && b != 0
  {
    match c
    case CapGet => ConfGet
    case CapSet => ConfSet
    case CapList => ConfList
  }

  /** One device-option word answers the query `key` (a key code, possibly with capability bits). */
  predicate Answers(entry: bv32, key: bv32) {
    entry & (ConfMask | key) == key
  }

  /** has_devopt: some device-option word answers the query. */
  predicate Listed(devopts: seq<bv32>, key: bv32) {
    exists i :: 0 <= i < |devopts| && Answers(devopts[i], key)
  }

  /** The loop of has_devopt. */
  method HasDevopt(devopts: seq<bv32>, key: bv32) returns (found: bool)
    ensures found == Listed(devopts, key)
  {
    var i := 0;
    while i < |devopts|
      invariant 0 <= i <= |devopts|
      invariant forall j :: 0 <= j < i ==> !Answers(devopts[j], key)
    {
      if devopts[i] & (ConfMask | key) == key {
        return true;
      }
      i := i + 1;
    }
    return false;
  }

  /** One of the three capability bits. */
  predicate IsCapBit(c: bv32) {
    c == ConfGet || c == ConfSet || c == ConfList
  }

  lemma AnswersKeyPart(entry: bv32, key: bv32, c: bv32)
    requires key & ConfMask == key && IsCapBit(c) && Answers(entry, key | c)
    ensures entry & ConfMask == key
  {}

  lemma AnswersCapPart(entry: bv32, key: bv32, c: bv32)
    requires key & ConfMask == key && IsCapBit(c) && Answers(entry, key | c)
    ensures entry & c != 0
  {}

  lemma AnswersFromParts(entry: bv32, key: bv32, c: bv32)
    requires key & ConfMask == key && IsCapBit(c) && entry & ConfMask == key && entry & c != 0
    ensures Answers(entry, key | c)
  {}

  /**
   * What the query `key | cap` asks of one word, for a key code clear of
   * the capability bits: that its key part is key and that it carries the
   * capability.
   */
  lemma AnswersMeaning(entry: bv32, key: bv32, c: bv32)
    requires key & ConfMask == key && IsCapBit(c)
    ensures Answers(entry, key | c) <==> entry & ConfMask == key && entry & c != 0
  {
    if Answers(entry, key | c) {
      AnswersKeyPart(entry, key, c);
      AnswersCapPart(entry, key, c);
    }
    if entry & ConfMask == key && entry & c != 0 {
      AnswersFromParts(entry, key, c);
    }
  }

  // ---------------------------------------------------------------
  // Constant tables
  // ---------------------------------------------------------------

  /** trigger_matches[] */
  const TriggerMatches: seq<TriggerMatch> := [MatchZero, MatchOne, MatchRising, MatchFalling]
  /** trigger_source_names[], indexed by TRIGGER_CHANNELS and TRIGGER_EXT_TRG */
  const TriggerSourceNames: seq<string> := ["CH", "TRG"]
  /** signal_edge_names[], indexed by EDGE_POSITIVE and EDGE_NEGATIVE */
  const SignalEdgeNames: seq<string> := ["r", "f"]

  /**
   * One LWLA model (struct model_info) as this file uses it, with the
   * driver-wide MAX_LIMIT_MSEC and MAX_LIMIT_SAMPLES carried along.
   */
  datatype ModelInfo = ModelInfo(
    numChannels: nat,
    samplerates: seq<nat>,
    devopts: seq<bv32>,
    maxLimitMsec: nat,
    maxLimitSamples: nat)

  /** The model has a samplerate table to index, and its channel mask fits a uint64 shift. */
  predicate ModelValid(m: ModelInfo) {
    |m.samplerates| > 0 && m.numChannels < 64
  }

  /** The samplerate table runs from the fastest rate down. */
  predicate Descending(s: seq<nat>) {
    forall i, j :: 0 <= i <= j < |s| ==> s[j] <= s[i]
  }

  // ---------------------------------------------------------------
  // Settings: the configurable fields of struct dev_context
  // ---------------------------------------------------------------

  /** enum clock_source */
  datatype ClockSource = ClockInternal | ClockExtClk

  datatype Settings = Settings(
    samplerate: nat,
    limitMsec: nat,
    limitSamples: nat,
    rle: bool,
    clockSource: ClockSource,
    clockEdge: nat,
    triggerSource: nat,
    triggerSlope: nat)

  /** The table indices config_get reads back are in range. */
  predicate SettingsValid(c: Settings) {
    c.clockEdge < |SignalEdgeNames| && c.triggerSource < |TriggerSourceNames| && c.triggerSlope < |SignalEdgeNames|
  }

  /**
   * dev_inst_new: the fastest samplerate and RLE on; everything else is
   * the zero of g_malloc0, which is the first member of each enumeration.
   */
  function Defaults(m: ModelInfo): (c: Settings)
    requires ModelValid(m)
    ensures SettingsValid(c)
  {
    Settings(m.samplerates[0], 0, 0, true, ClockInternal, 0, 0, 0)
  }

  /** The value types GLib's getters demand of config_set's uint64 and boolean keys. */
  predicate ValueTyped(key: Key, value: Variant) {
    (key == Samplerate || key == LimitMsec || key == LimitSamples ==> value.VUint64?) &&
    (key == Rle || key == ExternalClock ==> value.VBool?)
  }

  /** lookup_index: the first entry equal to the string, or -1; a non-string yields no entry. */
  function Lookup(value: Variant, table: seq<string>): (i: int)
    ensures -1 <= i < |table|
    ensures i >= 0 ==> value.VString? && table[i] == value.s
    ensures i == -1 <==> !value.VString? || value.s !in table
  {
    if value.VString? then FirstIndex(table, value.s) else -1
  }

  /** The keys config_get's switch handles. */
  predicate Readable(key: Key) {
    key == Samplerate || key == LimitMsec || key == LimitSamples || key == Rle ||
    key == ExternalClock || key == ClockEdge || key == TriggerSource || key == TriggerSlope
  }

  /** has_devopt(model, key | cap): the model lists key with the capability. */
  predicate Allows(m: ModelInfo, code: Key -> bv32, key: Key, cap: Cap) {
    Listed(m.devopts, code(key) | CapBit(cap))
  }

  /** The switch of config_get, once the key is known to be gettable. */
  function Read(c: Settings, key: Key): (r: (Status, Option<Variant>))
    ensures r.0 == Ok <==> r.1.Some?
    ensures r.0 == Ok || r.0 == ErrBug
    ensures !Readable(key) ==> r.0 == ErrBug
    ensures Readable(key) && SettingsValid(c) ==> r.0 == Ok
  {
    if key == Samplerate then (Ok, Some(VUint64(c.samplerate)))
    else if key == LimitMsec then (Ok, Some(VUint64(c.limitMsec)))
    else if key == LimitSamples then (Ok, Some(VUint64(c.limitSamples)))
    else if key == Rle then (Ok, Some(VBool(c.rle)))
    else if key == ExternalClock then (Ok, Some(VBool(c.clockSource == ClockExtClk)))
    else if key == ClockEdge then
      (if c.clockEdge >= |SignalEdgeNames| then (ErrBug, None) else (Ok, Some(VString(SignalEdgeNames[c.clockEdge]))))
    else if key == TriggerSource then
      (if c.triggerSource >= |TriggerSourceNames| then (ErrBug, None) else (Ok, Some(VString(TriggerSourceNames[c.triggerSource]))))
    else if key == TriggerSlope then
      (if c.triggerSlope >= |SignalEdgeNames| then (ErrBug, None) else (Ok, Some(VString(SignalEdgeNames[c.triggerSlope]))))
    else (ErrBug, None)
  }

  /** config_get: a key the model does not list as gettable is not available. */
  function Get(m: ModelInfo, code: Key -> bv32, c: Settings, key: Key): (r: (Status, Option<Variant>))
    ensures r.0 == Ok <==> r.1.Some?
    ensures !Allows(m, code, key, CapGet) ==> r.0 == ErrNa
    ensures Allows(m, code, key, CapGet) && !Readable(key) ==> r.0 == ErrBug
    ensures Allows(m, code, key, CapGet) && Readable(key) && SettingsValid(c) ==> r.0 == Ok
  {
    if !Allows(m, code, key, CapGet) then (ErrNa, None) else Read(c, key)
  }

  /** d differs from c at most in the field that key sets. */
  predicate SameExcept(c: Settings, d: Settings, key: Key) {
    (key != Samplerate ==> d.samplerate == c.samplerate) &&
    (key != LimitMsec ==> d.limitMsec == c.limitMsec) &&
    (key != LimitSamples ==> d.limitSamples == c.limitSamples) &&
    (key != Rle ==> d.rle == c.rle) &&
    (key != ExternalClock ==> d.clockSource == c.clockSource) &&
    (key != ClockEdge ==> d.clockEdge == c.clockEdge) &&
    (key != TriggerSource ==> d.triggerSource == c.triggerSource) &&
    (key != TriggerSlope ==> d.triggerSlope == c.triggerSlope)
  }

  /** The switch of config_set, once the key is known to be settable. */
  function Write(m: ModelInfo, c: Settings, key: Key, value: Variant): (r: (Status, Settings))
    requires ModelValid(m) && ValueTyped(key, value)
    ensures r.0 != Ok ==> r.1 == c
    ensures SameExcept(c, r.1, key)
    ensures SettingsValid(c) ==> SettingsValid(r.1)
    ensures !Readable(key) ==> r.0 == ErrBug
    ensures key == Samplerate ==>
      (r.0 == Ok <==> m.samplerates[|m.samplerates| - 1] <= value.u <= m.samplerates[0]) &&
      (r.0 != Ok ==> r.0 == ErrSamplerate)
    ensures key == LimitMsec ==> (r.0 == Ok <==> value.u <= m.maxLimitMsec) && (r.0 != Ok ==> r.0 == ErrArg)
    ensures key == LimitSamples ==> (r.0 == Ok <==> value.u <= m.maxLimitSamples) && (r.0 != Ok ==> r.0 == ErrArg)
    ensures key == Rle || key == ExternalClock ==> r.0 == Ok
    ensures key == ClockEdge || key == TriggerSlope ==>
      (r.0 == Ok <==> value.VString? && value.s in SignalEdgeNames) && (r.0 != Ok ==> r.0 == ErrArg)
    ensures key == TriggerSource ==>
      (r.0 == Ok <==> value.VString? && value.s in TriggerSourceNames) && (r.0 != Ok ==> r.0 == ErrArg)
  {
    if key == Samplerate then
      (if value.u < m.samplerates[|m.samplerates| - 1] || value.u > m.samplerates[0] then (ErrSamplerate, c)
       else (Ok, c.(samplerate := value.u)))
    else if key == LimitMsec then
      (if value.u > m.maxLimitMsec then (ErrArg, c) else (Ok, c.(limitMsec := value.u)))
    else if key == LimitSamples then
      (if value.u > m.maxLimitSamples then (ErrArg, c) else (Ok, c.(limitSamples := value.u)))
    else if key == Rle then (Ok, c.(rle := value.b))
    else if key == ExternalClock then (Ok, c.(clockSource := if value.b then ClockExtClk else ClockInternal))
    else if key == ClockEdge then
      var idx := Lookup(value, SignalEdgeNames);
      if idx < 0 then (ErrArg, c) else (Ok, c.(clockEdge := idx))
    else if key == TriggerSource then
      var idx := Lookup(value, TriggerSourceNames);
      if idx < 0 then (ErrArg, c) else (Ok, c.(triggerSource := idx))
    else if key == TriggerSlope then
      var idx := Lookup(value, SignalEdgeNames);
      if idx < 0 then (ErrArg, c) else (Ok, c.(triggerSlope := idx))
    else (ErrBug, c)
  }

  /** The string-valued keys store the index they look up in their own setting, or fail with SR_ERR_ARG. */
  lemma WriteIndex(m: ModelInfo, c: Settings, key: Key, value: Variant)
    requires ModelValid(m) && (key == ClockEdge || key == TriggerSource || key == TriggerSlope)
    ensures var idx := Lookup(value, if key == TriggerSource then TriggerSourceNames else SignalEdgeNames);
      Write(m, c, key, value) ==
        if idx < 0 then (ErrArg, c)
        else if key == ClockEdge then (Ok, c.(clockEdge := idx))
        else if key == TriggerSource then (Ok, c.(triggerSource := idx))
        else (Ok, c.(triggerSlope := idx))
  {
  }

  /** config_set: a key the model does not list as settable is not available and changes nothing. */
  function Set(m: ModelInfo, code: Key -> bv32, c: Settings, key: Key, value: Variant): (r: (Status, Settings))
    requires ModelValid(m) && ValueTyped(key, value)
    ensures r.0 != Ok ==> r.1 == c
    ensures !Allows(m, code, key, CapSet) ==> r.0 == ErrNa
  {
    if !Allows(m, code, key, CapSet) then (ErrNa, c) else Write(m, c, key, value)
  }

  /** A value config_set accepted is what config_get then returns, for a key that can be read. */
  lemma SetThenGet(m: ModelInfo, code: Key -> bv32, c: Settings, c2: Settings, key: Key, value: Variant)
    requires ModelValid(m) && ValueTyped(key, value)
    requires c2 == Set(m, code, c, key, value).1 && Set(m, code, c, key, value).0 == Ok
    requires Allows(m, code, key, CapGet) && Readable(key)
    ensures Get(m, code, c2, key) == (Ok, Some(value))
  {
    if key == ClockEdge || key == TriggerSlope {
      assert SignalEdgeNames[Lookup(value, SignalEdgeNames)] == value.s;
    } else if key == TriggerSource {
      assert TriggerSourceNames[Lookup(value, TriggerSourceNames)] == value.s;
    }
  }

  /** Setting one key leaves the reading of every other key as it was. */
  lemma SetIsolated(m: ModelInfo, code: Key -> bv32, c: Settings, c2: Settings, key: Key, value: Variant, key2: Key)
    requires ModelValid(m) && ValueTyped(key, value) && key2 != key
    requires c2 == Set(m, code, c, key, value).1
    ensures Get(m, code, c2, key2) == Get(m, code, c, key2)
  {
    assert SameExcept(c, c2, key);
  }

  /** What a fresh device reads back for its defaults. */
  lemma DefaultReadings(m: ModelInfo)
    requires ModelValid(m)
    ensures Read(Defaults(m), Samplerate) == (Ok, Some(VUint64(m.samplerates[0])))
    ensures Read(Defaults(m), LimitMsec) == (Ok, Some(VUint64(0)))
    ensures Read(Defaults(m), LimitSamples) == (Ok, Some(VUint64(0)))
    ensures Read(Defaults(m), Rle) == (Ok, Some(VBool(true)))
  {}

  /** The clock and trigger settings a fresh device reads back. */
  lemma DefaultClockReadings(m: ModelInfo)
    requires ModelValid(m)
    ensures Read(Defaults(m), ExternalClock) == (Ok, Some(VBool(false)))
    ensures Read(Defaults(m), ClockEdge) == (Ok, Some(VString("r")))
    ensures Read(Defaults(m), TriggerSlope) == (Ok, Some(VString("r")))
    ensures Read(Defaults(m), TriggerSource) == (Ok, Some(VString("CH")))
  {}

  // ---------------------------------------------------------------
  // config_list
  // ---------------------------------------------------------------

  /** The switch of config_list, once the key is known to be listable. */
  function Choices(m: ModelInfo, key: Key): (r: (Status, Option<Variant>))
    ensures r.0 == Ok <==> r.1.Some?
    ensures r.0 == Ok || r.0 == ErrBug
  {
    if key == Samplerate then (Ok, Some(VSamplerateList(m.samplerates)))
    else if key == TriggerMatch then (Ok, Some(VMatches(TriggerMatches)))
    else if key == TriggerSource then (Ok, Some(VStrings(TriggerSourceNames)))
    else if key == TriggerSlope || key == ClockEdge then (Ok, Some(VStrings(SignalEdgeNames)))
    else (ErrBug, None)
  }

  /** config_list, with sdi given by its model (None for a NULL sdi). */
  function List(sdi: Option<ModelInfo>, code: Key -> bv32, key: Key): (r: (Status, Option<Variant>))
    ensures r.0 == Ok <==> r.1.Some?
    ensures sdi.None? ==> (r.0 == Ok <==> key == ScanOptions || key == DeviceOptions)
    ensures sdi.None? && r.0 != Ok ==> r.0 == ErrArg
    ensures sdi.Some? && key != ScanOptions && key != DeviceOptions && !Allows(sdi.value, code, key, CapList) ==>
      r.0 == ErrNa
  {
    if key == ScanOptions then (Ok, Some(VKeys([code(Conn)])))
    else if sdi.None? then
      (if key != DeviceOptions then (ErrArg, None) else (Ok, Some(VKeys([code(LogicAnalyzer)]))))
    else if key == DeviceOptions then (Ok, Some(VKeys(sdi.value.devopts)))
    else DeviceChoices(sdi.value, code, key)
  }

  /** The part of config_list that looks the key up in the device's options: the listed choices. */
  function DeviceChoices(m: ModelInfo, code: Key -> bv32, key: Key): (r: (Status, Option<Variant>))
    ensures r.0 == Ok <==> r.1.Some?
    ensures !Allows(m, code, key, CapList) <==> r == (ErrNa, None)
    ensures Allows(m, code, key, CapList) ==> r == Choices(m, key)
  {
    if !Allows(m, code, key, CapList) then (ErrNa, None)
    else Choices(m, key)
  }

  /** With the samplerate table in descending order, every listed samplerate is accepted by config_set. */
  lemma ListedSamplerateAccepted(m: ModelInfo, c: Settings, rates: seq<nat>, i: nat)
    requires ModelValid(m) && Descending(m.samplerates)
    requires Choices(m, Samplerate) == (Ok, Some(VSamplerateList(rates))) && i < |rates|
    ensures Write(m, c, Samplerate, VUint64(rates[i])) == (Ok, c.(samplerate := rates[i]))
  {
    assert m.samplerates[|m.samplerates| - 1] <= m.samplerates[i] <= m.samplerates[0];
  }

  /** Every name config_list offers for a string key is accepted by config_set and read back unchanged. */
  lemma ListedNameAccepted(m: ModelInfo, c: Settings, key: Key, names: seq<string>, i: nat)
    requires ModelValid(m) && Choices(m, key) == (Ok, Some(VStrings(names))) && i < |names|
    ensures Write(m, c, key, VString(names[i])).0 == Ok
    ensures Read(Write(m, c, key, VString(names[i])).1, key) == (Ok, Some(VString(names[i])))
  {
    assert key == TriggerSource || key == TriggerSlope || key == ClockEdge;
    assert names[i] in names;
    var value := VString(names[i]);
    if key == TriggerSource {
      assert TriggerSourceNames[Lookup(value, TriggerSourceNames)] == value.s;
    } else {
      assert SignalEdgeNames[Lookup(value, SignalEdgeNames)] == value.s;
    }
  }

  // ---------------------------------------------------------------
  // config_channel_set
  // ---------------------------------------------------------------

  /**
   * config_channel_set on the channel mask: an index outside the model's
   * channels is a bug; otherwise, when an enable change is asked for, the
   * channel's bit follows `enabled` and no other bit moves.
   */
  function ChannelSet(n: nat, mask: Mask64, index: int, enabled: bool, changes: bv32): (r: (Status, Mask64))
    requires n < 64
    ensures r.0 == Ok || r.0 == ErrBug
    ensures r.0 == ErrBug <==> !(0 <= index < n)
    ensures r.0 == ErrBug || changes & ChannelSetEnabled == 0 ==> r.1 == mask
    ensures r.0 == Ok && changes & ChannelSetEnabled != 0 ==>
      r.1[index] == enabled && forall j :: 0 <= j < 64 && j != index ==> r.1[j] == mask[j]
  {
    if index < 0 || index >= n then (ErrBug, mask)
    else if changes & ChannelSetEnabled == 0 then (Ok, mask)
    else (Ok, mask[index := enabled])
  }

  /** Enabling a disabled channel and then disabling it again gives back the mask. */
  lemma ChannelSetUndo(n: nat, mask: Mask64, index: int, changes: bv32)
    requires n < 64 && 0 <= index < n && !mask[index] && changes & ChannelSetEnabled != 0
    ensures ChannelSet(n, ChannelSet(n, mask, index, true, changes).1, index, false, changes) == (Ok, mask)
  {
    assert mask[index := true][index := false] == mask;
  }

  /** The same request twice leaves the mask as one request does. */
  lemma ChannelSetIdempotent(n: nat, mask: Mask64, index: int, enabled: bool, changes: bv32)
    requires n < 64
    ensures var once := ChannelSet(n, mask, index, enabled, changes).1;
      ChannelSet(n, once, index, enabled, changes) == (ChannelSet(n, mask, index, enabled, changes).0, once)
  {
    if 0 <= index < n && changes & ChannelSetEnabled != 0 {
      assert mask[index := enabled][index := enabled] == mask[index := enabled];
    }
  }

  // ---------------------------------------------------------------
  // prepare_trigger_masks
  // ---------------------------------------------------------------

  /** One sr_trigger_match, with the index and enabled flag of its channel. */
  datatype MatchEntry = MatchEntry(index: int, enabled: bool, cond: TriggerMatch)

  datatype Masks = Masks(mask: Mask64, values: Mask64, edges: Mask64)

  /** What prepare_trigger_masks does with the device's masks: keeps them, stores new ones, or fails. */
  datatype TriggerOutcome = Keep | Store(masks: Masks) | Reject(status: Status)

  predicate Supported(t: TriggerMatch) {
    t == MatchZero || t == MatchOne || t == MatchRising || t == MatchFalling
  }

  /** level_bit: the channel must be high (ONE) or go high (RISING). */
  predicate SetsLevel(t: TriggerMatch) {
    t == MatchOne || t == MatchRising
  }

  /** type_bit: the condition is an edge. */
  predicate SetsEdge(t: TriggerMatch) {
    t == MatchRising || t == MatchFalling
  }

  /** An enabled match that makes the loop fail. */
  predicate Bad(e: MatchEntry, n: nat) {
    e.enabled && (!(0 <= e.index < n) || !Supported(e.cond))
  }

  /** The status the loop returns for a bad match: the index check comes first. */
  function BadStatus(e: MatchEntry, n: nat): Status {
    if !(0 <= e.index < n) then ErrBug else ErrArg
  }

  /** An enabled match on channel j. */
  predicate Names(e: MatchEntry, j: int) {
    e.enabled && e.index == j
  }

  /**
   * One turn of the match loop over masks k: the channel's bit goes into
   * the trigger mask, its level_bit into the value mask and its type_bit
   * into the edge mask.
   */
  function AddMatch(k: Masks, e: MatchEntry, n: nat): TriggerOutcome
    requires n < 64
  {
    if !e.enabled then Store(k)
    else if e.index < 0 || e.index >= n then Reject(ErrBug)
    else if !Supported(e.cond) then Reject(ErrArg)
    else
      var i := e.index;
      Store(Masks(k.mask[i := true], k.values[i := k.values[i] || SetsLevel(e.cond)],
                  k.edges[i := k.edges[i] || SetsEdge(e.cond)]))
  }

  /** Once a prefix of the stage fails, the stage fails the same way. */
  lemma {:induction false} FoldSticky(ms: seq<MatchEntry>, n: nat, i: nat)
    requires n < 64 && i <= |ms| && Fold(ms[..i], n).Reject?
    ensures Fold(ms, n) == Fold(ms[..i], n)
    decreases |ms|
  {
    if i < |ms| {
      var init := ms[..|ms| - 1];
      assert init[..i] == ms[..i];
      FoldSticky(init, n, i);
    } else {
      assert ms[..i] == ms;
    }
  }

  /** The match loop over a stage, from all-zero masks, stopping at the first failure. */
  function Fold(ms: seq<MatchEntry>, n: nat): (r: TriggerOutcome)
    requires n < 64
    ensures !r.Keep?
    ensures r.Reject? ==> r.status == ErrBug || r.status == ErrArg
    decreases |ms|
  {
    if ms == [] then Store(Masks(NoBits, NoBits, NoBits))
    else
      var r := Fold(ms[..|ms| - 1], n);
      if r.Store? then AddMatch(r.masks, ms[|ms| - 1], n) else r
  }

  /**
   * prepare_trigger_masks, with the session trigger as its list of stages
   * (None for no trigger): no trigger or no stage keeps the masks, more
   * than one stage is refused, and one stage folds its matches.
   */
  function Prepare(trigger: Option<seq<seq<MatchEntry>>>, n: nat): (r: TriggerOutcome)
    requires n < 64
    ensures trigger.None? || trigger.value == [] <==> r.Keep?
    ensures trigger.Some? && |trigger.value| > 1 ==> r == Reject(ErrArg)
    ensures r.Reject? ==> r.status == ErrBug || r.status == ErrArg
  {
    if trigger.None? || trigger.value == [] then Keep
    else if |trigger.value| > 1 then Reject(ErrArg)
    else Fold(trigger.value[0], n)
  }

  lemma {:induction false} FoldRejects(ms: seq<MatchEntry>, n: nat)
    requires n < 64
    ensures Fold(ms, n).Reject? <==> exists k :: 0 <= k < |ms| && Bad(ms[k], n)
    decreases |ms|
  {
    if ms != [] {
      var init := ms[..|ms| - 1];
      FoldRejects(init, n);
      if exists k :: 0 <= k < |init| && Bad(init[k], n) {
        var k :| 0 <= k < |init| && Bad(init[k], n);
        assert ms[k] == init[k];
      }
      if exists k :: 0 <= k < |ms| && Bad(ms[k], n) {
        var k :| 0 <= k < |ms| && Bad(ms[k], n);
        if k < |init| {
          assert init[k] == ms[k];
        }
      }
    }
  }

  /** A stage fails with the status of its first bad match. */
  lemma {:induction false} FoldFirstBad(ms: seq<MatchEntry>, n: nat, k: nat)
    requires n < 64 && k < |ms| && Bad(ms[k], n)
    requires forall j :: 0 <= j < k ==> !Bad(ms[j], n)
    ensures Fold(ms, n) == Reject(BadStatus(ms[k], n))
    decreases |ms|
  {
    var init := ms[..|ms| - 1];
    if k < |init| {
      FoldFirstBad(init, n, k);
    } else {
      FoldRejects(init, n);
      assert !Fold(init, n).Reject? by {
        forall j | 0 <= j < |init| ensures !Bad(init[j], n) {
          assert init[j] == ms[j];
        }
      }
    }
  }

  /**
   * The masks a stage stores: bit j of the trigger mask is set exactly when
   * some enabled match is on channel j, of the value mask when one of those
   * asks for ONE or RISING, of the edge mask when one asks for RISING or
   * FALLING.
   */
  lemma {:induction false} FoldMasks(ms: seq<MatchEntry>, n: nat, j: int)
    requires n < 64 && 0 <= j < 64 && Fold(ms, n).Store?
    ensures var r := Fold(ms, n).masks;
      (r.mask[j] <==> exists k :: 0 <= k < |ms| && Names(ms[k], j)) &&
      (r.values[j] <==> exists k :: 0 <= k < |ms| && Names(ms[k], j) && SetsLevel(ms[k].cond)) &&
      (r.edges[j] <==> exists k :: 0 <= k < |ms| && Names(ms[k], j) && SetsEdge(ms[k].cond))
    decreases |ms|
  {
    if ms != [] {
      var init := ms[..|ms| - 1];
      FoldMasks(init, n, j);
      ExistsSplit(ms, j);
    }
  }

  /** Only channels of the trigger mask have value or edge bits. */
  lemma FoldMasksNested(ms: seq<MatchEntry>, n: nat, j: int)
    requires n < 64 && 0 <= j < 64 && Fold(ms, n).Store?
    ensures var r := Fold(ms, n).masks; (r.values[j] || r.edges[j]) ==> r.mask[j]
  {
    FoldMasks(ms, n, j);
  }

  /** The existential of FoldMasks over a sequence, split into its prefix and its last match. */
  lemma ExistsSplit(ms: seq<MatchEntry>, j: int)
    requires ms != []
    ensures var init, e := ms[..|ms| - 1], ms[|ms| - 1];
      ((exists k :: 0 <= k < |ms| && Names(ms[k], j)) <==>
       (exists k :: 0 <= k < |init| && Names(init[k], j)) || Names(e, j)) &&
      ((exists k :: 0 <= k < |ms| && Names(ms[k], j) && SetsLevel(ms[k].cond)) <==>
       (exists k :: 0 <= k < |init| && Names(init[k], j) && SetsLevel(init[k].cond)) || (Names(e, j) && SetsLevel(e.cond))) &&
      ((exists k :: 0 <= k < |ms| && Names(ms[k], j) && SetsEdge(ms[k].cond)) <==>
       (exists k :: 0 <= k < |init| && Names(init[k], j) && SetsEdge(init[k].cond)) || (Names(e, j) && SetsEdge(e.cond)))
  {
    var init := ms[..|ms| - 1];
    assert forall k :: 0 <= k < |init| ==> init[k] == ms[k];
  }

  // ---------------------------------------------------------------
  // The device
  // ---------------------------------------------------------------

  /** One LWLA device: sdi->status and the fields of struct dev_context this file uses. */
  class LwlaDevice {
    const model: ModelInfo
    /** The numbering of the configuration keys (the SR_CONF_* values of libsigrok.h). */
    const code: Key -> bv32
    var status: DevStatus
    var samplerate: nat
    var limitMsec: nat
    var limitSamples: nat
    var cfgRle: bool
    var clockSource: ClockSource
    var clockEdge: nat
    var triggerSource: nat
    var triggerSlope: nat
    var channelMask: Mask64
    var triggerMask: Mask64
    var triggerValues: Mask64
    var triggerEdgeMask: Mask64
    /** devc->state == STATE_IDLE */
    var idle: bool
    var cancelRequested: bool
    /** devc->acquisition is set. */
    var acquiring: bool

    ghost predicate Valid()
      reads this
    {
      ModelValid(model) && SettingsValid(Config())
    }

    function Config(): Settings
      reads this
    {
      Settings(samplerate, limitMsec, limitSamples, cfgRle, clockSource, clockEdge, triggerSource, triggerSlope)
    }

    function TriggerMasks(): Masks
      reads this
    {
      Masks(triggerMask, triggerValues, triggerEdgeMask)
    }

    /** dev_inst_new */
    constructor (model: ModelInfo, code: Key -> bv32)
      requires ModelValid(model)
      ensures Valid() && this.model == model && this.code == code
      ensures status == Inactive && Config() == Defaults(model)
      ensures channelMask == AllChannels(model.numChannels)
      ensures TriggerMasks() == Masks(NoBits, NoBits, NoBits) && idle && !cancelRequested && !acquiring
    {
      this.model := model;
      this.code := code;
      status := Inactive;
      samplerate := model.samplerates[0];
      limitMsec := 0;
      limitSamples := 0;
      cfgRle := true;
      clockSource := ClockInternal;
      clockEdge := 0;
      triggerSource := 0;
      triggerSlope := 0;
      channelMask := AllChannels(model.numChannels);
      triggerMask, triggerValues, triggerEdgeMask := NoBits, NoBits, NoBits;
      idle := true;
      cancelRequested := false;
      acquiring := false;
    }

    /** config_get */
    method ConfigGet(key: Key) returns (st: Status, data: Option<Variant>)
      requires Valid()
      ensures (st, data) == Get(model, code, Config(), key)
    {
      var listed := HasDevopt(model.devopts, code(key) | CapBit(CapGet));
      if !listed {
        return ErrNa, None;
      }
      st, data := ReadSetting(key);
    }

    /** The switch of config_get; the table indices are in range, so no ErrBug comes from them. */
    method ReadSetting(key: Key) returns (st: Status, data: Option<Variant>)
      requires Valid()
      ensures (st, data) == Read(Config(), key)
    {
      st := Ok;
      if key == Samplerate {
        data := Some(VUint64(samplerate));
      } else if key == LimitMsec {
        data := Some(VUint64(limitMsec));
      } else if key == LimitSamples {
        data := Some(VUint64(limitSamples));
      } else if key == Rle {
        data := Some(VBool(cfgRle));
      } else if key == ExternalClock {
        data := Some(VBool(clockSource == ClockExtClk));
      } else if key == ClockEdge {
        data := Some(VString(SignalEdgeNames[clockEdge]));
      } else if key == TriggerSource {
        data := Some(VString(TriggerSourceNames[triggerSource]));
      } else if key == TriggerSlope {
        data := Some(VString(SignalEdgeNames[triggerSlope]));
      } else {
        st, data := ErrBug, None;
      }
    }

    /** lookup_index */
    static method LookupIndex(value: Variant, table: seq<string>) returns (idx: int)
      ensures idx == Lookup(value, table)
    {
      if !value.VString? {
        return -1;
      }
      idx := IndexOf(table, value.s);
    }

    /** config_set */
    method ConfigSet(key: Key, value: Variant) returns (st: Status)
      requires Valid() && ValueTyped(key, value)
      modifies this`samplerate, this`limitMsec, this`limitSamples, this`cfgRle, this`clockSource,
               this`clockEdge, this`triggerSource, this`triggerSlope
      ensures Valid()
      ensures (st, Config()) == Set(model, code, old(Config()), key, value)
    {
      var listed := HasDevopt(model.devopts, code(key) | CapBit(CapSet));
      if !listed {
        return ErrNa;
      }
      st := WriteSetting(key, value);
    }

    /** The switch of config_set. */
    method WriteSetting(key: Key, value: Variant) returns (st: Status)
      requires Valid() && ValueTyped(key, value)
      modifies this`samplerate, this`limitMsec, this`limitSamples, this`cfgRle, this`clockSource,
               this`clockEdge, this`triggerSource, this`triggerSlope
      ensures Valid()
      ensures (st, Config()) == Write(model, old(Config()), key, value)
    {
      st := Ok;
      if key == Samplerate {
        if value.u < model.samplerates[|model.samplerates| - 1] || value.u > model.samplerates[0] {
          return ErrSamplerate;
        }
        samplerate := value.u;
      } else if key == LimitMsec {
        if value.u > model.maxLimitMsec {
          return ErrArg;
        }
        limitMsec := value.u;
      } else if key == LimitSamples {
        if value.u > model.maxLimitSamples {
          return ErrArg;
        }
        limitSamples := value.u;
      } else if key == Rle {
        cfgRle := value.b;
      } else if key == ExternalClock {
        clockSource := if value.b then ClockExtClk else ClockInternal;
      } else if key == ClockEdge || key == TriggerSource || key == TriggerSlope {
        st := StoreIndex(key, value);
      } else {
        st := ErrBug;
      }
    }

    /** The three string-valued cases of config_set. */
    method StoreIndex(key: Key, value: Variant) returns (st: Status)
      requires Valid() && (key == ClockEdge || key == TriggerSource || key == TriggerSlope)
      modifies this`clockEdge, this`triggerSource, this`triggerSlope
      ensures Valid()
      ensures (st, Config()) == Write(model, old(Config()), key, value)
    {
      WriteIndex(model, Config(), key, value);
      var table := if key == TriggerSource then TriggerSourceNames else SignalEdgeNames;
      var idx := LookupIndex(value, table);
      if idx < 0 {
        return ErrArg;
      }
      if key == ClockEdge {
        clockEdge := idx;
      } else if key == TriggerSource {
        triggerSource := idx;
      } else {
        triggerSlope := idx;
      }
      st := Ok;
    }

    /** config_list, on a device or (sdi == null) on the driver. */
    static method ConfigList(sdi: LwlaDevice?, code: Key -> bv32, key: Key) returns (st: Status, data: Option<Variant>)
      ensures (st, data) == List(if sdi == null then None else Some(sdi.model), code, key)
    {
      if key == ScanOptions {
        return Ok, Some(VKeys([code(Conn)]));
      }
      if sdi == null {
        if key != DeviceOptions {
          return ErrArg, None;
        }
        return Ok, Some(VKeys([code(LogicAnalyzer)]));
      }
      if key == DeviceOptions {
        return Ok, Some(VKeys(sdi.model.devopts));
      }
      st, data := DeviceList(sdi.model, code, key);
    }

    /** config_list on a device, for a key other than SCAN_OPTIONS. */
    static method DeviceList(model: ModelInfo, code: Key -> bv32, key: Key) returns (st: Status, data: Option<Variant>)
      ensures (st, data) == DeviceChoices(model, code, key)
    {
      var listed := HasDevopt(model.devopts, code(key) | CapBit(CapList));
      if !listed {
        return ErrNa, None;
      }
      st, data := ListChoices(model, key);
    }

    /** The switch of config_list. */
    static method ListChoices(model: ModelInfo, key: Key) returns (st: Status, data: Option<Variant>)
      ensures (st, data) == Choices(model, key)
    {
      st := Ok;
      if key == Samplerate {
        data := Some(VSamplerateList(model.samplerates));
      } else if key == TriggerMatch {
        data := Some(VMatches(TriggerMatches));
      } else if key == TriggerSource {
        data := Some(VStrings(TriggerSourceNames));
      } else if key == TriggerSlope || key == ClockEdge {
        data := Some(VStrings(SignalEdgeNames));
      } else {
        st, data := ErrBug, None;
      }
    }

    /** config_channel_set */
    method ConfigChannelSet(index: int, enabled: bool, changes: bv32) returns (st: Status)
      requires Valid()
      modifies this`channelMask
      ensures (st, channelMask) == ChannelSet(model.numChannels, old(channelMask), index, enabled, changes)
    {
      if index < 0 || index >= model.numChannels {
        return ErrBug;
      }
      if changes & ChannelSetEnabled != 0 {
        channelMask := channelMask[index := enabled];
      }
      st := Ok;
    }

    /** prepare_trigger_masks: the masks are stored only once the whole stage has been read. */
    method PrepareTriggerMasks(trigger: Option<seq<seq<MatchEntry>>>) returns (st: Status)
      requires Valid()
      modifies this`triggerMask, this`triggerValues, this`triggerEdgeMask
      ensures var r := Prepare(trigger, model.numChannels);
        (r.Keep? ==> st == Ok && TriggerMasks() == old(TriggerMasks())) &&
        (r.Store? ==> st == Ok && TriggerMasks() == r.masks) &&
        (r.Reject? ==> st == r.status && TriggerMasks() == old(TriggerMasks()))
    {
      if trigger.None? || trigger.value == [] {
        return Ok;
      }
      if |trigger.value| > 1 {
        return ErrArg;
      }
      var stage := trigger.value[0];
      var n := model.numChannels;
      var tm, tv, te := NoBits, NoBits, NoBits;
      var i := 0;
      while i < |stage|
        invariant 0 <= i <= |stage|
        invariant Fold(stage[..i], n) == Store(Masks(tm, tv, te))
      {
        var e := stage[i];
        assert stage[..i + 1][..i] == stage[..i];
        if e.enabled {
          if e.index < 0 || e.index >= n {
            FoldSticky(stage, n, i + 1);
            return ErrBug;
          }
          if !Supported(e.cond) {
            FoldSticky(stage, n, i + 1);
            return ErrArg;
          }
          var levelBit := e.cond == MatchOne || e.cond == MatchRising;
          var typeBit := e.cond == MatchRising || e.cond == MatchFalling;
          tm := tm[e.index := true];
          tv := tv[e.index := tv[e.index] || levelBit];
          te := te[e.index := te[e.index] || typeBit];
        }
        i := i + 1;
      }
      assert stage[..i] == stage;
      triggerMask, triggerValues, triggerEdgeMask := tm, tv, te;
      st := Ok;
    }

    /** config_commit, with the FPGA configuration's result as fpgaResult. */
    method ConfigCommit(trigger: Option<seq<seq<MatchEntry>>>, fpgaResult: Status) returns (st: Status)
      requires Valid()
      modifies this`triggerMask, this`triggerValues, this`triggerEdgeMask
      ensures status != Active ==> st == ErrDevClosed && TriggerMasks() == old(TriggerMasks())
      ensures status == Active && acquiring ==> st == Err && TriggerMasks() == old(TriggerMasks())
      ensures var r := Prepare(trigger, model.numChannels);
        status == Active && !acquiring ==>
          (r.Reject? ==> st == r.status && TriggerMasks() == old(TriggerMasks())) &&
          (!r.Reject? ==> st == fpgaResult && TriggerMasks() == if r.Store? then r.masks else old(TriggerMasks()))
    {
      if status != Active {
        return ErrDevClosed;
      }
      if acquiring {
        return Err;
      }
      st := PrepareTriggerMasks(trigger);
      if st != Ok {
        return st;
      }
      st := fpgaResult;
    }

    /** dev_acquisition_stop: a stop is requested once, and only while the capture is not idle. */
    method AcquisitionStop() returns (st: Status)
      modifies this`cancelRequested
      ensures status != Active ==> st == ErrDevClosed && cancelRequested == old(cancelRequested)
      ensures status == Active ==> st == Ok && cancelRequested == (old(cancelRequested) || !idle)
    {
      if status != Active {
        return ErrDevClosed;
      }
      if !idle && !cancelRequested {
        cancelRequested := true;
      }
      st := Ok;
    }

    /**
     * dev_close, with the result of the shutdown bitstream download as
     * fpgaResult: closing during an acquisition only requests a stop.
     */
    method Close(fpgaResult: Status) returns (st: Status)
      modifies this`status, this`cancelRequested
      ensures old(status) == Inactive ==> st == Ok && status == Inactive && cancelRequested == old(cancelRequested)
      ensures old(status) != Inactive && acquiring ==> st == ErrBug && cancelRequested && status == old(status)
      ensures old(status) != Inactive && !acquiring ==>
        st == fpgaResult && status == Inactive && cancelRequested == old(cancelRequested)
    {
      if status == Inactive {
        return Ok;
      }
      if acquiring {
        cancelRequested := true;
        return ErrBug;
      }
      status := Inactive;
      st := fpgaResult;
    }
  }
}
