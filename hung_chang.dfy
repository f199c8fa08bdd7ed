/**
 * Configuration of the Hung-Chang DSO-2100 oscilloscope
 * (src/hardware/hung-chang-dso-2100/api.c): settings are kept as indexes
 * into the driver's constant tables and as bit fields of the two channel
 * control bytes cctl[0] and cctl[1]. cctl[0] holds the trigger source in
 * bits 6-7 as well as channel A's vertical range (bits 0, 1, 4, 5) and
 * coupling (bits 2, 3); cctl[1] holds channel B's.
 */
module HungChang {
  import opened Common
  import opened Search

  /** NUM_CHANNELS: channels A and B, with channel indexes 0 and 1. */
  const NumChannels: nat := 2

  /** samplerates[], in Hz */
  const Samplerates: seq<nat> := [
    100000000, 50000000, 25000000, 20000000, 10000000, 5000000, 2500000, 2000000,
    1000000, 500000, 250000, 200000, 100000, 50000, 25000, 20000,
    10000, 5000, 2500, 2000, 1000, 500, 250, 200, 100, 50, 25, 20]

  /** buffersizes[], in samples */
  const BufferSizes: seq<nat> := [
    1000, 1500, 2000, 2500, 3000, 3500, 4000, 4500, 5000,
    5998, 6998, 7998, 8998, 9998, 10238]

  /** vdivs[]: volts per division as a rational p / q */
  const Vdivs: seq<(nat, nat)> := [
    (10, 1000), (20, 1000), (50, 1000), (100, 1000), (200, 1000), (500, 1000), (1, 1), (2, 1), (5, 1)]

  /** vdivs_map[]: the range bits of a control byte for each vdiv */
  const VdivsMap: seq<bv8> := [0x01, 0x02, 0x03, 0x21, 0x22, 0x23, 0x31, 0x32, 0x33]

  const TriggerSources: seq<string> := ["A", "B", "EXT"]
  /** trigger_sources_map[]: bits 6-7 of cctl[0] */
  const TriggerSourcesMap: seq<bv8> := [0x00, 0x80, 0x40]

  const TriggerSlopes: seq<string> := ["f", "r"]

  const Couplings: seq<string> := ["DC", "AC", "GND"]
  /** coupling_map[]: bits 2-3 of a control byte */
  const CouplingMap: seq<bv8> := [0x00, 0x08, 0x04]

  /** The constant tables find_in_array searches, with the GVariant type of their elements. */
  datatype Table = Strings(ss: seq<string>) | Uint64s(us: seq<nat>) | Bytes(bs: seq<bv8>)

  /**
   * find_in_array: the index of the first element equal to data, or -1
   * when there is none or data is not of the table's type.
   */
  function Find(data: Variant, t: Table): (r: int)
    ensures r >= -1
    ensures t.Strings? ==> (r >= 0 <==> data.VString? && data.s in t.ss)
    ensures t.Uint64s? ==> (r >= 0 <==> data.VUint64? && data.u in t.us)
    ensures t.Bytes? ==> (r >= 0 <==> data.VByte? && data.byte in t.bs)
    ensures r >= 0 && t.Strings? ==> r < |t.ss| && t.ss[r] == data.s && data.s !in t.ss[..r]
    ensures r >= 0 && t.Uint64s? ==> r < |t.us| && t.us[r] == data.u && data.u !in t.us[..r]
    ensures r >= 0 && t.Bytes? ==> r < |t.bs| && t.bs[r] == data.byte && data.byte !in t.bs[..r]
  {
    match t
    case Strings(ss) => if data.VString? then FirstIndex(ss, data.s) else -1
    case Uint64s(us) => if data.VUint64? then FirstIndex(us, data.u) else -1
    case Bytes(bs) => if data.VByte? then FirstIndex(bs, data.byte) else -1
  }

  /** The search loops of find_in_array. */
  method FindInArray(data: Variant, t: Table) returns (r: int)
    ensures r == Find(data, t)
  {
    match t {
      case Strings(ss) =>
        if !data.VString? { return -1; }
        r := IndexOf(ss, data.s);
      case Uint64s(us) =>
        if !data.VUint64? { return -1; }
        r := IndexOf(us, data.u);
      case Bytes(bs) =>
        if !data.VByte? { return -1; }
        r := IndexOf(bs, data.byte);
    }
  }

  /** reverse_map: the index of the byte u in a byte table, or -1. */
  method ReverseMap(u: bv8, arr: seq<bv8>) returns (r: int)
    ensures r == FirstIndex(arr, u)
  {
    r := FindInArray(VByte(u), Bytes(arr));
  }

  // ---------------------------------------------------------------
  // The bit fields of a control byte
  // ---------------------------------------------------------------

  /**
   * The trigger source a control byte selects: the position of its bits
   * 6-7 in TriggerSourcesMap, or -1 for the one combination not listed.
   */
  function TriggerSourceIndex(b: bv8): (i: int)
    ensures -1 <= i < |TriggerSourcesMap|
  {
    var m := b & 0xC0;
    if m == 0x00 then 0 else if m == 0x80 then 1 else if m == 0x40 then 2 else -1
  }

  /** The vertical range of a control byte: the position of its bits 0, 1, 4, 5 in VdivsMap, or -1. */
  function VdivIndex(b: bv8): (i: int)
    ensures -1 <= i < |VdivsMap|
  {
    var m := b & 0x33;
    if m == 0x01 then 0 else if m == 0x02 then 1 else if m == 0x03 then 2
    else if m == 0x21 then 3 else if m == 0x22 then 4 else if m == 0x23 then 5
    else if m == 0x31 then 6 else if m == 0x32 then 7 else if m == 0x33 then 8
    else -1
  }

  /** The coupling of a control byte: the position of its bits 2-3 in CouplingMap, or -1. */
  function CouplingIndex(b: bv8): (i: int)
    ensures -1 <= i < |CouplingMap|
  {
    var m := b & 0x0C;
    if m == 0x00 then 0 else if m == 0x08 then 1 else if m == 0x04 then 2 else -1
  }

  function WithTriggerSource(b: bv8, i: nat): bv8
    requires i < |TriggerSourcesMap|
  {
    (b & 0x3F) | TriggerSourcesMap[i]
  }

  function WithVdiv(b: bv8, i: nat): bv8
    requires i < |VdivsMap|
  {
    (b & 0xCC) | VdivsMap[i]
  }

  function WithCoupling(b: bv8, i: nat): bv8
    requires i < |CouplingMap|
  {
    (b & 0xF3) | CouplingMap[i]
  }

  /** No element occurs twice. */
  ghost predicate Distinct<T>(s: seq<T>)
  {
    forall j, k :: 0 <= j < k < |s| ==> s[j] != s[k]
  }

  /** In a table without repeats, searching for entry i finds i. */
  lemma DistinctFirstIndex<T>(s: seq<T>, i: nat)
    requires Distinct(s) && i < |s|
    ensures FirstIndex(s, s[i]) == i
  {
    assert s[i] in s;
  }

  lemma MapsDistinct()
    ensures Distinct(TriggerSourcesMap) && Distinct(VdivsMap) && Distinct(CouplingMap)
  {
  }

  /** The field readings are what reverse_map finds for the masked byte. */
  lemma TriggerSourceIndexSearch(b: bv8)
    ensures TriggerSourceIndex(b) == FirstIndex(TriggerSourcesMap, b & 0xC0)
  {
    var i := TriggerSourceIndex(b);
    if i >= 0 {
      MapsDistinct();
      assert TriggerSourcesMap[i] == b & 0xC0;
      DistinctFirstIndex(TriggerSourcesMap, i);
    } else {
      assert b & 0xC0 !in TriggerSourcesMap;
    }
  }

  lemma VdivIndexSearch(b: bv8)
    ensures VdivIndex(b) == FirstIndex(VdivsMap, b & 0x33)
  {
    var i := VdivIndex(b);
    if i >= 0 {
      MapsDistinct();
      assert VdivsMap[i] == b & 0x33;
      DistinctFirstIndex(VdivsMap, i);
    } else {
      assert b & 0x33 !in VdivsMap;
    }
  }

  lemma CouplingIndexSearch(b: bv8)
    ensures CouplingIndex(b) == FirstIndex(CouplingMap, b & 0x0C)
  {
    var i := CouplingIndex(b);
    if i >= 0 {
      MapsDistinct();
      assert CouplingMap[i] == b & 0x0C;
      DistinctFirstIndex(CouplingMap, i);
    } else {
      assert b & 0x0C !in CouplingMap;
    }
  }

  /** Setting the trigger source reads back as that source and leaves channel A's range and coupling alone. */
  lemma TriggerSourceRoundTrip(b: bv8, i: nat)
    requires i < |TriggerSourcesMap|
    ensures TriggerSourceIndex(WithTriggerSource(b, i)) == i
    ensures VdivIndex(WithTriggerSource(b, i)) == VdivIndex(b)
    ensures CouplingIndex(WithTriggerSource(b, i)) == CouplingIndex(b)
  {
    var b' := WithTriggerSource(b, i);
    assert b' & 0x33 == b & 0x33 && b' & 0x0C == b & 0x0C;
    if i == 0 {
      assert b' & 0xC0 == 0x00;
    } else if i == 1 {
      assert b' & 0xC0 == 0x80;
    } else {
      assert b' & 0xC0 == 0x40;
    }
  }

  /** Setting the range reads back as that range and leaves the coupling and trigger bits alone. */
  lemma VdivRoundTrip(b: bv8, i: nat)
    requires i < |VdivsMap|
    ensures VdivIndex(WithVdiv(b, i)) == i
    ensures TriggerSourceIndex(WithVdiv(b, i)) == TriggerSourceIndex(b)
    ensures CouplingIndex(WithVdiv(b, i)) == CouplingIndex(b)
  {
    var b' := WithVdiv(b, i);
    assert b' & 0x33 == VdivsMap[i] by { VdivsMapBits(i); }
    assert b' & 0xC0 == b & 0xC0 && b' & 0x0C == b & 0x0C by { VdivsMapBits(i); }
  }

  /** The range bits of every vdiv lie inside the range field. */
  lemma VdivsMapBits(i: nat)
    requires i < |VdivsMap|
    ensures VdivsMap[i] & 0xCC == 0
  {
    if i < 3 {
      assert VdivsMap[i] in {0x01, 0x02, 0x03};
    } else if i < 6 {
      assert VdivsMap[i] in {0x21, 0x22, 0x23};
    } else {
      assert VdivsMap[i] in {0x31, 0x32, 0x33};
    }
  }

  /** Setting the coupling reads back as that coupling and leaves the range and trigger bits alone. */
  lemma CouplingRoundTrip(b: bv8, i: nat)
    requires i < |CouplingMap|
    ensures CouplingIndex(WithCoupling(b, i)) == i
    ensures TriggerSourceIndex(WithCoupling(b, i)) == TriggerSourceIndex(b)
    ensures VdivIndex(WithCoupling(b, i)) == VdivIndex(b)
  {
    var b' := WithCoupling(b, i);
    assert b' & 0xC0 == b & 0xC0 && b' & 0x33 == b & 0x33;
    if i == 0 {
      assert b' & 0x0C == 0x00;
    } else if i == 1 {
      assert b' & 0x0C == 0x08;
    } else {
      assert b' & 0x0C == 0x04;
    }
  }

  /** Only both trigger bits set (0xC0) names no trigger source; only both coupling bits set names no coupling. */
  lemma UnusedCombinations(b: bv8)
    ensures TriggerSourceIndex(b) == -1 <==> b & 0xC0 == 0xC0
    ensures CouplingIndex(b) == -1 <==> b & 0x0C == 0x0C
  {
    var t := b & 0xC0;
    assert t == 0x00 || t == 0x40 || t == 0x80 || t == 0xC0;
    var c := b & 0x0C;
    assert c == 0x00 || c == 0x04 || c == 0x08 || c == 0x0C;
  }

  // ---------------------------------------------------------------
  // config_get and config_set
  // ---------------------------------------------------------------

  /** The settings config_get reads and config_set writes (part of struct dev_context). */
  datatype Settings = Settings(frameLimit: nat, rate: nat, edge: nat, lastStep: nat, cctl: seq<bv8>, probe: seq<nat>)

  ghost predicate SettingsValid(c: Settings)
  {
    c.rate < |Samplerates| && c.lastStep < |BufferSizes| && |c.cctl| == NumChannels && |c.probe| == NumChannels
  }

  /**
   * config_get, with cg the index of the channel in the channel group (the
   * framework has checked it is one of this device's groups) and conn the
   * port name.
   */
  function Get(c: Settings, conn: string, key: Key, cg: Option<nat>): (r: (Status, Option<Variant>))
    requires SettingsValid(c) && (cg.Some? ==> cg.value < NumChannels)
    ensures r.0 == Ok <==> r.1.Some?
    ensures (key == VDiv || key == Coupling || key == ProbeFactor) && cg.None? ==> r.0 == ErrChannelGroup
  {
    if key == Conn then (Ok, Some(VString(conn)))
    else if key == LimitFrames then (Ok, Some(VUint64(c.frameLimit)))
    else if key == Samplerate then (Ok, Some(VUint64(Samplerates[c.rate])))
    else if key == TriggerSource then GetTriggerSource(c.cctl[0])
    else if key == TriggerSlope then GetTriggerSlope(c.edge)
    else if key == BufferSize then (Ok, Some(VUint64(BufferSizes[c.lastStep])))
    else if key == VDiv then (if cg.None? then (ErrChannelGroup, None) else GetVdiv(c.cctl[cg.value]))
    else if key == Coupling then (if cg.None? then (ErrChannelGroup, None) else GetCoupling(c.cctl[cg.value]))
    else if key == ProbeFactor then (if cg.None? then (ErrChannelGroup, None) else (Ok, Some(VUint64(c.probe[cg.value]))))
    else (ErrNa, None)
  }

  // The cases of config_get that can fail with SR_ERR: a control byte or
  // an edge index that names no table entry.

  function GetTriggerSource(b: bv8): (r: (Status, Option<Variant>))
  {
    var i := TriggerSourceIndex(b);
    if i == -1 then (Err, None) else (Ok, Some(VString(TriggerSources[i])))
  }

  function GetTriggerSlope(edge: nat): (r: (Status, Option<Variant>))
  {
    if edge >= |TriggerSlopes| then (Err, None) else (Ok, Some(VString(TriggerSlopes[edge])))
  }

  function GetVdiv(b: bv8): (r: (Status, Option<Variant>))
  {
    var i := VdivIndex(b);
    if i == -1 then (Err, None) else (Ok, Some(VPair(Vdivs[i].0, Vdivs[i].1)))
  }

  function GetCoupling(b: bv8): (r: (Status, Option<Variant>))
  {
    var i := CouplingIndex(b);
    if i == -1 then (Err, None) else (Ok, Some(VString(Couplings[i])))
  }

  /** The keys config_set handles. */
  predicate Settable(key: Key)
  {
    key in {LimitFrames, Samplerate, TriggerSource, TriggerSlope, BufferSize, VDiv, Coupling, ProbeFactor}
  }

  /**
   * config_set on an open device: a value must be listed in its table
   * (SR_ERR_ARG otherwise), the per-channel keys need a channel group, a
   * probe factor must not be 0; a refused value changes nothing.
   */
  function Set(c: Settings, key: Key, value: Variant, cg: Option<nat>): (r: (Status, Settings))
    requires SettingsValid(c) && (cg.Some? ==> cg.value < NumChannels)
    requires key == LimitFrames || (key == ProbeFactor && cg.Some?) ==> value.VUint64?
    ensures SettingsValid(r.1)
    ensures r.0 != Ok ==> r.1 == c
    ensures key != LimitFrames ==> r.1.frameLimit == c.frameLimit
    ensures key != Samplerate ==> r.1.rate == c.rate
    ensures key != TriggerSlope ==> r.1.edge == c.edge
    ensures key != BufferSize ==> r.1.lastStep == c.lastStep
    ensures key != ProbeFactor ==> r.1.probe == c.probe
    ensures key != TriggerSource && key != VDiv && key != Coupling ==> r.1.cctl == c.cctl
    ensures !Settable(key) ==> r.0 == ErrNa
    ensures (key == VDiv || key == Coupling || key == ProbeFactor) && cg.None? ==> r.0 == ErrChannelGroup
  {
    if key == LimitFrames then (Ok, c.(frameLimit := value.u))
    else if key == Samplerate then SetSamplerate(c, value)
    else if key == TriggerSource then SetTriggerSource(c, value)
    else if key == TriggerSlope then SetTriggerSlope(c, value)
    else if key == BufferSize then SetBufferSize(c, value)
    else if key == VDiv then (if cg.None? then (ErrChannelGroup, c) else SetVdiv(c, value, cg.value))
    else if key == Coupling then (if cg.None? then (ErrChannelGroup, c) else SetCoupling(c, value, cg.value))
    else if key == ProbeFactor then (if cg.None? then (ErrChannelGroup, c) else SetProbeFactor(c, value.u, cg.value))
    else (ErrNa, c)
  }

  // The cases of config_set, one key each.

  function SetSamplerate(c: Settings, value: Variant): (r: (Status, Settings))
    requires SettingsValid(c)
  {
    var i := Find(value, Uint64s(Samplerates));
    if i == -1 then (ErrArg, c) else (Ok, c.(rate := i))
  }

  function SetTriggerSource(c: Settings, value: Variant): (r: (Status, Settings))
    requires SettingsValid(c)
  {
    var i := Find(value, Strings(TriggerSources));
    if i == -1 then (ErrArg, c) else (Ok, c.(cctl := c.cctl[0 := WithTriggerSource(c.cctl[0], i)]))
  }

  function SetTriggerSlope(c: Settings, value: Variant): (r: (Status, Settings))
    requires SettingsValid(c)
  {
    var i := Find(value, Strings(TriggerSlopes));
    if i == -1 then (ErrArg, c) else (Ok, c.(edge := i))
  }

  function SetBufferSize(c: Settings, value: Variant): (r: (Status, Settings))
    requires SettingsValid(c)
  {
    var i := Find(value, Uint64s(BufferSizes));
    if i == -1 then (ErrArg, c) else (Ok, c.(lastStep := i))
  }

  /** The vdiv loop of config_set: the first listed pair equal to the value. */
  function SetVdiv(c: Settings, value: Variant, ch: nat): (r: (Status, Settings))
    requires SettingsValid(c) && ch < NumChannels
  {
    if !value.VPair? then (ErrArg, c)
    else
      var i := FirstIndex(Vdivs, (value.p, value.q));
      if i == -1 then (ErrArg, c)
      else (Ok, c.(cctl := c.cctl[ch := WithVdiv(c.cctl[ch], i)]))
  }

  function SetCoupling(c: Settings, value: Variant, ch: nat): (r: (Status, Settings))
    requires SettingsValid(c) && ch < NumChannels
  {
    var i := Find(value, Strings(Couplings));
    if i == -1 then (ErrArg, c)
    else (Ok, c.(cctl := c.cctl[ch := WithCoupling(c.cctl[ch], i)]))
  }

  function SetProbeFactor(c: Settings, u: nat, ch: nat): (r: (Status, Settings))
    requires SettingsValid(c) && ch < NumChannels
  {
    if u == 0 then (ErrArg, c) else (Ok, c.(probe := c.probe[ch := u]))
  }

  /** A value config_set accepts is read back unchanged by config_get. */
  lemma SetThenGet(c: Settings, conn: string, key: Key, value: Variant, cg: Option<nat>)
    requires SettingsValid(c) && (cg.Some? ==> cg.value < NumChannels)
    requires key == LimitFrames || (key == ProbeFactor && cg.Some?) ==> value.VUint64?
    requires Set(c, key, value, cg).0 == Ok
    ensures Get(Set(c, key, value, cg).1, conn, key, cg) == (Ok, Some(value))
  {
    var c' := Set(c, key, value, cg).1;
    match key
    case TriggerSource =>
      var i := Find(value, Strings(TriggerSources));
      TriggerSourceRoundTrip(c.cctl[0], i);
    case VDiv =>
      var i := FirstIndex(Vdivs, (value.p, value.q));
      VdivRoundTrip(c.cctl[cg.value], i);
    case Coupling =>
      var i := Find(value, Strings(Couplings));
      CouplingRoundTrip(c.cctl[cg.value], i);
    case _ =>
  }

  /** c and c2 agree on everything config_get reads for key on channel group cg. */
  ghost predicate SameReading(c: Settings, c2: Settings, key: Key, cg: Option<nat>)
    requires SettingsValid(c) && SettingsValid(c2) && (cg.Some? ==> cg.value < NumChannels)
  {
    if key == LimitFrames then c.frameLimit == c2.frameLimit
    else if key == Samplerate then c.rate == c2.rate
    else if key == TriggerSource then TriggerSourceIndex(c.cctl[0]) == TriggerSourceIndex(c2.cctl[0])
    else if key == TriggerSlope then c.edge == c2.edge
    else if key == BufferSize then c.lastStep == c2.lastStep
    else if key == VDiv then cg.None? || VdivIndex(c.cctl[cg.value]) == VdivIndex(c2.cctl[cg.value])
    else if key == Coupling then cg.None? || CouplingIndex(c.cctl[cg.value]) == CouplingIndex(c2.cctl[cg.value])
    else if key == ProbeFactor then cg.None? || c.probe[cg.value] == c2.probe[cg.value]
    else true
  }

  lemma GetOfSameReading(c: Settings, c2: Settings, conn: string, key: Key, cg: Option<nat>)
    requires SettingsValid(c) && SettingsValid(c2) && (cg.Some? ==> cg.value < NumChannels)
    requires SameReading(c, c2, key, cg)
    ensures Get(c, conn, key, cg) == Get(c2, conn, key, cg)
  {
  }

  /** Writing one field of one control byte keeps the other two fields of every control byte. */
  lemma CctlWriteIsolated(c: Settings, c2: Settings, j: nat, key: Key, key2: Key, cg2: Option<nat>)
    requires SettingsValid(c) && SettingsValid(c2) && j < NumChannels && (cg2.Some? ==> cg2.value < NumChannels)
    requires key in {TriggerSource, VDiv, Coupling} && key2 != key
    requires c2 == c.(cctl := c2.cctl) && c2.cctl == c.cctl[j := c2.cctl[j]]
    requires key != TriggerSource ==> TriggerSourceIndex(c2.cctl[j]) == TriggerSourceIndex(c.cctl[j])
    requires key != VDiv ==> VdivIndex(c2.cctl[j]) == VdivIndex(c.cctl[j])
    requires key != Coupling ==> CouplingIndex(c2.cctl[j]) == CouplingIndex(c.cctl[j])
    ensures SameReading(c, c2, key2, cg2)
  {
  }

  /**
   * Setting one key leaves every other key's reading alone, on every
   * channel: the three fields of a control byte do not overlap.
   */
  lemma SetIsolated(c: Settings, c2: Settings, conn: string, key: Key, value: Variant, cg: Option<nat>, key2: Key, cg2: Option<nat>)
    requires SettingsValid(c) && (cg.Some? ==> cg.value < NumChannels) && (cg2.Some? ==> cg2.value < NumChannels)
    requires key == LimitFrames || (key == ProbeFactor && cg.Some?) ==> value.VUint64?
    requires key2 != key && SettingsValid(c2) && c2 == Set(c, key, value, cg).1
    ensures Get(c2, conn, key2, cg2) == Get(c, conn, key2, cg2)
  {
    var r := Set(c, key, value, cg);
    if r.0 == Ok {
      if key == TriggerSource {
        TriggerSourceSetIsolated(c, value, cg, key2, cg2);
      } else if key == VDiv {
        VdivSetIsolated(c, value, cg.value, key2, cg2);
      } else if key == Coupling {
        CouplingSetIsolated(c, value, cg.value, key2, cg2);
      } else {
        FieldWriteIsolated(c, r.1, key, key2, cg2);
      }
      GetOfSameReading(r.1, c, conn, key2, cg2);
    }
  }

  lemma TriggerSourceSetIsolated(c: Settings, value: Variant, cg: Option<nat>, key2: Key, cg2: Option<nat>)
    requires SettingsValid(c) && (cg.Some? ==> cg.value < NumChannels) && (cg2.Some? ==> cg2.value < NumChannels)
    requires key2 != TriggerSource && Set(c, TriggerSource, value, cg).0 == Ok
    ensures SameReading(Set(c, TriggerSource, value, cg).1, c, key2, cg2)
  {
    var i := Find(value, Strings(TriggerSources));
    var c2 := c.(cctl := c.cctl[0 := WithTriggerSource(c.cctl[0], i)]);
    assert Set(c, TriggerSource, value, cg).1 == c2;
    TriggerSourceRoundTrip(c.cctl[0], i);
    CctlWriteIsolated(c, c2, 0, TriggerSource, key2, cg2);
  }

  lemma VdivSetIsolated(c: Settings, value: Variant, ch: nat, key2: Key, cg2: Option<nat>)
    requires SettingsValid(c) && ch < NumChannels && (cg2.Some? ==> cg2.value < NumChannels) && key2 != VDiv
    requires Set(c, VDiv, value, Some(ch)).0 == Ok
    ensures SameReading(Set(c, VDiv, value, Some(ch)).1, c, key2, cg2)
  {
    var i := FirstIndex(Vdivs, (value.p, value.q));
    var c2 := c.(cctl := c.cctl[ch := WithVdiv(c.cctl[ch], i)]);
    assert Set(c, VDiv, value, Some(ch)).1 == c2;
    VdivRoundTrip(c.cctl[ch], i);
    CctlWriteIsolated(c, c2, ch, VDiv, key2, cg2);
  }

  lemma CouplingSetIsolated(c: Settings, value: Variant, ch: nat, key2: Key, cg2: Option<nat>)
    requires SettingsValid(c) && ch < NumChannels && (cg2.Some? ==> cg2.value < NumChannels) && key2 != Coupling
    requires Set(c, Coupling, value, Some(ch)).0 == Ok
    ensures SameReading(Set(c, Coupling, value, Some(ch)).1, c, key2, cg2)
  {
    var i := Find(value, Strings(Couplings));
    var c2 := c.(cctl := c.cctl[ch := WithCoupling(c.cctl[ch], i)]);
    assert Set(c, Coupling, value, Some(ch)).1 == c2;
    CouplingRoundTrip(c.cctl[ch], i);
    CctlWriteIsolated(c, c2, ch, Coupling, key2, cg2);
  }

  /** The keys that set a field of their own change no other key's reading. */
  lemma FieldWriteIsolated(c: Settings, c2: Settings, key: Key, key2: Key, cg2: Option<nat>)
    requires SettingsValid(c) && SettingsValid(c2) && (cg2.Some? ==> cg2.value < NumChannels)
    requires key in {LimitFrames, Samplerate, TriggerSlope, BufferSize, ProbeFactor} && key2 != key
    requires key != LimitFrames ==> c2.frameLimit == c.frameLimit
    requires key != Samplerate ==> c2.rate == c.rate
    requires key != TriggerSlope ==> c2.edge == c.edge
    requires key != BufferSize ==> c2.lastStep == c.lastStep
    requires key != ProbeFactor ==> c2.probe == c.probe
    requires c2.cctl == c.cctl
    ensures SameReading(c2, c, key2, cg2)
  {
  }

  // ---------------------------------------------------------------
  // config_channel_set
  // ---------------------------------------------------------------

  /** 1 << index: the bit of a channel in devc->channel. */
  function ChannelBit(index: nat): (m: bv8)
    requires index < NumChannels
    ensures m == 0x01 || m == 0x02
  {
    (1 as bv8) << index
  }

  /** v & (v - 1) == 0: no more than one bit of v is set. */
  predicate SingleBit(v: bv8)
  {
    v & (v - 1) == 0
  }

  /**
   * config_channel_set on devc->channel, with changes the SR_CHANNEL_SET_*
   * bits: enabling a channel while another is enabled fails, disabling clears
   * the channel's bit.
   */
  function ChannelSet(channel: bv8, index: nat, enabled: bool, changes: bv32): (r: (Status, bv8))
    requires index < NumChannels
    ensures r.0 == Ok || r.0 == Err
    ensures r.0 == Err <==> changes & ChannelSetEnabled != 0 && enabled && channel & !ChannelBit(index) != 0
    ensures r.0 == Err || changes & ChannelSetEnabled == 0 ==> r.1 == channel
    ensures r.0 == Ok && changes & ChannelSetEnabled != 0 ==> (r.1 & ChannelBit(index) != 0 <==> enabled)
    ensures r.1 & !ChannelBit(index) == channel & !ChannelBit(index)
    ensures SingleBit(channel) ==> SingleBit(r.1)
  {
    var bit := ChannelBit(index);
    if changes & ChannelSetEnabled == 0 then (Ok, channel)
    else if enabled then
      var v := channel | bit;
      if !SingleBit(v) then (Err, channel) else (Ok, v)
    else (Ok, channel & !bit)
  }

  /** With at most one channel enabled, the enabled channel is the only one a successful enable leaves set. */
  lemma EnableLeavesOne(channel: bv8, index: nat, changes: bv32)
    requires index < NumChannels && changes & ChannelSetEnabled != 0
    requires ChannelSet(channel, index, true, changes).0 == Ok
    ensures ChannelSet(channel, index, true, changes).1 == ChannelBit(index)
  {
  }

  // ---------------------------------------------------------------
  // The device
  // ---------------------------------------------------------------

  /** The settings scan_port gives a new device: 100 MHz, 1000 samples, 1 V/div, DC, trigger on A. */
  function Defaults(): (c: Settings)
    ensures SettingsValid(c)
  {
    Settings(0, 0, 0, 0, [0x31, 0x31], [10, 10])
  }

  /** What config_get reports for a freshly scanned device on the device-wide keys. */
  lemma DefaultReadings(conn: string)
    ensures Get(Defaults(), conn, LimitFrames, None) == (Ok, Some(VUint64(0)))
    ensures Get(Defaults(), conn, Samplerate, None) == (Ok, Some(VUint64(100000000)))
    ensures Get(Defaults(), conn, BufferSize, None) == (Ok, Some(VUint64(1000)))
  {
  }

  /** A freshly scanned device triggers on a falling edge of channel A. */
  lemma DefaultTriggerReadings(conn: string)
    ensures Get(Defaults(), conn, TriggerSource, None) == (Ok, Some(VString("A")))
    ensures Get(Defaults(), conn, TriggerSlope, None) == (Ok, Some(VString("f")))
  {
  }

  /** What config_get reports for each channel of a freshly scanned device. */
  lemma DefaultChannelReadings(conn: string, ch: nat)
    requires ch < NumChannels
    ensures Get(Defaults(), conn, VDiv, Some(ch)) == (Ok, Some(VPair(1, 1)))
    ensures Get(Defaults(), conn, Coupling, Some(ch)) == (Ok, Some(VString("DC")))
    ensures Get(Defaults(), conn, ProbeFactor, Some(ch)) == (Ok, Some(VUint64(10)))
  {
  }

  /** One DSO-2100 (struct sr_dev_inst with its struct dev_context). */
  class Dso2100 {
    var status: DevStatus
    var frameLimit: nat
    /** index into Samplerates */
    var rate: nat
    /** index into TriggerSlopes */
    var edge: nat
    /** index into BufferSizes */
    var lastStep: nat
    /** the control bytes of channels A and B */
    const cctl: array<bv8>
    /** the probe factor of each channel */
    const probe: array<nat>
    /** one bit per enabled channel */
    var channel: bv8
    /** devc->enabled_channel->data: the channel last enabled */
    var enabledChannel: Option<nat>
    /** the parallel port's name (SR_CONF_CONN) */
    const portName: string

    ghost predicate Valid()
      reads this
    {
      cctl.Length == NumChannels && probe.Length == NumChannels && cctl as object != probe as object &&
      rate < |Samplerates| && lastStep < |BufferSizes| && SingleBit(channel)
    }

    /** The fields config_get reads. */
    function Config(): (c: Settings)
      reads this, cctl, probe
      ensures Valid() ==> SettingsValid(c)
    {
      Settings(frameLimit, rate, edge, lastStep, cctl[..], probe[..])
    }

    /** The device as scan_port leaves it: inactive, no channel enabled, the default settings. */
    constructor (portName: string)
      ensures Valid() && fresh(cctl) && fresh(probe)
      ensures Config() == Defaults() && status == Inactive
      ensures channel == 0 && enabledChannel == None && this.portName == portName
    {
      status := Inactive;
      frameLimit := 0;
      rate := 0;
      edge := 0;
      lastStep := 0;
      cctl := new bv8[2] [0x31, 0x31];
      probe := new nat[2] [10, 10];
      channel := 0;
      enabledChannel := None;
      this.portName := portName;
    }

    /** config_get: the reading of Get on the device's settings. */
    method ConfigGet(key: Key, cg: Option<nat>) returns (st: Status, data: Option<Variant>)
      requires Valid() && (cg.Some? ==> cg.value < NumChannels)
      ensures (st, data) == Get(Config(), portName, key, cg)
    {
      st, data := Ok, None;
      if key == Conn {
        data := Some(VString(portName));
      } else if key == LimitFrames {
        data := Some(VUint64(frameLimit));
      } else if key == Samplerate {
        data := Some(VUint64(Samplerates[rate]));
      } else if key == TriggerSource {
        st, data := ReadField(cctl[0], TriggerSource);
      } else if key == TriggerSlope {
        if edge >= |TriggerSlopes| { st := Err; } else { data := Some(VString(TriggerSlopes[edge])); }
      } else if key == BufferSize {
        data := Some(VUint64(BufferSizes[lastStep]));
      } else if key == VDiv || key == Coupling {
        if cg.None? {
          st := ErrChannelGroup;
        } else {
          st, data := ReadField(cctl[cg.value], key);
        }
      } else if key == ProbeFactor {
        if cg.None? { st := ErrChannelGroup; } else { data := Some(VUint64(probe[cg.value])); }
      } else {
        st := ErrNa;
      }
    }

    /** The reverse_map cases of config_get: one field of the control byte b. */
    static method ReadField(b: bv8, key: Key) returns (st: Status, data: Option<Variant>)
      requires key == TriggerSource || key == VDiv || key == Coupling
      ensures key == TriggerSource ==> (st, data) == GetTriggerSource(b)
      ensures key == VDiv ==> (st, data) == GetVdiv(b)
      ensures key == Coupling ==> (st, data) == GetCoupling(b)
    {
      st, data := Ok, None;
      if key == TriggerSource {
        var i := ReverseMap(b & 0xC0, TriggerSourcesMap);
        TriggerSourceIndexSearch(b);
        if i == -1 { st := Err; } else { data := Some(VString(TriggerSources[i])); }
      } else if key == VDiv {
        var i := ReverseMap(b & 0x33, VdivsMap);
        VdivIndexSearch(b);
        if i == -1 { st := Err; } else { data := Some(VPair(Vdivs[i].0, Vdivs[i].1)); }
      } else {
        var i := ReverseMap(b & 0x0C, CouplingMap);
        CouplingIndexSearch(b);
        if i == -1 { st := Err; } else { data := Some(VString(Couplings[i])); }
      }
    }

    /**
     * config_set: refused with SR_ERR_DEV_CLOSED unless the device is
     * active, otherwise the new settings are those of Set.
     */
    method ConfigSet(key: Key, value: Variant, cg: Option<nat>) returns (st: Status)
      requires Valid() && (cg.Some? ==> cg.value < NumChannels)
      requires key == LimitFrames || (key == ProbeFactor && cg.Some?) ==> value.VUint64?
      modifies this`frameLimit, this`rate, this`edge, this`lastStep, cctl, probe
      ensures Valid()
      ensures status != Active ==> st == ErrDevClosed && Config() == old(Config())
      ensures status == Active ==> (st, Config()) == Set(old(Config()), key, value, cg)
    {
      if status != Active {
        return ErrDevClosed;
      }
      if key == VDiv || key == Coupling || key == ProbeFactor {
        st := StoreChannelKey(key, value, cg);
      } else {
        st := StoreDeviceKey(key, value, cg);
      }
    }

    /** The cases of config_set for the keys that apply to the whole device. */
    method StoreDeviceKey(key: Key, value: Variant, cg: Option<nat>) returns (st: Status)
      requires Valid() && (cg.Some? ==> cg.value < NumChannels) && key != VDiv && key != Coupling && key != ProbeFactor
      requires key == LimitFrames ==> value.VUint64?
      modifies this`frameLimit, this`rate, this`edge, this`lastStep, cctl
      ensures Valid() && (st, Config()) == Set(old(Config()), key, value, cg)
    {
      if key == LimitFrames {
        frameLimit := value.u;
        st := Ok;
      } else if key == Samplerate {
        st := StoreSamplerate(value);
      } else if key == TriggerSlope {
        st := StoreTriggerSlope(value);
      } else if key == BufferSize {
        st := StoreBufferSize(value);
      } else if key == TriggerSource {
        st := StoreField(0, key, value);
      } else {
        st := ErrNa;
      }
    }

    /** The cases of config_set for the keys that apply to one channel group. */
    method StoreChannelKey(key: Key, value: Variant, cg: Option<nat>) returns (st: Status)
      requires Valid() && (cg.Some? ==> cg.value < NumChannels)
      requires key == VDiv || key == Coupling || key == ProbeFactor
      requires key == ProbeFactor && cg.Some? ==> value.VUint64?
      modifies cctl, probe
      ensures Valid() && (st, Config()) == Set(old(Config()), key, value, cg)
    {
      if cg.None? {
        st := ErrChannelGroup;
      } else if key == ProbeFactor {
        st := StoreProbeFactor(cg.value, value.u);
      } else {
        st := StoreField(cg.value, key, value);
      }
    }

    // The cases of config_set that store the index of a listed value.

    method StoreSamplerate(value: Variant) returns (st: Status)
      requires Valid()
      modifies this`rate
      ensures Valid() && (st, Config()) == SetSamplerate(old(Config()), value)
    {
      var i := FindInArray(value, Uint64s(Samplerates));
      if i == -1 { st := ErrArg; } else { rate := i; st := Ok; }
    }

    method StoreTriggerSlope(value: Variant) returns (st: Status)
      requires Valid()
      modifies this`edge
      ensures Valid() && (st, Config()) == SetTriggerSlope(old(Config()), value)
    {
      var i := FindInArray(value, Strings(TriggerSlopes));
      if i == -1 { st := ErrArg; } else { edge := i; st := Ok; }
    }

    method StoreBufferSize(value: Variant) returns (st: Status)
      requires Valid()
      modifies this`lastStep
      ensures Valid() && (st, Config()) == SetBufferSize(old(Config()), value)
    {
      var i := FindInArray(value, Uint64s(BufferSizes));
      if i == -1 { st := ErrArg; } else { lastStep := i; st := Ok; }
    }

    /** The cases of config_set that rewrite one field of the control byte of channel ch. */
    method StoreField(ch: nat, key: Key, value: Variant) returns (st: Status)
      requires Valid() && ch < NumChannels
      requires (key == TriggerSource && ch == 0) || key == VDiv || key == Coupling
      modifies cctl
      ensures Valid()
      ensures key == TriggerSource ==> (st, Config()) == SetTriggerSource(old(Config()), value)
      ensures key == VDiv ==> (st, Config()) == SetVdiv(old(Config()), value, ch)
      ensures key == Coupling ==> (st, Config()) == SetCoupling(old(Config()), value, ch)
    {
      st := Ok;
      var i: int;
      if key == TriggerSource {
        i := FindInArray(value, Strings(TriggerSources));
        if i != -1 { cctl[ch] := WithTriggerSource(cctl[ch], i); }
      } else if key == VDiv {
        if !value.VPair? {
          return ErrArg;
        }
        i := IndexOf(Vdivs, (value.p, value.q));
        if i != -1 { cctl[ch] := WithVdiv(cctl[ch], i); }
      } else {
        i := FindInArray(value, Strings(Couplings));
        if i != -1 { cctl[ch] := WithCoupling(cctl[ch], i); }
      }
      if i == -1 {
        st := ErrArg;
      }
    }

    /** The probe factor case of config_set: 0 is refused. */
    method StoreProbeFactor(ch: nat, u: nat) returns (st: Status)
      requires Valid() && ch < NumChannels
      modifies probe
      ensures Valid()
      ensures (st, Config()) == SetProbeFactor(old(Config()), u, ch)
    {
      if u == 0 {
        st := ErrArg;
      } else {
        probe[ch] := u;
        assert probe[..] == old(probe[..])[ch := u];
        st := Ok;
      }
    }

    /** config_channel_set for channel index: the new channel mask is that of ChannelSet. */
    method ConfigChannelSet(index: nat, enabled: bool, changes: bv32) returns (st: Status)
      requires Valid() && index < NumChannels
      modifies this`channel, this`enabledChannel
      ensures Valid()
      ensures (st, channel) == ChannelSet(old(channel), index, enabled, changes)
      ensures enabledChannel == if st == Ok && enabled && changes & ChannelSetEnabled != 0 then Some(index) else old(enabledChannel)
    {
      if changes & ChannelSetEnabled != 0 {
        if enabled {
          var v := channel | ChannelBit(index);
          if v & (v - 1) != 0 {
            return Err;
          }
          channel := v;
          enabledChannel := Some(index);
        } else {
          channel := channel & !ChannelBit(index);
        }
      }
      st := Ok;
    }
  }
}
