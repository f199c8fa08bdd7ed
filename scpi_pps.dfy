/**
 * The SCPI programmable power supply driver (src/hardware/scpi-pps/api.c):
 * the analog channels and channel groups probe_device builds from a
 * profile, the get / set / list switches with config_get's channel-group
 * dropping and regulation normalisation, the beeper handling of dev_open
 * and dev_close, and the measure command that dev_acquisition_start sends.
 * The driver's protocol.c, protocol.h and profiles.c and the SCPI layer are
 * not part of this model: the profile, select_channel, scpi_cmd and
 * scpi_cmd_resp are parameters or inputs, and the commands the driver asks
 * for are recorded in a log.
 */
module ScpiPps {
  import opened Common

  /** The SCPI_CMD_* commands api.c asks for. */
  datatype Cmd =
    | CmdRemote | CmdLocal | CmdBeeper | CmdBeeperEnable | CmdBeeperDisable
    | GetMeasVoltage | GetMeasCurrent | GetMeasPower | GetMeasFrequency
    | GetOutputEnabled | GetVoltageTarget | GetFrequencyTarget | GetCurrentLimit
    | GetOverVoltageProtectionEnabled | GetOverVoltageProtectionActive | GetOverVoltageProtectionThreshold
    | GetOverCurrentProtectionEnabled | GetOverCurrentProtectionActive | GetOverCurrentProtectionThreshold
    | GetOverTemperatureProtection | GetOutputRegulation
    | SetOutputEnable | SetOutputDisable | SetVoltageTarget | SetFrequencyTarget | SetCurrentLimit
    | SetOverVoltageProtectionEnable | SetOverVoltageProtectionDisable | SetOverVoltageProtectionThreshold
    | SetOverCurrentProtectionEnable | SetOverCurrentProtectionDisable | SetOverCurrentProtectionThreshold
    | SetOverTemperatureProtectionEnable | SetOverTemperatureProtectionDisable

  /** What the driver hands to the SCPI layer, in order. */
  datatype Issued =
    | Issue(cmd: Cmd)                      // scpi_cmd without argument
    | IssueValue(cmd: Cmd, d: real)        // scpi_cmd with a double
    | IssueName(cmd: Cmd, name: string)    // scpi_cmd with a channel's hardware name
    | Query(cmd: Cmd)                      // scpi_cmd_resp
    | Select(channel: PpsChannel)          // select_channel

  /** The measured quantities (SR_MQ_*) a channel can carry. */
  datatype Mq = MqVoltage | MqCurrent | MqPower | MqFrequency | MqOther(code: int)

  /** One row of the pci table: a quantity, its measure command, the channel-name prefix. */
  datatype PciEntry = PciEntry(mq: Mq, command: Cmd, prefix: string)

  const Pci: seq<PciEntry> := [
    PciEntry(MqVoltage, GetMeasVoltage, "V"),
    PciEntry(MqCurrent, GetMeasCurrent, "I"),
    PciEntry(MqPower, GetMeasPower, "P"),
    PciEntry(MqFrequency, GetMeasFrequency, "F")
  ]

  /** Minimum, maximum and resolution (or step) of a settable quantity. */
  datatype Range = Range(min: real, max: real, step: real)

  /** struct channel_spec: a hardware output of the profile. */
  datatype ChannelSpec = ChannelSpec(name: string, voltage: Range, frequency: Range, current: Range)

  /** The PPS_INDEPENDENT, PPS_SERIES and PPS_PARALLEL feature flags. */
  datatype Features = Features(independent: bool, series: bool, parallel: bool)

  /** struct channel_group_spec: a group name, the outputs it holds as a bit mask, its features. */
  datatype GroupSpec = GroupSpec(name: string, mask: bv64, features: Features)

  /** The parts of struct scpi_pps the api reads: the commands it has, its features and options. */
  datatype Profile = Profile(commands: set<Cmd>, features: Features, devopts: seq<ConfOpt>, devoptsCg: seq<ConfOpt>)

  /** An analog sr_channel with its struct pps_channel. */
  datatype PpsChannel = PpsChannel(index: nat, name: string, hwOutputIdx: nat, hwname: string, mq: Mq)

  /** An sr_channel_group with its struct pps_channel_group. */
  datatype Group = Group(name: string, channels: seq<PpsChannel>, features: Features)

  // ---------------------------------------------------------------
  // probe_device: the channels
  // ---------------------------------------------------------------

  /** The entries among the first i of pci whose command the profile has, in table order. */
  function MeasuredPrefix(commands: set<Cmd>, i: nat): seq<PciEntry>
    requires i <= |Pci|
  {
    if i == 0 then []
    else MeasuredPrefix(commands, i - 1) + (if Pci[i - 1].command in commands then [Pci[i - 1]] else [])
  }

  /** The quantities measured on every output: the pci entries whose command the profile has. */
  function Measured(commands: set<Cmd>): seq<PciEntry> {
    MeasuredPrefix(commands, |Pci|)
  }

  /** Measured keeps exactly the table entries whose command the profile has. */
  lemma {:induction false} MeasuredPrefixMembers(commands: set<Cmd>, i: nat, e: PciEntry)
    requires i <= |Pci|
    ensures e in MeasuredPrefix(commands, i) <==> e in Pci[..i] && e.command in commands
  {
    if i > 0 {
      MeasuredPrefixMembers(commands, i - 1, e);
      assert Pci[..i] == Pci[..i - 1] + [Pci[i - 1]];
    }
  }

  /**
   * A channel's name: the quantity's prefix and the output's name written
   * with g_snprintf into a 16-byte buffer, so at most 15 characters of
   * them are kept.
   */
  function ChannelName(prefix: string, name: string): (r: string)
    ensures |r| <= 15 && |r| <= |prefix + name| && r == (prefix + name)[..|r|]
    ensures |r| == 15 || r == prefix + name
  {
    var full := prefix + name;
    if |full| <= 15 then full else full[..15]
  }

  /** The channels created for output chNum: one per measured quantity, named by ChannelName, indexes from base. */
  function Row(chNum: nat, spec: ChannelSpec, ms: seq<PciEntry>, base: nat): seq<PpsChannel> {
    seq(|ms|, (i: int) requires 0 <= i < |ms| => PpsChannel(base + i, ChannelName(ms[i].prefix, spec.name), chNum, spec.name, ms[i].mq))
  }

  /** One more measured quantity adds one channel, with the next index, to the row. */
  lemma RowSnoc(chNum: nat, spec: ChannelSpec, ms: seq<PciEntry>, base: nat, e: PciEntry)
    ensures Row(chNum, spec, ms + [e], base) ==
            Row(chNum, spec, ms, base) + [PpsChannel(base + |ms|, ChannelName(e.prefix, spec.name), chNum, spec.name, e.mq)]
  {
    var ms' := ms + [e];
    assert forall i :: 0 <= i < |ms| ==> ms'[i] == ms[i];
  }

  /** The channels of probe_device: the rows of the outputs, in output order. */
  function ChannelList(specs: seq<ChannelSpec>, ms: seq<PciEntry>): (chans: seq<PpsChannel>)
    ensures |chans| == |specs| * |ms|
    decreases |specs|
  {
    if specs == [] then []
    else
      var n := |specs| - 1;
      ChannelList(specs[..n], ms) + Row(n, specs[n], ms, n * |ms|)
  }

  /** Position c * m + i is inside a table of n rows of m entries. */
  lemma RowPosition(c: nat, i: nat, m: nat, n: nat)
    requires c < n && i < m
    ensures c * m + i < n * m
  {
    var k: nat := n - 1 - c;
    assert k * m >= 0;
    calc {
      n * m;
      (k + c + 1) * m;
      k * m + c * m + m;
    }
  }

  /**
   * For output c and the i-th measured quantity, the channel at position
   * c * |ms| + i has that position as its index, is named the quantity's
   * prefix followed by the output's name (cut to 15 characters), and
   * measures that quantity on output c. So indexes run consecutively
   * from 0, outputs in order.
   */
  lemma {:induction false} ChannelListLayout(specs: seq<ChannelSpec>, ms: seq<PciEntry>, c: nat, i: nat)
    requires c < |specs| && i < |ms|
    ensures c * |ms| + i < |ChannelList(specs, ms)|
    ensures ChannelList(specs, ms)[c * |ms| + i] ==
            PpsChannel(c * |ms| + i, ChannelName(ms[i].prefix, specs[c].name), c, specs[c].name, ms[i].mq)
    decreases |specs|
  {
    var n := |specs| - 1;
    RowPosition(c, i, |ms|, |specs|);
    if c < n {
      ChannelListLayout(specs[..n], ms, c, i);
      assert specs[..n][c] == specs[c];
    }
  }

  /**
   * The inner loop of probe_device for output chNum: for each pci entry
   * whose command the profile has, one channel with the next index
   * (ch_idx, the length of the list so far).
   */
  method ProbeRow(spec: ChannelSpec, commands: set<Cmd>, chNum: nat, before: seq<PpsChannel>)
    returns (chans: seq<PpsChannel>)
    ensures chans == before + Row(chNum, spec, Measured(commands), |before|)
  {
    chans := before;
    var chIdx := |before|;
    var i := 0;
    while i < |Pci|
      invariant 0 <= i <= |Pci|
      invariant chans == before + Row(chNum, spec, MeasuredPrefix(commands, i), |before|)
      invariant chIdx == |chans| == |before| + |MeasuredPrefix(commands, i)|
    {
      if Pci[i].command in commands {
        RowSnoc(chNum, spec, MeasuredPrefix(commands, i), |before|, Pci[i]);
        chans := chans + [PpsChannel(chIdx, ChannelName(Pci[i].prefix, spec.name), chNum, spec.name, Pci[i].mq)];
        chIdx := chIdx + 1;
      }
      i := i + 1;
    }
  }

  /** The quantities of a list of pci entries. */
  function QuantitiesOf(ms: seq<PciEntry>): set<Mq> {
    set e | e in ms :: e.mq
  }

  /** Every channel's index is its position, and its output is one of the profile's. */
  lemma {:induction false} ChannelListIndexes(specs: seq<ChannelSpec>, ms: seq<PciEntry>, k: nat)
    requires k < |ChannelList(specs, ms)|
    ensures ChannelList(specs, ms)[k].index == k
    ensures ChannelList(specs, ms)[k].hwOutputIdx < |specs|
    ensures ChannelList(specs, ms)[k].hwname == specs[ChannelList(specs, ms)[k].hwOutputIdx].name
    ensures ChannelList(specs, ms)[k].mq in QuantitiesOf(ms)
    decreases |specs|
  {
    var n := |specs| - 1;
    var prev := ChannelList(specs[..n], ms);
    if k < |prev| {
      ChannelListIndexes(specs[..n], ms, k);
    }
  }

  /**
   * probe_device's nested loop: for each output in order, and for each
   * pci entry whose command the profile has, one channel with the next
   * index.
   */
  method ProbeChannels(specs: seq<ChannelSpec>, commands: set<Cmd>) returns (chans: seq<PpsChannel>)
    ensures chans == ChannelList(specs, Measured(commands))
  {
    var ms := Measured(commands);
    chans := [];
    var chNum := 0;
    while chNum < |specs|
      invariant 0 <= chNum <= |specs|
      invariant chans == ChannelList(specs[..chNum], ms)
      invariant |chans| == chNum * |ms|
    {
      chans := ProbeRow(specs[chNum], commands, chNum, chans);
      assert specs[..chNum + 1][..chNum] == specs[..chNum];
      chNum := chNum + 1;
    }
    assert specs[..|specs|] == specs;
  }

  // ---------------------------------------------------------------
  // probe_device: the channel groups
  // ---------------------------------------------------------------

  /** The mask selecting output j: bit 0 shifted left j times. */
  function OutputBit(j: nat): bv64
    requires j < 64
  {
    if j == 0 then 1 else OutputBit(j - 1) << 1
  }

  /** The test of probe_device's scan: the walking bit is set in the group's channel_index_mask. */
  predicate Selects(mask: bv64, bit: bv64) {
    mask & bit != 0
  }

  /** Bit j of a channel_index_mask. */
  predicate MaskBit(mask: bv64, j: nat)
    requires j < 64
  {
    Selects(mask, OutputBit(j))
  }

  /** The channels of a list that sit on output j, in list order. */
  function OnOutput(chans: seq<PpsChannel>, j: nat): seq<PpsChannel>
    decreases |chans|
  {
    if chans == [] then []
    else
      var last := chans[|chans| - 1];
      OnOutput(chans[..|chans| - 1], j) + (if last.hwOutputIdx == j then [last] else [])
  }

  /** The group scan up to output j: for each output below j whose mask bit is set, its channels. */
  function GroupScan(mask: bv64, chans: seq<PpsChannel>, j: nat): seq<PpsChannel>
    requires j <= 64
  {
    if j == 0 then []
    else GroupScan(mask, chans, j - 1) + (if MaskBit(mask, j - 1) then OnOutput(chans, j - 1) else [])
  }

  lemma {:induction false} OnOutputMembers(chans: seq<PpsChannel>, j: nat, x: PpsChannel)
    ensures x in OnOutput(chans, j) <==> x in chans && x.hwOutputIdx == j
    decreases |chans|
  {
    if chans != [] {
      OnOutputMembers(chans[..|chans| - 1], j, x);
      assert chans == chans[..|chans| - 1] + [chans[|chans| - 1]];
    }
  }

  /**
   * A group holds exactly the channels whose output's bit is set in the
   * mask, among outputs 0 to 63 (with j = 64 the whole scan).
   */
  lemma {:induction false} GroupScanMembers(mask: bv64, chans: seq<PpsChannel>, j: nat, x: PpsChannel)
    requires j <= 64
    ensures x in GroupScan(mask, chans, j) <==>
            (x in chans && x.hwOutputIdx < j && MaskBit(mask, x.hwOutputIdx))
  {
    if j > 0 {
      GroupScanMembers(mask, chans, j - 1, x);
      OnOutputMembers(chans, j - 1, x);
    }
  }

  /** probe_device's innermost loop: the channels of the list on output j, in list order. */
  method CollectOutput(chans: seq<PpsChannel>, j: nat) returns (found: seq<PpsChannel>)
    ensures found == OnOutput(chans, j)
  {
    found := [];
    var l := 0;
    while l < |chans|
      invariant 0 <= l <= |chans|
      invariant found == OnOutput(chans[..l], j)
    {
      if chans[l].hwOutputIdx == j {
        found := found + [chans[l]];
      }
      assert chans[..l + 1][..l] == chans[..l];
      l := l + 1;
    }
    assert chans[..|chans|] == chans;
  }

  /** Output j's turn of the group scan. */
  lemma GroupScanStep(mask: bv64, chans: seq<PpsChannel>, j: nat)
    requires j < 64
    ensures GroupScan(mask, chans, j + 1) ==
      GroupScan(mask, chans, j) + (if MaskBit(mask, j) then OnOutput(chans, j) else [])
  {
  }

  /** Shifting the walking bit once more moves it to the next output. */
  lemma BitStep(j: nat)
    requires j + 1 < 64
    ensures OutputBit(j) << 1 == OutputBit(j + 1)
  {
  }

  /** probe_device's scan of one group: outputs 0 to 63 with a walking mask bit, each over the channel list. */
  method GroupChannels(mask: bv64, chans: seq<PpsChannel>) returns (members: seq<PpsChannel>)
    ensures members == GroupScan(mask, chans, 64)
  {
    members := [];
    var j := 0;
    var bit: bv64 := 1;
    while j < 64
      invariant 0 <= j <= 64
      invariant j < 64 ==> bit == OutputBit(j)
      invariant members == GroupScan(mask, chans, j)
    {
      GroupScanStep(mask, chans, j);
      if Selects(mask, bit) {
        var found := CollectOutput(chans, j);
        members := members + found;
      }
      if j + 1 < 64 {
        BitStep(j);
      }
      j := j + 1;
      bit := bit << 1;
    }
  }

  /** The groups of probe_device: one per group spec, in order, with its name, members and features. */
  function Groups(gs: seq<GroupSpec>, chans: seq<PpsChannel>): (groups: seq<Group>)
    ensures |groups| == |gs|
  {
    seq(|gs|, (i: int) requires 0 <= i < |gs| => Group(gs[i].name, GroupScan(gs[i].mask, chans, 64), gs[i].features))
  }

  /** probe_device's loop over the group specs. */
  method BuildGroups(gs: seq<GroupSpec>, chans: seq<PpsChannel>) returns (groups: seq<Group>)
    ensures groups == Groups(gs, chans)
  {
    groups := [];
    var i := 0;
    while i < |gs|
      invariant 0 <= i <= |gs|
      invariant groups == Groups(gs[..i], chans)
    {
      var members := GroupChannels(gs[i].mask, chans);
      groups := groups + [Group(gs[i].name, members, gs[i].features)];
      i := i + 1;
    }
    assert gs[..|gs|] == gs;
  }

  // ---------------------------------------------------------------
  // config_get
  // ---------------------------------------------------------------

  /** The GVariant type config_get asks scpi_cmd_resp for. */
  datatype ReplyType = BoolReply | DoubleReply | StringReply

  /** config_get's switch: the reply type and query of a key, None for a key it does not serve. */
  function GetQuery(key: Key): Option<(ReplyType, Cmd)> {
    match key
    case Enabled => Some((BoolReply, GetOutputEnabled))
    case Voltage => Some((DoubleReply, GetMeasVoltage))
    case VoltageTarget => Some((DoubleReply, GetVoltageTarget))
    case OutputFrequency => Some((DoubleReply, GetMeasFrequency))
    case OutputFrequencyTarget => Some((DoubleReply, GetFrequencyTarget))
    case Current => Some((DoubleReply, GetMeasCurrent))
    case CurrentLimit => Some((DoubleReply, GetCurrentLimit))
    case OverVoltageProtectionEnabled => Some((BoolReply, GetOverVoltageProtectionEnabled))
    case OverVoltageProtectionActive => Some((BoolReply, GetOverVoltageProtectionActive))
    case OverVoltageProtectionThreshold => Some((DoubleReply, GetOverVoltageProtectionThreshold))
    case OverCurrentProtectionEnabled => Some((BoolReply, GetOverCurrentProtectionEnabled))
    case OverCurrentProtectionActive => Some((BoolReply, GetOverCurrentProtectionActive))
    case OverCurrentProtectionThreshold => Some((DoubleReply, GetOverCurrentProtectionThreshold))
    case OverTemperatureProtection => Some((BoolReply, GetOverTemperatureProtection))
    case Regulation => Some((StringReply, GetOutputRegulation))
    case _ => None
  }

  /** Every key config_get serves has its own query command. */
  lemma GetQueryInjective(k1: Key, k2: Key)
    requires GetQuery(k1).Some? && GetQuery(k2).Some?
    ensures GetQuery(k1).value.1 == GetQuery(k2).value.1 <==> k1 == k2
  {
  }

  /** The Rigol notation of a regulation reply: VOLT becomes CV, CURR becomes CC, the rest is kept. */
  function RigolNotation(s: string): string {
    if s == "VOLT" then "CV" else if s == "CURR" then "CC" else s
  }

  predicate IsRegulation(s: string) {
    s == "CV" || s == "CC" || s == "UR"
  }

  /** A reply is accepted exactly when it is one of the five regulation words of either notation. */
  lemma RigolNotationAccepts(s: string)
    ensures IsRegulation(RigolNotation(s)) <==> s in ["VOLT", "CURR", "CV", "CC", "UR"]
    ensures s in ["CV", "CC", "UR"] ==> RigolNotation(s) == s
  {
  }

  /** The outcome of config_get: the return code, the value handed back, what was sent. */
  datatype GetResult = GetResult(status: Status, data: Option<Variant>, issued: seq<Issued>)

  /**
   * A profile's option word equal to the bare key: one without capability
   * bits, since config_get compares the raw words with the key.
   */
  predicate BareOption(devopts: seq<ConfOpt>, key: Key) {
    ConfOpt(key, {}) in devopts
  }

  /** The group config_get uses: none when the key is among the profile's device options as a bare word. */
  function EffectiveGroup(devopts: seq<ConfOpt>, key: Key, cg: Option<PpsChannel>): Option<PpsChannel> {
    if cg.Some? && BareOption(devopts, key) then None else cg
  }

  /**
   * config_get. cg is the first channel of the channel group, if one is
   * given; ret and reply are scpi_cmd_resp's return code and the value it
   * left behind.
   */
  function Get(hasSdi: bool, devopts: seq<ConfOpt>, key: Key, cg: Option<PpsChannel>, ret: Status, reply: Variant): (r: GetResult)
    ensures !hasSdi ==> r == GetResult(ErrArg, None, [])
    ensures hasSdi && GetQuery(key).None? ==> r == GetResult(ErrNa, None, [])
    ensures hasSdi && GetQuery(key).Some? ==>
              r.issued == (if cg.Some? && !BareOption(devopts, key) then [Select(cg.value)] else []) + [Query(GetQuery(key).value.1)]
    ensures hasSdi && GetQuery(key).Some? && key != Regulation ==> r.status == ret && r.data == Some(reply)
    ensures hasSdi && key == Regulation && reply.VString? ==>
              r.data == Some(VString(RigolNotation(reply.s))) &&
              r.status == (if IsRegulation(RigolNotation(reply.s)) then ret else ErrData)
    ensures hasSdi && key == Regulation && !reply.VString? ==> r.status == ErrData
  {
    if !hasSdi then GetResult(ErrArg, None, [])
    else
      var group := EffectiveGroup(devopts, key, cg);
      match GetQuery(key)
      case None => GetResult(ErrNa, None, [])
      case Some((_, cmd)) =>
        var issued := (if group.Some? then [Select(group.value)] else []) + [Query(cmd)];
        if cmd != GetOutputRegulation then GetResult(ret, Some(reply), issued)
        else if !reply.VString? then GetResult(ErrData, Some(reply), issued)
        else
          var s := RigolNotation(reply.s);
          GetResult(if IsRegulation(s) then ret else ErrData, Some(VString(s)), issued)
  }

  /** A key among the device options as a bare word is read as if no channel group were given. */
  lemma GetIgnoresGroupForDevopts(devopts: seq<ConfOpt>, key: Key, cg: Option<PpsChannel>, ret: Status, reply: Variant)
    requires BareOption(devopts, key)
    ensures Get(true, devopts, key, cg, ret, reply) == Get(true, devopts, key, None, ret, reply)
    ensures forall ch :: Select(ch) !in Get(true, devopts, key, cg, ret, reply).issued
  {
  }

  /**
   * An option word that carries capability bits is not equal to the bare
   * key, so a served key listed only that way keeps its channel group and
   * the channel is selected before the query.
   */
  lemma GetKeepsGroupForCapabilityWords(key: Key, caps: set<Cap>, ch: PpsChannel, ret: Status, reply: Variant)
    requires caps != {} && GetQuery(key).Some?
    ensures !BareOption([ConfOpt(key, caps)], key)
    ensures Get(true, [ConfOpt(key, caps)], key, Some(ch), ret, reply).issued ==
              [Select(ch), Query(GetQuery(key).value.1)]
  {
  }

  // ---------------------------------------------------------------
  // config_set
  // ---------------------------------------------------------------

  /** g_variant_get_boolean: FALSE for a value of another type. */
  function AsBool(v: Variant): bool { v.VBool? && v.b }

  /** g_variant_get_double: 0 for a value of another type. */
  function AsDouble(v: Variant): real { if v.VDouble? then v.d else 0.0 }

  /** config_set's switch: the command a key and value become, None for a key it does not serve. */
  function SetCommand(key: Key, value: Variant): Option<Issued> {
    match key
    case Enabled => Some(Issue(if AsBool(value) then SetOutputEnable else SetOutputDisable))
    case VoltageTarget => Some(IssueValue(SetVoltageTarget, AsDouble(value)))
    case OutputFrequencyTarget => Some(IssueValue(SetFrequencyTarget, AsDouble(value)))
    case CurrentLimit => Some(IssueValue(SetCurrentLimit, AsDouble(value)))
    case OverVoltageProtectionEnabled =>
      Some(Issue(if AsBool(value) then SetOverVoltageProtectionEnable else SetOverVoltageProtectionDisable))
    case OverVoltageProtectionThreshold => Some(IssueValue(SetOverVoltageProtectionThreshold, AsDouble(value)))
    case OverCurrentProtectionEnabled =>
      Some(Issue(if AsBool(value) then SetOverCurrentProtectionEnable else SetOverCurrentProtectionDisable))
    case OverCurrentProtectionThreshold => Some(IssueValue(SetOverCurrentProtectionThreshold, AsDouble(value)))
    case OverTemperatureProtection =>
      Some(Issue(if AsBool(value) then SetOverTemperatureProtectionEnable else SetOverTemperatureProtectionDisable))
    case _ => None
  }

  /**
   * Every key config_set serves, config_get reads back with a reply of the
   * value's type: a boolean for the switches, a double for the targets,
   * limits and thresholds.
   */
  lemma SetKeysReadBack(key: Key, value: Variant)
    requires SetCommand(key, value).Some?
    ensures GetQuery(key).Some?
    ensures SetCommand(key, value).value.Issue? ==> GetQuery(key).value.0 == BoolReply
    ensures SetCommand(key, value).value.IssueValue? ==>
              GetQuery(key).value.0 == DoubleReply && SetCommand(key, value).value.d == AsDouble(value)
  {
  }

  /** config_set: the return code and what was sent; ret is scpi_cmd's return code. */
  function Set(hasSdi: bool, status: DevStatus, key: Key, value: Variant, cg: Option<PpsChannel>, ret: Status): (r: (Status, seq<Issued>))
    ensures !hasSdi ==> r == (ErrArg, [])
    ensures hasSdi && status != Active ==> r == (ErrDevClosed, [])
    ensures hasSdi && status == Active && SetCommand(key, value).None? ==>
              r.0 == ErrNa && r.1 == (if cg.Some? then [Select(cg.value)] else [])
    ensures hasSdi && status == Active && SetCommand(key, value).Some? ==>
              r.0 == ret && r.1 == (if cg.Some? then [Select(cg.value)] else []) + [SetCommand(key, value).value]
  {
    if !hasSdi then (ErrArg, [])
    else if status != Active then (ErrDevClosed, [])
    else
      var selected := if cg.Some? then [Select(cg.value)] else [];
      match SetCommand(key, value)
      case None => (ErrNa, selected)
      case Some(c) => (ret, selected + [c])
  }

  /** A boolean key switches on with its enable command and off with its disable command, and they differ. */
  lemma SetSwitchesBothWays(key: Key)
    requires SetCommand(key, VBool(true)).Some? && SetCommand(key, VBool(true)).value.Issue?
    ensures SetCommand(key, VBool(false)).Some? && SetCommand(key, VBool(false)).value.Issue?
    ensures SetCommand(key, VBool(true)).value.cmd != SetCommand(key, VBool(false)).value.cmd
  {
  }

  // ---------------------------------------------------------------
  // config_list
  // ---------------------------------------------------------------

  /** The CHANNEL_CONFIG names of the features a profile has, in the order Independent, Series, Parallel. */
  function ChannelConfigNames(f: Features): seq<string> {
    (if f.independent then ["Independent"] else []) +
    (if f.series then ["Series"] else []) +
    (if f.parallel then ["Parallel"] else [])
  }

  /** Each name is listed exactly when its flag is set, once, and in the fixed order. */
  lemma ChannelConfigNamesOrder(f: Features)
    ensures "Independent" in ChannelConfigNames(f) <==> f.independent
    ensures "Series" in ChannelConfigNames(f) <==> f.series
    ensures "Parallel" in ChannelConfigNames(f) <==> f.parallel
    ensures |ChannelConfigNames(f)| == (if f.independent then 1 else 0) + (if f.series then 1 else 0) + (if f.parallel then 1 else 0)
    ensures f.independent ==> ChannelConfigNames(f)[0] == "Independent"
    ensures f.parallel ==> ChannelConfigNames(f)[|ChannelConfigNames(f)| - 1] == "Parallel"
  {
  }

  /** A list of keys as an option list. */
  function Options(keys: seq<Key>): (opts: seq<ConfOpt>)
    ensures |opts| == |keys| && forall i :: 0 <= i < |keys| ==> opts[i].key == keys[i]
  {
    seq(|keys|, (i: int) requires 0 <= i < |keys| => ConfOpt(keys[i], {}))
  }

  /** The minimum, maximum and step of a range, as the array config_list builds. */
  function RangeValues(r: Range): seq<real> {
    [r.min, r.max, r.step]
  }

  /** The range a group key lists from an output's spec, None for other keys. */
  function SpecRange(key: Key, spec: ChannelSpec): Option<Range> {
    if key == VoltageTarget then Some(spec.voltage)
    else if key == OutputFrequencyTarget then Some(spec.frequency)
    else if key == CurrentLimit then Some(spec.current)
    else None
  }

  /**
   * The channel spec config_list reads for a group, as written: the
   * profile's channel table indexed by the group's first channel's index,
   * the position among all analog channels. None where that index is past
   * the table.
   */
  function SpecOfGroupAsWritten(specs: seq<ChannelSpec>, ch: PpsChannel): Option<ChannelSpec> {
    if ch.index < |specs| then Some(specs[ch.index]) else None
  }

  /** The channel spec of the output the group's first channel measures. */
  function SpecOfGroup(specs: seq<ChannelSpec>, ch: PpsChannel): ChannelSpec
    requires ch.hwOutputIdx < |specs|
  {
    specs[ch.hwOutputIdx]
  }

  /**
   * On a two-output supply measuring voltage and current, the second
   * output's group holds channels 2 and 3 and nothing else; both indexes
   * are past the two-entry channel table, so the as-written read goes out
   * of bounds, while the output's own spec exists.
   */
  lemma SpecOfGroupAsWrittenOverruns(a: ChannelSpec, b: ChannelSpec)
    ensures var specs := [a, b];
            var chans := ChannelList(specs, Measured({GetMeasVoltage, GetMeasCurrent}));
            |chans| == 4 && chans[2] in GroupScan(2, chans, 64) && chans[3] in GroupScan(2, chans, 64) &&
            (forall x :: x in GroupScan(2, chans, 64) ==>
               x.hwOutputIdx == 1 && SpecOfGroupAsWritten(specs, x).None? && SpecOfGroup(specs, x) == b)
  {
    var specs := [a, b];
    var commands := {GetMeasVoltage, GetMeasCurrent};
    var ms := Measured(commands);
    assert MeasuredPrefix(commands, 1) == [Pci[0]];
    assert MeasuredPrefix(commands, 2) == [Pci[0], Pci[1]];
    assert MeasuredPrefix(commands, 3) == [Pci[0], Pci[1]];
    assert |ms| == 2;
    var chans := ChannelList(specs, ms);
    ChannelListLayout(specs, ms, 0, 0);
    ChannelListLayout(specs, ms, 0, 1);
    ChannelListLayout(specs, ms, 1, 0);
    ChannelListLayout(specs, ms, 1, 1);
    assert chans[0].hwOutputIdx == 0 && chans[1].hwOutputIdx == 0;
    assert chans[2].hwOutputIdx == 1 && chans[2].index == 2;
    assert chans[3].hwOutputIdx == 1 && chans[3].index == 3;
    assert MaskBit(2, 1) && !MaskBit(2, 0);
    forall x | x in GroupScan(2, chans, 64)
      ensures x.hwOutputIdx == 1 && SpecOfGroupAsWritten(specs, x).None? && SpecOfGroup(specs, x) == b
    {
      GroupScanMembers(2, chans, 64, x);
      var k :| 0 <= k < 4 && chans[k] == x;
    }
    GroupScanMembers(2, chans, 64, chans[2]);
    GroupScanMembers(2, chans, 64, chans[3]);
  }

  /** The corrected read is the spec of the very output a channel was created for. */
  lemma SpecOfGroupIsOwnOutput(specs: seq<ChannelSpec>, commands: set<Cmd>, k: nat)
    requires k < |ChannelList(specs, Measured(commands))|
    ensures var ch := ChannelList(specs, Measured(commands))[k];
            ch.hwOutputIdx < |specs| && SpecOfGroup(specs, ch).name == ch.hwname
  {
    ChannelListIndexes(specs, Measured(commands), k);
  }

  /**
   * config_list, with the group's spec read from the first channel's own
   * output. cg is the first channel of the channel group, if one is given.
   */
  function List(hasSdi: bool, p: Profile, specs: seq<ChannelSpec>, cg: Option<PpsChannel>, key: Key): (r: (Status, Option<Variant>))
    requires cg.Some? ==> cg.value.hwOutputIdx < |specs|
    ensures key == ScanOptions ==> r == (Ok, Some(VOptions(Options([Conn, SerialComm]))))
    ensures key == DeviceOptions && !hasSdi ==> r == (Ok, Some(VOptions(Options([PowerSupply]))))
    ensures key != ScanOptions && key != DeviceOptions && !hasSdi ==> r == (ErrArg, None)
    ensures hasSdi && cg.None? && key == DeviceOptions ==> r == (Ok, Some(VOptions(p.devopts)))
    ensures hasSdi && cg.None? && key == ChannelConfig ==>
              (r.0 == Ok <==> ChannelConfigNames(p.features) != []) &&
              (r.0 == Ok ==> r.1 == Some(VStrings(ChannelConfigNames(p.features)))) &&
              (r.0 != Ok ==> r.0 == ErrNa)
    ensures hasSdi && cg.Some? && key == DeviceOptions ==> r == (Ok, Some(VOptions(p.devoptsCg)))
    ensures hasSdi && cg.Some? && SpecRange(key, specs[cg.value.hwOutputIdx]).Some? ==>
              r == (Ok, Some(VDoubles(RangeValues(SpecRange(key, specs[cg.value.hwOutputIdx]).value))))
    ensures hasSdi && key !in {ScanOptions, DeviceOptions, ChannelConfig, VoltageTarget, OutputFrequencyTarget, CurrentLimit} ==>
              r == (ErrNa, None)
  {
    if key == ScanOptions then (Ok, Some(VOptions(Options([Conn, SerialComm]))))
    else if key == DeviceOptions && !hasSdi then (Ok, Some(VOptions(Options([PowerSupply]))))
    else if !hasSdi then (ErrArg, None)
    else if cg.None? then
      if key == DeviceOptions then (Ok, Some(VOptions(p.devopts)))
      else if key == ChannelConfig then
        var names := ChannelConfigNames(p.features);
        if names == [] then (ErrNa, None) else (Ok, Some(VStrings(names)))
      else (ErrNa, None)
    else if key == DeviceOptions then (Ok, Some(VOptions(p.devoptsCg)))
    else
      match SpecRange(key, SpecOfGroup(specs, cg.value))
      case Some(range) => (Ok, Some(VDoubles(RangeValues(range))))
      case None => (ErrNa, None)
  }

  // ---------------------------------------------------------------
  // dev_acquisition_start
  // ---------------------------------------------------------------

  /** The measure command of a quantity, None for a quantity without one. */
  function MeasureCommand(mq: Mq): Option<Cmd> {
    if mq == MqVoltage then Some(GetMeasVoltage)
    else if mq == MqFrequency then Some(GetMeasFrequency)
    else if mq == MqCurrent then Some(GetMeasCurrent)
    else if mq == MqPower then Some(GetMeasPower)
    else None
  }

  /** The measure command of every pci entry is the entry's own command, and no other quantity has one. */
  lemma MeasureCommandMatchesPci(mq: Mq)
    ensures MeasureCommand(mq).Some? <==> exists e :: e in Pci && e.mq == mq
    ensures forall e :: e in Pci && e.mq == mq ==> MeasureCommand(mq) == Some(e.command)
  {
    if MeasureCommand(mq).Some? {
      var i := if mq == MqVoltage then 0 else if mq == MqCurrent then 1 else if mq == MqPower then 2 else 3;
      assert Pci[i].mq == mq;
    }
  }

  /**
   * Every channel probe_device creates has a measure command, and the
   * profile has that command: acquisition never takes the SR_ERR branch
   * for a channel of the device.
   */
  lemma ChannelsAreMeasurable(specs: seq<ChannelSpec>, commands: set<Cmd>, k: nat)
    requires k < |ChannelList(specs, Measured(commands))|
    ensures var ch := ChannelList(specs, Measured(commands))[k];
            MeasureCommand(ch.mq).Some? && MeasureCommand(ch.mq).value in commands
  {
    var ms := Measured(commands);
    ChannelListIndexes(specs, ms, k);
    var mq := ChannelList(specs, ms)[k].mq;
    var e :| e in ms && e.mq == mq;
    MeasuredPrefixMembers(commands, |Pci|, e);
    assert Pci[..|Pci|] == Pci;
    MeasureCommandMatchesPci(mq);
  }

  // ---------------------------------------------------------------
  // dev_open / dev_close: the beeper
  // ---------------------------------------------------------------

  /** What dev_open sends once the port is open; beeper is the beeper query's reply, None if it failed. */
  function OpenCommands(beeper: Option<bool>): seq<Issued> {
    [Issue(CmdRemote), Query(CmdBeeper)] + (if beeper == Some(true) then [Issue(CmdBeeperDisable)] else [])
  }

  /** What dev_close sends to a device with a connection. */
  function CloseCommands(beeperWasSet: bool): seq<Issued> {
    (if beeperWasSet then [Issue(CmdBeeperEnable)] else []) + [Issue(CmdLocal)]
  }

  /**
   * Open then close leaves the beeper as it was: close re-enables it
   * exactly when open found it on and disabled it.
   */
  lemma BeeperRestored(beeper: Option<bool>)
    ensures Issue(CmdBeeperDisable) in OpenCommands(beeper) <==> beeper == Some(true)
    ensures Issue(CmdBeeperEnable) in CloseCommands(beeper == Some(true)) <==> Issue(CmdBeeperDisable) in OpenCommands(beeper)
    ensures Issue(CmdBeeperEnable) !in OpenCommands(beeper) && Issue(CmdBeeperDisable) !in CloseCommands(beeper == Some(true))
  {
  }

  /** A probed SCPI power supply: struct sr_dev_inst with its struct dev_context. */
  class PpsDevice {
    const profile: Profile
    const specs: seq<ChannelSpec>
    const hasConn: bool
    var status: DevStatus
    var channels: seq<PpsChannel>
    var groups: seq<Group>
    var beeperWasSet: bool
    var sourceAdded: bool
    var issued: seq<Issued>
    var packets: seq<Packet>

    /**
     * probe_device once a profile matched: the channels and groups of the
     * outputs (the profile's own, or what its probe_channels callback
     * found), then LOCAL. The status the SCPI scan leaves is outside this
     * model; the device starts inactive.
     */
    constructor Probe(profile: Profile, specs: seq<ChannelSpec>, groupSpecs: seq<GroupSpec>, hasConn: bool)
      ensures this.profile == profile && this.specs == specs && this.hasConn == hasConn
      ensures channels == ChannelList(specs, Measured(profile.commands))
      ensures groups == Groups(groupSpecs, channels)
      ensures status == Inactive && !beeperWasSet && !sourceAdded
      ensures issued == [Issue(CmdLocal)] && packets == []
    {
      var chans := ProbeChannels(specs, profile.commands);
      var gs := BuildGroups(groupSpecs, chans);
      this.profile := profile;
      this.specs := specs;
      this.hasConn := hasConn;
      channels := chans;
      groups := gs;
      status := Inactive;
      beeperWasSet := false;
      sourceAdded := false;
      issued := [Issue(CmdLocal)];
      packets := [];
    }

    /** dev_open: openOk is sr_scpi_open's outcome, beeper the beeper query's reply. */
    method DevOpen(openOk: bool, beeper: Option<bool>) returns (st: Status)
      modifies this`status, this`beeperWasSet, this`issued
      ensures old(status) != Inactive || !openOk ==>
                st == Err && status == old(status) && beeperWasSet == old(beeperWasSet) && issued == old(issued)
      ensures old(status) == Inactive && openOk ==>
                st == Ok && status == Active && beeperWasSet == (beeper == Some(true)) &&
                issued == old(issued) + OpenCommands(beeper)
    {
      if status != Inactive {
        return Err;
      }
      if !openOk {
        return Err;
      }
      status := Active;
      issued := issued + [Issue(CmdRemote)];
      beeperWasSet := false;
      issued := issued + [Query(CmdBeeper)];
      if beeper.Some? {
        if beeper.value {
          beeperWasSet := true;
          issued := issued + [Issue(CmdBeeperDisable)];
        }
      }
      st := Ok;
    }

    /** dev_close: with a connection, restore the beeper, return to local control and close. */
    method DevClose() returns (st: Status)
      modifies this`status, this`issued
      ensures old(status) != Active ==> st == ErrDevClosed && status == old(status) && issued == old(issued)
      ensures old(status) == Active && !hasConn ==> st == Ok && status == Active && issued == old(issued)
      ensures old(status) == Active && hasConn ==>
                st == Ok && status == Inactive && issued == old(issued) + CloseCommands(beeperWasSet)
    {
      if status != Active {
        return ErrDevClosed;
      }
      if hasConn {
        if beeperWasSet {
          issued := issued + [Issue(CmdBeeperEnable)];
        }
        issued := issued + [Issue(CmdLocal)];
        status := Inactive;
      }
      st := Ok;
    }

    /** config_get on this device. */
    method ConfigGet(key: Key, cg: Option<PpsChannel>, ret: Status, reply: Variant) returns (st: Status, data: Option<Variant>)
      modifies this`issued
      ensures var r := Get(true, profile.devopts, key, cg, ret, reply);
              st == r.status && data == r.data && issued == old(issued) + r.issued
    {
      var r := Get(true, profile.devopts, key, cg, ret, reply);
      st, data := r.status, r.data;
      issued := issued + r.issued;
    }

    /** config_set on this device. */
    method ConfigSet(key: Key, value: Variant, cg: Option<PpsChannel>, ret: Status) returns (st: Status)
      modifies this`issued
      ensures var r := Set(true, old(status), key, value, cg, ret);
              st == r.0 && issued == old(issued) + r.1
    {
      var r := Set(true, status, key, value, cg, ret);
      st := r.0;
      issued := issued + r.1;
    }

    /**
     * dev_acquisition_start: sourceRet is sr_scpi_source_add's return code,
     * first the first enabled channel, selectRet select_channel's.
     */
    method AcquisitionStart(sourceRet: Status, first: PpsChannel, selectRet: Status) returns (st: Status)
      modifies this`sourceAdded, this`packets, this`issued
      ensures old(status) != Active ==>
                st == ErrDevClosed && packets == old(packets) && issued == old(issued) && sourceAdded == old(sourceAdded)
      ensures old(status) == Active && sourceRet != Ok ==>
                st == sourceRet && packets == old(packets) && issued == old(issued) && sourceAdded == old(sourceAdded)
      ensures old(status) == Active && sourceRet == Ok ==> sourceAdded && packets == old(packets) + [Header]
      ensures old(status) == Active && sourceRet == Ok && Negative(selectRet) ==>
                st == selectRet && issued == old(issued) + [Select(first)]
      ensures old(status) == Active && sourceRet == Ok && !Negative(selectRet) && MeasureCommand(first.mq).None? ==>
                st == Err && issued == old(issued) + [Select(first)]
      ensures old(status) == Active && sourceRet == Ok && !Negative(selectRet) && MeasureCommand(first.mq).Some? ==>
                st == Ok && issued == old(issued) + [Select(first), IssueName(MeasureCommand(first.mq).value, first.hwname)]
    {
      if status != Active {
        return ErrDevClosed;
      }
      if sourceRet != Ok {
        return sourceRet;
      }
      sourceAdded := true;
      packets := packets + [Header];
      issued := issued + [Select(first)];
      if Negative(selectRet) {
        return selectRet;
      }
      var cmd := MeasureCommand(first.mq);
      if cmd.None? {
        return Err;
      }
      issued := issued + [IssueName(cmd.value, first.hwname)];
      st := Ok;
    }

    /** dev_acquisition_stop: drop the source and send the end of the stream. */
    method AcquisitionStop() returns (st: Status)
      modifies this`sourceAdded, this`packets
      ensures old(status) != Active ==> st == ErrDevClosed && packets == old(packets) && sourceAdded == old(sourceAdded)
      ensures old(status) == Active ==> st == Ok && !sourceAdded && packets == old(packets) + [End]
    {
      if status != Active {
        return ErrDevClosed;
      }
      sourceAdded := false;
      packets := packets + [End];
      st := Ok;
    }
  }
}
