/**
 * The polling loop of the Korad KAxxxxP power supplies
 * (src/hardware/korad-kaxxxxp/protocol.c): one query is outstanding at a
 * time; each reply is stored, sent on if it is a reading, and the next
 * target in the round robin is queried when the source times out. Time is
 * the monotonic clock in microseconds, passed in as `now`; what the serial
 * port returns is passed in too.
 */
module Korad {
  import opened Common
  import SwLimits

  /** REQ_TIMEOUT_MS */
  const ReqTimeoutMs: nat := 500
  /** DEVICE_PROCESSING_TIME_MS */
  const DeviceProcessingTimeMs: nat := 80
  /** G_IO_IN */
  const GIoIn: int := 1
  /** SR_ERR as an int */
  const SrErr: int := -1
  /** SR_MQ_VOLTAGE and SR_MQ_CURRENT */
  const MqVoltage: int := 10000
  const MqCurrent: int := 10001

  /** The KAXXXXP_* targets: what the next query or setting is about. */
  datatype Target =
    | Current | CurrentMax | Voltage | VoltageMax | Status
    | Output | Beep | Ocp | Ovp | Save | Recall

  /** The targets the polling round robin settles into. */
  predicate Polled(t: Target)
  {
    t == Target.Current || t == Target.Voltage || t == Status
  }

  /** next_measurement: the target after a reply has come in. */
  function Next(t: Target): (r: Target)
    ensures Polled(r)
    ensures (t == Beep || t == Ocp || t == Ovp || t == Output) ==> r == Status
  {
    match t
    case Current => Target.Voltage
    case CurrentMax => Target.Current
    case Voltage => Status
    case VoltageMax => Target.Current
    case Beep | Ocp | Ovp | Output => Status
    case Status => Target.Current
    case _ => Target.Current
  }

  /**
   * After at most one step the targets go round current, voltage and
   * status, each once every three replies.
   */
  lemma PollCycle(t: Target)
    ensures Polled(Next(t))
    ensures Next(Next(Next(Next(t)))) == Next(t)
    ensures Polled(t) ==> {Next(t), Next(Next(t)), Next(Next(Next(t)))} == {Target.Current, Target.Voltage, Status}
  {
  }

  /** The targets in enum order, from KAXXXXP_CURRENT to one past KAXXXXP_STATUS. */
  const AllTargets: seq<Target> := [Target.Current, CurrentMax, Target.Voltage, VoltageMax, Status, Output]

  /** What goes out on the serial port: a query, or a setting with its number. */
  datatype Command = Query(text: string) | SetTo(prefix: string, value: real)

  /** The 0 or 1 that set_value writes for a switch. */
  function Flag(b: bool): (r: real)
    ensures r == 1.0 <==> b
    ensures r == 0.0 <==> !b
  {
    if b then 1.0 else 0.0
  }

  /** query_value's command for a target; the targets it cannot query have none. */
  function QueryCommand(t: Target): (r: Option<string>)
    ensures r.None? <==> (t == Beep || t == Ocp || t == Ovp || t == Save || t == Recall)
    ensures r.Some? ==> |r.value| >= 6 && r.value[|r.value| - 1] == '?'
  {
    match t
    case Current => Some("IOUT1?")
    case CurrentMax => Some("ISET1?")
    case Voltage => Some("VOUT1?")
    case VoltageMax => Some("VSET1?")
    case Status | Output => Some("STATUS?")
    case _ => None
  }

  /** The queries get_all_values sends for its first k targets. */
  function Queries(k: nat): (qs: seq<Command>)
    requires k <= 5
    ensures |qs| == k
    ensures forall i :: 0 <= i < k ==> qs[i].Query? && QueryCommand(AllTargets[i]) == Some(qs[i].text)
  {
    if k == 0 then [] else Queries(k - 1) + [Query(QueryCommand(AllTargets[k - 1]).value)]
  }

  /** get_reply's read length: one status byte, or five characters of a number. */
  function ReplyLength(t: Target): (n: nat)
    ensures n == 1 || n == 5
    ensures n == 1 <==> (t == Status || t == Output)
  {
    if t == Status || t == Output then 1 else 5
  }

  /** The flags get_reply takes from a status byte. */
  datatype StatusFlags = StatusFlags(cc0: bool, cc1: bool, beep: bool, ocp: bool, output: bool, ovp: bool)

  /**
   * The status decode: channels one and two are in constant-current mode
   * when bits 0 and 1 are clear; OCP is bit 5 and the output bit 6; beep
   * is always reported on; OVP is taken from bit 7 only while the output is
   * on, else it keeps its old value.
   */
  function DecodeStatus(b: bv8, ovp0: bool): (f: StatusFlags)
    ensures f.cc0 <==> b & 1 == 0
    ensures f.cc1 <==> b & 2 == 0
    ensures f.beep
    ensures f.ocp <==> b & 0x20 != 0
    ensures f.output <==> b & 0x40 != 0
    ensures f.ovp == if b & 0x40 != 0 then b & 0x80 != 0 else ovp0
  {
    var output := b & 0x40 != 0;
    StatusFlags(b & 1 == 0, b & 2 == 0, true, b & 0x20 != 0, output,
      if output then b & 0x80 != 0 else ovp0)
  }

  /** A status byte with the given flags. */
  function EncodeStatus(f: StatusFlags): bv8
  {
    (if f.cc0 then 0 else 1) | (if f.cc1 then 0 else 2) | (if f.beep then 0x10 else 0) |
    (if f.ocp then 0x20 else 0) | (if f.output then 0x40 else 0) | (if f.ovp then 0x80 else 0)
  }

  /**
   * Decoding the byte a supply with these flags reports gives the flags
   * back, as long as the beeper is on and OVP is either visible (output
   * on) or unchanged.
   */
  lemma DecodeEncode(f: StatusFlags, ovp0: bool)
    requires f.beep && (f.output || f.ovp == ovp0)
    ensures DecodeStatus(EncodeStatus(f), ovp0) == f
  {
  }

  /** The bits the decode reads are the bits the encode of the decode writes. */
  lemma EncodeDecode(b: bv8, ovp0: bool)
    ensures var e := EncodeStatus(DecodeStatus(b, ovp0));
      e & 0x63 == b & 0x63 && (b & 0x40 != 0 ==> e & 0x80 == b & 0x80)
  {
  }

  /** give_device_time_to_process: how long to wait so that 80 ms have passed since the last request. */
  function ProcessingWait(reqSentAt: nat, now: nat): (w: nat)
    ensures w > 0 <==> now < reqSentAt + DeviceProcessingTimeMs * 1000
    ensures now + w >= reqSentAt + DeviceProcessingTimeMs * 1000
    ensures w > 0 ==> now + w == reqSentAt + DeviceProcessingTimeMs * 1000
  {
    if reqSentAt + DeviceProcessingTimeMs * 1000 > now then reqSentAt + DeviceProcessingTimeMs * 1000 - now else 0
  }

  /** The elapsed time as the source computes it, in 64-bit unsigned arithmetic. */
  function Elapsed(now: nat, sentAt: nat): (e: nat)
    ensures e < 0x1_0000_0000_0000_0000
    ensures sentAt <= now < sentAt + 0x1_0000_0000_0000_0000 ==> e == now - sentAt
  {
    (now - sentAt) % 0x1_0000_0000_0000_0000
  }

  /** The packet a reply to target t produces: only currents and voltages are sent. */
  function Sample(t: Target, current: real, voltage: real): (ps: seq<Packet>)
    ensures |ps| <= 1
    ensures ps != [] <==> (t == Target.Current || t == Target.Voltage)
  {
    if t == Target.Current then [Measurement(MqCurrent, current)]
    else if t == Target.Voltage then [Measurement(MqVoltage, voltage)]
    else []
  }

  /** The state of one supply (struct dev_context and the parts of sdi it uses). */
  class KoradDevice {
    var target: Target
    var replyPending: bool
    var reqSentAt: nat
    var current: real
    var currentMax: real
    var voltage: real
    var voltageMax: real
    var outputEnabled: bool
    var beepEnabled: bool
    var ocpEnabled: bool
    var ovpEnabled: bool
    /** cc_mode[2] */
    const ccMode: array<bool>
    var program: int
    /** sdi->status */
    var status: DevStatus
    const limits: SwLimits.Limits
    /** What was written to the serial port. */
    var sent: seq<Command>
    /** The session bus. */
    var packets: seq<Packet>
    /** dev_acquisition_stop was called. */
    var stopRequested: bool

    ghost predicate Valid()
      reads this
    {
      ccMode.Length == 2
    }

    constructor (limits: SwLimits.Limits)
      ensures Valid() && this.limits == limits && fresh(ccMode)
      ensures target == Target.Current && !replyPending && sent == [] && packets == [] && !stopRequested
    {
      target := Target.Current;
      replyPending := false;
      reqSentAt := 0;
      current, currentMax, voltage, voltageMax := 0.0, 0.0, 0.0, 0.0;
      outputEnabled, beepEnabled, ocpEnabled, ovpEnabled := false, false, false, false;
      ccMode := new bool[2];
      program := 0;
      status := Inactive;
      this.limits := limits;
      sent := [];
      packets := [];
      stopRequested := false;
    }

    /**
     * The command set_value writes for the current target: none for the
     * measured quantities, and none for a program outside 1..5.
     */
    function SetCommand(): (r: Option<Command>)
      reads this
      ensures r.None? <==>
        (target == Target.Current || target == Target.Voltage || target == Status ||
         ((target == Save || target == Recall) && !(1 <= program <= 5)))
      ensures r.Some? ==> r.value.SetTo?
      ensures r.Some? && (target == Save || target == Recall) ==> r.value.value == program as real
      ensures r.Some? && (target == Output || target == Beep || target == Ocp || target == Ovp) ==>
        r.value.value == 0.0 || r.value.value == 1.0
    {
      match target
      case Current | Voltage | Status => None
      case CurrentMax => Some(SetTo("ISET1:", currentMax))
      case VoltageMax => Some(SetTo("VSET1:", voltageMax))
      case Output => Some(SetTo("OUT", Flag(outputEnabled)))
      case Beep => Some(SetTo("BEEP", Flag(beepEnabled)))
      case Ocp => Some(SetTo("OCP", Flag(ocpEnabled)))
      case Ovp => Some(SetTo("OVP", Flag(ovpEnabled)))
      case Save => if program < 1 || program > 5 then None else Some(SetTo("SAV", program as real))
      case Recall => if program < 1 || program > 5 then None else Some(SetTo("RCL", program as real))
    }

    /**
     * set_value, where writeRet is what the serial write returned and now
     * the time after it: an unsettable target is refused with nothing
     * sent; otherwise the command goes out and no reply is awaited.
     */
    method SetValue(now: nat, writeRet: int) returns (ret: int)
      modifies this`sent, this`reqSentAt, this`replyPending
      ensures SetCommand().None? ==>
        ret == SrErr && sent == old(sent) && reqSentAt == old(reqSentAt) && replyPending == old(replyPending)
      ensures SetCommand().Some? ==>
        ret == writeRet && sent == old(sent) + [SetCommand().value] && reqSentAt == now && !replyPending
    {
      var cmd := SetCommand();
      if cmd.None? {
        return SrErr;
      }
      sent := sent + [cmd.value];
      ret := writeRet;
      reqSentAt := now;
      replyPending := false;
    }

    /**
     * query_value: the query for the current target goes out and a reply
     * is awaited, even when the write failed; a target with no query is
     * refused with nothing sent.
     */
    method QueryValue(now: nat, writeRet: int) returns (ret: int)
      modifies this`sent, this`reqSentAt, this`replyPending
      ensures QueryCommand(target).None? ==>
        ret == SrErr && sent == old(sent) && reqSentAt == old(reqSentAt) && replyPending == old(replyPending)
      ensures QueryCommand(target).Some? ==>
        ret == writeRet && sent == old(sent) + [Query(QueryCommand(target).value)] && reqSentAt == now && replyPending
    {
      var q := QueryCommand(target);
      if q.None? {
        return SrErr;
      }
      sent := sent + [Query(q.value)];
      ret := writeRet;
      reqSentAt := now;
      replyPending := true;
    }

    /** The status fields as they stand. */
    function Flags(): StatusFlags
      reads this, ccMode
      requires Valid()
    {
      StatusFlags(ccMode[0], ccMode[1], beepEnabled, ocpEnabled, outputEnabled, ovpEnabled)
    }

    /** The status half of get_reply: the flags are set from the status byte b. */
    method StoreStatus(b: bv8)
      requires Valid()
      modifies this`beepEnabled, this`ocpEnabled, this`outputEnabled, this`ovpEnabled, ccMode
      ensures Valid() && Flags() == DecodeStatus(b, old(ovpEnabled))
    {
      ccMode[0] := b & 1 == 0;
      ccMode[1] := b & 2 == 0;
      beepEnabled := true;
      ocpEnabled := b & 0x20 != 0;
      outputEnabled := b & 0x40 != 0;
      if outputEnabled {
        ovpEnabled := b & 0x80 != 0;
      }
    }

    /**
     * get_reply, where readRet is what the read returned, reply the
     * ReplyLength(target) bytes then in the reply buffer and value their
     * value as a number: a failed read changes nothing (the reply stays
     * pending); otherwise a numeric target takes the value, any other
     * target decodes reply[0] as a status byte, and no reply is pending.
     */
    method GetReply(readRet: int, reply: seq<bv8>, value: real) returns (ret: int)
      requires Valid() && |reply| == ReplyLength(target)
      modifies this`current, this`currentMax, this`voltage, this`voltageMax, this`replyPending
      modifies this`beepEnabled, this`ocpEnabled, this`outputEnabled, this`ovpEnabled, ccMode
      ensures Valid() && ret == readRet
      ensures readRet < 0 ==>
        replyPending == old(replyPending) && Flags() == old(Flags()) &&
        current == old(current) && currentMax == old(currentMax) &&
        voltage == old(voltage) && voltageMax == old(voltageMax)
      ensures readRet >= 0 ==> !replyPending
      ensures readRet >= 0 ==>
        current == (if target == Target.Current then value else old(current)) &&
        currentMax == (if target == CurrentMax then value else old(currentMax)) &&
        voltage == (if target == Target.Voltage then value else old(voltage)) &&
        voltageMax == (if target == VoltageMax then value else old(voltageMax))
      ensures readRet >= 0 && (target == Target.Current || target == CurrentMax || target == Target.Voltage || target == VoltageMax) ==>
        Flags() == old(Flags())
      ensures readRet >= 0 && !(target == Target.Current || target == CurrentMax || target == Target.Voltage || target == VoltageMax) ==>
        Flags() == DecodeStatus(reply[0], old(ovpEnabled))
    {
      ret := readRet;
      if readRet < 0 {
        return;
      }
      match target {
        case Current => current := value;
        case CurrentMax => currentMax := value;
        case Voltage => voltage := value;
        case VoltageMax => voltageMax := value;
        case _ => StoreStatus(reply[0]);
      }
      replyPending := false;
    }
  
    /**
     * The G_IO_IN half of receive_data: the reply is stored, a current or
     * voltage is sent on (only voltages count as samples), and the next
     * target is chosen.
     */
    method HandleReply(readRet: int, reply: seq<bv8>, value: real)
      requires Valid() && |reply| == ReplyLength(target)
      modifies this`current, this`currentMax, this`voltage, this`voltageMax, this`replyPending
      modifies this`beepEnabled, this`ocpEnabled, this`outputEnabled, this`ovpEnabled, ccMode
      modifies this`packets, limits`samplesRead, this`target
      ensures Valid()
      ensures target == Next(old(target))
      ensures replyPending == (old(replyPending) && readRet < 0)
      ensures packets == old(packets) + Sample(old(target), current, voltage)
      ensures limits.samplesRead == old(limits.samplesRead) + (if old(target) == Target.Voltage then 1 else 0)
      ensures old(target) == Target.Current && readRet >= 0 ==> current == value
      ensures old(target) == Target.Voltage && readRet >= 0 ==> voltage == value
    {
      var _ := GetReply(readRet, reply, value);
      if target == Target.Current {
        packets := packets + [Measurement(MqCurrent, current)];
      }
      if target == Target.Voltage {
        packets := packets + [Measurement(MqVoltage, voltage)];
        limits.UpdateSamplesRead(1);
      }
      target := Next(target);
    }

    /**
     * The end of receive_data: the acquisition stops at the limits;
     * otherwise, while active, a reply pending for more than
     * REQ_TIMEOUT_MS is given up.
     */
    method CheckLimitsAndTimeout(now: nat)
      modifies this`stopRequested, this`replyPending
      ensures stopRequested == (old(stopRequested) || limits.Check(now))
      ensures replyPending == Kept(old(replyPending), limits.Check(now), status == Active, Elapsed(now, reqSentAt))
    {
      if limits.Check(now) {
        stopRequested := true;
        return;
      }
      if status == Active && replyPending {
        if Elapsed(now, reqSentAt) > ReqTimeoutMs * 1000 {
          replyPending := false;
        }
      }
    }

    /**
     * korad_kaxxxxp_receive_data, with readRet, reply and value what the
     * read brings in and writeRet what a query's write returns.
     */
    method ReceiveData(revents: int, now: nat, readRet: int, reply: seq<bv8>, value: real, writeRet: int)
      returns (keep: bool)
      requires Valid()
      requires revents == GIoIn ==> |reply| == ReplyLength(target)
      modifies this`current, this`currentMax, this`voltage, this`voltageMax, this`replyPending
      modifies this`beepEnabled, this`ocpEnabled, this`outputEnabled, this`ovpEnabled, ccMode
      modifies this`packets, limits`samplesRead, this`target, this`sent, this`reqSentAt, this`stopRequested
      ensures Valid() && keep
      ensures revents == GIoIn ==>
        target == Next(old(target)) && sent == old(sent) && reqSentAt == old(reqSentAt) &&
        packets == old(packets) + Sample(old(target), current, voltage) &&
        limits.samplesRead == old(limits.samplesRead) + (if old(target) == Target.Voltage then 1 else 0) &&
        stopRequested == (old(stopRequested) || limits.Check(now)) &&
        replyPending == Kept(old(replyPending) && readRet < 0, limits.Check(now), status == Active, Elapsed(now, reqSentAt))
      ensures revents != GIoIn ==>
        target == old(target) && packets == old(packets) && limits.samplesRead == old(limits.samplesRead)
      ensures revents != GIoIn && old(replyPending) ==>
        sent == old(sent) && reqSentAt == old(reqSentAt) &&
        stopRequested == (old(stopRequested) || limits.Check(now)) &&
        replyPending == Kept(true, limits.Check(now), status == Active, Elapsed(now, reqSentAt))
      ensures revents != GIoIn && !old(replyPending) && QueryCommand(target).None? ==>
        sent == old(sent) && !replyPending && stopRequested == old(stopRequested)
      ensures revents != GIoIn && !old(replyPending) && QueryCommand(target).Some? ==>
        sent == old(sent) + [Query(QueryCommand(target).value)] && reqSentAt == now && replyPending &&
        stopRequested == (if writeRet < 0 then old(stopRequested) else old(stopRequested) || limits.Check(now))
    {
      if revents == GIoIn {
        HandleReply(readRet, reply, value);
      } else if !replyPending {
        var ret := QueryValue(now, writeRet);
        if ret < 0 {
          return true;
        }
        reqSentAt := now;
        replyPending := true;
      }
      CheckLimitsAndTimeout(now);
      keep := true;
    }

    /**
     * What get_all_values has stored after its first i targets: their
     * values, and the status flags decoded once STATUS is read.
     */
    ghost predicate Fetched(i: nat, replies: seq<seq<bv8>>, values: seq<real>, flags0: StatusFlags)
      reads this, ccMode
      requires Valid() && i <= 5 && |replies| == |values| == 5 && |replies[4]| == 1
    {
      (i > 0 ==> current == values[0]) && (i > 1 ==> currentMax == values[1]) &&
      (i > 2 ==> voltage == values[2]) && (i > 3 ==> voltageMax == values[3]) &&
      Flags() == (if i == 5 then DecodeStatus(replies[4][0], flags0.ovp) else flags0)
    }

    /**
     * get_all_values: query and read each target from CURRENT to STATUS
     * in enum order, stopping at the first failed write or read; the loop
     * leaves the target one past STATUS.
     */
    method GetAllValues(now: nat, writeRets: seq<int>, readRets: seq<int>, replies: seq<seq<bv8>>, values: seq<real>)
      returns (ret: int)
      requires Valid() && |writeRets| == |readRets| == |replies| == |values| == 5
      requires forall i :: 0 <= i < 4 ==> |replies[i]| == ReplyLength(AllTargets[i]) == 5
      requires |replies[4]| == ReplyLength(AllTargets[4]) == 1
      modifies this`current, this`currentMax, this`voltage, this`voltageMax, this`replyPending
      modifies this`beepEnabled, this`ocpEnabled, this`outputEnabled, this`ovpEnabled, ccMode
      modifies this`target, this`sent, this`reqSentAt
      ensures Valid()
      ensures |old(sent)| <= |sent| <= |old(sent)| + 5 && sent == old(sent) + Queries(|sent| - |old(sent)|)
      ensures AllOk(writeRets, readRets, 5) ==>
        ret == readRets[4] && target == Output && !replyPending &&
        sent == old(sent) + Queries(5) &&
        current == values[0] && currentMax == values[1] && voltage == values[2] && voltageMax == values[3] &&
        Flags() == DecodeStatus(replies[4][0], old(ovpEnabled))
      ensures !AllOk(writeRets, readRets, 5) ==> ret < 0
    {
      ghost var flags0 := Flags();
      ghost var n;
      ret, n := FetchAll(now, writeRets, readRets, replies, values, flags0);
      assert |sent| - |old(sent)| == n;
    }

    /** The loop of get_all_values; n is how many queries went out. */
    method FetchAll(now: nat, writeRets: seq<int>, readRets: seq<int>, replies: seq<seq<bv8>>, values: seq<real>,
                    ghost flags0: StatusFlags)
      returns (ret: int, ghost n: nat)
      requires Valid() && |writeRets| == |readRets| == |replies| == |values| == 5
      requires forall i :: 0 <= i < 4 ==> |replies[i]| == ReplyLength(AllTargets[i]) == 5
      requires |replies[4]| == ReplyLength(AllTargets[4]) == 1
      requires Flags() == flags0
      modifies this`current, this`currentMax, this`voltage, this`voltageMax, this`replyPending
      modifies this`beepEnabled, this`ocpEnabled, this`outputEnabled, this`ovpEnabled, ccMode
      modifies this`target, this`sent, this`reqSentAt
      ensures Valid() && n <= 5 && sent == old(sent) + Queries(n)
      ensures ret < 0 <==> !AllOk(writeRets, readRets, 5)
      ensures ret >= 0 ==>
        n == 5 && AllOk(writeRets, readRets, 5) && ret == readRets[4] && target == Output && !replyPending &&
        Fetched(5, replies, values, flags0)
    {
      var i := 0;
      target := AllTargets[0];
      ret := 0;
      n := 0;
      while i < 5
        invariant Valid() && 0 <= i <= 5 && target == AllTargets[i]
        invariant sent == old(sent) + Queries(i)
        invariant AllOk(writeRets, readRets, i)
        invariant i > 0 ==> ret == readRets[i - 1] && !replyPending
        invariant Fetched(i, replies, values, flags0)
      {
        ret := FetchStep(i, now, writeRets[i], readRets[i], replies, values, old(sent), flags0);
        AllOkStep(writeRets, readRets, i);
        if ret < 0 {
          n := i + 1;
          AllOkFails(writeRets, readRets, i, 5);
          return;
        }
        i := i + 1;
      }
      n := 5;
    }

    /** One turn of get_all_values: query target i and read its reply. */
    method FetchStep(i: nat, now: nat, writeRet: int, readRet: int, replies: seq<seq<bv8>>, values: seq<real>,
                     ghost sent0: seq<Command>, ghost flags0: StatusFlags)
      returns (ret: int)
      requires Valid() && i < 5 && target == AllTargets[i] && |replies| == |values| == 5
      requires |replies[i]| == ReplyLength(AllTargets[i]) && |replies[4]| == 1
      requires sent == sent0 + Queries(i) && Fetched(i, replies, values, flags0)
      modifies this`current, this`currentMax, this`voltage, this`voltageMax, this`replyPending
      modifies this`beepEnabled, this`ocpEnabled, this`outputEnabled, this`ovpEnabled, ccMode
      modifies this`target, this`sent, this`reqSentAt
      ensures Valid() && sent == sent0 + Queries(i + 1)
      ensures ret < 0 <==> writeRet < 0 || readRet < 0
      ensures writeRet >= 0 && readRet >= 0 ==>
        ret == readRet && !replyPending && target == AllTargets[i + 1] && Fetched(i + 1, replies, values, flags0)
    {
      QueriesStep(i);
      ret := QueryValue(now, writeRet);
      if ret < 0 {
        return;
      }
      ret := FetchRead(i, readRet, replies, values, flags0);
    }

    /** The read half of one turn of get_all_values: store target i's reply and move to the next target. */
    method FetchRead(i: nat, readRet: int, replies: seq<seq<bv8>>, values: seq<real>, ghost flags0: StatusFlags)
      returns (ret: int)
      requires Valid() && i < 5 && target == AllTargets[i] && |replies| == |values| == 5
      requires |replies[i]| == ReplyLength(AllTargets[i]) && |replies[4]| == 1
      requires Fetched(i, replies, values, flags0)
      modifies this`current, this`currentMax, this`voltage, this`voltageMax, this`replyPending
      modifies this`beepEnabled, this`ocpEnabled, this`outputEnabled, this`ovpEnabled, ccMode
      modifies this`target
      ensures Valid() && ret == readRet
      ensures readRet >= 0 ==> !replyPending && target == AllTargets[i + 1] && Fetched(i + 1, replies, values, flags0)
    {
      ret := GetReply(readRet, replies[i], values[i]);
      if ret < 0 {
        return;
      }
      target := AllTargets[i + 1];
    }
  }

  /** Target i of get_all_values has a query, which is the next one sent. */
  lemma QueriesStep(i: nat)
    requires i < 5
    ensures QueryCommand(AllTargets[i]).Some?
    ensures Queries(i + 1) == Queries(i) + [Query(QueryCommand(AllTargets[i]).value)]
  {
  }

  /** The first n writes and reads of get_all_values succeeded. */
  predicate AllOk(writeRets: seq<int>, readRets: seq<int>, n: nat)
    requires n <= |writeRets| && n <= |readRets|
  {
    forall j :: 0 <= j < n ==> writeRets[j] >= 0 && readRets[j] >= 0
  }

  lemma AllOkStep(writeRets: seq<int>, readRets: seq<int>, i: nat)
    requires i < |writeRets| && i < |readRets|
    ensures AllOk(writeRets, readRets, i + 1) <==> AllOk(writeRets, readRets, i) && writeRets[i] >= 0 && readRets[i] >= 0
  {
  }

  lemma AllOkFails(writeRets: seq<int>, readRets: seq<int>, i: nat, n: nat)
    requires i < n <= |writeRets| && n <= |readRets|
    requires writeRets[i] < 0 || readRets[i] < 0
    ensures !AllOk(writeRets, readRets, n)
  {
  }

  /** Whether a pending reply is still awaited at the end of receive_data. */
  function Kept(pending: bool, stop: bool, active: bool, elapsed: nat): (r: bool)
    ensures r <==> pending && (stop || !active || elapsed <= ReqTimeoutMs * 1000)
  {
    if !pending || stop then pending
    else !(active && elapsed > ReqTimeoutMs * 1000)
  }

  /** A query sent in this callback is not given up in the same callback. */
  lemma FreshQueryKept(now: nat, stop: bool, active: bool)
    ensures Kept(true, stop, active, Elapsed(now, now))
  {
  }

  /**
   * Once the clock has moved more than REQ_TIMEOUT_MS past the request (and
   * less than the 64-bit wrap), an active acquisition that is not stopping
   * gives the reply up.
   */
  lemma StaleReplyDropped(now: nat, sentAt: nat)
    requires sentAt + ReqTimeoutMs * 1000 < now < sentAt + 0x1_0000_0000_0000_0000
    ensures !Kept(true, false, true, Elapsed(now, sentAt))
  {
  }
}
