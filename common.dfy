/**
 * Types shared by every model: libsigrok's return codes, device statuses,
 * the packets a driver puts on the session bus, and the boxed values
 * (GVariant) that configuration keys carry.
 */
module Common {

  datatype Option<T> = None | Some(value: T)

  /** The SR_OK / SR_ERR_* return codes of libsigrok. */
  datatype Status =
    | Ok
    | Err              // SR_ERR
    | ErrArg           // SR_ERR_ARG
    | ErrBug           // SR_ERR_BUG
    | ErrSamplerate    // SR_ERR_SAMPLERATE
    | ErrNa            // SR_ERR_NA
    | ErrDevClosed     // SR_ERR_DEV_CLOSED
    | ErrChannelGroup  // SR_ERR_CHANNEL_GROUP
    | ErrData          // SR_ERR_DATA
    | Failed(code: int) // a negative code handed back by a transport or session call

  /** The code is below zero, as every SR_ERR_* code and a failed transport call are. */
  predicate Negative(s: Status)
  {
    !(s.Ok? || (s.Failed? && s.code >= 0))
  }

  /** sdi->status */
  datatype DevStatus = Initializing | Inactive | Active | Stopping

  /** The kinds of channel (SR_CHANNEL_LOGIC, SR_CHANNEL_ANALOG). */
  datatype ChannelKind = LogicChannel | AnalogChannel

  /** What a driver sends with sr_session_send. */
  datatype Packet =
    | Header                                        // SR_DF_HEADER
    | End                                           // SR_DF_END
    | MetaSamplerate(rate: nat)                     // SR_DF_META with SR_CONF_SAMPLERATE
    | Logic(unitsize: nat, data: seq<bv8>)          // SR_DF_LOGIC
    | LogicOfLength(unitsize: nat, length: nat)     // SR_DF_LOGIC whose payload bytes are not modelled
    | Analog(channel: nat, values: seq<real>)       // SR_DF_ANALOG_OLD of one channel
    | Measurement(mq: int, value: real)             // a single analog reading of a meter
    | Encoded(numSamples: nat, data: seq<bv8>)      // SR_DF_ANALOG carrying raw encoded bytes
    | Block(index: nat)                             // one de-mangled SDRAM block, payload not modelled

  /** The GVariant values that configuration keys carry. */
  datatype Variant =
    | VUint64(u: nat)
    | VInt(i: int)
    | VBool(b: bool)
    | VByte(byte: bv8)
    | VDouble(d: real)
    | VString(s: string)
    | VPair(p: nat, q: nat)
    | VStrings(ss: seq<string>)
    | VKeys(keys: seq<bv32>)
    | VRange(lo: nat, hi: nat)
    | VSteps(lo: nat, hi: nat, step: nat)
    | VOptions(opts: seq<ConfOpt>)
    | VSamplerateList(rates: seq<nat>)   // a dictionary holding a "samplerates" array
    | VMatches(matches: seq<TriggerMatch>)
    | VDoubles(ds: seq<real>)            // an array of doubles

  /** enum sr_trigger_matches */
  datatype TriggerMatch = MatchZero | MatchOne | MatchRising | MatchFalling | MatchEdge | MatchOver | MatchUnder

  /** SR_CHANNEL_SET_ENABLED, the bit of config_channel_set's `changes` that asks for an enable or disable. */
  const ChannelSetEnabled: bv32 := 1

  /** The SR_CONF_GET / SR_CONF_SET / SR_CONF_LIST capability bits of an option. */
  datatype Cap = CapGet | CapSet | CapList

  /** One entry of a driver's option list: a key and its capabilities. */
  datatype ConfOpt = ConfOpt(key: Key, caps: set<Cap>)

  /** Configuration keys (SR_CONF_*) used by the modelled drivers. */
  datatype Key =
    | Conn | ScanOptions | DeviceOptions | NumLogicChannels | NumAnalogChannels
    | DemoDev | LogicAnalyzer | Oscilloscope | Continuous
    | Samplerate | LimitSamples | LimitMsec | LimitFrames
    | Averaging | AvgSamples | PatternMode | Amplitude
    | TriggerSource | TriggerSlope | TriggerMatch | BufferSize | VDiv | Coupling | ProbeFactor
    | CaptureRatio | Rle | ExternalClock | ClockEdge
    | ChannelConfig | Regulation | Enabled | VoltageTarget | CurrentLimit | OverVoltageProtectionEnabled
    | Voltage | Current | OutputFrequency | OutputFrequencyTarget
    | OverVoltageProtectionActive | OverVoltageProtectionThreshold
    | OverCurrentProtectionEnabled | OverCurrentProtectionActive | OverCurrentProtectionThreshold
    | OverTemperatureProtection | PowerSupply | SerialComm

  /** The logic bytes of a packet stream, in order. */
  function LogicBytes(ps: seq<Packet>): seq<bv8>
    decreases |ps|
  {
    if ps == [] then []
    else LogicBytes(ps[..|ps| - 1]) + (if ps[|ps| - 1].Logic? then ps[|ps| - 1].data else [])
  }

  /** The logic bytes of two packet streams in a row. */
  lemma {:induction false} LogicBytesAppend(a: seq<Packet>, b: seq<Packet>)
    ensures LogicBytes(a + b) == LogicBytes(a) + LogicBytes(b)
    decreases |b|
  {
    if b == [] {
      assert a + b == a;
    } else {
      assert (a + b)[..|a + b| - 1] == a + b[..|b| - 1];
      LogicBytesAppend(a, b[..|b| - 1]);
    }
  }

  /** One more packet adds its logic bytes. */
  lemma LogicBytesSnoc(ps: seq<Packet>, p: Packet)
    ensures LogicBytes(ps + [p]) == LogicBytes(ps) + (if p.Logic? then p.data else [])
  {
    assert (ps + [p])[..|ps|] == ps;
  }

  /**
   * What an input module sends before its first data: SR_DF_HEADER, then
   * the samplerate as SR_DF_META if one is set; nothing once started.
   */
  function StartPackets(started: bool, samplerate: nat): seq<Packet>
  {
    if started then [] else [Header] + (if samplerate != 0 then [MetaSamplerate(samplerate)] else [])
  }

  /** a[..n] with every element equal to v */
  ghost predicate AllEqual(s: seq<bv8>, v: bv8) {
    forall i :: 0 <= i < |s| ==> s[i] == v
  }

  function Min(a: int, b: int): int { if a < b then a else b }
  function Max(a: int, b: int): int { if a < b then b else a }
}
