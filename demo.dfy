/**
 * The demo driver (src/hardware/demo/demo.c): a device that makes up its
 * own logic and analog data. The device context is the class DemoDevice;
 * the session bus is its `packets` sequence and the monotonic clock is
 * the `now` argument of the calls that read it.
 */
module Demo {
  import opened Common
  import opened DemoPatterns
  import opened DemoPacing
  import opened DemoAnalog
  import opened DemoBus
  import Search

  const DefaultLogicChannels: nat := 8
  const DefaultAnalogChannels: nat := 4
  const DefaultAmplitude: real := 10.0
  /** SR_KHZ(200) */
  const DefaultSamplerate: nat := 200000

  /** A channel: its index over all channels, its kind and its name. */
  datatype Channel = Channel(index: nat, kind: ChannelKind, name: string)
  datatype ChannelGroup = ChannelGroup(name: string, channels: seq<Channel>)

  function DigitChar(d: nat): char
    requires d < 10
  {
    "0123456789"[d]
  }

  /** The decimal digits of n, as %d prints them. */
  function Digits(n: nat): string
    decreases n
  {
    if n < 10 then [DigitChar(n)] else Digits(n / 10) + [DigitChar(n % 10)]
  }

  /** The logic channels D0, D1, ... with indexes from 0. */
  function LogicChannelList(nl: nat): seq<Channel>
  {
    seq(nl, i requires 0 <= i < nl => Channel(i, LogicChannel, "D" + Digits(i)))
  }

  /** The analog channels A0, A1, ... with indexes following the logic ones. */
  function AnalogChannelList(nl: nat, na: nat): seq<Channel>
  {
    seq(na, i requires 0 <= i < na => Channel(nl + i, AnalogChannel, "A" + Digits(i)))
  }

  /**
   * The groups scan builds: "Logic" with every logic channel, "Analog"
   * with every analog channel, then one group per analog channel named
   * after it.
   */
  function ScanGroups(nl: nat, na: nat): seq<ChannelGroup>
  {
    var analog := AnalogChannelList(nl, na);
    (if nl > 0 then [ChannelGroup("Logic", LogicChannelList(nl))] else [])
    + (if na > 0 then
         [ChannelGroup("Analog", analog)]
         + seq(na, i requires 0 <= i < na => ChannelGroup("A" + Digits(i), [analog[i]]))
       else [])
  }

  /** A channel this device has: logic below nl, analog in [nl, nl + na). */
  predicate ChannelOk(c: Channel, nl: nat, na: nat)
  {
    match c.kind
    case LogicChannel => c.index < nl
    case AnalogChannel => nl <= c.index < nl + na
  }

  /** Every channel of the list is one of this device's. */
  predicate ChannelsOk(chs: seq<Channel>, nl: nat, na: nat)
  {
    forall k :: 0 <= k < |chs| ==> ChannelOk(chs[k], nl, na)
  }

  /** A non-empty group of this device's channels ("any channel in the group will do"). */
  predicate GroupOk(g: ChannelGroup, nl: nat, na: nat)
  {
    |g.channels| > 0 && ChannelsOk(g.channels, nl, na)
  }

  /** Every channel of the group has the same kind. */
  predicate Homogeneous(chs: seq<Channel>)
  {
    forall i :: 0 <= i < |chs| ==> chs[i].kind == chs[0].kind
  }

  /** The groups scan builds are groups of the device, each of one kind of channel. */
  lemma ScanGroupsAreWellFormed(nl: nat, na: nat)
    ensures forall g :: g in ScanGroups(nl, na) ==> GroupOk(g, nl, na) && Homogeneous(g.channels)
    ensures |ScanGroups(nl, na)| == (if nl > 0 then 1 else 0) + (if na > 0 then na + 1 else 0)
  {
    var analog := AnalogChannelList(nl, na);
    var lg := if nl > 0 then [ChannelGroup("Logic", LogicChannelList(nl))] else [];
    var per := seq(na, i requires 0 <= i < na => ChannelGroup("A" + Digits(i), [analog[i]]));
    forall g | g in ScanGroups(nl, na)
      ensures GroupOk(g, nl, na) && Homogeneous(g.channels)
    {
      if g in lg {
      } else if g == ChannelGroup("Analog", analog) {
      } else {
        assert g in per;
      }
    }
  }

  // ---------------------------------------------------------------
  // Option lists (drvopts, scanopts, devopts, devopts_cg_*)
  // ---------------------------------------------------------------

  const GetSet: set<Cap> := {CapGet, CapSet}
  const GetSetList: set<Cap> := {CapGet, CapSet, CapList}

  const ScanOpts: seq<ConfOpt> := [ConfOpt(NumLogicChannels, {}), ConfOpt(NumAnalogChannels, {})]
  const DrvOpts: seq<ConfOpt> := [ConfOpt(DemoDev, {}), ConfOpt(LogicAnalyzer, {}), ConfOpt(Oscilloscope, {})]
  const DevOpts: seq<ConfOpt> := [
    ConfOpt(Continuous, {}),
    ConfOpt(LimitSamples, GetSet),
    ConfOpt(LimitMsec, GetSet),
    ConfOpt(Samplerate, GetSetList),
    ConfOpt(Averaging, GetSet),
    ConfOpt(AvgSamples, GetSet)]
  const CgLogicOpts: seq<ConfOpt> := [ConfOpt(PatternMode, GetSetList)]
  const CgAnalogGroupOpts: seq<ConfOpt> := [ConfOpt(Amplitude, GetSet)]
  const CgAnalogChannelOpts: seq<ConfOpt> := [ConfOpt(PatternMode, GetSetList), ConfOpt(Amplitude, GetSet)]

  // ---------------------------------------------------------------
  // Setting a pattern or an amplitude over a group, channel by channel
  // ---------------------------------------------------------------

  /**
   * Where a pattern change over a group leaves things: whether every
   * channel took it, the logic pattern, whether a logic channel was
   * reached, and the generators.
   */
  datatype PatternOutcome = PatternOutcome(ok: bool, logic: LogicPattern, touched: bool, gens: seq<AnalogGen>)

  /**
   * The PATTERN_MODE loop of config_set: each channel in turn takes the
   * logic pattern lp or the analog pattern ap by its kind; the first
   * channel whose kind has no such pattern stops the loop with ERR_ARG,
   * keeping what earlier channels changed.
   */
  function ApplyPattern(chs: seq<Channel>, lp: int, ap: int, nl: nat, st: PatternOutcome): (r: PatternOutcome)
    requires -1 <= lp < |LogicPatternNames| && -1 <= ap < |AnalogPatternNames|
    requires ChannelsOk(chs, nl, |st.gens|)
    ensures |r.gens| == |st.gens|
    ensures r.touched ==> st.touched || 0 <= lp
    decreases |chs|
  {
    if chs == [] then st
    else
      var ch := chs[0];
      if ch.kind == LogicChannel then
        if lp == -1 then st.(ok := false)
        else ApplyPattern(chs[1..], lp, ap, nl, st.(logic := LogicPatternAt(lp), touched := true))
      else
        if ap == -1 then st.(ok := false)
        else
          var i := ch.index - nl;
          ApplyPattern(chs[1..], lp, ap, nl, st.(gens := st.gens[i := st.gens[i].(pattern := AnalogPatternAt(ap))]))
  }

  /** Every channel fits: a logic channel needs a logic pattern, an analog channel an analog one. */
  predicate PatternFits(chs: seq<Channel>, lp: int, ap: int)
  {
    forall k :: 0 <= k < |chs| ==> (chs[k].kind == LogicChannel ==> lp != -1) && (chs[k].kind == AnalogChannel ==> ap != -1)
  }

  /** The step the loop takes on the first channel, when that channel fits. */
  function PatternStep(ch: Channel, lp: int, ap: int, nl: nat, st: PatternOutcome): (r: PatternOutcome)
    requires -1 <= lp < |LogicPatternNames| && -1 <= ap < |AnalogPatternNames|
    requires ChannelOk(ch, nl, |st.gens|)
    requires ch.kind == LogicChannel ==> lp != -1
    requires ch.kind == AnalogChannel ==> ap != -1
    ensures |r.gens| == |st.gens|
  {
    if ch.kind == LogicChannel then st.(logic := LogicPatternAt(lp), touched := true)
    else
      var i := ch.index - nl;
      st.(gens := st.gens[i := st.gens[i].(pattern := AnalogPatternAt(ap))])
  }

  /** Whatever the outcome, the generator of a channel outside the group keeps its state. */
  lemma {:induction false} ApplyPatternKeepsOther(chs: seq<Channel>, lp: int, ap: int, nl: nat, st: PatternOutcome, i: nat)
    requires -1 <= lp < |LogicPatternNames| && -1 <= ap < |AnalogPatternNames|
    requires ChannelsOk(chs, nl, |st.gens|) && i < |st.gens|
    requires forall k :: 0 <= k < |chs| ==> chs[k].index != nl + i
    ensures ApplyPattern(chs, lp, ap, nl, st).gens[i] == st.gens[i]
    decreases |chs|
  {
    if chs != [] {
      var ch := chs[0];
      assert ChannelOk(ch, nl, |st.gens|);
      if (ch.kind == LogicChannel && lp != -1) || (ch.kind == AnalogChannel && ap != -1) {
        var rest := chs[1..];
        assert forall k :: 0 <= k < |rest| ==> rest[k] == chs[k + 1];
        ApplyPatternKeepsOther(rest, lp, ap, nl, PatternStep(ch, lp, ap, nl, st), i);
      }
    }
  }

  /** Whatever the outcome, the logic pattern moves only if the group holds a logic channel. */
  lemma {:induction false} ApplyPatternKeepsLogic(chs: seq<Channel>, lp: int, ap: int, nl: nat, st: PatternOutcome)
    requires -1 <= lp < |LogicPatternNames| && -1 <= ap < |AnalogPatternNames|
    requires ChannelsOk(chs, nl, |st.gens|)
    requires forall k :: 0 <= k < |chs| ==> chs[k].kind == AnalogChannel
    ensures ApplyPattern(chs, lp, ap, nl, st).logic == st.logic
    decreases |chs|
  {
    if chs != [] && ap != -1 {
      var rest := chs[1..];
      assert chs[0].kind == AnalogChannel && ChannelOk(chs[0], nl, |st.gens|);
      assert forall k :: 0 <= k < |rest| ==> rest[k] == chs[k + 1];
      ApplyPatternKeepsLogic(rest, lp, ap, nl, PatternStep(chs[0], lp, ap, nl, st));
    }
  }

  /**
   * Whatever the outcome, the generators of channels outside the group keep
   * their state, and the logic pattern moves only if the group holds a
   * logic channel.
   */
  lemma ApplyPatternKeepsOthers(chs: seq<Channel>, lp: int, ap: int, nl: nat, st: PatternOutcome)
    requires -1 <= lp < |LogicPatternNames| && -1 <= ap < |AnalogPatternNames|
    requires ChannelsOk(chs, nl, |st.gens|)
    ensures var r := ApplyPattern(chs, lp, ap, nl, st);
      (forall i :: 0 <= i < |st.gens| && (forall k :: 0 <= k < |chs| ==> chs[k].index != nl + i) ==> r.gens[i] == st.gens[i]) &&
      ((exists k :: 0 <= k < |chs| && chs[k].kind == LogicChannel) || st.logic == r.logic)
  {
    forall i | 0 <= i < |st.gens| && (forall k :: 0 <= k < |chs| ==> chs[k].index != nl + i)
      ensures ApplyPattern(chs, lp, ap, nl, st).gens[i] == st.gens[i]
    {
      ApplyPatternKeepsOther(chs, lp, ap, nl, st, i);
    }
    if forall k :: 0 <= k < |chs| ==> chs[k].kind == AnalogChannel {
      ApplyPatternKeepsLogic(chs, lp, ap, nl, st);
    }
  }

  /** The loop succeeds exactly when every channel fits. */
  lemma {:induction false} ApplyPatternSucceeds(chs: seq<Channel>, lp: int, ap: int, nl: nat, st: PatternOutcome)
    requires -1 <= lp < |LogicPatternNames| && -1 <= ap < |AnalogPatternNames|
    requires ChannelsOk(chs, nl, |st.gens|)
    requires st.ok
    ensures ApplyPattern(chs, lp, ap, nl, st).ok <==> PatternFits(chs, lp, ap)
    decreases |chs|
  {
    if chs != [] {
      var ch := chs[0];
      if ch.kind == LogicChannel && lp != -1 {
        ApplyPatternSucceeds(chs[1..], lp, ap, nl, st.(logic := LogicPatternAt(lp), touched := true));
      } else if ch.kind == AnalogChannel && ap != -1 {
        var i := ch.index - nl;
        ApplyPatternSucceeds(chs[1..], lp, ap, nl, st.(gens := st.gens[i := st.gens[i].(pattern := AnalogPatternAt(ap))]));
      }
      assert PatternFits(chs, lp, ap) <==>
        (ch.kind == LogicChannel ==> lp != -1) && (ch.kind == AnalogChannel ==> ap != -1) && PatternFits(chs[1..], lp, ap) by {
        assert forall k :: 0 < k < |chs| ==> chs[1..][k - 1] == chs[k];
      }
    }
  }

  /** After a successful change, the logic pattern is the new one if the k-th channel is a logic channel. */
  lemma {:induction false} ApplyPatternSetsLogicAt(chs: seq<Channel>, lp: int, ap: int, nl: nat, st: PatternOutcome, k: nat)
    requires -1 <= lp < |LogicPatternNames| && -1 <= ap < |AnalogPatternNames|
    requires ChannelsOk(chs, nl, |st.gens|) && k < |chs| && chs[k].kind == LogicChannel
    requires ApplyPattern(chs, lp, ap, nl, st).ok
    ensures 0 <= lp && ApplyPattern(chs, lp, ap, nl, st).logic == LogicPatternAt(lp)
    decreases |chs|
  {
    var ch := chs[0];
    var rest := chs[1..];
    assert ChannelOk(ch, nl, |st.gens|);
    var st' := PatternStep(ch, lp, ap, nl, st);
    assert ApplyPattern(chs, lp, ap, nl, st) == ApplyPattern(rest, lp, ap, nl, st');
    if k > 0 {
      assert rest[k - 1] == chs[k];
      ApplyPatternSetsLogicAt(rest, lp, ap, nl, st', k - 1);
    } else if exists m :: 0 <= m < |rest| && rest[m].kind == LogicChannel {
      var m :| 0 <= m < |rest| && rest[m].kind == LogicChannel;
      ApplyPatternSetsLogicAt(rest, lp, ap, nl, st', m);
    } else {
      ApplyPatternKeepsLogic(rest, lp, ap, nl, st');
    }
  }

  /** After a successful change, the logic pattern is the new one if the group holds a logic channel. */
  lemma ApplyPatternSetsLogic(chs: seq<Channel>, lp: int, ap: int, nl: nat, st: PatternOutcome)
    requires -1 <= lp < |LogicPatternNames| && -1 <= ap < |AnalogPatternNames|
    requires ChannelsOk(chs, nl, |st.gens|)
    ensures var r := ApplyPattern(chs, lp, ap, nl, st);
      r.ok ==> forall k :: 0 <= k < |chs| && chs[k].kind == LogicChannel ==> 0 <= lp && r.logic == LogicPatternAt(lp)
  {
    if ApplyPattern(chs, lp, ap, nl, st).ok {
      forall k | 0 <= k < |chs| && chs[k].kind == LogicChannel
        ensures 0 <= lp && ApplyPattern(chs, lp, ap, nl, st).logic == LogicPatternAt(lp)
      {
        ApplyPatternSetsLogicAt(chs, lp, ap, nl, st, k);
      }
    }
  }

  /** After a successful change, the k-th channel, if analog, has the new pattern. */
  lemma {:induction false} ApplyPatternSetsAnalogAt(chs: seq<Channel>, lp: int, ap: int, nl: nat, st: PatternOutcome, k: nat)
    requires -1 <= lp < |LogicPatternNames| && -1 <= ap < |AnalogPatternNames|
    requires ChannelsOk(chs, nl, |st.gens|) && k < |chs| && chs[k].kind == AnalogChannel
    requires ApplyPattern(chs, lp, ap, nl, st).ok
    ensures ChannelOk(chs[k], nl, |st.gens|)
    ensures 0 <= ap && ApplyPattern(chs, lp, ap, nl, st).gens[chs[k].index - nl].pattern == AnalogPatternAt(ap)
    decreases |chs|
  {
    var ch := chs[0];
    var rest := chs[1..];
    assert ChannelOk(ch, nl, |st.gens|) && ChannelOk(chs[k], nl, |st.gens|);
    var st' := PatternStep(ch, lp, ap, nl, st);
    assert ApplyPattern(chs, lp, ap, nl, st) == ApplyPattern(rest, lp, ap, nl, st');
    if k > 0 {
      assert rest[k - 1] == chs[k];
      ApplyPatternSetsAnalogAt(rest, lp, ap, nl, st', k - 1);
    } else {
      var i := ch.index - nl;
      if exists m :: 0 <= m < |rest| && rest[m].index == nl + i {
        var m :| 0 <= m < |rest| && rest[m].index == nl + i;
        assert ChannelOk(rest[m], nl, |st.gens|);
        ApplyPatternSetsAnalogAt(rest, lp, ap, nl, st', m);
      } else {
        ApplyPatternKeepsOther(rest, lp, ap, nl, st', i);
      }
    }
  }

  /** After a successful change, every analog channel of the group has the new pattern. */
  lemma ApplyPatternSetsAnalog(chs: seq<Channel>, lp: int, ap: int, nl: nat, st: PatternOutcome)
    requires -1 <= lp < |LogicPatternNames| && -1 <= ap < |AnalogPatternNames|
    requires ChannelsOk(chs, nl, |st.gens|)
    ensures var r := ApplyPattern(chs, lp, ap, nl, st);
      r.ok ==> forall k :: 0 <= k < |chs| && chs[k].kind == AnalogChannel ==>
        0 <= ap && r.gens[chs[k].index - nl].pattern == AnalogPatternAt(ap)
  {
    if ApplyPattern(chs, lp, ap, nl, st).ok {
      forall k | 0 <= k < |chs| && chs[k].kind == AnalogChannel
        ensures 0 <= ap && ApplyPattern(chs, lp, ap, nl, st).gens[chs[k].index - nl].pattern == AnalogPatternAt(ap)
      {
        ApplyPatternSetsAnalogAt(chs, lp, ap, nl, st, k);
      }
    }
  }
  /**
   * The pattern change is not atomic: a group holding a logic channel and
   * then an analog channel, given a name only the logic table knows, ends
   * with ERR_ARG but with the logic pattern already changed.
   */
  lemma PatternSetIsNotAtomic(gens: seq<AnalogGen>)
    requires |gens| == 1
    ensures var st := PatternOutcome(true, AllHigh, false, gens);
      var chs := [Channel(0, LogicChannel, "D0"), Channel(8, AnalogChannel, "A0")];
      var r := ApplyPattern(chs, 0, -1, 8, st);
      !r.ok && r.logic == Sigrok && r.logic != st.logic
  {
    var st := PatternOutcome(true, AllHigh, false, gens);
    var chs := [Channel(0, LogicChannel, "D0"), Channel(8, AnalogChannel, "A0")];
    assert chs[1..] == [Channel(8, AnalogChannel, "A0")];
    assert chs[1..][1..] == [];
  }

  /**
   * For a group of one kind of channel, which is every group scan builds,
   * the change is all or nothing: a failure leaves the state as it was.
   */
  lemma {:induction false} HomogeneousPatternSetIsAtomic(chs: seq<Channel>, lp: int, ap: int, nl: nat, st: PatternOutcome)
    requires -1 <= lp < |LogicPatternNames| && -1 <= ap < |AnalogPatternNames|
    requires ChannelsOk(chs, nl, |st.gens|)
    requires Homogeneous(chs) && st.ok
    ensures var r := ApplyPattern(chs, lp, ap, nl, st);
      !r.ok ==> r == st.(ok := false)
  {
    if chs != [] {
      var ch := chs[0];
      var fits := (ch.kind == LogicChannel && lp != -1) || (ch.kind == AnalogChannel && ap != -1);
      if fits {
        ApplyPatternSucceeds(chs, lp, ap, nl, st);
        assert PatternFits(chs, lp, ap);
      }
    }
  }

  /**
   * The AMPLITUDE loop of config_set: every channel in turn takes the new
   * amplitude; the first non-analog channel stops the loop with ERR_ARG.
   */
  function ApplyAmplitude(chs: seq<Channel>, amplitude: real, nl: nat, gens: seq<AnalogGen>): (r: (bool, seq<AnalogGen>))
    requires ChannelsOk(chs, nl, |gens|)
    ensures |r.1| == |gens|
    decreases |chs|
  {
    if chs == [] then (true, gens)
    else if chs[0].kind != AnalogChannel then (false, gens)
    else
      var i := chs[0].index - nl;
      ApplyAmplitude(chs[1..], amplitude, nl, gens[i := gens[i].(amplitude := amplitude)])
  }

  /** Two generators that differ at most in their amplitude. */
  predicate SameButAmplitude(a: AnalogGen, b: AnalogGen)
  {
    a.pattern == b.pattern && a.table == b.table && a.numSamples == b.numSamples &&
    a.avgVal == b.avgVal && a.numAvgs == b.numAvgs
  }

  /** The amplitude loop changes nothing of a generator but its amplitude. */
  lemma {:induction false} ApplyAmplitudeOnlyAmplitude(chs: seq<Channel>, amplitude: real, nl: nat, gens: seq<AnalogGen>, i: nat)
    requires ChannelsOk(chs, nl, |gens|) && i < |gens|
    ensures SameButAmplitude(ApplyAmplitude(chs, amplitude, nl, gens).1[i], gens[i])
    decreases |chs|
  {
    if chs != [] && chs[0].kind == AnalogChannel {
      var j := chs[0].index - nl;
      var rest := chs[1..];
      assert forall k :: 0 <= k < |rest| ==> rest[k] == chs[k + 1];
      ApplyAmplitudeOnlyAmplitude(rest, amplitude, nl, gens[j := gens[j].(amplitude := amplitude)], i);
    }
  }

  /** The amplitude loop succeeds exactly when every channel of the group is analog. */
  lemma {:induction false} ApplyAmplitudeSucceeds(chs: seq<Channel>, amplitude: real, nl: nat, gens: seq<AnalogGen>)
    requires ChannelsOk(chs, nl, |gens|)
    ensures ApplyAmplitude(chs, amplitude, nl, gens).0 <==> forall k :: 0 <= k < |chs| ==> chs[k].kind == AnalogChannel
    decreases |chs|
  {
    if chs != [] && chs[0].kind == AnalogChannel {
      var i := chs[0].index - nl;
      ApplyAmplitudeSucceeds(chs[1..], amplitude, nl, gens[i := gens[i].(amplitude := amplitude)]);
      assert forall k :: 0 < k < |chs| ==> chs[1..][k - 1] == chs[k];
    }
  }

  /** The generator of a channel outside the group keeps its state. */
  lemma {:induction false} ApplyAmplitudeKeepsOther(chs: seq<Channel>, amplitude: real, nl: nat, gens: seq<AnalogGen>, i: nat)
    requires ChannelsOk(chs, nl, |gens|) && i < |gens|
    requires forall k :: 0 <= k < |chs| ==> chs[k].index != nl + i
    ensures ApplyAmplitude(chs, amplitude, nl, gens).1[i] == gens[i]
    decreases |chs|
  {
    if chs != [] && chs[0].kind == AnalogChannel {
      var j := chs[0].index - nl;
      var rest := chs[1..];
      assert forall k :: 0 <= k < |rest| ==> rest[k] == chs[k + 1];
      ApplyAmplitudeKeepsOther(rest, amplitude, nl, gens[j := gens[j].(amplitude := amplitude)], i);
    }
  }

  /** The generators of channels outside the group keep their state. */
  lemma ApplyAmplitudeKeepsOthers(chs: seq<Channel>, amplitude: real, nl: nat, gens: seq<AnalogGen>)
    requires ChannelsOk(chs, nl, |gens|)
    ensures var r := ApplyAmplitude(chs, amplitude, nl, gens);
      forall i :: 0 <= i < |gens| && (forall k :: 0 <= k < |chs| ==> chs[k].index != nl + i) ==> r.1[i] == gens[i]
  {
    forall i | 0 <= i < |gens| && (forall k :: 0 <= k < |chs| ==> chs[k].index != nl + i)
      ensures ApplyAmplitude(chs, amplitude, nl, gens).1[i] == gens[i]
    {
      ApplyAmplitudeKeepsOther(chs, amplitude, nl, gens, i);
    }
  }

  /** After a successful change the k-th channel of the group has the new amplitude. */
  lemma {:induction false} ApplyAmplitudeSetsAt(chs: seq<Channel>, amplitude: real, nl: nat, gens: seq<AnalogGen>, k: nat)
    requires ChannelsOk(chs, nl, |gens|) && k < |chs|
    requires ApplyAmplitude(chs, amplitude, nl, gens).0
    ensures ChannelOk(chs[k], nl, |gens|) && chs[k].kind == AnalogChannel
    ensures ApplyAmplitude(chs, amplitude, nl, gens).1[chs[k].index - nl].amplitude == amplitude
    decreases |chs|
  {
    var i := chs[0].index - nl;
    var gens' := gens[i := gens[i].(amplitude := amplitude)];
    var rest := chs[1..];
    assert ChannelOk(chs[0], nl, |gens|);
    if k > 0 {
      assert rest[k - 1] == chs[k];
      ApplyAmplitudeSetsAt(rest, amplitude, nl, gens', k - 1);
    } else if exists m :: 0 <= m < |rest| && rest[m].index == nl + i {
      var m :| 0 <= m < |rest| && rest[m].index == nl + i;
      ApplyAmplitudeSetsAt(rest, amplitude, nl, gens', m);
    } else {
      ApplyAmplitudeKeepsOther(rest, amplitude, nl, gens', i);
    }
  }

  /** After a successful change every channel of the group is analog and has the new amplitude. */
  lemma ApplyAmplitudeSets(chs: seq<Channel>, amplitude: real, nl: nat, gens: seq<AnalogGen>)
    requires ChannelsOk(chs, nl, |gens|)
    ensures var r := ApplyAmplitude(chs, amplitude, nl, gens);
      r.0 ==> forall k :: 0 <= k < |chs| && chs[k].kind == AnalogChannel ==> r.1[chs[k].index - nl].amplitude == amplitude
  {
    if ApplyAmplitude(chs, amplitude, nl, gens).0 {
      forall k | 0 <= k < |chs| && chs[k].kind == AnalogChannel
        ensures ApplyAmplitude(chs, amplitude, nl, gens).1[chs[k].index - nl].amplitude == amplitude
      {
        ApplyAmplitudeSetsAt(chs, amplitude, nl, gens, k);
      }
    }
  }

  // ---------------------------------------------------------------
  // config_get and config_list
  // ---------------------------------------------------------------

  /** The keys config_get and config_set handle. */
  const ConfigKeys: set<Key> := {Samplerate, LimitSamples, LimitMsec, Averaging, AvgSamples, PatternMode, Amplitude}
  /** The device-wide ones among them. */
  const ScalarKeys: set<Key> := {Samplerate, LimitSamples, LimitMsec, Averaging, AvgSamples}

  /** The device-wide settings: cur_samplerate, the two limits and the averaging switches. */
  datatype Settings = Settings(samplerate: nat, limitSamples: nat, limitMsec: nat, avg: bool, avgSamples: nat)

  /** config_get of a device-wide key. */
  function ReadScalar(key: Key, s: Settings): Variant
    requires key in ScalarKeys
  {
    match key
    case Samplerate => VUint64(s.samplerate)
    case LimitSamples => VUint64(s.limitSamples)
    case LimitMsec => VUint64(s.limitMsec)
    case Averaging => VBool(s.avg)
    case AvgSamples => VUint64(s.avgSamples)
  }

  /**
   * config_set of a device-wide key: the value reads back, a sample limit
   * clears the time limit and a time limit clears the sample limit, and no
   * other setting moves.
   */
  function SetScalar(key: Key, data: Variant, s: Settings): (r: Settings)
    requires key in ScalarKeys && Fits(key, data)
    ensures ReadScalar(key, r) == data
    ensures key == LimitSamples ==> r.limitMsec == 0
    ensures key == LimitMsec ==> r.limitSamples == 0
    ensures forall k :: k in ScalarKeys && k != key && !(k in {LimitSamples, LimitMsec} && key in {LimitSamples, LimitMsec}) ==>
      ReadScalar(k, r) == ReadScalar(k, s)
  {
    match key
    case Samplerate => s.(samplerate := data.u)
    case LimitSamples => s.(limitMsec := 0, limitSamples := data.u)
    case LimitMsec => s.(limitMsec := data.u, limitSamples := 0)
    case Averaging => s.(avg := data.b)
    case AvgSamples => s.(avgSamples := data.u)
  }

  /** A value of the type the key's setter reads. */
  predicate Fits(key: Key, data: Variant)
  {
    (key == Samplerate || key == LimitSamples || key == LimitMsec || key == AvgSamples ==> data.VUint64?) &&
    (key == Averaging ==> data.VBool?) &&
    (key == PatternMode ==> data.VString?) &&
    (key == Amplitude ==> data.VDouble?)
  }

  /** config_get: a missing device is ERR_ARG; group keys need a group; unknown keys are ERR_NA. */
  function ConfigGet(key: Key, sdi: DemoDevice?, cg: Option<ChannelGroup>): (r: (Status, Option<Variant>))
    reads sdi
    requires sdi != null ==> sdi.ConfigValid() && (cg.Some? ==> sdi.GroupOfDevice(cg.value))
    ensures r.0 == Ok <==> r.1.Some?
    ensures sdi == null ==> r.0 == ErrArg
    ensures sdi != null && key in ConfigKeys - {PatternMode, Amplitude} ==> r.0 == Ok
    ensures sdi != null && key in {PatternMode, Amplitude} && cg.None? ==> r.0 == ErrChannelGroup
    ensures sdi != null && key == PatternMode && cg.Some? ==> r.0 == Ok && r.1.value.VString?
    ensures sdi != null && key == Amplitude && cg.Some? ==>
      (r.0 == Ok <==> cg.value.channels[0].kind == AnalogChannel)
    ensures sdi != null && key !in ConfigKeys ==> r.0 == ErrNa
  {
    if sdi == null then (ErrArg, None)
    else if key in ScalarKeys then (Ok, Some(ReadScalar(key, sdi.Current())))
    else if key == PatternMode then
      if cg.None? then (ErrChannelGroup, None) else (Ok, Some(VString(sdi.PatternName(cg.value))))
    else if key == Amplitude then
      if cg.None? then (ErrChannelGroup, None)
      else if cg.value.channels[0].kind != AnalogChannel then (ErrArg, None)
      else (Ok, Some(VDouble(sdi.AmplitudeOf(cg.value))))
    else (ErrNa, None)
  }

  /**
   * config_list: scan and driver options need no device, everything else
   * does; a group's options depend on the kind of its first channel and,
   * for analog groups, on whether it is the "Analog" group.
   */
  function ConfigList(key: Key, sdi: DemoDevice?, cg: Option<ChannelGroup>): (r: (Status, Option<Variant>))
    requires cg.Some? ==> |cg.value.channels| > 0
    ensures r.0 == Ok <==> r.1.Some?
    ensures key == ScanOptions ==> r == (Ok, Some(VOptions(ScanOpts)))
    ensures key != ScanOptions && sdi == null ==>
      r == (if key == DeviceOptions then (Ok, Some(VOptions(DrvOpts))) else (ErrArg, None))
    ensures sdi != null && cg.Some? && key == PatternMode && cg.value.name == "Analog" ==> r.0 == ErrNa
    ensures sdi != null && !(key in {ScanOptions, DeviceOptions, Samplerate, PatternMode}) ==> r.0 == ErrNa
  {
    if key == ScanOptions then (Ok, Some(VOptions(ScanOpts)))
    else if key == DeviceOptions && sdi == null then (Ok, Some(VOptions(DrvOpts)))
    else if sdi == null then (ErrArg, None)
    else if cg.None? then
      match key
      case DeviceOptions => (Ok, Some(VOptions(DevOpts)))
      case Samplerate => (Ok, Some(VSteps(1, 1000000000, 1)))
      case _ => (ErrNa, None)
    else
      var ch := cg.value.channels[0];
      match key
      case DeviceOptions =>
        if ch.kind == LogicChannel then (Ok, Some(VOptions(CgLogicOpts)))
        else if cg.value.name == "Analog" then (Ok, Some(VOptions(CgAnalogGroupOpts)))
        else (Ok, Some(VOptions(CgAnalogChannelOpts)))
      case PatternMode =>
        // The analog group with all channels has no pattern property.
        if cg.value.name == "Analog" then (ErrNa, None)
        else if ch.kind == LogicChannel then (Ok, Some(VStrings(LogicPatternNames)))
        else (Ok, Some(VStrings(AnalogPatternNames)))
      case _ => (ErrNa, None)
  }

  /** Every option listed for a device or group with the GET capability can be read there. */
  lemma ListedOptionsAreGettable(sdi: DemoDevice, cg: Option<ChannelGroup>, opts: seq<ConfOpt>, key: Key, caps: set<Cap>)
    requires sdi.ConfigValid() && (cg.Some? ==> sdi.GroupOfDevice(cg.value))
    requires ConfigList(DeviceOptions, sdi, cg) == (Ok, Some(VOptions(opts)))
    requires ConfOpt(key, caps) in opts && CapGet in caps
    ensures ConfigGet(key, sdi, cg).0 == Ok
  {
  }

  /** The pattern names config_list offers a group are those of the kind of its first channel. */
  lemma ListedPatternNames(sdi: DemoDevice, g: ChannelGroup, names: seq<string>)
    requires |g.channels| > 0 && ConfigList(PatternMode, sdi, Some(g)) == (Ok, Some(VStrings(names)))
    ensures names == if g.channels[0].kind == LogicChannel then LogicPatternNames else AnalogPatternNames
  {
  }

  /** A listed name is found in its list. */
  lemma NameListed(names: seq<string>, name: string)
    requires name in names
    ensures Search.FirstIndex(names, name) != -1
  {
  }

  /**
   * Every pattern name listed for a group scan built is accepted for it:
   * the PATTERN_MODE loop takes it on every channel.
   */
  lemma ListedPatternsAreAccepted(sdi: DemoDevice, nl: nat, na: nat, g: ChannelGroup, names: seq<string>, name: string,
                                  gens: seq<AnalogGen>, logic: LogicPattern)
    requires g in ScanGroups(nl, na) && |gens| == na
    requires ConfigList(PatternMode, sdi, Some(g)) == (Ok, Some(VStrings(names))) && name in names
    ensures ChannelsOk(g.channels, nl, |gens|)
    ensures var lp := Search.FirstIndex(LogicPatternNames, name);
      var ap := Search.FirstIndex(AnalogPatternNames, name);
      ApplyPattern(g.channels, lp, ap, nl, PatternOutcome(true, logic, false, gens)).ok
  {
    ScanGroupsAreWellFormed(nl, na);
    assert GroupOk(g, nl, na) && Homogeneous(g.channels);
    var lp := Search.FirstIndex(LogicPatternNames, name);
    var ap := Search.FirstIndex(AnalogPatternNames, name);
    var k := g.channels[0].kind;
    ListedPatternNames(sdi, g, names);
    NameListed(names, name);
    forall j | 0 <= j < |g.channels|
      ensures (g.channels[j].kind == LogicChannel ==> lp != -1) && (g.channels[j].kind == AnalogChannel ==> ap != -1)
    {
      assert g.channels[j].kind == k;
    }
    ApplyPatternSucceeds(g.channels, lp, ap, nl, PatternOutcome(true, logic, false, gens));
  }

  /** A generator as acquisition start leaves it: a 4096-slot table with 1020 entries in use. */
  predicate GenReady(g: AnalogGen)
  {
    |g.table| == AnalogBufsize && g.numSamples == TableLength
  }

  /** What generate_analog_pattern makes of g at the given samplerate. */
  ghost predicate Regenerated(g: AnalogGen, r: AnalogGen, rate: nat, wave: Wave)
  {
    |g.table| == AnalogBufsize &&
    r == g.(table := r.table, numSamples := TableLength) && |r.table| == AnalogBufsize &&
    (g.pattern == Square ==>
      (forall i :: 0 <= i < PatternSlots ==> r.table[i] == SquareValue(g.amplitude, i)) &&
      r.table[PatternSlots..] == g.table[PatternSlots..]) &&
    (g.pattern != Square ==>
      (forall i :: 0 <= i < TableLength ==> r.table[i] == wave(g.pattern, g.amplitude, rate, i)) &&
      r.table[TableLength..] == g.table[TableLength..])
  }

  /** The logic buffer after selecting a pattern: filled for all-low and all-high, untouched otherwise. */
  function PatternFill(p: LogicPattern, buf: seq<bv8>): seq<bv8>
  {
    if p == AllLow then seq(|buf|, _ => 0x00)
    else if p == AllHigh then seq(|buf|, _ => 0xff)
    else buf
  }

  /** The two table lookups of PATTERN_MODE: the name's index among the logic and the analog patterns. */
  method LookupPattern(name: string) returns (lp: int, ap: int)
    ensures lp == Search.FirstIndex(LogicPatternNames, name) && ap == Search.FirstIndex(AnalogPatternNames, name)
  {
    lp := Search.IndexOf(LogicPatternNames, name);
    ap := Search.IndexOf(AnalogPatternNames, name);
  }

  /** After a successful pattern change, the group's first channel has the new pattern. */
  lemma PatternTaken(chs: seq<Channel>, lp: int, ap: int, nl: nat, logic0: LogicPattern, gens0: seq<AnalogGen>,
                     logic1: LogicPattern, gens1: seq<AnalogGen>)
    requires -1 <= lp < |LogicPatternNames| && -1 <= ap < |AnalogPatternNames| && |chs| > 0
    requires ChannelsOk(chs, nl, |gens0|)
    requires var r := ApplyPattern(chs, lp, ap, nl, PatternOutcome(true, logic0, false, gens0));
      r.ok && logic1 == r.logic && gens1 == r.gens
    ensures chs[0].kind == LogicChannel ==> 0 <= lp && logic1 == LogicPatternAt(lp)
    ensures chs[0].kind == AnalogChannel ==>
      0 <= ap && nl <= chs[0].index < nl + |gens1| && gens1[chs[0].index - nl].pattern == AnalogPatternAt(ap)
  {
    if chs[0].kind == LogicChannel {
      ApplyPatternSetsLogic(chs, lp, ap, nl, PatternOutcome(true, logic0, false, gens0));
    } else {
      ApplyPatternSetsAnalog(chs, lp, ap, nl, PatternOutcome(true, logic0, false, gens0));
    }
  }

  /** The pattern name of one channel: the logic pattern's, or that of the channel's generator. */
  function ChannelPatternName(ch: Channel, nl: nat, logic: LogicPattern, gens: seq<AnalogGen>): string
    requires ChannelOk(ch, nl, |gens|)
  {
    if ch.kind == LogicChannel then LogicPatternName(logic) else AnalogPatternName(gens[ch.index - nl].pattern)
  }

  /** After a successful change to a pattern found by name, the group's first channel reports that name. */
  lemma PatternNamedAfter(chs: seq<Channel>, name: string, lp: int, ap: int, nl: nat, logic0: LogicPattern, gens0: seq<AnalogGen>)
    requires lp == Search.FirstIndex(LogicPatternNames, name) && ap == Search.FirstIndex(AnalogPatternNames, name)
    requires |chs| > 0 && ChannelsOk(chs, nl, |gens0|)
    requires ApplyPattern(chs, lp, ap, nl, PatternOutcome(true, logic0, false, gens0)).ok
    ensures var r := ApplyPattern(chs, lp, ap, nl, PatternOutcome(true, logic0, false, gens0));
      ChannelOk(chs[0], nl, |r.gens|) && ChannelPatternName(chs[0], nl, r.logic, r.gens) == name
  {
    var r := ApplyPattern(chs, lp, ap, nl, PatternOutcome(true, logic0, false, gens0));
    assert ChannelOk(chs[0], nl, |gens0|);
    PatternTaken(chs, lp, ap, nl, logic0, gens0, r.logic, r.gens);
    NameFound(name, lp, ap);
  }

  /** A name found in a pattern table is the name of the pattern at that index. */
  lemma NameFound(name: string, lp: int, ap: int)
    requires lp == Search.FirstIndex(LogicPatternNames, name) && ap == Search.FirstIndex(AnalogPatternNames, name)
    ensures 0 <= lp ==> LogicPatternName(LogicPatternAt(lp)) == name
    ensures 0 <= ap ==> AnalogPatternName(AnalogPatternAt(ap)) == name
  {
    if 0 <= lp {
      PatternNameAt(lp, 0);
    }
    if 0 <= ap {
      PatternNameAt(0, ap);
    }
  }

  lemma PatternFillTwice(p: LogicPattern, buf: seq<bv8>)
    ensures PatternFill(p, PatternFill(p, buf)) == PatternFill(p, buf)
  {
  }

  lemma ChunkFits(unitsize: nat, units: nat)
    requires 0 < unitsize <= LogicBufsize && units <= LogicBufsize / unitsize
    ensures units * unitsize <= LogicBufsize && LogicBufsize / unitsize >= 1
    ensures (units * unitsize) / unitsize == units && (units * unitsize) % unitsize == 0
  {
    var q := LogicBufsize / unitsize;
    assert q * unitsize + LogicBufsize % unitsize == LogicBufsize;
    assert units * unitsize <= q * unitsize by {
      assert q * unitsize - units * unitsize == (q - units) * unitsize;
    }
    Arith.DivModUnique(units * unitsize, units, 0, unitsize);
  }

  /**
   * The analog step of prepare_data's send loop: send_analog_packet for
   * every generator in turn, each from position sent0 + done with todo
   * samples left; the round reports the largest count any channel
   * accounted for, and the packets of the channels that sent something,
   * in generator order.
   */
  method SendRound(gs: seq<AnalogGen>, avg: bool, avgSamples: nat, sent0: nat, done: nat, todo: nat, nl: nat)
    returns (ga: seq<AnalogGen>, sent: nat, rp: seq<Packet>)
    requires forall d :: 0 <= d < |gs| ==> GenReady(gs[d]) && Readable(gs[d])
    ensures AfterRound(gs, ga, avg, avgSamples, sent0 + done, todo)
    ensures sent == RoundSent(gs, avg, avgSamples, sent0 + done, todo)
    ensures rp == RoundPackets(RoundOuts(gs, avg, avgSamples, sent0 + done, todo), nl)
  {
    ga, sent, rp := RoundLoop(gs, avg, avgSamples, sent0 + done, todo, nl);
  }

  /** The loop of one analog round, from position pos. */
  method RoundLoop(gs: seq<AnalogGen>, avg: bool, avgSamples: nat, pos: nat, todo: nat, nl: nat)
    returns (ga: seq<AnalogGen>, sent: nat, rp: seq<Packet>)
    requires forall d :: 0 <= d < |gs| ==> GenReady(gs[d]) && Readable(gs[d])
    ensures AfterRound(gs, ga, avg, avgSamples, pos, todo)
    ensures sent == RoundSent(gs, avg, avgSamples, pos, todo)
    ensures rp == RoundPackets(RoundOuts(gs, avg, avgSamples, pos, todo), nl)
  {
    ga, sent, rp := gs, 0, [];
    var c := 0;
    while c < |gs|
      invariant c <= |gs| == |ga|
      invariant sent == RoundSent(gs[..c], avg, avgSamples, pos, todo)
      invariant rp == RoundPackets(RoundOuts(gs, avg, avgSamples, pos, todo)[..c], nl)
      invariant forall d :: 0 <= d < |gs| ==> ga[d] == if d < c then AfterPacket(gs[d], avg, avgSamples, pos, todo) else gs[d]
    {
      ga, sent, rp := RoundStep(gs, avg, avgSamples, pos, todo, nl, c, ga, sent, rp);
      c := c + 1;
    }
    assert gs[..c] == gs && RoundOuts(gs, avg, avgSamples, pos, todo)[..c] == RoundOuts(gs, avg, avgSamples, pos, todo);
  }

  /** One send_analog_packet call of a round: generator c's packet and count join the round so far. */
  method RoundStep(gs: seq<AnalogGen>, avg: bool, avgSamples: nat, pos: nat, todo: nat, nl: nat, c: nat,
                   ga: seq<AnalogGen>, sent: nat, rp: seq<Packet>)
    returns (ga': seq<AnalogGen>, sent': nat, rp': seq<Packet>)
    requires c < |gs| == |ga| && forall d :: 0 <= d < |gs| ==> GenReady(gs[d]) && Readable(gs[d])
    requires sent == RoundSent(gs[..c], avg, avgSamples, pos, todo)
    requires rp == RoundPackets(RoundOuts(gs, avg, avgSamples, pos, todo)[..c], nl)
    requires forall d :: 0 <= d < |gs| ==> ga[d] == if d < c then AfterPacket(gs[d], avg, avgSamples, pos, todo) else gs[d]
    ensures |ga'| == |gs|
    ensures sent' == RoundSent(gs[..c + 1], avg, avgSamples, pos, todo)
    ensures rp' == RoundPackets(RoundOuts(gs, avg, avgSamples, pos, todo)[..c + 1], nl)
    ensures forall d :: 0 <= d < |gs| ==> ga'[d] == if d <= c then AfterPacket(gs[d], avg, avgSamples, pos, todo) else gs[d]
  {
    var outs := RoundOuts(gs, avg, avgSamples, pos, todo);
    var r, out;
    r, out, sent' := SendAnalogPacket(gs[c], avg, avgSamples, sent, pos, todo);
    RoundSentSnoc(gs, avg, avgSamples, pos, todo, c);
    RoundPacketsSnoc(outs, nl, c);
    ga' := ga[c := r];
    rp' := if out.Some? then rp + [Analog(nl + c, out.value)] else rp;
  }

  /**
   * What one analog round of prepare_data's send loop does to the packet
   * stream: it moves on by at least one sample and no further than todo,
   * adds no logic, and continues every channel's stream by its count.
   */
  lemma SendRoundStep(gens0: seq<AnalogGen>, gb: seq<AnalogGen>, ga: seq<AnalogGen>, ps: seq<Packet>, rp: seq<Packet>,
                      nl: nat, unitsize: nat, avg: bool, avgSamples: nat, sent0: nat, done: nat, todo: nat,
                      sent: nat)
    requires |gb| == |ga| > 0 && forall c :: 0 <= c < |gb| ==> GenReady(gb[c]) && Readable(gb[c])
    requires LogicChunks(ps, unitsize) && AnalogSoFar(gens0, gb, ps, nl, avg, avgSamples, sent0, done)
    requires sent == RoundSent(gb, avg, avgSamples, sent0 + done, todo)
    requires rp == RoundPackets(RoundOuts(gb, avg, avgSamples, sent0 + done, todo), nl)
    requires AfterRound(gb, ga, avg, avgSamples, sent0 + done, todo)
    ensures todo > 0 ==> 0 < sent <= todo
    ensures LogicChunks(ps + rp, unitsize) && LogicBytes(ps + rp) == LogicBytes(ps)
    ensures AnalogSoFar(gens0, ga, ps + rp, nl, avg, avgSamples, sent0, done + sent)
  {
    if !avg || avgSamples == 0 {
      RoundSentUniform(gb, avg, avgSamples, sent0 + done, todo, TableLength);
    }
    var outs := RoundOuts(gb, avg, avgSamples, sent0 + done, todo);
    AnalogRoundStep(gens0, gb, ga, ps, rp, outs, nl, avg, avgSamples, sent0, done, todo, sent);
    RoundLeavesLogic(ps, rp, outs, nl, unitsize);
  }

  /**
   * The analog step of prepare_data's send loop, from sample done of a
   * tick of todo samples starting at sent0: one round of
   * send_analog_packet calls, its packets appended to the stream so far.
   */
  method AnalogRound(gens0: seq<AnalogGen>, gs: seq<AnalogGen>, ps: seq<Packet>, nl: nat, unitsize: nat,
                     avg: bool, avgSamples: nat, sent0: nat, done: nat, todo: nat)
    returns (ga: seq<AnalogGen>, sent: nat, ps': seq<Packet>)
    requires done < todo && |gs| > 0 && forall c :: 0 <= c < |gs| ==> GenReady(gs[c]) && Readable(gs[c])
    requires LogicChunks(ps, unitsize) && AnalogSoFar(gens0, gs, ps, nl, avg, avgSamples, sent0, done)
    ensures 0 < sent <= todo - done
    ensures |ga| == |gs| && forall c :: 0 <= c < |ga| ==> GenReady(ga[c]) && Readable(ga[c])
    ensures LogicChunks(ps', unitsize) && LogicBytes(ps') == LogicBytes(ps)
    ensures AnalogSoFar(gens0, ga, ps', nl, avg, avgSamples, sent0, done + sent)
  {
    var rp;
    var left: nat := todo - done;
    ga, sent, rp := SendRound(gs, avg, avgSamples, sent0, done, left, nl);
    SendRoundStep(gens0, gs, ga, ps, rp, nl, unitsize, avg, avgSamples, sent0, done, left, sent);
    ps' := ps + rp;
  }

  /**
   * The logic step of prepare_data's send loop: a logic chunk after
   * earlier packets extends the logic stream by its bytes and leaves every
   * analog channel's stream where it was.
   */
  lemma SendChunkStep(gens0: seq<AnalogGen>, gens: seq<AnalogGen>, ps: seq<Packet>, pkt: Packet, ps': seq<Packet>,
                      nl: nat, unitsize: nat, avg: bool, avgSamples: nat, sent0: nat, done: nat)
    requires ps' == ps + [pkt] && pkt.Logic? && LogicChunks(ps, unitsize) && LogicChunks([pkt], unitsize)
    requires AnalogSoFar(gens0, gens, ps, nl, avg, avgSamples, sent0, done)
    ensures LogicChunks(ps', unitsize) && LogicBytes(ps') == LogicBytes(ps) + pkt.data
    ensures AnalogSoFar(gens0, gens, ps', nl, avg, avgSamples, sent0, done)
  {
    LogicBytesSnoc(ps, pkt);
    forall c: nat | c < |gens|
      ensures ChannelAt(gens0, gens, ps', nl, avg, avgSamples, sent0, done, c)
    {
      ChannelValuesSnoc(ps, pkt, nl + c);
      assert ChannelAt(gens0, gens, ps, nl, avg, avgSamples, sent0, done, c);
    }
    forall i | 0 <= i < |ps'| && ps'[i].Logic?
      ensures ps'[i].unitsize == unitsize && unitsize > 0 && 0 < |ps'[i].data| <= LogicBufsize && |ps'[i].data| % unitsize == 0
    {
      if i == |ps| {
        assert ps'[i] == [pkt][0];
      } else {
        assert ps'[i] == ps[i];
      }
    }
  }

  /** struct dev_context of one demo device, with its generators and the session it feeds. */
  class DemoDevice {
    /** The floating-point values of the sine, triangle and sawtooth tables, left abstract. */
    const wave: Wave
    const numLogicChannels: nat
    const numAnalogChannels: nat
    const logicUnitsize: nat
    const channelGroups: seq<ChannelGroup>
    const logicData: array<bv8>
    /** The values successive rand() calls return; the C library's generator is not modelled. */
    const rand: nat -> nat

    var status: DevStatus
    var curSamplerate: nat
    var limitSamples: nat
    var limitMsec: nat
    var sentSamples: nat
    var startUs: int
    var spentUs: int
    var step: nat
    /** How many rand() calls the random pattern has made. */
    var randCalls: nat
    var logicPattern: LogicPattern
    /** ch_ag: the generator of analog channel numLogicChannels + i is gens[i]. */
    var gens: seq<AnalogGen>
    var avg: bool
    var avgSamples: nat
    /** Whether prepare_data is registered as a session source. */
    var running: bool
    /** Every packet sent on the session bus so far. */
    var packets: seq<Packet>

    ghost predicate ConfigValid()
      reads this
    {
      logicData.Length == LogicBufsize &&
      numLogicChannels <= 8 * LogicBufsize &&
      logicUnitsize == (numLogicChannels + 7) / 8 &&
      |gens| == numAnalogChannels &&
      forall i :: 0 <= i < |gens| ==> GenReady(gens[i])
    }

    ghost predicate GroupOfDevice(g: ChannelGroup)
      reads this
    {
      GroupOk(g, numLogicChannels, numAnalogChannels)
    }

    /** The pattern name config_get reports for a group: that of its first channel ("any channel will do"). */
    function PatternName(g: ChannelGroup): string
      reads this
      requires ConfigValid() && GroupOfDevice(g)
    {
      assert ChannelOk(g.channels[0], numLogicChannels, numAnalogChannels);
      ChannelPatternName(g.channels[0], numLogicChannels, logicPattern, gens)
    }

    /** The amplitude config_get reports for an analog group: that of its first channel. */
    function AmplitudeOf(g: ChannelGroup): real
      reads this
      requires ConfigValid() && GroupOfDevice(g) && g.channels[0].kind == AnalogChannel
    {
      var ch := g.channels[0];
      gens[ch.index - numLogicChannels].amplitude
    }

    /** The all-low and all-high buffers were filled when the pattern was chosen. */
    ghost predicate Valid()
      reads this, logicData
    {
      ConfigValid() &&
      (logicPattern == AllLow ==> AllEqual(logicData[..], 0x00)) &&
      (logicPattern == AllHigh ==> AllEqual(logicData[..], 0xff))
    }

    /** scan: a new, inactive device with the default settings and generators. */
    constructor Scan(numLogic: nat, numAnalog: nat, wave: Wave, rand: nat -> nat)
      requires numLogic <= 8 * LogicBufsize
      ensures Valid() && fresh(logicData)
      ensures numLogicChannels == numLogic && numAnalogChannels == numAnalog
      ensures logicUnitsize == (numLogic + 7) / 8 && channelGroups == ScanGroups(numLogic, numAnalog)
      ensures status == Inactive && curSamplerate == DefaultSamplerate && logicPattern == Sigrok
      ensures limitSamples == 0 && limitMsec == 0 && !avg && avgSamples == 0
      ensures sentSamples == 0 && step == 0 && randCalls == 0 && !running && packets == [] && this.rand == rand
      ensures forall i :: 0 <= i < |gens| ==>
        gens[i].pattern == AnalogPatternAt(i % |AnalogPatternNames|) && gens[i].amplitude == DefaultAmplitude &&
        gens[i].avgVal == 0.0 && gens[i].numAvgs == 0
    {
      this.wave := wave;
      this.rand := rand;
      randCalls := 0;
      numLogicChannels := numLogic;
      numAnalogChannels := numAnalog;
      logicUnitsize := (numLogic + 7) / 8;
      channelGroups := ScanGroups(numLogic, numAnalog);
      logicData := new bv8[LogicBufsize](_ => 0x00);
      status := Inactive;
      curSamplerate := DefaultSamplerate;
      limitSamples, limitMsec, sentSamples := 0, 0, 0;
      startUs, spentUs, step := 0, 0, 0;
      logicPattern := Sigrok;
      gens := seq(numAnalog, i requires 0 <= i < numAnalog =>
        AnalogGen(AnalogPatternAt(i % |AnalogPatternNames|), DefaultAmplitude, seq(AnalogBufsize, _ => 0.0), TableLength, 0.0, 0));
      avg, avgSamples := false, 0;
      running := false;
      packets := [];
    }

    method DevOpen() returns (st: Status)
      modifies this`status
      ensures status == Active && st == Ok
    {
      status := Active;
      st := Ok;
    }

    method DevClose() returns (st: Status)
      modifies this`status
      ensures status == Inactive && st == Ok
    {
      status := Inactive;
      st := Ok;
    }

    /** memset of the whole logic buffer. */
    method FillLogic(v: bv8)
      modifies logicData
      ensures logicData[..] == seq(logicData.Length, _ => v)
    {
      forall k | 0 <= k < logicData.Length {
        logicData[k] := v;
      }
    }

    /** A logic channel takes pattern p; the static patterns are written out now. */
    method SelectLogicPattern(p: LogicPattern)
      requires logicData.Length == LogicBufsize
      modifies this`logicPattern, logicData
      ensures logicPattern == p && logicData[..] == PatternFill(p, old(logicData[..]))
    {
      logicPattern := p;
      if p == AllLow {
        FillLogic(0x00);
      } else if p == AllHigh {
        FillLogic(0xff);
      }
    }

    /** Analog generator i takes pattern p. */
    method SelectAnalogPattern(i: nat, p: AnalogPattern)
      requires ConfigValid() && i < |gens|
      modifies this`gens
      ensures ConfigValid() && gens == old(gens)[i := old(gens)[i].(pattern := p)]
    {
      gens := gens[i := gens[i].(pattern := p)];
    }

    /**
     * The PATTERN_MODE loop over a group's channels; the result is the one
     * ApplyPattern describes, and the logic buffer is filled whenever a
     * logic channel selects all-low or all-high.
     */
    method SetPattern(chs: seq<Channel>, lp: int, ap: int) returns (st: Status)
      requires Valid() && -1 <= lp < |LogicPatternNames| && -1 <= ap < |AnalogPatternNames|
      requires ChannelsOk(chs, numLogicChannels, numAnalogChannels)
      modifies this`logicPattern, this`gens, logicData
      ensures Valid()
      ensures var r := ApplyPattern(chs, lp, ap, numLogicChannels, PatternOutcome(true, old(logicPattern), false, old(gens)));
        (st == Ok <==> r.ok) && (st == Ok || st == ErrArg) && logicPattern == r.logic && gens == r.gens &&
        logicData[..] == (if r.touched then PatternFill(LogicPatternAt(lp), old(logicData[..])) else old(logicData[..]))
    {
      ghost var st0 := PatternOutcome(true, logicPattern, false, gens);
      ghost var touched := false;
      var i := 0;
      while i < |chs|
        invariant 0 <= i <= |chs| && ConfigValid()
        invariant ApplyPattern(chs[i..], lp, ap, numLogicChannels, PatternOutcome(true, logicPattern, touched, gens))
               == ApplyPattern(chs, lp, ap, numLogicChannels, st0)
        invariant touched ==> lp != -1 && logicPattern == LogicPatternAt(lp)
        invariant !touched ==> logicPattern == old(logicPattern)
        invariant logicData[..] == (if touched then PatternFill(LogicPatternAt(lp), old(logicData[..])) else old(logicData[..]))
      {
        var ch := chs[i];
        assert chs[i..][1..] == chs[i + 1..];
        if ch.kind == LogicChannel {
          if lp == -1 {
            return ErrArg;
          }
          SelectLogicPattern(LogicPatternAt(lp));
          PatternFillTwice(LogicPatternAt(lp), old(logicData[..]));
          touched := true;
        } else {
          if ap == -1 {
            return ErrArg;
          }
          SelectAnalogPattern(ch.index - numLogicChannels, AnalogPatternAt(ap));
        }
        i := i + 1;
      }
      assert logicPattern == AllLow ==> AllEqual(logicData[..], 0x00);
      assert logicPattern == AllHigh ==> AllEqual(logicData[..], 0xff);
      return Ok;
    }

    /** The AMPLITUDE loop over a group's channels, as ApplyAmplitude describes it. */
    method SetAmplitude(chs: seq<Channel>, amplitude: real) returns (st: Status)
      requires ConfigValid()
      requires ChannelsOk(chs, numLogicChannels, numAnalogChannels)
      modifies this`gens
      ensures ConfigValid()
      ensures var r := ApplyAmplitude(chs, amplitude, numLogicChannels, old(gens));
        (st == Ok <==> r.0) && (st == Ok || st == ErrArg) && gens == r.1
    {
      var i := 0;
      while i < |chs|
        invariant 0 <= i <= |chs| && ConfigValid()
        invariant ApplyAmplitude(chs[i..], amplitude, numLogicChannels, gens)
               == ApplyAmplitude(chs, amplitude, numLogicChannels, old(gens))
      {
        var ch := chs[i];
        assert chs[i..][1..] == chs[i + 1..];
        if ch.kind != AnalogChannel {
          return ErrArg;
        }
        var gi := ch.index - numLogicChannels;
        gens := gens[gi := gens[gi].(amplitude := amplitude)];
        i := i + 1;
      }
      return Ok;
    }

    /** The device-wide settings config_get reads and config_set writes. */
    function Current(): Settings
      reads this
    {
      Settings(curSamplerate, limitSamples, limitMsec, avg, avgSamples)
    }

    /**
     * Where the PATTERN_MODE branch leaves the pattern state, given the
     * state before: no group is ERR_CHANNEL_GROUP and a name in neither
     * table is ERR_ARG, both with nothing changed; otherwise the loop's
     * outcome as ApplyPattern gives it.
     */
    ghost predicate PatternModeOutcome(name: string, cg: Option<ChannelGroup>, st: Status,
                                       logic0: LogicPattern, gens0: seq<AnalogGen>, data0: seq<bv8>)
      reads this, logicData
    {
      |gens0| == numAnalogChannels && (cg.Some? ==> GroupOfDevice(cg.value)) &&
      if cg.None? then
        st == ErrChannelGroup && logicPattern == logic0 && gens == gens0 && logicData[..] == data0
      else
        var lp := Search.FirstIndex(LogicPatternNames, name);
        var ap := Search.FirstIndex(AnalogPatternNames, name);
        if lp == -1 && ap == -1 then
          st == ErrArg && logicPattern == logic0 && gens == gens0 && logicData[..] == data0
        else
          var r := ApplyPattern(cg.value.channels, lp, ap, numLogicChannels, PatternOutcome(true, logic0, false, gens0));
          (st == Ok <==> r.ok) && (st == Ok || st == ErrArg) && logicPattern == r.logic && gens == r.gens &&
          logicData[..] == (if r.touched then PatternFill(LogicPatternAt(lp), data0) else data0)
    }

    /**
     * Where the AMPLITUDE branch leaves the generators: no group is
     * ERR_CHANNEL_GROUP with nothing changed, otherwise the loop's outcome
     * as ApplyAmplitude gives it.
     */
    ghost predicate AmplitudeOutcome(amplitude: real, cg: Option<ChannelGroup>, st: Status, gens0: seq<AnalogGen>)
      reads this
    {
      |gens0| == numAnalogChannels && (cg.Some? ==> GroupOfDevice(cg.value)) &&
      if cg.None? then st == ErrChannelGroup && gens == gens0
      else
        var r := ApplyAmplitude(cg.value.channels, amplitude, numLogicChannels, gens0);
        (st == Ok <==> r.0) && (st == Ok || st == ErrArg) && gens == r.1
    }

    /**
     * The PATTERN_MODE branch of config_set: a group is needed, and the
     * name must be in the logic or the analog table.
     */
    method SetPatternMode(name: string, cg: Option<ChannelGroup>) returns (st: Status)
      requires Valid() && (cg.Some? ==> GroupOfDevice(cg.value))
      modifies this`logicPattern, this`gens, logicData
      ensures Valid()
      ensures PatternModeOutcome(name, cg, st, old(logicPattern), old(gens), old(logicData[..]))
      ensures st == Ok ==> cg.Some? && PatternName(cg.value) == name
    {
      if cg.None? {
        return ErrChannelGroup;
      }
      var lp, ap := LookupPattern(name);
      if lp == -1 && ap == -1 {
        return ErrArg;
      }
      st := SetPattern(cg.value.channels, lp, ap);
      if st == Ok {
        PatternNamedAfter(cg.value.channels, name, lp, ap, numLogicChannels, old(logicPattern), old(gens));
      }
    }

    /** The AMPLITUDE branch of config_set: a group is needed, and every channel of it must be analog. */
    method SetAmplitudeOf(amplitude: real, cg: Option<ChannelGroup>) returns (st: Status)
      requires ConfigValid() && (cg.Some? ==> GroupOfDevice(cg.value))
      modifies this`gens
      ensures ConfigValid()
      ensures AmplitudeOutcome(amplitude, cg, st, old(gens))
      ensures st == Ok ==> cg.Some? && cg.value.channels[0].kind == AnalogChannel && AmplitudeOf(cg.value) == amplitude
    {
      if cg.None? {
        return ErrChannelGroup;
      }
      ApplyAmplitudeSets(cg.value.channels, amplitude, numLogicChannels, gens);
      st := SetAmplitude(cg.value.channels, amplitude);
    }

    /** Store the device-wide settings. */
    method SetSettings(s: Settings)
      requires Valid()
      modifies this`curSamplerate, this`limitSamples, this`limitMsec, this`avg, this`avgSamples
      ensures Valid() && Current() == s
    {
      curSamplerate, limitSamples, limitMsec, avg, avgSamples := s.samplerate, s.limitSamples, s.limitMsec, s.avg, s.avgSamples;
    }

    /**
     * config_set: only an open device takes settings; a device-wide key
     * changes its setting as SetScalar says; patterns and amplitudes go
     * through SetPatternMode and SetAmplitudeOf; any other key is ERR_NA.
     * The acquisition state is not touched, and what was set reads back
     * through config_get.
     */
    method ConfigSet(key: Key, data: Variant, cg: Option<ChannelGroup>) returns (st: Status)
      requires Valid() && Fits(key, data) && (cg.Some? ==> GroupOfDevice(cg.value))
      modifies this`curSamplerate, this`limitSamples, this`limitMsec, this`avg, this`avgSamples
      modifies this`logicPattern, this`gens, logicData
      ensures Valid()
      ensures old(status) != Active ==> st == ErrDevClosed && unchanged(this) && unchanged(logicData)
      ensures old(status) == Active && key in ScalarKeys ==> st == Ok && Current() == SetScalar(key, data, old(Current()))
      ensures old(status) != Active || key !in ScalarKeys ==> Current() == old(Current())
      ensures key != PatternMode ==> logicPattern == old(logicPattern) && unchanged(logicData)
      ensures key != PatternMode && key != Amplitude ==> gens == old(gens)
      ensures old(status) == Active && key == PatternMode ==>
        PatternModeOutcome(data.s, cg, st, old(logicPattern), old(gens), old(logicData[..]))
      ensures old(status) == Active && key == Amplitude ==> AmplitudeOutcome(data.d, cg, st, old(gens))
      ensures old(status) == Active && key !in ConfigKeys ==> st == ErrNa
      ensures st == Ok ==> key in ConfigKeys && ConfigGet(key, this, cg) == (Ok, Some(data))
    {
      if status != Active {
        return ErrDevClosed;
      }
      match key {
        case Samplerate | LimitSamples | LimitMsec | Averaging | AvgSamples =>
          SetSettings(SetScalar(key, data, Current()));
          st := Ok;
        case PatternMode =>
          st := SetPatternMode(data.s, cg);
        case Amplitude =>
          st := SetAmplitudeOf(data.d, cg);
        case _ =>
          st := ErrNa;
      }
    }

    // ---------------------------------------------------------------
    // Acquisition
    // ---------------------------------------------------------------

    /**
     * Fill the first units * unitsize bytes of logic_data with the next
     * `units` units of a stepped pattern, advancing step once per unit.
     */
    method FillUnits(units: nat, byteAt: (nat, nat) -> bv8)
      requires logicData.Length == LogicBufsize && 0 < logicUnitsize && units * logicUnitsize <= LogicBufsize
      modifies logicData, this`step
      ensures logicData[..units * logicUnitsize] == UnitStream(byteAt, old(step), units, logicUnitsize)
      ensures step == old(step) + units
    {
      var u := logicUnitsize;
      ghost var s := UnitStream(byteAt, old(step), units, u);
      var n, i := 0, 0;
      while n < units
        invariant n <= units && i == n * u && step == old(step) + n
        invariant forall m :: 0 <= m < i ==> logicData[m] == s[m]
      {
        assert i + u <= units * u by {
          assert (n + 1) * u == i + u;
          MulMono(n + 1, units, u);
        }
        var j := 0;
        while j < u
          invariant j <= u && step == old(step) + n
          invariant forall m :: 0 <= m < i + j ==> logicData[m] == s[m]
        {
          Arith.DivModUnique(i + j, n, j, u);
          logicData[i + j] := byteAt(step, j);
          j := j + 1;
        }
        step := step + 1;
        i := i + u;
        n := n + 1;
      }
      assert logicData[..i] == s;
    }

    /** The random pattern: one rand() call per byte, its low byte stored. */
    method FillRandom(size: nat)
      requires logicData.Length == LogicBufsize && size <= LogicBufsize
      modifies logicData, this`randCalls
      ensures logicData[..size] == RandBytes(rand, old(randCalls), size) && randCalls == old(randCalls) + size
    {
      var i := 0;
      while i < size
        invariant i <= size && randCalls == old(randCalls) + i
        invariant forall m :: 0 <= m < i ==> logicData[m] == (rand(old(randCalls) + m) % 256) as bv8
      {
        logicData[i] := (rand(randCalls) % 256) as bv8;
        randCalls := randCalls + 1;
        i := i + 1;
      }
      ghost var s := RandBytes(rand, old(randCalls), size);
      assert logicData[..size] == s;
    }

    /**
     * logic_generator for a chunk of `units` units (size = units *
     * logic_unitsize bytes): the chunk continues the current pattern's
     * stream. The incremental pattern steps once per unit, as intended
     * (see IncLoopAsWritten for the loop as written); all-low and
     * all-high were written when the pattern was chosen.
     */
    method LogicGenerator(units: nat)
      requires Valid() && numLogicChannels > 0 && units * logicUnitsize <= LogicBufsize
      modifies logicData, this`step, this`randCalls
      ensures Valid()
      ensures LogicSoFar(logicPattern, rand, old(step), old(randCalls), step, randCalls,
                         logicData[..units * logicUnitsize], units, logicUnitsize)
    {
      match logicPattern {
        case Sigrok =>
          FillUnits(units, SigrokByte);
        case Random =>
          FillRandom(units * logicUnitsize);
        case Incremental =>
          FillUnits(units, IncByte);
        case AllLow =>
          StaticChunk(AllLow, logicData[..], units, logicUnitsize, step);
        case AllHigh =>
          StaticChunk(AllHigh, logicData[..], units, logicUnitsize, step);
      }
    }

    /** One logic step of the send loop: as many whole units as fit LOGIC_BUFSIZE, as one packet. */
    method SendLogicChunk(left: nat) returns (sendingNow: nat, pkt: Packet)
      requires Valid() && numLogicChannels > 0 && left > 0
      modifies logicData, this`step, this`randCalls
      ensures Valid() && 0 < sendingNow <= left && LogicChunks([pkt], logicUnitsize)
      ensures pkt.Logic? && LogicSoFar(logicPattern, rand, old(step), old(randCalls), step, randCalls,
                                       pkt.data, sendingNow, logicUnitsize)
    {
      var u := logicUnitsize;
      sendingNow := Min(left, LogicBufsize / u);
      ChunkFits(u, sendingNow);
      LogicGenerator(sendingNow);
      pkt := Logic(u, logicData[..sendingNow * u]);
    }

    /**
     * The send loop of prepare_data: logic chunks and rounds of analog
     * packets until both kinds of channel have sent todo samples (a kind
     * the device lacks counts as done). With the corrected analog count
     * (PacketCount) both counts end exactly at todo, so the "sample count
     * mismatch" exit is not reached (the count as written reaches it, see
     * AveragingOvershootsAsWritten): the logic stream
     * continues the pattern by todo units, and every analog channel's
     * stream moves on by todo samples from sent_samples.
     */
    method SendSamples(todo: nat) returns (ps: seq<Packet>)
      requires Valid()
      modifies logicData, this`step, this`randCalls, this`gens, this`packets
      ensures Valid() && packets == old(packets) + ps && LogicChunks(ps, logicUnitsize) && |gens| == |old(gens)|
      ensures numLogicChannels == 0 ==> LogicBytes(ps) == [] && step == old(step) && randCalls == old(randCalls)
      ensures numLogicChannels > 0 ==>
        LogicSoFar(logicPattern, rand, old(step), old(randCalls), step, randCalls, LogicBytes(ps), todo, logicUnitsize)
      ensures AnalogSoFar(old(gens), gens, ps, numLogicChannels, avg, avgSamples, sentSamples, todo)
    {
      ghost var step0, rand0 := step, randCalls;
      var u, nl, a, an, sent0 := logicUnitsize, numLogicChannels, avg, avgSamples, sentSamples;
      var gens0 := gens;
      var gs := gens;
      var logicDone: nat := if numLogicChannels > 0 then 0 else todo;
      var analogDone: nat := if numAnalogChannels > 0 then 0 else todo;
      ps := [];
      if numAnalogChannels > 0 {
        AnalogSoFarStart(gens0, nl, a, an, sent0);
      }
      while logicDone < todo || analogDone < todo
        invariant Valid() && packets == old(packets) && gens == gens0
        invariant LogicChunks(ps, u) && |gs| == |gens0| == numAnalogChannels
        invariant forall c :: 0 <= c < |gs| ==> GenReady(gs[c]) && Readable(gs[c])
        invariant logicDone <= todo && analogDone <= todo
        invariant nl == 0 ==> logicDone == todo && LogicBytes(ps) == [] && step == step0 && randCalls == rand0
        invariant nl > 0 ==> LogicSoFar(logicPattern, rand, step0, rand0, step, randCalls, LogicBytes(ps), logicDone, u)
        invariant numAnalogChannels == 0 ==> analogDone == todo
        invariant AnalogSoFar(gens0, gs, ps, nl, a, an, sent0, analogDone)
        decreases (todo - logicDone) + (todo - analogDone)
      {
        if logicDone < todo {
          ps, logicDone := LogicRound(gens0, gs, ps, step0, rand0, a, an, sent0, analogDone, logicDone, todo);
        }
        if analogDone < todo {
          var sent;
          gs, sent, ps := AnalogRound(gens0, gs, ps, nl, u, a, an, sent0, analogDone, todo);
          analogDone := analogDone + sent;
        }
      }
      gens := gs;
      packets := packets + ps;
    }

    /** The logic half of one pass of the send loop: a chunk joins the packets and continues the stream. */
    method LogicRound(gens0: seq<AnalogGen>, gs: seq<AnalogGen>, ps: seq<Packet>, ghost step0: nat, ghost rand0: nat,
                      a: bool, an: nat, sent0: nat, analogDone: nat, logicDone: nat, todo: nat)
      returns (ps': seq<Packet>, logicDone': nat)
      requires Valid() && numLogicChannels > 0 && logicDone < todo
      requires LogicChunks(ps, logicUnitsize) && AnalogSoFar(gens0, gs, ps, numLogicChannels, a, an, sent0, analogDone)
      requires LogicSoFar(logicPattern, rand, step0, rand0, step, randCalls, LogicBytes(ps), logicDone, logicUnitsize)
      modifies logicData, this`step, this`randCalls
      ensures Valid() && logicDone < logicDone' <= todo
      ensures LogicChunks(ps', logicUnitsize) && AnalogSoFar(gens0, gs, ps', numLogicChannels, a, an, sent0, analogDone)
      ensures LogicSoFar(logicPattern, rand, step0, rand0, step, randCalls, LogicBytes(ps'), logicDone', logicUnitsize)
    {
      ghost var stepB, randB := step, randCalls;
      var sendingNow, pkt := SendLogicChunk(todo - logicDone);
      SendChunkStep(gens0, gs, ps, pkt, ps + [pkt], numLogicChannels, logicUnitsize, a, an, sent0, analogDone);
      LogicSoFarStep(logicPattern, rand, step0, rand0, stepB, randB, LogicBytes(ps), logicDone,
                     step, randCalls, pkt.data, sendingNow, logicUnitsize);
      ps' := ps + [pkt];
      logicDone' := logicDone + sendingNow;
    }

    /** The end-of-run flush: every generator's running average, one packet per channel. */
    method FlushAverages()
      modifies this`packets
      ensures packets == old(packets) + FlushPackets(gens, numLogicChannels)
    {
      ghost var f := FlushPackets(gens, numLogicChannels);
      var c := 0;
      while c < |gens|
        invariant c <= |gens| && packets == old(packets) + f[..c]
      {
        assert f[..c + 1] == f[..c] + [Analog(numLogicChannels + c, [gens[c].avgVal])];
        packets := packets + [Analog(numLogicChannels + c, [gens[c].avgVal])];
        c := c + 1;
      }
      assert f[..c] == f;
    }

    /**
     * The end of prepare_data once a limit is reached: the averages are
     * flushed when avg_samples is 0, then the acquisition stops.
     */
    method FinishAcquisition()
      requires Valid()
      modifies this`running, this`packets
      ensures Valid() && !running
      ensures packets == old(packets) + (if avgSamples == 0 then FlushPackets(gens, numLogicChannels) else []) + [End]
    {
      if avgSamples == 0 {
        FlushAverages();
      }
      var st := AcquisitionStop();
    }

    /** dev_acquisition_stop: the tick is unregistered and the end packet sent. */
    method AcquisitionStop() returns (st: Status)
      modifies this`running, this`packets
      ensures st == Ok && !running && packets == old(packets) + [End]
    {
      running := false;
      packets := packets + [End];
      st := Ok;
    }

    /**
     * prepare_data, one tick at monotonic time now. With no samplerate or
     * no channels it stops the acquisition. Otherwise it sends the samples
     * the pacing owes (Tick), moves sent_samples and spent_us on, and once
     * a limit is reached sends the averages (when avg_samples is 0, even
     * with averaging off, as written) and stops. On the corrected analog
     * count the tick always stays registered: the mismatch exit is not
     * reached.
     */
    method PrepareData(now: int) returns (keep: bool, ps: seq<Packet>)
      requires Valid()
      modifies logicData, this`step, this`randCalls, this`gens, this`packets
      modifies this`sentSamples, this`spentUs, this`running
      ensures Valid() && keep
      ensures curSamplerate == 0 || (numLogicChannels == 0 && numAnalogChannels == 0) ==>
        ps == [] && packets == old(packets) + [End] && !running &&
        sentSamples == old(sentSamples) && spentUs == old(spentUs) && gens == old(gens) &&
        step == old(step) && randCalls == old(randCalls) && unchanged(logicData)
      ensures curSamplerate > 0 && (numLogicChannels > 0 || numAnalogChannels > 0) ==>
        var p := Tick(curSamplerate, limitSamples, limitMsec, Pace(old(sentSamples), old(spentUs)), now - startUs);
        var stop := LimitReached(limitSamples, limitMsec, p);
        sentSamples == p.sent && spentUs == p.spent && running == (old(running) && !stop) &&
        packets == old(packets) + ps +
          (if stop then (if avgSamples == 0 then FlushPackets(gens, numLogicChannels) else []) + [End] else [])
      ensures curSamplerate > 0 && (numLogicChannels > 0 || numAnalogChannels > 0) ==>
        TickSent(ps, old(step), old(randCalls), old(gens), old(sentSamples), sentSamples - old(sentSamples))
    {
      if curSamplerate == 0 || (numLogicChannels == 0 && numAnalogChannels == 0) {
        var st := AcquisitionStop();
        return true, [];
      }
      ps := SendTick(now);
      if LimitReached(limitSamples, limitMsec, Pace(sentSamples, spentUs)) {
        FinishAcquisition();
      }
      keep := true;
    }

    /**
     * The sending half of prepare_data: the samples the pacing owes at time
     * now go on the bus and sent_samples and spent_us move on.
     */
    method SendTick(now: int) returns (ps: seq<Packet>)
      requires Valid() && curSamplerate > 0
      modifies logicData, this`step, this`randCalls, this`gens, this`packets, this`sentSamples, this`spentUs
      ensures Valid() && packets == old(packets) + ps
      ensures var p := Tick(curSamplerate, limitSamples, limitMsec, Pace(old(sentSamples), old(spentUs)), now - startUs);
        sentSamples == p.sent && spentUs == p.spent
      ensures TickSent(ps, old(step), old(randCalls), old(gens), old(sentSamples), sentSamples - old(sentSamples))
    {
      var n := SamplesTodo(curSamplerate, limitSamples, limitMsec, Pace(sentSamples, spentUs), now - startUs);
      var todoUs := UsFor(n, curSamplerate);
      ps := SendSamples(n);
      sentSamples := sentSamples + n;
      spentUs := spentUs + todoUs;
    }

    /**
     * What a tick of n samples from sent0 put on the bus, given the state
     * before it: whole-unit logic chunks continuing the pattern by n
     * units, and every analog channel's stream moved on by n samples.
     */
    ghost predicate TickSent(ps: seq<Packet>, step0: nat, rand0: nat, gens0: seq<AnalogGen>, sent0: nat, n: nat)
      reads this
      requires ConfigValid()
    {
      LogicChunks(ps, logicUnitsize) &&
      (numLogicChannels == 0 ==> LogicBytes(ps) == [] && step == step0 && randCalls == rand0) &&
      (numLogicChannels > 0 ==>
        LogicSoFar(logicPattern, rand, step0, rand0, step, randCalls, LogicBytes(ps), n, logicUnitsize)) &&
      AnalogSoFar(gens0, gens, ps, numLogicChannels, avg, avgSamples, sent0, n)
    }

    /** generate_analog_pattern for every generator, at the current samplerate. */
    method RegenerateAll()
      requires ConfigValid()
      modifies this`gens
      ensures ConfigValid() && |gens| == |old(gens)|
      ensures forall c :: 0 <= c < |gens| ==> Regenerated(old(gens)[c], gens[c], curSamplerate, wave)
    {
      var c := 0;
      while c < |gens|
        invariant c <= |gens| == |old(gens)| && ConfigValid()
        invariant forall d :: 0 <= d < c ==> Regenerated(old(gens)[d], gens[d], curSamplerate, wave)
        invariant forall d :: c <= d < |gens| ==> gens[d] == old(gens)[d]
      {
        var r := GenerateAnalogPattern(gens[c], curSamplerate, wave);
        gens := gens[c := r];
        c := c + 1;
      }
    }

    /**
     * dev_acquisition_start: only an open device starts; the sample count
     * is reset, every table regenerated, the tick registered, the header
     * sent and the clock origin taken at now.
     */
    method AcquisitionStart(now: int) returns (st: Status)
      requires Valid()
      modifies this`sentSamples, this`gens, this`running, this`packets, this`startUs, this`spentUs
      ensures Valid()
      ensures old(status) != Active ==> st == ErrDevClosed && unchanged(this)
      ensures old(status) == Active ==>
        st == Ok && sentSamples == 0 && running && packets == old(packets) + [Header] && startUs == now && spentUs == 0 &&
        |gens| == |old(gens)| && forall c :: 0 <= c < |gens| ==> Regenerated(old(gens)[c], gens[c], curSamplerate, wave)
    {
      if status != Active {
        return ErrDevClosed;
      }
      sentSamples := 0;
      RegenerateAll();
      running := true;
      packets := packets + [Header];
      startUs, spentUs := now, 0;
      st := Ok;
    }
  }
}
