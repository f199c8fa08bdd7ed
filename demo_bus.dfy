/**
 * What the demo driver puts on the session bus, seen per stream: the logic
 * bytes in order and the values of each analog channel in order, and the
 * byte streams the logic patterns of logic_generator produce
 * (src/hardware/demo/demo.c).
 */
module DemoBus {
  import opened Common
  import opened DemoPatterns
  import opened DemoAnalog

  // ---------------------------------------------------------------
  // What the session bus carries, channel by channel
  // ---------------------------------------------------------------

  /** The values a packet stream carries for analog channel ch, in order. */
  function ChannelValues(ps: seq<Packet>, ch: nat): seq<real>
    decreases |ps|
  {
    if ps == [] then []
    else
      var p := ps[|ps| - 1];
      ChannelValues(ps[..|ps| - 1], ch) + (if p.Analog? && p.channel == ch then p.values else [])
  }

  lemma {:induction false} ChannelValuesAppend(a: seq<Packet>, b: seq<Packet>, ch: nat)
    ensures ChannelValues(a + b, ch) == ChannelValues(a, ch) + ChannelValues(b, ch)
    decreases |b|
  {
    if b == [] {
      assert a + b == a;
    } else {
      var b', p := b[..|b| - 1], b[|b| - 1];
      var tail := if p.Analog? && p.channel == ch then p.values else [];
      assert (a + b)[..|a + b| - 1] == a + b';
      assert (a + b)[|a + b| - 1] == p;
      ChannelValuesAppend(a, b', ch);
      assert ChannelValues(a + b, ch) == ChannelValues(a + b', ch) + tail;
      assert ChannelValues(b, ch) == ChannelValues(b', ch) + tail;
    }
  }

  /** Every logic packet holds whole units of the given size and at most one chunk of LOGIC_BUFSIZE bytes. */
  ghost predicate LogicChunks(ps: seq<Packet>, unitsize: nat)
  {
    forall i :: 0 <= i < |ps| && ps[i].Logic? ==>
      ps[i].unitsize == unitsize && unitsize > 0 && 0 < |ps[i].data| <= LogicBufsize && |ps[i].data| % unitsize == 0
  }

  // ---------------------------------------------------------------
  // Logic pattern streams
  // ---------------------------------------------------------------

  /** Byte j of the unit sent at a step, per pattern (random bytes are not modelled). */
  function ByteAt(p: LogicPattern): (nat, nat) -> bv8
  {
    match p
    case Sigrok => SigrokByte
    case Incremental => IncByte
    case AllHigh => (step: nat, j: nat) => 0xff
    case _ => (step: nat, j: nat) => 0x00
  }

  /** How far a pattern advances `step` while producing `units` units. */
  function StepsAfter(p: LogicPattern, units: nat): nat
  {
    if p == Sigrok || p == Incremental then units else 0
  }

  /** Consecutive chunks of a pattern continue its stream. */
  lemma LogicStreamAppend(p: LogicPattern, step: nat, a: nat, b: nat, unitsize: nat)
    requires unitsize > 0
    ensures UnitStream(ByteAt(p), step, a, unitsize) + UnitStream(ByteAt(p), step + StepsAfter(p, a), b, unitsize)
         == UnitStream(ByteAt(p), step, a + b, unitsize)
  {
    UnitStreamAppend(ByteAt(p), step, a, b, unitsize);
    if p != Sigrok && p != Incremental {
      ConstantStream(p, step, step + a, b, unitsize);
    }
  }

  /** The patterns that do not advance `step` send the same units whatever the step. */
  lemma ConstantStream(p: LogicPattern, s1: nat, s2: nat, units: nat, unitsize: nat)
    requires unitsize > 0 && p != Sigrok && p != Incremental
    ensures UnitStream(ByteAt(p), s1, units, unitsize) == UnitStream(ByteAt(p), s2, units, unitsize)
  {
    var x, y := UnitStream(ByteAt(p), s1, units, unitsize), UnitStream(ByteAt(p), s2, units, unitsize);
    forall k | 0 <= k < units * unitsize
      ensures x[k] == y[k]
    {
    }
  }

  /** The low byte of the step counter, as the incremental pattern stores it. */
  function StepByte(n: nat): bv8
  {
    (n % 256) as bv8
  }

  /** How far the as-written loop has stored after i outer passes: up to offset i - 1 plus a unit. */
  function IncReach(i: nat, unitsize: nat): nat
  {
    if i == 0 || unitsize == 0 then 0 else i + unitsize - 1
  }

  /**
   * The incremental pattern's loop as written (logic_generator,
   * PATTERN_INC): for every byte offset i below the chunk size, not every
   * unit, it stores step to logic_data[i + j] for each j below the unit
   * size and then advances step. The stores are a map from index to
   * byte, so those past the 4096-byte buffer show. Every index up to
   * size + unitsize - 2 is stored, the last store to index k coming from
   * offset min(k, size - 1); step moves on once per byte. So with units
   * of two bytes or more a full chunk stores past its end (index 4096 for
   * 9 to 16 channels), and step advances 4096 times for 2048 units.
   */
  method IncLoopAsWritten(step0: nat, size: nat, unitsize: nat) returns (stores: map<nat, bv8>, step: nat)
    ensures step == step0 + size
    ensures forall k: nat :: k in stores <==> k < IncReach(size, unitsize)
    ensures forall k :: k in stores ==> stores[k] == StepByte(step0 + if k < size then k else size - 1)
    ensures size > 0 && unitsize > 1 ==> size in stores
  {
    stores, step := map[], step0;
    var i := 0;
    while i < size
      invariant i <= size && step == step0 + i
      invariant forall k: nat :: k in stores <==> k < IncReach(i, unitsize)
      invariant forall k :: k in stores ==> stores[k] == StepByte(step0 + if k < i then k else i - 1)
    {
      var j := 0;
      while j < unitsize
        invariant j <= unitsize
        invariant forall k: nat :: k in stores <==> k < IncReach(i, unitsize) || i <= k < i + j
        invariant forall k :: k in stores ==> stores[k] == StepByte(step0 + if k < i then k else if k < i + j then i else i - 1)
      {
        stores := stores[i + j := StepByte(step)];
        j := j + 1;
      }
      step := step + 1;
      i := i + 1;
    }
  }

  /** The bytes the random pattern stores: rand() & 0xff for each byte, from the given call on. */
  function RandBytes(rand: nat -> nat, from: nat, n: nat): (r: seq<bv8>)
    ensures |r| == n
  {
    seq(n, k requires 0 <= k < n => (rand(from + k) % 256) as bv8)
  }

  lemma RandBytesAppend(rand: nat -> nat, from: nat, a: nat, b: nat)
    ensures RandBytes(rand, from, a) + RandBytes(rand, from + a, b) == RandBytes(rand, from, a + b)
  {
    var x, y, z := RandBytes(rand, from, a), RandBytes(rand, from + a, b), RandBytes(rand, from, a + b);
    forall k | a <= k < a + b
      ensures z[k] == y[k - a]
    {
    }
    assert x + y == z;
  }

  // ---------------------------------------------------------------
  // One analog channel over a tick
  // ---------------------------------------------------------------

  /**
   * Where an analog channel stands after `done` samples of a tick that
   * started at sample sent0: without averaging it has sent its table read
   * round from sent0 and its generator is unchanged; averaging the whole
   * run it has sent nothing and folded those samples into its average.
   */
  ghost predicate ChannelSoFar(g0: AnalogGen, g: AnalogGen, vals: seq<real>, avg: bool, avgSamples: nat, sent0: nat, done: nat)
    requires Readable(g0)
  {
    SameButAverage(g, g0) &&
    (!avg ==> g == g0 && vals == CircularRead(g0.table, g0.numSamples, sent0, done)) &&
    (avg && avgSamples == 0 ==>
      vals == [] && g.numAvgs == g0.numAvgs + done &&
      g.avgVal == Fold(g0.avgVal, CircularRead(g0.table, g0.numSamples, sent0, done)))
  }

  /** ChannelSoFar for generator c, which feeds bus channel nl + c. */
  ghost predicate ChannelAt(gens0: seq<AnalogGen>, gens: seq<AnalogGen>, ps: seq<Packet>, nl: nat,
                            avg: bool, avgSamples: nat, sent0: nat, done: nat, c: nat)
  {
    c < |gens0| && c < |gens| && Readable(gens0[c]) &&
    ChannelSoFar(gens0[c], gens[c], ChannelValues(ps, nl + c), avg, avgSamples, sent0, done)
  }

  /**
   * ChannelSoFar for every analog channel of a device whose first analog
   * channel is channel nl on the bus (the logic channels come first).
   */
  ghost predicate AnalogSoFar(gens0: seq<AnalogGen>, gens: seq<AnalogGen>, ps: seq<Packet>, nl: nat,
                              avg: bool, avgSamples: nat, sent0: nat, done: nat)
  {
    |gens| == |gens0| && forall c: nat :: c < |gens| ==> ChannelAt(gens0, gens, ps, nl, avg, avgSamples, sent0, done, c)
  }

  /** Before a tick has sent anything every channel stands where it started. */
  lemma AnalogSoFarStart(gens0: seq<AnalogGen>, nl: nat, avg: bool, avgSamples: nat, sent0: nat)
    requires forall c :: 0 <= c < |gens0| ==> Readable(gens0[c])
    ensures AnalogSoFar(gens0, gens0, [], nl, avg, avgSamples, sent0, 0)
  {
    forall c: nat | c < |gens0|
      ensures ChannelAt(gens0, gens0, [], nl, avg, avgSamples, sent0, 0, c)
    {
      assert CircularRead(gens0[c].table, gens0[c].numSamples, sent0, 0) == [];
    }
  }

  /**
   * One send_analog_packet call continues the channel's stream: when every
   * channel reads the same slice (no averaging, or averaging the whole run)
   * the call accounts for the k samples the round moves on by.
   */
  lemma ChannelStep(g0: AnalogGen, g: AnalogGen, vals: seq<real>, avg: bool, avgSamples: nat, sent0: nat, done: nat,
                    todo: nat, k: nat)
    requires Readable(g0) && ChannelSoFar(g0, g, vals, avg, avgSamples, sent0, done)
    requires (!avg || avgSamples == 0) ==> k == ReadLen(g, sent0 + done, todo)
    ensures Readable(g)
    ensures ChannelSoFar(g0, AfterPacket(g, avg, avgSamples, sent0 + done, todo),
                         vals + OutValues(PacketOut(g, avg, avgSamples, sent0 + done, todo)), avg, avgSamples, sent0, done + k)
  {
    if !avg {
      ChannelStepPlain(g0, g, vals, avgSamples, sent0, done, todo, k);
    } else if avgSamples == 0 {
      ChannelStepWhole(g0, g, vals, sent0, done, todo, k);
    }
  }

  /** ChannelStep without averaging: the call's slice continues the circular read. */
  lemma ChannelStepPlain(g0: AnalogGen, g: AnalogGen, vals: seq<real>, avgSamples: nat, sent0: nat, done: nat,
                         todo: nat, k: nat)
    requires Readable(g0) && ChannelSoFar(g0, g, vals, false, avgSamples, sent0, done)
    requires k == ReadLen(g, sent0 + done, todo)
    ensures ChannelSoFar(g0, AfterPacket(g, false, avgSamples, sent0 + done, todo),
                         vals + OutValues(PacketOut(g, false, avgSamples, sent0 + done, todo)), false, avgSamples, sent0, done + k)
  {
    var pos := sent0 + done;
    var p := ReadPos(g, pos);
    assert OutValues(PacketOut(g, false, avgSamples, pos, todo)) == g0.table[p .. p + k];
    CircularReadExtend(g0.table, g0.numSamples, sent0, done, k);
  }

  /** ChannelStep averaging the whole run: the call's slice continues the fold. */
  lemma ChannelStepWhole(g0: AnalogGen, g: AnalogGen, vals: seq<real>, sent0: nat, done: nat, todo: nat, k: nat)
    requires Readable(g0) && ChannelSoFar(g0, g, vals, true, 0, sent0, done)
    requires k == ReadLen(g, sent0 + done, todo)
    ensures ChannelSoFar(g0, AfterPacket(g, true, 0, sent0 + done, todo),
                         vals + OutValues(PacketOut(g, true, 0, sent0 + done, todo)), true, 0, sent0, done + k)
  {
    var pos := sent0 + done;
    var p := ReadPos(g, pos);
    var before := CircularRead(g0.table, g0.numSamples, sent0, done);
    var g' := AfterPacket(g, true, 0, pos, todo);
    assert g'.avgVal == Fold(g.avgVal, g0.table[p .. p + k]);
    assert vals + OutValues(PacketOut(g, true, 0, pos, todo)) == [];
    CircularReadExtend(g0.table, g0.numSamples, sent0, done, k);
    FoldAppend(g0.avgVal, before, g0.table[p .. p + k]);
  }

  /**
   * Where a run of whole rounds leaves every analog channel: one round of
   * send_analog_packet calls, one per channel, moves each channel's stream
   * on by the count the round reports (every table has TABLE_LENGTH entries).
   */
  lemma AnalogRoundStep(g0: seq<AnalogGen>, gb: seq<AnalogGen>, ga: seq<AnalogGen>, ps: seq<Packet>, rp: seq<Packet>,
                        outs: seq<Option<seq<real>>>, nl: nat, avg: bool, avgSamples: nat, sent0: nat, done: nat,
                        todo: nat, k: nat)
    requires |gb| == |ga| && AnalogSoFar(g0, gb, ps, nl, avg, avgSamples, sent0, done)
    requires forall c :: 0 <= c < |gb| ==> Readable(gb[c]) && gb[c].numSamples == TableLength
    requires outs == RoundOuts(gb, avg, avgSamples, sent0 + done, todo) && rp == RoundPackets(outs, nl)
    requires AfterRound(gb, ga, avg, avgSamples, sent0 + done, todo)
    requires (!avg || avgSamples == 0) ==> k == Min(todo, TableLength - (sent0 + done) % TableLength)
    ensures AnalogSoFar(g0, ga, ps + rp, nl, avg, avgSamples, sent0, done + k)
  {
    var ps', done' := ps + rp, done + k;
    forall c: nat | c < |ga|
      ensures ChannelAt(g0, ga, ps', nl, avg, avgSamples, sent0, done', c)
    {
      assert ChannelAt(g0, gb, ps, nl, avg, avgSamples, sent0, done, c);
      RoundValues(ps, rp, outs, nl, c);
      ChannelStepTo(g0[c], gb[c], ga[c], ChannelValues(ps, nl + c), OutValues(outs[c]), ChannelValues(ps + rp, nl + c),
                    avg, avgSamples, sent0, done, todo, k);
    }
  }

  /** The round's packets add to channel nl + c exactly what generator c handed over. */
  lemma RoundValues(ps: seq<Packet>, rp: seq<Packet>, outs: seq<Option<seq<real>>>, nl: nat, c: nat)
    requires c < |outs| && rp == RoundPackets(outs, nl)
    ensures ChannelValues(ps + rp, nl + c) == ChannelValues(ps, nl + c) + OutValues(outs[c])
  {
    ChannelValuesAppend(ps, rp, nl + c);
    RoundPacketsCarry(outs, nl, c);
  }

  /** ChannelStep, with the generator and the stream after the call given by name. */
  lemma ChannelStepTo(g0: AnalogGen, g: AnalogGen, g': AnalogGen, vals: seq<real>, out: seq<real>, vals': seq<real>,
                      avg: bool, avgSamples: nat, sent0: nat, done: nat, todo: nat, k: nat)
    requires Readable(g0) && Readable(g) && ChannelSoFar(g0, g, vals, avg, avgSamples, sent0, done)
    requires g.numSamples == TableLength
    requires (!avg || avgSamples == 0) ==> k == Min(todo, TableLength - (sent0 + done) % TableLength)
    requires g' == AfterPacket(g, avg, avgSamples, sent0 + done, todo)
    requires out == OutValues(PacketOut(g, avg, avgSamples, sent0 + done, todo)) && vals' == vals + out
    ensures ChannelSoFar(g0, g', vals', avg, avgSamples, sent0, done + k)
  {
    ChannelStep(g0, g, vals, avg, avgSamples, sent0, done, todo, k);
  }

  /** What each generator of a round hands to the bus, in generator order. */
  function RoundOuts(gs: seq<AnalogGen>, avg: bool, avgSamples: nat, pos: nat, todo: nat): (r: seq<Option<seq<real>>>)
    requires forall i :: 0 <= i < |gs| ==> Readable(gs[i])
    ensures |r| == |gs|
  {
    seq(|gs|, c requires 0 <= c < |gs| => PacketOut(gs[c], avg, avgSamples, pos, todo))
  }

  /** The packets of a round: one for each generator output that is present, on channel nl + c. */
  function RoundPackets(outs: seq<Option<seq<real>>>, nl: nat): seq<Packet>
    decreases |outs|
  {
    if outs == [] then []
    else
      var out := outs[|outs| - 1];
      RoundPackets(outs[..|outs| - 1], nl) + (if out.Some? then [Analog(nl + |outs| - 1, out.value)] else [])
  }

  /** Handing one more output to the round appends its packet, if any. */
  lemma RoundPacketsSnoc(outs: seq<Option<seq<real>>>, nl: nat, c: nat)
    requires c < |outs|
    ensures RoundPackets(outs[..c + 1], nl)
         == RoundPackets(outs[..c], nl) + (if outs[c].Some? then [Analog(nl + c, outs[c].value)] else [])
  {
    assert outs[..c + 1][..c] == outs[..c];
  }

  /** A round carries, for channel nl + c, exactly output c. */
  lemma {:induction false} RoundPacketsCarry(outs: seq<Option<seq<real>>>, nl: nat, c: nat)
    requires c < |outs|
    ensures ChannelValues(RoundPackets(outs, nl), nl + c) == OutValues(outs[c])
    decreases |outs|
  {
    var init := outs[..|outs| - 1];
    if c < |init| {
      RoundPacketsCarry(init, nl, c);
      RoundPacketsStep(outs, nl, nl + c);
      assert init[c] == outs[c];
    } else {
      RoundPacketsSilent(init, nl, nl + c);
      RoundPacketsStep(outs, nl, nl + c);
    }
  }

  /** The last output of a round adds its values to its own channel only. */
  lemma RoundPacketsStep(outs: seq<Option<seq<real>>>, nl: nat, ch: nat)
    requires outs != []
    ensures ChannelValues(RoundPackets(outs, nl), ch)
         == ChannelValues(RoundPackets(outs[..|outs| - 1], nl), ch)
            + (if ch == nl + |outs| - 1 then OutValues(outs[|outs| - 1]) else [])
  {
    var out := outs[|outs| - 1];
    var pre := RoundPackets(outs[..|outs| - 1], nl);
    if out.Some? {
      ChannelValuesSnoc(pre, Analog(nl + |outs| - 1, out.value), ch);
    } else {
      assert RoundPackets(outs, nl) == pre + [];
      assert pre + [] == pre;
      assert OutValues(out) == [];
      assert ChannelValues(pre, ch) + [] == ChannelValues(pre, ch);
    }
  }

  /** A round carries nothing for a channel outside nl .. nl + |outs| - 1. */
  lemma {:induction false} RoundPacketsSilent(outs: seq<Option<seq<real>>>, nl: nat, ch: nat)
    requires ch < nl || nl + |outs| <= ch
    ensures ChannelValues(RoundPackets(outs, nl), ch) == []
    decreases |outs|
  {
    if outs != [] {
      RoundPacketsSilent(outs[..|outs| - 1], nl, ch);
      RoundPacketsStep(outs, nl, ch);
    }
  }

  /** A round carries no logic bytes and holds analog packets only. */
  lemma {:induction false} RoundPacketsAnalog(outs: seq<Option<seq<real>>>, nl: nat)
    ensures LogicBytes(RoundPackets(outs, nl)) == []
    ensures forall i :: 0 <= i < |RoundPackets(outs, nl)| ==> RoundPackets(outs, nl)[i].Analog?
    decreases |outs|
  {
    if outs != [] {
      var init := outs[..|outs| - 1];
      var out := outs[|outs| - 1];
      var tail: seq<Packet> := if out.Some? then [Analog(nl + |outs| - 1, out.value)] else [];
      LogicBytesAppend(RoundPackets(init, nl), tail);
      RoundPacketsAnalog(init, nl);
      if out.Some? {
        LogicBytesSnoc([], tail[0]);
      }
    }
  }

  /** A round after earlier packets leaves the logic stream and its chunking as they were. */
  lemma RoundLeavesLogic(ps: seq<Packet>, rp: seq<Packet>, outs: seq<Option<seq<real>>>, nl: nat, unitsize: nat)
    requires LogicChunks(ps, unitsize) && rp == RoundPackets(outs, nl)
    ensures LogicChunks(ps + rp, unitsize) && LogicBytes(ps + rp) == LogicBytes(ps)
  {
    RoundPacketsAnalog(outs, nl);
    LogicBytesAppend(ps, rp);
    assert LogicBytes(ps) + [] == LogicBytes(ps);
    forall i | |ps| <= i < |ps + rp|
      ensures (ps + rp)[i].Analog?
    {
      assert (ps + rp)[i] == rp[i - |ps|];
    }
  }

  lemma ChannelValuesSnoc(ps: seq<Packet>, p: Packet, ch: nat)
    ensures ChannelValues(ps + [p], ch) == ChannelValues(ps, ch) + (if p.Analog? && p.channel == ch then p.values else [])
  {
    assert (ps + [p])[..|ps|] == ps;
  }

  // ---------------------------------------------------------------
  // The logic stream over a tick
  // ---------------------------------------------------------------

  /**
   * The logic stream after `units` units, counted from a given step and
   * rand() call: the pattern's units with step moved on as the pattern
   * moves it, or, for the random pattern, one rand() byte per byte.
   */
  predicate LogicSoFar(p: LogicPattern, rand: nat -> nat, step0: nat, rand0: nat, step: nat, randN: nat,
                       bytes: seq<bv8>, units: nat, unitsize: nat)
    requires unitsize > 0
  {
    if p == Random then
      bytes == RandBytes(rand, rand0, units * unitsize) && randN == rand0 + units * unitsize && step == step0
    else
      bytes == UnitStream(ByteAt(p), step0, units, unitsize) && step == step0 + StepsAfter(p, units) && randN == rand0
  }

  /** A chunk that continues the stream where it stands extends it. */
  lemma LogicSoFarStep(p: LogicPattern, rand: nat -> nat, step0: nat, rand0: nat, step: nat, randN: nat,
                       bytes: seq<bv8>, units: nat, step': nat, randN': nat, chunk: seq<bv8>, k: nat, unitsize: nat)
    requires unitsize > 0 && LogicSoFar(p, rand, step0, rand0, step, randN, bytes, units, unitsize)
    requires LogicSoFar(p, rand, step, randN, step', randN', chunk, k, unitsize)
    ensures LogicSoFar(p, rand, step0, rand0, step', randN', bytes + chunk, units + k, unitsize)
  {
    if p == Random {
      assert (units + k) * unitsize == units * unitsize + k * unitsize;
      RandBytesAppend(rand, rand0, units * unitsize, k * unitsize);
    } else {
      LogicStreamAppend(p, step0, units, k, unitsize);
    }
  }

  /** A buffer filled with the all-low or all-high byte holds that pattern's units. */
  lemma StaticChunk(p: LogicPattern, buf: seq<bv8>, units: nat, unitsize: nat, step: nat)
    requires unitsize > 0 && (p == AllLow || p == AllHigh) && units * unitsize <= |buf|
    requires AllEqual(buf, if p == AllLow then 0x00 else 0xff)
    ensures buf[..units * unitsize] == UnitStream(ByteAt(p), step, units, unitsize)
  {
    var u := UnitStream(ByteAt(p), step, units, unitsize);
    forall k | 0 <= k < units * unitsize
      ensures buf[k] == u[k]
    {
    }
  }

  // ---------------------------------------------------------------
  // Sending the averages at the end of a run
  // ---------------------------------------------------------------

  /** The packets of the end-of-run flush: one packet per generator carrying its average. */
  function FlushPackets(gens: seq<AnalogGen>, nl: nat): (r: seq<Packet>)
    ensures |r| == |gens|
  {
    seq(|gens|, c requires 0 <= c < |gens| => Analog(nl + c, [gens[c].avgVal]))
  }

  /** The flush carries exactly each analog channel's average, and nothing for any other channel. */
  lemma {:induction false} FlushCarriesAverage(gens: seq<AnalogGen>, nl: nat, ch: nat)
    ensures ChannelValues(FlushPackets(gens, nl), ch) == if nl <= ch < nl + |gens| then [gens[ch - nl].avgVal] else []
    decreases |gens|
  {
    if gens != [] {
      var last := |gens| - 1;
      var init := gens[..last];
      FlushSnoc(gens, nl);
      ChannelValuesSnoc(FlushPackets(init, nl), Analog(nl + last, [gens[last].avgVal]), ch);
      FlushCarriesAverage(init, nl, ch);
      if nl <= ch < nl + last {
        assert gens[ch - nl] == init[ch - nl];
      }
    }
  }

  /** The flush of a run of generators is that of all but the last, then the last one's packet. */
  lemma FlushSnoc(gens: seq<AnalogGen>, nl: nat)
    requires gens != []
    ensures FlushPackets(gens, nl) ==
      FlushPackets(gens[..|gens| - 1], nl) + [Analog(nl + |gens| - 1, [gens[|gens| - 1].avgVal])]
  {
    var f := FlushPackets(gens, nl);
    var g := FlushPackets(gens[..|gens| - 1], nl) + [Analog(nl + |gens| - 1, [gens[|gens| - 1].avgVal])];
    assert forall c :: 0 <= c < |f| ==> f[c] == g[c];
  }

  /** The flush carries no logic data. */
  lemma {:induction false} FlushHasNoLogic(gens: seq<AnalogGen>, nl: nat)
    ensures LogicBytes(FlushPackets(gens, nl)) == []
    decreases |gens|
  {
    var f := FlushPackets(gens, nl);
    if gens != [] {
      var init := gens[..|gens| - 1];
      assert f[..|f| - 1] == FlushPackets(init, nl);
      FlushHasNoLogic(init, nl);
    }
  }
}
