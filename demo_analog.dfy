/**
 * One analog channel's share of a demo tick (send_analog_packet in
 * src/hardware/demo/demo.c): where the read starts in the generator's
 * table, how many entries it takes, what goes on the bus, and how the
 * running average moves.
 */
module DemoAnalog {
  import opened Common
  import opened DemoPatterns

  /** A generator whose table is in use: at most its 4096 slots, at least one entry. */
  predicate Readable(g: AnalogGen)
  {
    0 < g.numSamples <= |g.table|
  }

  /** The table index a call starts at: analog_pos modulo the table length. */
  function ReadPos(g: AnalogGen, pos: nat): nat
    requires Readable(g)
  {
    pos % g.numSamples
  }

  /** The entries a call may take: what is still to do, but never past the table end. */
  function ReadLen(g: AnalogGen, pos: nat, todo: nat): (r: nat)
    requires Readable(g)
    ensures r <= todo && ReadPos(g, pos) + r <= g.numSamples
    ensures todo > 0 ==> r > 0
    ensures r == todo || ReadPos(g, pos) + r == g.numSamples
  {
    Min(todo, g.numSamples - ReadPos(g, pos))
  }

  /**
   * The entries an averaging call folds: all it may take when everything
   * is averaged, otherwise up to the one that brings num_avgs to
   * avg_samples (at least one, since the count is checked after the fold).
   */
  function FoldLen(g: AnalogGen, avgSamples: nat, pos: nat, todo: nat): (r: nat)
    requires Readable(g)
    ensures r <= ReadLen(g, pos, todo)
    ensures avgSamples == 0 ==> r == ReadLen(g, pos, todo)
    ensures avgSamples > 0 && r < ReadLen(g, pos, todo) ==> g.numAvgs + r >= avgSamples
    ensures avgSamples > 0 && 0 < r ==> r == 1 || g.numAvgs + r - 1 < avgSamples
  {
    var k := ReadLen(g, pos, todo);
    if avgSamples == 0 then k else Min(k, Max(1, avgSamples - g.numAvgs))
  }

  /** How many samples the call accounts for (the corrected *analog_sent of one channel). */
  function PacketCount(g: AnalogGen, avg: bool, avgSamples: nat, pos: nat, todo: nat): (r: nat)
    requires Readable(g)
    ensures r <= todo && ReadPos(g, pos) + r <= g.numSamples
    ensures (!avg || avgSamples == 0) ==> r == ReadLen(g, pos, todo)
    ensures todo > 0 ==> r > 0
  {
    if !avg then ReadLen(g, pos, todo) else FoldLen(g, avgSamples, pos, todo)
  }

  /**
   * The values put on the bus: the table slice itself, nothing while the
   * whole run is averaged, or the single average of what was folded.
   */
  function PacketOut(g: AnalogGen, avg: bool, avgSamples: nat, pos: nat, todo: nat): (r: Option<seq<real>>)
    requires Readable(g)
    ensures !avg ==> r == Some(g.table[ReadPos(g, pos) .. ReadPos(g, pos) + ReadLen(g, pos, todo)])
    ensures avg && avgSamples == 0 ==> r == None
    ensures avg && avgSamples > 0 ==> r.Some? && |r.value| == 1
  {
    var p := ReadPos(g, pos);
    if !avg then Some(g.table[p .. p + ReadLen(g, pos, todo)])
    else if avgSamples == 0 then None
    else Some([Fold(g.avgVal, g.table[p .. p + FoldLen(g, avgSamples, pos, todo)])])
  }

  /** The values of a channel's packet, if it sent one. */
  function OutValues(o: Option<seq<real>>): seq<real>
  {
    if o.Some? then o.value else []
  }

  /** Two generators that differ at most in their running average. */
  predicate SameButAverage(a: AnalogGen, b: AnalogGen)
  {
    a.pattern == b.pattern && a.amplitude == b.amplitude && a.table == b.table && a.numSamples == b.numSamples
  }

  /** The generator after the call: only its average state moves. */
  function AfterPacket(g: AnalogGen, avg: bool, avgSamples: nat, pos: nat, todo: nat): (r: AnalogGen)
    requires Readable(g)
    ensures SameButAverage(r, g) && Readable(r)
    ensures !avg ==> r == g
    ensures avg && avgSamples == 0 ==> r.numAvgs == g.numAvgs + ReadLen(g, pos, todo)
    ensures avg && avgSamples > 0 ==> r.numAvgs == 0 && r.avgVal == 0.0
  {
    var p := ReadPos(g, pos);
    if !avg then g
    else if avgSamples == 0 then
      var k := ReadLen(g, pos, todo);
      g.(avgVal := Fold(g.avgVal, g.table[p .. p + k]), numAvgs := g.numAvgs + k)
    else g.(avgVal := 0.0, numAvgs := 0)
  }

  /** Every generator as one round of send_analog_packet calls from pos, with todo samples left, leaves it. */
  ghost predicate AfterRound(gs: seq<AnalogGen>, ga: seq<AnalogGen>, avg: bool, avgSamples: nat, pos: nat, todo: nat)
  {
    |ga| == |gs| && forall c :: 0 <= c < |gs| ==> Readable(gs[c]) && ga[c] == AfterPacket(gs[c], avg, avgSamples, pos, todo)
  }

  /**
   * The averaging loop of send_analog_packet: fold table entries from p
   * on, one at a time, until toAvg are folded or, with avg_samples set,
   * num_avgs reaches it.
   */
  method FoldEntries(g: AnalogGen, avgSamples: nat, p: nat, toAvg: nat)
    returns (avgVal: real, numAvgs: nat, folded: nat)
    requires p + toAvg <= |g.table|
    ensures folded <= toAvg && numAvgs == g.numAvgs + folded
    ensures avgVal == Fold(g.avgVal, g.table[p .. p + folded])
    ensures avgSamples == 0 ==> folded == toAvg
    ensures avgSamples > 0 ==> folded == Min(toAvg, Max(1, avgSamples - g.numAvgs))
  {
    avgVal, numAvgs, folded := g.avgVal, g.numAvgs, 0;
    while folded < toAvg
      invariant folded <= toAvg && numAvgs == g.numAvgs + folded
      invariant avgVal == Fold(g.avgVal, g.table[p .. p + folded])
      invariant avgSamples > 0 && folded > 0 ==> numAvgs < avgSamples
    {
      assert g.table[p .. p + folded + 1][..folded] == g.table[p .. p + folded];
      avgVal := (avgVal + g.table[p + folded]) / 2.0;
      numAvgs := numAvgs + 1;
      folded := folded + 1;
      // Time to send the average?
      if avgSamples > 0 && numAvgs >= avgSamples {
        return;
      }
    }
  }

  /**
   * send_analog_packet with *analog_sent raised to the samples this call
   * accounted for (the source stores num_avgs there on the averaging
   * path; see AnalogDoneAsWritten).
   */
  method SendAnalogPacket(g: AnalogGen, avg: bool, avgSamples: nat, analogSent: nat, pos: nat, todo: nat)
    returns (r: AnalogGen, out: Option<seq<real>>, sent: nat)
    requires Readable(g)
    ensures r == AfterPacket(g, avg, avgSamples, pos, todo)
    ensures out == PacketOut(g, avg, avgSamples, pos, todo)
    ensures sent == Max(analogSent, PacketCount(g, avg, avgSamples, pos, todo))
  {
    var p := pos % g.numSamples;
    assert p == ReadPos(g, pos);
    if !avg {
      var sendingNow := Min(todo, g.numSamples - p);
      out := Some(g.table[p .. p + sendingNow]);
      sent := Max(analogSent, sendingNow);
      r := g;
      return;
    }
    var toAvg := Min(todo, g.numSamples - p);
    assert toAvg == ReadLen(g, pos, todo);
    var avgVal, numAvgs, folded := FoldEntries(g, avgSamples, p, toAvg);
    assert folded == FoldLen(g, avgSamples, pos, todo);
    if avgSamples == 0 {
      // Averaging everything: wait with sending until the very end.
      r := g.(avgVal := avgVal, numAvgs := numAvgs);
      out := None;
      sent := Max(analogSent, folded);
      return;
    }
    out := Some([avgVal]);
    sent := Max(analogSent, folded);
    r := g.(avgVal := 0.0, numAvgs := 0);
  }

  /**
   * analog_done at the end of prepare_data's send loop while the whole run
   * is averaged (avg on, avg_samples 0), as written: every round of
   * send_analog_packet calls from sent_samples + analog_done adds the last
   * channel's running num_avgs, which is never reset between ticks, rather
   * than the samples the round took.
   */
  function AnalogDoneAsWritten(gs: seq<AnalogGen>, pos0: nat, done: nat, todo: nat): nat
    requires |gs| > 0 && forall c :: 0 <= c < |gs| ==> Readable(gs[c])
    decreases todo - done
  {
    if done >= todo then done
    else
      var ga := AveragedRound(gs, pos0 + done, todo - done);
      AnalogDoneAsWritten(ga, pos0, done + ga[|gs| - 1].numAvgs, todo)
  }

  /** The generators after one round of calls that fold everything they read into the running average. */
  function AveragedRound(gs: seq<AnalogGen>, pos: nat, todo: nat): (ga: seq<AnalogGen>)
    requires forall c :: 0 <= c < |gs| ==> Readable(gs[c])
    ensures |ga| == |gs|
    ensures forall c :: 0 <= c < |gs| ==>
      Readable(ga[c]) && ga[c] == AfterPacket(gs[c], true, 0, pos, todo) &&
      ga[c].numAvgs == gs[c].numAvgs + ReadLen(gs[c], pos, todo)
  {
    var ga := seq(|gs|, c requires 0 <= c < |gs| => AfterPacket(gs[c], true, 0, pos, todo));
    assert forall c :: 0 <= c < |gs| ==> ga[c] == AfterPacket(gs[c], true, 0, pos, todo);
    ga
  }

  /** How a tick of prepare_data ends: whether the tick stays registered, sent_samples, and whether the end packet went out. */
  datatype TickEnd = TickEnd(keep: bool, sentSamples: nat, endSent: bool)

  /**
   * The tail of prepare_data after its send loop, given whether a limit
   * is reached (stop): counts off samples_todo give "Sample count
   * mismatch" and G_SOURCE_REMOVE before sent_samples moves and before the
   * limit check that sends the end packet.
   */
  function TickEndAsWritten(sent: nat, stop: bool, logicDone: nat, analogDone: nat, todo: nat): TickEnd
  {
    if logicDone != todo || analogDone != todo then TickEnd(false, sent, false)
    else TickEnd(true, sent + todo, stop)
  }

  /**
   * Averaging the whole run: once a channel's running num_avgs has reached
   * the samples a tick owes (the second of two equal ticks, say), the
   * first round alone reports more than samples_todo, so analog_done
   * passes it and the tick is unregistered through the mismatch exit
   * without counting its samples or sending the end packet, whatever the
   * limits; no later tick runs to send it either. When the slice fits
   * the table the round reports num_avgs + todo (20 for a second tick of
   * 10). With the corrected count, which takes exactly samples_todo, the
   * tick is counted and stays registered.
   */
  lemma AveragingOvershootsAsWritten(gs: seq<AnalogGen>, sent: nat, todo: nat, stop: bool)
    requires |gs| > 0 && forall c :: 0 <= c < |gs| ==> Readable(gs[c])
    requires 0 < todo <= gs[|gs| - 1].numAvgs
    ensures AnalogDoneAsWritten(gs, sent, 0, todo) > todo
    ensures ReadLen(gs[|gs| - 1], sent, todo) == todo ==>
      AnalogDoneAsWritten(gs, sent, 0, todo) == gs[|gs| - 1].numAvgs + todo
    ensures TickEndAsWritten(sent, stop, todo, AnalogDoneAsWritten(gs, sent, 0, todo), todo) == TickEnd(false, sent, false)
    ensures TickEndAsWritten(sent, stop, todo, todo, todo) == TickEnd(true, sent + todo, stop)
  {
    var ga := AveragedRound(gs, sent, todo);
    assert AnalogDoneAsWritten(gs, sent, 0, todo) == AnalogDoneAsWritten(ga, sent, ga[|gs| - 1].numAvgs, todo);
  }

  /** The largest count among the channels of one round (analog_sent after the iteration). */
  function RoundSent(gs: seq<AnalogGen>, avg: bool, avgSamples: nat, pos: nat, todo: nat): (r: nat)
    requires forall i :: 0 <= i < |gs| ==> Readable(gs[i])
    ensures r <= todo
    ensures |gs| > 0 && todo > 0 ==> r > 0
    decreases |gs|
  {
    if gs == [] then 0
    else
      var r0 := RoundSent(gs[..|gs| - 1], avg, avgSamples, pos, todo);
      Max(r0, PacketCount(gs[|gs| - 1], avg, avgSamples, pos, todo))
  }

  /** The round's count is the largest of its channels' counts, and 0 for no channel. */
  lemma {:induction false} RoundSentIsLargest(gs: seq<AnalogGen>, avg: bool, avgSamples: nat, pos: nat, todo: nat)
    requires forall i :: 0 <= i < |gs| ==> Readable(gs[i])
    ensures forall i :: 0 <= i < |gs| ==> PacketCount(gs[i], avg, avgSamples, pos, todo) <= RoundSent(gs, avg, avgSamples, pos, todo)
    ensures |gs| > 0 ==> exists i :: 0 <= i < |gs| && RoundSent(gs, avg, avgSamples, pos, todo) == PacketCount(gs[i], avg, avgSamples, pos, todo)
    ensures |gs| == 0 ==> RoundSent(gs, avg, avgSamples, pos, todo) == 0
    decreases |gs|
  {
    if gs != [] {
      var init := gs[..|gs| - 1];
      RoundSentIsLargest(init, avg, avgSamples, pos, todo);
      var r0 := RoundSent(init, avg, avgSamples, pos, todo);
      forall i | 0 <= i < |gs|
        ensures PacketCount(gs[i], avg, avgSamples, pos, todo) <= RoundSent(gs, avg, avgSamples, pos, todo)
      {
        if i < |init| {
          assert gs[i] == init[i];
        }
      }
      if init == [] || PacketCount(gs[|gs| - 1], avg, avgSamples, pos, todo) >= r0 {
        assert RoundSent(gs, avg, avgSamples, pos, todo) == PacketCount(gs[|gs| - 1], avg, avgSamples, pos, todo);
      } else {
        var j :| 0 <= j < |init| && r0 == PacketCount(init[j], avg, avgSamples, pos, todo);
        assert gs[j] == init[j];
      }
    }
  }

  /** One more channel raises the round's count to its own if that is larger. */
  lemma RoundSentSnoc(gs: seq<AnalogGen>, avg: bool, avgSamples: nat, pos: nat, todo: nat, c: nat)
    requires c < |gs| && forall i :: 0 <= i < |gs| ==> Readable(gs[i])
    ensures RoundSent(gs[..c + 1], avg, avgSamples, pos, todo)
         == Max(RoundSent(gs[..c], avg, avgSamples, pos, todo), PacketCount(gs[c], avg, avgSamples, pos, todo))
  {
    assert gs[..c + 1][..c] == gs[..c];
  }

  /**
   * Without averaging, or averaging the whole run, every channel of a
   * table length N reads the same slice, so the round accounts for exactly
   * that slice.
   */
  lemma RoundSentUniform(gs: seq<AnalogGen>, avg: bool, avgSamples: nat, pos: nat, todo: nat, n: nat)
    requires n > 0 && forall i :: 0 <= i < |gs| ==> Readable(gs[i]) && gs[i].numSamples == n
    requires (!avg || avgSamples == 0) && |gs| > 0
    ensures RoundSent(gs, avg, avgSamples, pos, todo) == Min(todo, n - pos % n)
  {
  }
}
