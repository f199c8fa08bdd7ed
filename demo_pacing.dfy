/**
 * The time-to-samples arithmetic of the demo driver's acquisition tick
 * (prepare_data in src/hardware/demo/demo.c): the window still owed since
 * the last tick, its sample count rounded up, the clamp to the sample
 * limit, and the time actually covered, rounded down. The products are
 * taken as the C takes them: in uint64, wrapping modulo 2^64, and stored
 * into int64 variables.
 */
module DemoPacing {

  const UsecPerSec: nat := 1000000
  const Two63: nat := 0x8000_0000_0000_0000
  const Two64: nat := 0x1_0000_0000_0000_0000

  /**
   * A value reduced to 64 bits and read as a two's-complement int64, as
   * storing a uint64 result into an int64_t does.
   */
  function Signed64(x: int): (r: int)
    ensures -(Two63 as int) <= r < Two63
    ensures r % Two64 == x % Two64
    ensures 0 <= x < Two63 ==> r == x
  {
    var u := x % Two64;
    if u < Two63 then u else u - Two64
  }

  /** limit_us: the uint64 product 1000 * limit_msec, stored in an int64. */
  function LimitUs(limitMsec: nat): (r: int)
    ensures 1000 * limitMsec < Two63 ==> r == 1000 * limitMsec
    ensures limitMsec == 0 ==> r == 0
    ensures r < 0 <==> 1000 * limitMsec % Two64 >= Two63
  {
    Signed64(1000 * limitMsec)
  }

  /** How far the acquisition has got: samples sent and microseconds covered. */
  datatype Pace = Pace(sent: nat, spent: int)

  /**
   * The window still owed at this tick: up to now, or up to the time limit
   * once that has passed; never negative.
   */
  function OwedUs(elapsedUs: int, spentUs: int, limitUs: int): nat
  {
    if limitUs > 0 && limitUs < elapsedUs then
      (if limitUs - spentUs > 0 then limitUs - spentUs else 0)
    else
      (if elapsedUs - spentUs > 0 then elapsedUs - spentUs else 0)
  }

  /**
   * The number of samples that covers t microseconds at the given rate,
   * rounded up, computed in uint64.
   */
  function SamplesFor(t: nat, rate: nat): nat
  {
    (t * rate + UsecPerSec - 1) % Two64 / UsecPerSec
  }

  /** The sample count cut down to what a non-zero sample limit still allows. */
  function Clamp(n: nat, limitSamples: nat, sent: nat): nat
  {
    if limitSamples > 0 then
      if limitSamples < sent then 0
      else if limitSamples - sent < n then limitSamples - sent
      else n
    else n
  }

  /** samples_todo of one tick. */
  function SamplesTodo(rate: nat, limitSamples: nat, limitMsec: nat, p: Pace, elapsedUs: int): nat
  {
    Clamp(SamplesFor(OwedUs(elapsedUs, p.spent, LimitUs(limitMsec)), rate), limitSamples, p.sent)
  }

  /**
   * The time n samples take at the given rate, rounded down: a uint64
   * product and quotient stored into the int64 todo_us.
   */
  function UsFor(n: nat, rate: nat): int
    requires rate > 0
  {
    Signed64(n * UsecPerSec % Two64 / rate)
  }

  /** The counters after one tick at elapsed time elapsedUs since the start. */
  function Tick(rate: nat, limitSamples: nat, limitMsec: nat, p: Pace, elapsedUs: int): Pace
    requires rate > 0
  {
    var n := SamplesTodo(rate, limitSamples, limitMsec, p, elapsedUs);
    Pace(p.sent + n, p.spent + UsFor(n, rate))
  }

  /** The stop condition checked at the end of a tick. */
  predicate LimitReached(limitSamples: nat, limitMsec: nat, p: Pace)
  {
    (limitSamples > 0 && p.sent >= limitSamples) || (LimitUs(limitMsec) > 0 && p.spent >= LimitUs(limitMsec))
  }

  /**
   * While the rounded-up product fits 64 bits, SamplesFor is the ceiling:
   * the least count whose duration covers t.
   */
  lemma SamplesForIsCeiling(t: nat, rate: nat)
    requires t * rate + UsecPerSec - 1 < Two64
    ensures SamplesFor(t, rate) * UsecPerSec >= t * rate
    ensures SamplesFor(t, rate) * UsecPerSec < t * rate + UsecPerSec
  {
    var a := t * rate;
    assert (a + UsecPerSec - 1) % Two64 == a + UsecPerSec - 1;
    var q := (a + UsecPerSec - 1) / UsecPerSec;
    assert q * UsecPerSec + (a + UsecPerSec - 1) % UsecPerSec == a + UsecPerSec - 1;
  }

  /**
   * Once the rounded-up product passes 2^64 it wraps, and the count no
   * longer covers the window.
   */
  lemma SamplesForWraps(t: nat, rate: nat)
    requires t * rate + UsecPerSec - 1 >= Two64
    ensures SamplesFor(t, rate) * UsecPerSec < t * rate
  {
    var x := t * rate + UsecPerSec - 1;
    var q := x / Two64;
    assert q * Two64 + x % Two64 == x;
    assert q >= 1;
    assert x % Two64 <= x - Two64;
    var m := x % Two64;
    assert m / UsecPerSec * UsecPerSec + m % UsecPerSec == m;
  }

  /**
   * While n million fits an int64, UsFor is the floor: the whole
   * microseconds within n sample periods.
   */
  lemma UsForIsFloor(n: nat, rate: nat)
    requires rate > 0 && n * UsecPerSec < Two63
    ensures UsFor(n, rate) * rate <= n * UsecPerSec < UsFor(n, rate) * rate + rate
  {
    var b := n * UsecPerSec;
    assert b % Two64 == b;
    var u := b / rate;
    assert u * rate + b % rate == b;
    assert u <= b;
    assert UsFor(n, rate) == u;
  }

  /**
   * Ceiling then floor: the time a tick accounts for covers the owed window
   * and exceeds it by less than one sample period.
   */
  lemma CoverWithinOnePeriod(t: nat, rate: nat)
    requires rate > 0 && t * rate + UsecPerSec <= Two63
    ensures UsFor(SamplesFor(t, rate), rate) >= t
    ensures (UsFor(SamplesFor(t, rate), rate) - t) * rate < UsecPerSec
  {
    var n := SamplesFor(t, rate);
    var u := UsFor(n, rate);
    SamplesForIsCeiling(t, rate);
    UsForIsFloor(n, rate);
    assert (u + 1) * rate == u * rate + rate;
    MulCancel(t, u + 1, rate);
    assert (u - t) * rate == u * rate - t * rate;
  }

  lemma MulMono(a: int, b: int, c: nat)
    requires a <= b
    ensures a * c <= b * c
  {
    assert b * c - a * c == (b - a) * c;
  }

  lemma MulCancel(a: int, b: int, c: nat)
    requires a * c < b * c
    ensures a < b
  {
    if b <= a {
      MulMono(b, a, c);
      assert false;
    }
  }

  /** The sample counter never passes a non-zero sample limit. */
  lemma TickWithinSampleLimit(rate: nat, limitSamples: nat, limitMsec: nat, p: Pace, elapsedUs: int)
    requires rate > 0 && limitSamples > 0 && p.sent <= limitSamples
    ensures Tick(rate, limitSamples, limitMsec, p, elapsedUs).sent <= limitSamples
  {
  }

  /** Nothing owed is no samples, and no samples cover no time. */
  lemma NothingOwed(rate: nat)
    requires rate > 0
    ensures SamplesFor(0, rate) == 0 && UsFor(0, rate) == 0
  {
    assert (UsecPerSec - 1) % Two64 == UsecPerSec - 1;
    assert 0 * UsecPerSec % Two64 / rate == 0;
  }

  /** A tick with nothing owed sends nothing and leaves the counters as they were. */
  lemma IdleTick(rate: nat, limitSamples: nat, limitMsec: nat, p: Pace, elapsedUs: int)
    requires rate > 0 && OwedUs(elapsedUs, p.spent, LimitUs(limitMsec)) == 0
    ensures SamplesTodo(rate, limitSamples, limitMsec, p, elapsedUs) == 0
    ensures Tick(rate, limitSamples, limitMsec, p, elapsedUs) == p
  {
    NothingOwed(rate);
  }

  /**
   * Without limits, a tick that finds the covered time behind the clock brings
   * it level or ahead by less than one sample period, and a tick that finds
   * it ahead changes nothing.
   */
  lemma UnlimitedTickTracksClock(rate: nat, p: Pace, elapsedUs: int)
    requires rate > 0 && (p.spent <= elapsedUs ==> (elapsedUs - p.spent) * rate + UsecPerSec <= Two63)
    ensures var q := Tick(rate, 0, 0, p, elapsedUs);
      if p.spent <= elapsedUs then q.spent >= elapsedUs && (q.spent - elapsedUs) * rate < UsecPerSec
      else q == p
  {
    var t := OwedUs(elapsedUs, p.spent, 0);
    assert LimitUs(0) == 0;
    if p.spent <= elapsedUs {
      CoverWithinOnePeriod(t, rate);
    } else {
      NothingOwed(rate);
    }
  }

  /**
   * Once the time limit has passed, the tick covers exactly up to it (or
   * beyond), so the stop condition holds afterwards.
   */
  lemma TimeLimitStops(rate: nat, limitMsec: nat, p: Pace, elapsedUs: int)
    requires rate > 0 && limitMsec > 0 && 1000 * limitMsec < Two63 && 1000 * limitMsec < elapsedUs
    requires OwedUs(elapsedUs, p.spent, 1000 * limitMsec) * rate + UsecPerSec <= Two63
    ensures LimitReached(0, limitMsec, Tick(rate, 0, limitMsec, p, elapsedUs))
  {
    var t := OwedUs(elapsedUs, p.spent, 1000 * limitMsec);
    CoverWithinOnePeriod(t, rate);
  }

  /**
   * A time limit whose microsecond product lands in the upper half of the
   * uint64 range (from 9223372036854776 ms on) is negative as limit_us:
   * the tick then paces by the clock alone and the time limit never
   * stops the acquisition.
   */
  lemma WrappedTimeLimitIgnored(rate: nat, limitMsec: nat, p: Pace, elapsedUs: int)
    requires rate > 0 && 1000 * limitMsec % Two64 >= Two63
    ensures LimitUs(limitMsec) < 0
    ensures Tick(rate, 0, limitMsec, p, elapsedUs) == Tick(rate, 0, 0, p, elapsedUs)
    ensures !LimitReached(0, limitMsec, p)
  {
  }

  /**
   * The acquisition as a whole: a tick at each given elapsed time, until a
   * tick ends with a limit reached (the driver then stops and unregisters
   * the tick).
   */
  function Run(rate: nat, limitSamples: nat, limitMsec: nat, p: Pace, times: seq<int>): Pace
    requires rate > 0
    decreases |times|
  {
    if times == [] || LimitReached(limitSamples, limitMsec, p) then p
    else Run(rate, limitSamples, limitMsec, Tick(rate, limitSamples, limitMsec, p, times[0]), times[1..])
  }

  /** At 1 kHz every sample accounts for exactly 1000 microseconds. */
  ghost predicate KiloHertzRun(p: Pace, limit: nat)
  {
    p.spent == 1000 * p.sent && p.sent <= limit
  }

  lemma KiloHertzTick(limitMsec: nat, p: Pace, elapsedUs: int)
    requires limitMsec > 0 && limitMsec * UsecPerSec < Two63 && KiloHertzRun(p, limitMsec)
    ensures var q := Tick(1000, 0, limitMsec, p, elapsedUs);
      KiloHertzRun(q, limitMsec) &&
      (LimitReached(0, limitMsec, q) <==> q.sent == limitMsec) &&
      (elapsedUs > 1000 * limitMsec ==> q.sent == limitMsec)
  {
    var t := OwedUs(elapsedUs, p.spent, 1000 * limitMsec);
    var n := SamplesTodo(1000, 0, limitMsec, p, elapsedUs);
    if elapsedUs > 1000 * limitMsec {
      assert t == 1000 * (limitMsec - p.sent);
      assert t * 1000 + UsecPerSec - 1 == (limitMsec - p.sent) * UsecPerSec + (UsecPerSec - 1);
    } else {
      assert t <= 1000 * (limitMsec - p.sent);
      assert t * 1000 + UsecPerSec - 1 < (limitMsec - p.sent + 1) * UsecPerSec;
    }
    assert (t * 1000 + UsecPerSec - 1) % Two64 == t * 1000 + UsecPerSec - 1;
    assert n == (t * 1000 + UsecPerSec - 1) / UsecPerSec;
    assert n <= limitMsec - p.sent;
    assert n * UsecPerSec % Two64 == n * UsecPerSec;
    assert UsFor(n, 1000) == n * 1000;
  }

  /**
   * A run at 1 kHz with a time limit of limitMsec milliseconds never sends
   * more than limitMsec samples, and once the clock has passed the limit it
   * has sent exactly that many.
   */
  lemma {:induction false} KiloHertzRunSendsExactly(limitMsec: nat, p: Pace, times: seq<int>)
    requires limitMsec > 0 && limitMsec * UsecPerSec < Two63 && KiloHertzRun(p, limitMsec)
    ensures var q := Run(1000, 0, limitMsec, p, times);
      q.sent <= limitMsec &&
      ((exists i :: 0 <= i < |times| && times[i] > 1000 * limitMsec) ==> q.sent == limitMsec)
    decreases |times|
  {
    if times != [] && !LimitReached(0, limitMsec, p) {
      var q := Tick(1000, 0, limitMsec, p, times[0]);
      KiloHertzTick(limitMsec, p, times[0]);
      KiloHertzRunSendsExactly(limitMsec, q, times[1..]);
      if exists i :: 0 <= i < |times| && times[i] > 1000 * limitMsec {
        var i :| 0 <= i < |times| && times[i] > 1000 * limitMsec;
        if i > 0 {
          assert times[1..][i - 1] == times[i];
        }
      }
    } else if times != [] {
      assert p.sent == limitMsec;
    }
  }

  /** The acquisition of 250 ms at 1 kHz: exactly 250 samples, counted from the start state. */
  lemma QuarterSecondAtOneKilohertz(times: seq<int>)
    requires exists i :: 0 <= i < |times| && times[i] > 250000
    ensures Run(1000, 0, 250, Pace(0, 0), times).sent == 250
  {
    KiloHertzRunSendsExactly(250, Pace(0, 0), times);
  }
}
