/**
 * The pattern side of the demo driver (src/hardware/demo/demo.c): the
 * logic pattern table and the byte streams it yields, the analog pattern
 * generators, their table length, the circular read out of a table and the
 * running-average fold.
 */
module DemoPatterns {
  import opened Arith

  /** Bytes per logic packet (LOGIC_BUFSIZE). */
  const LogicBufsize: nat := 4096
  /** Slots of an analog pattern table (ANALOG_BUFSIZE). */
  const AnalogBufsize: nat := 4096
  /** ANALOG_BUFSIZE / sizeof(float): the slots a pattern is generated into. */
  const PatternSlots: nat := 1024
  const SamplesPerPeriod: nat := 20
  /** The number of table entries every pattern ends up using. */
  const TableLength: nat := 1020

  datatype LogicPattern = Sigrok | Random | Incremental | AllLow | AllHigh
  datatype AnalogPattern = Square | Sine | Triangle | Sawtooth

  const LogicPatternNames: seq<string> := ["sigrok", "random", "incremental", "all-low", "all-high"]
  const AnalogPatternNames: seq<string> := ["square", "sine", "triangle", "sawtooth"]

  function LogicPatternAt(i: nat): LogicPattern
    requires i < |LogicPatternNames|
  {
    [Sigrok, Random, Incremental, AllLow, AllHigh][i]
  }

  function LogicPatternName(p: LogicPattern): string
  {
    match p
    case Sigrok => LogicPatternNames[0]
    case Random => LogicPatternNames[1]
    case Incremental => LogicPatternNames[2]
    case AllLow => LogicPatternNames[3]
    case AllHigh => LogicPatternNames[4]
  }

  function AnalogPatternAt(i: nat): AnalogPattern
    requires i < |AnalogPatternNames|
  {
    [Square, Sine, Triangle, Sawtooth][i]
  }

  function AnalogPatternName(p: AnalogPattern): string
  {
    match p
    case Square => AnalogPatternNames[0]
    case Sine => AnalogPatternNames[1]
    case Triangle => AnalogPatternNames[2]
    case Sawtooth => AnalogPatternNames[3]
  }

  /** A pattern's name leads back to the pattern, in both tables. */
  lemma PatternNamesRoundTrip(p: LogicPattern, q: AnalogPattern)
    ensures var i :| 0 <= i < |LogicPatternNames| && LogicPatternNames[i] == LogicPatternName(p);
            LogicPatternAt(i) == p
    ensures var j :| 0 <= j < |AnalogPatternNames| && AnalogPatternNames[j] == AnalogPatternName(q);
            AnalogPatternAt(j) == q
  {
  }

  lemma PatternNameAt(i: nat, j: nat)
    requires i < |LogicPatternNames| && j < |AnalogPatternNames|
    ensures LogicPatternName(LogicPatternAt(i)) == LogicPatternNames[i]
    ensures AnalogPatternName(AnalogPatternAt(j)) == AnalogPatternNames[j]
  {
  }

  /** The bitmap that spells "sigrok" (pattern_sigrok). */
  const PatternSigrok: seq<bv8> := [
    0x4c, 0x92, 0x92, 0x92, 0x64, 0x00, 0x00, 0x00,
    0x82, 0xfe, 0xfe, 0x82, 0x00, 0x00, 0x00, 0x00,
    0x7c, 0x82, 0x82, 0x92, 0x74, 0x00, 0x00, 0x00,
    0xfe, 0x12, 0x12, 0x32, 0xcc, 0x00, 0x00, 0x00,
    0x7c, 0x82, 0x82, 0x82, 0x7c, 0x00, 0x00, 0x00,
    0xfe, 0x10, 0x28, 0x44, 0x82, 0x00, 0x00, 0x00,
    0x00, 0x00, 0x00, 0x00, 0x00, 0x00, 0x00, 0x00,
    0xbe, 0xbe, 0x00, 0x00, 0x00, 0x00, 0x00, 0x00
  ]

  /** Byte j of the unit sent at step `step` in the sigrok pattern. */
  function SigrokByte(step: nat, j: nat): bv8
  {
    !(PatternSigrok[(step + j) % |PatternSigrok|] >> 1)
  }

  /** Byte j of the unit sent at step `step` in the (intended) incremental pattern. */
  function IncByte(step: nat, j: nat): bv8
  {
    (step % 256) as bv8
  }

  /** The first `units` units of a pattern whose unit k is sent at step `step + k`. */
  function UnitStream(byteAt: (nat, nat) -> bv8, step: nat, units: nat, unitsize: nat): (r: seq<bv8>)
    requires unitsize > 0
    ensures |r| == units * unitsize
  {
    seq(units * unitsize, k requires 0 <= k < units * unitsize => byteAt(step + k / unitsize, k % unitsize))
  }

  /** Two consecutive chunks of a unit stream are the stream of their combined length. */
  lemma UnitStreamAppend(byteAt: (nat, nat) -> bv8, step: nat, a: nat, b: nat, unitsize: nat)
    requires unitsize > 0
    ensures UnitStream(byteAt, step, a, unitsize) + UnitStream(byteAt, step + a, b, unitsize)
         == UnitStream(byteAt, step, a + b, unitsize)
  {
    var x, y := UnitStream(byteAt, step, a, unitsize), UnitStream(byteAt, step + a, b, unitsize);
    var z := UnitStream(byteAt, step, a + b, unitsize);
    assert (a + b) * unitsize == a * unitsize + b * unitsize;
    forall k | a * unitsize <= k < (a + b) * unitsize
      ensures z[k] == y[k - a * unitsize]
    {
      var m := k - a * unitsize;
      DivModUnique(k, a + m / unitsize, m % unitsize, unitsize);
    }
    assert x + y == z;
  }

  /** The square wave of a table slot: minus the amplitude for slots 0..4, plus it for 5..9, and so on. */
  function SquareValue(amplitude: real, i: nat): real
  {
    if (i / 5) % 2 == 0 then -amplitude else amplitude
  }

  /**
   * The floating-point value of slot i of a sine, triangle or sawtooth table
   * of the given amplitude at the given samplerate (left abstract).
   */
  type Wave = (AnalogPattern, real, nat, nat) -> real

  /** struct analog_gen: one analog channel's generator and averaging state. */
  datatype AnalogGen = AnalogGen(
    pattern: AnalogPattern,
    amplitude: real,
    table: seq<real>,
    numSamples: nat,
    avgVal: real,
    numAvgs: nat)

  /**
   * The integer part of generate_analog_pattern: the square loop tracks the
   * last multiple of 10 it passes, the other patterns count down to a
   * multiple of the 20-sample period; either way 1020 entries are used.
   */
  method GenerateAnalogPattern(g: AnalogGen, rate: nat, wave: Wave) returns (r: AnalogGen)
    requires |g.table| == AnalogBufsize
    ensures r == g.(table := r.table, numSamples := TableLength)
    ensures |r.table| == AnalogBufsize
    ensures g.pattern == Square ==>
      forall i :: 0 <= i < PatternSlots ==> r.table[i] == SquareValue(g.amplitude, i)
    ensures g.pattern != Square ==>
      forall i :: 0 <= i < TableLength ==> r.table[i] == wave(g.pattern, g.amplitude, rate, i)
    ensures g.pattern == Square ==> r.table[PatternSlots..] == g.table[PatternSlots..]
    ensures g.pattern != Square ==> r.table[TableLength..] == g.table[TableLength..]
  {
    var table, numSamples;
    if g.pattern == Square {
      table, numSamples := FillSquare(g.amplitude, g.table);
    } else {
      numSamples := WholePeriods(PatternSlots);
      table := FillWave(g.pattern, g.amplitude, rate, wave, g.table, numSamples);
    }
    r := g.(table := table, numSamples := numSamples);
  }

  /**
   * The square branch: slots 0..1023 alternate between minus and plus the
   * amplitude every five slots, and the count is the last multiple of 10
   * the loop passed.
   */
  method FillSquare(amplitude: real, table0: seq<real>) returns (table: seq<real>, lastEnd: nat)
    requires |table0| == AnalogBufsize
    ensures |table| == AnalogBufsize && lastEnd == TableLength
    ensures forall i :: 0 <= i < PatternSlots ==> table[i] == SquareValue(amplitude, i)
    ensures table[PatternSlots..] == table0[PatternSlots..]
  {
    table := table0;
    var value := amplitude;
    lastEnd := 0;
    var i: nat := 0;
    while i < PatternSlots
      invariant i <= PatternSlots && |table| == AnalogBufsize
      invariant i > 0 ==> value == SquareValue(amplitude, i - 1) && lastEnd % 10 == 0 && lastEnd < i <= lastEnd + 10
      invariant i == 0 ==> value == amplitude && lastEnd == 0
      invariant forall k :: 0 <= k < i ==> table[k] == SquareValue(amplitude, k)
      invariant table[PatternSlots..] == table0[PatternSlots..]
    {
      if i > 0 {
        DivStep(i, 5);
      }
      if i % 5 == 0 {
        value := -value;
      }
      if i % 10 == 0 {
        lastEnd := i;
      }
      table := table[i := value];
      i := i + 1;
    }
  }

  /** Stepping from i - 1 to i moves the quotient by n exactly at the multiples of n. */
  lemma DivStep(i: nat, n: nat)
    requires i > 0 && n > 0
    ensures i / n == if i % n == 0 then (i - 1) / n + 1 else (i - 1) / n
  {
    var q, r := (i - 1) / n, (i - 1) % n;
    if r + 1 < n {
      DivModUnique(i, q, r + 1, n);
    } else {
      DivModUnique(i, q + 1, 0, n);
    }
  }

  /** The other branches count down from n to a multiple of the period. */
  method WholePeriods(n: nat) returns (m: nat)
    requires n == PatternSlots
    ensures m == TableLength
  {
    m := n;
    while m % SamplesPerPeriod != 0
      invariant TableLength <= m <= PatternSlots
      decreases m
    {
      m := m - 1;
    }
  }

  /** The first n slots hold the wave's values; the rest of the table is kept. */
  method FillWave(pattern: AnalogPattern, amplitude: real, rate: nat, wave: Wave, table0: seq<real>, n: nat)
    returns (table: seq<real>)
    requires n <= |table0|
    ensures |table| == |table0|
    ensures forall k :: 0 <= k < n ==> table[k] == wave(pattern, amplitude, rate, k)
    ensures table[n..] == table0[n..]
  {
    table := table0;
    var i: nat := 0;
    while i < n
      invariant i <= n && |table| == |table0|
      invariant forall k :: 0 <= k < i ==> table[k] == wave(pattern, amplitude, rate, k)
      invariant table[n..] == table0[n..]
    {
      table := table[i := wave(pattern, amplitude, rate, i)];
      i := i + 1;
    }
  }

  /** The count is the largest multiple of the 20-sample period within the 1024 slots. */
  lemma TableLengthIsWholePeriods()
    ensures TableLength % SamplesPerPeriod == 0 && TableLength <= PatternSlots
    ensures forall m :: TableLength < m <= PatternSlots ==> m % SamplesPerPeriod != 0
  {
  }

  /** count samples read round a table of n entries, starting at pos. */
  function CircularRead(table: seq<real>, n: nat, pos: nat, count: nat): (r: seq<real>)
    requires 0 < n <= |table|
    ensures |r| == count
  {
    seq(count, k requires 0 <= k < count => table[(pos + k) % n])
  }

  /**
   * A read of k entries from where a circular read of d entries left off,
   * not passing the table end, continues that circular read.
   */
  lemma CircularReadExtend(table: seq<real>, n: nat, pos: nat, d: nat, k: nat)
    requires 0 < n <= |table| && k <= n - (pos + d) % n
    ensures CircularRead(table, n, pos, d) + table[(pos + d) % n .. (pos + d) % n + k]
         == CircularRead(table, n, pos, d + k)
  {
    var p := (pos + d) % n;
    var x := CircularRead(table, n, pos, d) + table[p .. p + k];
    var z := CircularRead(table, n, pos, d + k);
    var q := (pos + d) / n;
    assert pos + d == q * n + p;
    forall j | d <= j < d + k
      ensures z[j] == x[j]
    {
      DivModUnique(pos + j, q, p + (j - d), n);
      assert z[j] == table[p + (j - d)];
    }
    assert x == z;
  }

  /** The running average: every sample moves the average half way towards it. */
  function Fold(v: real, s: seq<real>): real
    decreases |s|
  {
    if s == [] then v else (Fold(v, s[..|s| - 1]) + s[|s| - 1]) / 2.0
  }

  lemma {:induction false} FoldAppend(v: real, a: seq<real>, b: seq<real>)
    ensures Fold(v, a + b) == Fold(Fold(v, a), b)
    decreases |b|
  {
    if b == [] {
      assert a + b == a;
    } else {
      var b' := b[..|b| - 1];
      assert (a + b)[..|a + b| - 1] == a + b';
      FoldAppend(v, a, b');
    }
  }

  /** Four samples folded into a zero average weigh 1/16, 1/8, 1/4 and 1/2. */
  lemma FoldFourSamples(s1: real, s2: real, s3: real, s4: real)
    ensures Fold(0.0, [s1, s2, s3, s4]) == s1 / 16.0 + s2 / 8.0 + s3 / 4.0 + s4 / 2.0
  {
    assert [s1][..0] == [];
    assert Fold(0.0, [s1]) == s1 / 2.0;
    assert [s1, s2][..1] == [s1];
    assert Fold(0.0, [s1, s2]) == s1 / 4.0 + s2 / 2.0;
    assert [s1, s2, s3][..2] == [s1, s2];
    assert Fold(0.0, [s1, s2, s3]) == s1 / 8.0 + s2 / 4.0 + s3 / 2.0;
    assert [s1, s2, s3, s4][..3] == [s1, s2, s3];
  }
}
