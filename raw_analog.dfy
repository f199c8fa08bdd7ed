/**
 * The raw analog input module (src/input/raw_analog.c): a growing byte
 * buffer of fixed-size samples (one value per channel per sample) is cut
 * into analog packets of whole samples, at most CHUNK_SIZE bytes each; a
 * tail shorter than one sample waits for the next call.
 */
module RawAnalog {
  import opened Common
  import Search
  import Arith

  /** CHUNK_SIZE: the most bytes one analog packet is meant to carry. */
  const ChunkSize: nat := 4096

  /** The names of sample_formats, in table order. */
  const FormatNames: seq<string> := [
    "S8", "U8", "S16_LE", "U16_LE", "S16_BE", "U16_BE", "S32_LE", "U32_LE",
    "S32_BE", "U32_BE", "FLOAT_LE", "FLOAT_BE", "FLOAT64_LE", "FLOAT64_BE"]

  /** The encoding unit size of each sample format, in table order. */
  const UnitSizes: seq<nat> := [1, 1, 2, 2, 2, 2, 4, 4, 4, 4, 4, 4, 8, 8]

  /** parse_format_string: the index of the first format of that name, or -1. */
  method ParseFormatString(format: string) returns (r: int)
    ensures -1 <= r < |FormatNames|
    ensures r >= 0 ==> FormatNames[r] == format
    ensures r == -1 <==> format !in FormatNames
  {
    r := Search.IndexOf(FormatNames, format);
  }

  /** What init leaves: the format index and the bytes per sample, or an error. */
  datatype InitResult = InitOk(fmtIndex: nat, numChannels: nat, samplesize: nat) | InitErr(st: Status)

  /**
   * init: at least one channel and a known format name are required; a
   * sample is one unit of the format per channel.
   */
  method Init(numChannels: int, format: string) returns (r: InitResult)
    ensures numChannels < 1 || format !in FormatNames <==> r == InitErr(ErrArg)
    ensures r.InitOk? ==>
      r.fmtIndex < |FormatNames| && FormatNames[r.fmtIndex] == format && r.numChannels == numChannels &&
      r.samplesize == UnitSizes[r.fmtIndex] * numChannels && r.samplesize > 0
  {
    if numChannels < 1 {
      return InitErr(ErrArg);
    }
    var fmtIndex := ParseFormatString(format);
    if fmtIndex == -1 {
      return InitErr(ErrArg);
    }
    r := InitOk(fmtIndex, numChannels, UnitSizes[fmtIndex] * numChannels);
  }

  /** The chunk process_buffer computes: CHUNK_SIZE rounded down to whole samples. */
  function ChunkBytesAsWritten(samplesize: nat): nat
    requires samplesize > 0
  {
    (ChunkSize / samplesize) * samplesize
  }

  /**
   * init accepts 513 channels of FLOAT64_LE, a 4104-byte sample, for which
   * the chunk is 0 bytes: the full-chunk loop then sends empty packets
   * without ever advancing its offset.
   */
  lemma ZeroChunkAccepted()
    ensures Search.FirstIndex(FormatNames, "FLOAT64_LE") == 12
    ensures UnitSizes[12] * 513 == 4104 && ChunkBytesAsWritten(4104) == 0
  {
    assert FormatNames[12] == "FLOAT64_LE";
    assert "FLOAT64_LE" !in FormatNames[..12];
  }

  /** The chunk with at least one sample in it, so that the loop always advances. */
  function ChunkBytes(samplesize: nat): (c: nat)
    requires samplesize > 0
    ensures c > 0 && c % samplesize == 0
    ensures samplesize <= ChunkSize ==> c <= ChunkSize
  {
    Arith.UnitChunk(ChunkSize, samplesize)
  }

  /** Where the source's chunk has at least one sample, the corrected chunk is the same. */
  lemma ChunkBytesAgree(samplesize: nat)
    requires 0 < samplesize <= ChunkSize
    ensures ChunkBytes(samplesize) == ChunkBytesAsWritten(samplesize)
  {
  }

  /** One analog packet of whole samples taken from data[offset..offset + len]. */
  function SamplesPacket(data: seq<bv8>, samplesize: nat, offset: nat, len: nat): Packet
    requires samplesize > 0 && offset + len <= |data|
  {
    Encoded(len / samplesize, data[offset..offset + len])
  }

  /** The full chunks the loop sends from offset on: while more than a chunk is left. */
  function Chunks(data: seq<bv8>, samplesize: nat, offset: nat): seq<Packet>
    requires samplesize > 0 && offset <= |data|
    decreases |data| - offset
  {
    var c := ChunkBytes(samplesize);
    if offset + c < |data| then [SamplesPacket(data, samplesize, offset, c)] + Chunks(data, samplesize, offset + c)
    else []
  }

  /** Where the full-chunk loop stops. */
  function ChunksEnd(data: seq<bv8>, samplesize: nat, offset: nat): (e: nat)
    requires samplesize > 0 && offset <= |data|
    ensures offset <= e <= |data| && |data| <= e + ChunkBytes(samplesize)
    ensures (e - offset) % samplesize == 0
    decreases |data| - offset
  {
    var c := ChunkBytes(samplesize);
    if offset + c < |data| then
      var e := ChunksEnd(data, samplesize, offset + c);
      ModAdd(c, e - (offset + c), samplesize);
      e
    else offset
  }

  /** The bytes of the whole samples left after the full chunks. */
  function TailBytes(data: seq<bv8>, samplesize: nat, offset: nat): (t: nat)
    requires samplesize > 0 && offset <= |data|
    ensures offset + t <= |data| && t % samplesize == 0
    ensures |data| - (offset + t) == (|data| - offset) % samplesize
  {
    Arith.RoundDown(|data| - offset, samplesize);
    ((|data| - offset) / samplesize) * samplesize
  }

  /** The packets process_buffer sends for a buffer: its full chunks, then the tail if it has a sample. */
  function BufferPackets(data: seq<bv8>, samplesize: nat): seq<Packet>
    requires samplesize > 0
  {
    var e := ChunksEnd(data, samplesize, 0);
    var t := TailBytes(data, samplesize, e);
    Chunks(data, samplesize, 0) + (if t > 0 then [SamplesPacket(data, samplesize, e, t)] else [])
  }

  /** The bytes process_buffer consumes from a buffer. */
  function Consumed(data: seq<bv8>, samplesize: nat): nat
    requires samplesize > 0
  {
    var e := ChunksEnd(data, samplesize, 0);
    e + TailBytes(data, samplesize, e)
  }

  /** The sample bytes a run of packets carries, in order. */
  function Payload(ps: seq<Packet>): seq<bv8>
  {
    if ps == [] then []
    else (if ps[0].Encoded? then ps[0].data else []) + Payload(ps[1..])
  }

  lemma PayloadAppend(a: seq<Packet>, b: seq<Packet>)
    ensures Payload(a + b) == Payload(a) + Payload(b)
  {
    if a != [] {
      var h := if a[0].Encoded? then a[0].data else [];
      assert (a + b)[0] == a[0] && (a + b)[1..] == a[1..] + b;
      assert Payload(a + b) == h + Payload(a[1..] + b);
      PayloadAppend(a[1..], b);
      assert Payload(a) == h + Payload(a[1..]);
    } else {
      assert a + b == b;
    }
  }

  lemma ModAdd(a: nat, b: nat, n: nat)
    requires n > 0 && a % n == 0 && b % n == 0
    ensures (a + b) % n == 0
  {
    Arith.DivModUnique(a, a / n, 0, n);
    Arith.DivModUnique(b, b / n, 0, n);
    Arith.DivModUnique(a + b, a / n + b / n, 0, n);
  }

  /** The full chunks carry exactly the bytes from offset up to where the loop stops. */
  lemma {:induction false} ChunksPayload(data: seq<bv8>, samplesize: nat, offset: nat)
    requires samplesize > 0 && offset <= |data|
    ensures Payload(Chunks(data, samplesize, offset)) == data[offset..ChunksEnd(data, samplesize, offset)]
    decreases |data| - offset
  {
    var c := ChunkBytes(samplesize);
    if offset + c < |data| {
      var rest := Chunks(data, samplesize, offset + c);
      ChunksPayload(data, samplesize, offset + c);
      PayloadAppend([SamplesPacket(data, samplesize, offset, c)], rest);
      assert Payload([SamplesPacket(data, samplesize, offset, c)]) == data[offset..offset + c];
      var e := ChunksEnd(data, samplesize, offset);
      assert data[offset..e] == data[offset..offset + c] + data[offset + c..e];
    }
  }

  /**
   * process_buffer consumes every whole sample of the buffer and nothing
   * more: what it keeps is the tail shorter than one sample.
   */
  lemma ConsumedWholeSamples(data: seq<bv8>, samplesize: nat)
    requires samplesize > 0
    ensures Consumed(data, samplesize) == |data| - |data| % samplesize
  {
    var e := ChunksEnd(data, samplesize, 0);
    var n := samplesize;
    Arith.DivModUnique(e, e / n, 0, n);
    Arith.DivModUnique(|data| - e, |data| / n - e / n, |data| % n, n);
  }

  /** The packets of a buffer carry exactly the consumed prefix, in order. */
  lemma BufferPayload(data: seq<bv8>, samplesize: nat)
    requires samplesize > 0
    ensures Payload(BufferPackets(data, samplesize)) == data[..|data| - |data| % samplesize]
  {
    var e := ChunksEnd(data, samplesize, 0);
    var t := TailBytes(data, samplesize, e);
    var tail := if t > 0 then [SamplesPacket(data, samplesize, e, t)] else [];
    ChunksPayload(data, samplesize, 0);
    PayloadAppend(Chunks(data, samplesize, 0), tail);
    assert Payload(tail) == data[e..e + t];
    ConsumedWholeSamples(data, samplesize);
    assert data[..e + t] == data[0..e] + data[e..e + t];
  }

  /** The input state (struct context and the sr_input fields this module uses). */
  class RawAnalogInput {
    const samplerate: nat
    const samplesize: nat
    /** in->buf */
    var buf: seq<bv8>
    /** in->sdi_ready */
    var sdiReady: bool
    var started: bool
    /** The session bus. */
    var packets: seq<Packet>

    ghost predicate Valid()
      reads this
    {
      samplesize > 0
    }

    /** The context after a successful init. */
    constructor (samplesize: nat, samplerate: nat)
      requires samplesize > 0
      ensures Valid() && this.samplesize == samplesize && this.samplerate == samplerate
      ensures buf == [] && !sdiReady && !started && packets == []
    {
      this.samplesize := samplesize;
      this.samplerate := samplerate;
      buf := [];
      sdiReady := false;
      started := false;
      packets := [];
    }

    /**
     * process_buffer: the header on the first call, then the full chunks
     * and the whole-sample tail; the buffer keeps only what is left.
     */
    method ProcessBuffer()
      requires Valid()
      modifies this`buf, this`started, this`packets
      ensures started
      ensures packets == old(packets) + StartPackets(old(started), samplerate) + BufferPackets(old(buf), samplesize)
      ensures buf == old(buf)[Consumed(old(buf), samplesize)..]
    {
      SendStart();
      var offset := SendFullChunks();
      var tail := TailBytes(buf, samplesize, offset);
      if tail > 0 {
        packets := packets + [SamplesPacket(buf, samplesize, offset, tail)];
        offset := offset + tail;
      }
      if offset < |buf| {
        buf := buf[offset..];
      } else {
        buf := [];
      }
    }

    /** The header and samplerate, on the first call only. */
    method SendStart()
      modifies this`started, this`packets
      ensures started && packets == old(packets) + StartPackets(old(started), samplerate)
    {
      if !started {
        packets := packets + [Header];
        if samplerate != 0 {
          packets := packets + [MetaSamplerate(samplerate)];
        }
        started := true;
      }
    }

    /** The full-chunk loop: a chunk goes out while more than a chunk is left. */
    method SendFullChunks() returns (offset: nat)
      requires Valid()
      modifies this`packets
      ensures offset == ChunksEnd(buf, samplesize, 0)
      ensures packets == old(packets) + Chunks(buf, samplesize, 0)
    {
      var chunk := ChunkBytes(samplesize);
      offset := 0;
      while offset + chunk < |buf|
        invariant offset <= |buf|
        invariant old(packets) + Chunks(buf, samplesize, 0) == packets + Chunks(buf, samplesize, offset)
        invariant ChunksEnd(buf, samplesize, offset) == ChunksEnd(buf, samplesize, 0)
        decreases |buf| - offset
      {
        var p := SamplesPacket(buf, samplesize, offset, chunk);
        assert Chunks(buf, samplesize, offset) == [p] + Chunks(buf, samplesize, offset + chunk);
        assert packets + ([p] + Chunks(buf, samplesize, offset + chunk)) == (packets + [p]) + Chunks(buf, samplesize, offset + chunk);
        packets := packets + [p];
        offset := offset + chunk;
      }
    }

    /** receive: the new bytes are appended; the first call only marks the input ready. */
    method Receive(data: seq<bv8>) returns (st: Status)
      requires Valid()
      modifies this`buf, this`sdiReady, this`started, this`packets
      ensures st == Ok && sdiReady
      ensures !old(sdiReady) ==>
        buf == old(buf) + data && started == old(started) && packets == old(packets)
      ensures old(sdiReady) ==>
        var all := old(buf) + data;
        started &&
        packets == old(packets) + StartPackets(old(started), samplerate) + BufferPackets(all, samplesize) &&
        buf == all[Consumed(all, samplesize)..]
    {
      buf := buf + data;
      if !sdiReady {
        sdiReady := true;
        return Ok;
      }
      ProcessBuffer();
      st := Ok;
    }

    /** end: what is left is processed if the input got ready, and SR_DF_END follows only once started. */
    method End() returns (st: Status)
      requires Valid()
      modifies this`buf, this`started, this`packets
      ensures st == Ok
      ensures !sdiReady ==> packets == old(packets) + (if old(started) then [Common.End] else [])
      ensures sdiReady ==>
        packets == old(packets) + StartPackets(old(started), samplerate) + BufferPackets(old(buf), samplesize) + [Common.End]
    {
      if sdiReady {
        ProcessBuffer();
      }
      if started {
        packets := packets + [Common.End];
      }
      st := Ok;
    }
  }

  /** What process_buffer keeps is shorter than one sample. */
  lemma LeftoverUnderOneSample(data: seq<bv8>, samplesize: nat)
    requires samplesize > 0
    ensures |data[Consumed(data, samplesize)..]| < samplesize
  {
    ConsumedWholeSamples(data, samplesize);
  }
}
