/**
 * The ChronoVu LA8 file input module (src/input/chronovu_la8.c): a dump
 * of the analyser's sample memory, recognised by its size, is sent on as
 * logic packets of at most 4 KiB, cut at whole samples of
 * (numchannels + 7) / 8 bytes each.
 */
module ChronovuLa8 {
  import opened Common
  import Arith

  /** CHRONOVU_LA8_FILESIZE: 8 MiB of samples plus 5 bytes of trigger data. */
  const FileSize: int := 8 * 1024 * 1024 + 5
  /** MAX_CHUNK_SIZE */
  const MaxChunkSize: nat := 4 * 1024

  /** format_match: a file is an LA8 dump exactly when it has the LA8 size. */
  function FormatMatch(size: int): (st: Status)
    ensures st == Ok || st == Err
    ensures st == Ok <==> size == FileSize
  {
    if size == FileSize then Ok else Err
  }

  datatype InitResult = InitOk(numChannels: nat, samplerate: nat) | InitErr(st: Status)

  /** init: numchannels must be at least 1; the samplerate is kept as given. */
  function Init(numChannels: int, samplerate: nat): (r: InitResult)
    ensures r.InitErr? <==> numChannels < 1
    ensures r.InitErr? ==> r.st == ErrArg
    ensures r.InitOk? ==> r.numChannels == numChannels && r.samplerate == samplerate && r.numChannels >= 1
  {
    if numChannels < 1 then InitErr(ErrArg) else InitOk(numChannels, samplerate)
  }

  /** The unitsize process_buffer uses: the fewest bytes that hold one bit per channel. */
  function UnitSize(numChannels: nat): (u: nat)
    requires numChannels >= 1
    ensures u >= 1 && u * 8 >= numChannels && (u - 1) * 8 < numChannels
  {
    (numChannels + 7) / 8
  }

  /**
   * The logic packets the send loop produces for data[i..end]: chunks of
   * at most limit bytes, the last one taking what is left.
   */
  function Chunks(data: seq<bv8>, unitsize: nat, limit: nat, i: nat, end: nat): seq<Packet>
    requires limit > 0 && i <= end <= |data|
    decreases end - i
  {
    if i < end then
      var c := if limit < end - i then limit else end - i;
      [Logic(unitsize, data[i..i + c])] + Chunks(data, unitsize, limit, i + c, end)
    else []
  }

  /** Together the chunks carry exactly data[i..end], in order. */
  lemma {:induction false} ChunksPayload(data: seq<bv8>, unitsize: nat, limit: nat, i: nat, end: nat)
    requires limit > 0 && i <= end <= |data|
    ensures LogicBytes(Chunks(data, unitsize, limit, i, end)) == data[i..end]
    decreases end - i
  {
    if i < end {
      var c := if limit < end - i then limit else end - i;
      var p := Logic(unitsize, data[i..i + c]);
      var rest := Chunks(data, unitsize, limit, i + c, end);
      ChunksPayload(data, unitsize, limit, i + c, end);
      LogicBytesAppend([p], rest);
      LogicBytesSnoc([], p);
      assert [] + [p] == [p];
      assert data[i..end] == data[i..i + c] + data[i + c..end];
    }
  }

  /** A logic packet of whole samples, not empty and not over the limit. */
  ghost predicate WholeSamples(p: Packet, unitsize: nat, limit: nat)
  {
    unitsize > 0 && p.Logic? && p.unitsize == unitsize && 0 < |p.data| <= limit && |p.data| % unitsize == 0
  }

  ghost predicate AllWholeSamples(ps: seq<Packet>, unitsize: nat, limit: nat)
  {
    forall k :: 0 <= k < |ps| ==> WholeSamples(ps[k], unitsize, limit)
  }

  /**
   * When both the limit and the span are whole samples, every chunk is
   * whole samples.
   */
  lemma {:induction false} ChunksWhole(data: seq<bv8>, unitsize: nat, limit: nat, i: nat, end: nat)
    requires unitsize > 0 && limit > 0 && i <= end <= |data|
    requires limit % unitsize == 0 && (end - i) % unitsize == 0
    ensures AllWholeSamples(Chunks(data, unitsize, limit, i, end), unitsize, limit)
    decreases end - i
  {
    if i < end {
      var c := if limit < end - i then limit else end - i;
      Arith.SubMultiple(end - i, c, unitsize);
      assert end - (i + c) == (end - i) - c;
      ChunksWhole(data, unitsize, limit, i + c, end);
      var p := Logic(unitsize, data[i..i + c]);
      var rest := Chunks(data, unitsize, limit, i + c, end);
      var ps := Chunks(data, unitsize, limit, i, end);
      assert ps == [p] + rest;
      assert WholeSamples(p, unitsize, limit);
      forall k | 0 <= k < |ps|
        ensures WholeSamples(ps[k], unitsize, limit)
      {
        if k == 0 {
          assert ps[0] == p;
        } else {
          assert ps[k] == rest[k - 1];
        }
      }
    }
  }

  /** chunk_size: the buffer cut off at a multiple of unitsize. */
  function Consumed(data: seq<bv8>, unitsize: nat): (n: nat)
    requires unitsize > 0
    ensures n <= |data| && n % unitsize == 0 && |data| - n < unitsize
  {
    var n := |data| / unitsize * unitsize;
    Arith.DivModUnique(n, |data| / unitsize, 0, unitsize);
    n
  }

  /**
   * The send loop as written: chunks of MAX_CHUNK_SIZE bytes, whatever
   * the unitsize.
   */
  function BufferPacketsAsWritten(data: seq<bv8>, unitsize: nat): seq<Packet>
    requires unitsize > 0
  {
    Chunks(data, unitsize, MaxChunkSize, 0, Consumed(data, unitsize))
  }

  /**
   * With 17 channels the unitsize is 3, which does not divide 4096: a
   * buffer of 4098 bytes is 1366 whole samples, but the loop as written
   * sends 4096 bytes and then 2, so the first packet ends on the first
   * byte of a sample.
   */
  lemma SplitSampleAsWritten(data: seq<bv8>)
    requires |data| == 4098
    ensures UnitSize(17) == 3 && Consumed(data, 3) == 4098
    ensures var ps := BufferPacketsAsWritten(data, 3);
      |ps| == 2 && ps[0].Logic? && |ps[0].data| == 4096 && |ps[0].data| % 3 == 1 &&
      ps[1].Logic? && |ps[1].data| == 2
  {
    assert Consumed(data, 3) == 4098;
    var ps := BufferPacketsAsWritten(data, 3);
    assert ps == [Logic(3, data[0..4096])] + Chunks(data, 3, MaxChunkSize, 4096, 4098);
    assert Chunks(data, 3, MaxChunkSize, 4096, 4098) == [Logic(3, data[4096..4098])] + Chunks(data, 3, MaxChunkSize, 4098, 4098);
  }

  /** The chunk limit rounded down to whole samples (never below one sample). */
  function ChunkLimit(unitsize: nat): (c: nat)
    requires unitsize > 0
    ensures c > 0 && c % unitsize == 0
    ensures unitsize <= MaxChunkSize ==> c <= MaxChunkSize && MaxChunkSize - c < unitsize
  {
    var c := Arith.UnitChunk(MaxChunkSize, unitsize);
    Arith.DivModUnique(MaxChunkSize, MaxChunkSize / unitsize, MaxChunkSize % unitsize, unitsize);
    c
  }

  /** Whenever the unitsize divides MAX_CHUNK_SIZE, the corrected loop is the loop as written. */
  lemma ChunkLimitAgrees(unitsize: nat)
    requires unitsize > 0 && MaxChunkSize % unitsize == 0
    ensures ChunkLimit(unitsize) == MaxChunkSize
  {
    Arith.DivModUnique(MaxChunkSize, MaxChunkSize / unitsize, 0, unitsize);
  }

  /** The logic packets one process_buffer call sends for the buffer data. */
  function BufferPackets(data: seq<bv8>, unitsize: nat): seq<Packet>
    requires unitsize > 0
  {
    Chunks(data, unitsize, ChunkLimit(unitsize), 0, Consumed(data, unitsize))
  }

  /** process_buffer sends the consumed prefix of the buffer, byte for byte. */
  lemma BufferPayload(data: seq<bv8>, unitsize: nat)
    requires unitsize > 0
    ensures LogicBytes(BufferPackets(data, unitsize)) == data[..Consumed(data, unitsize)]
  {
    ChunksPayload(data, unitsize, ChunkLimit(unitsize), 0, Consumed(data, unitsize));
  }

  /** Every packet process_buffer sends is whole samples, none larger than MAX_CHUNK_SIZE. */
  lemma BufferWholeSamples(data: seq<bv8>, unitsize: nat)
    requires 0 < unitsize <= MaxChunkSize
    ensures AllWholeSamples(BufferPackets(data, unitsize), unitsize, MaxChunkSize)
  {
    var ps := BufferPackets(data, unitsize);
    var limit := ChunkLimit(unitsize);
    ChunksWhole(data, unitsize, limit, 0, Consumed(data, unitsize));
    forall k | 0 <= k < |ps|
      ensures WholeSamples(ps[k], unitsize, MaxChunkSize)
    {
      assert WholeSamples(ps[k], unitsize, limit);
    }
  }

  /** State of one LA8 input (struct sr_input with its struct context). */
  class La8Input {
    const numChannels: nat
    const samplerate: nat
    /** in->buf */
    var buf: seq<bv8>
    /** in->sdi_ready */
    var sdiReady: bool
    var started: bool
    /** The session bus. */
    var packets: seq<Packet>

    ghost predicate Valid()
      reads this
    {
      numChannels >= 1
    }

    /** The input after a successful init. */
    constructor (numChannels: nat, samplerate: nat)
      requires Init(numChannels, samplerate).InitOk?
      ensures Valid() && this.numChannels == numChannels && this.samplerate == samplerate
      ensures buf == [] && !sdiReady && !started && packets == []
    {
      this.numChannels := numChannels;
      this.samplerate := samplerate;
      buf := [];
      sdiReady := false;
      started := false;
      packets := [];
    }

    /**
     * process_buffer: the header on the first call, then the buffer cut
     * off at whole samples in chunks; the buffer keeps only the
     * part-sample that is left.
     */
    method ProcessBuffer() returns (st: Status)
      requires Valid()
      modifies this`buf, this`started, this`packets
      ensures st == Ok && started
      ensures var u := UnitSize(numChannels);
        packets == old(packets) + StartPackets(old(started), samplerate) + BufferPackets(old(buf), u) &&
        buf == old(buf)[Consumed(old(buf), u)..]
    {
      SendStart();
      var unitsize := UnitSize(numChannels);
      var chunkSize := Consumed(buf, unitsize);
      SendChunks(unitsize, chunkSize);
      buf := buf[chunkSize..];
      st := Ok;
    }

    /** The header and samplerate, on the first call only. */
    method SendStart()
      modifies this`started, this`packets
      ensures started && packets == old(packets) + StartPackets(old(started), samplerate)
    {
      if !started {
        packets := packets + [Header];
        if samplerate != 0 {
          packets := packets + [MetaSamplerate(samplerate)];
        }
        started := true;
      }
    }

    /** The send loop over buf[..chunkSize], one chunk per turn. */
    method SendChunks(unitsize: nat, chunkSize: nat)
      requires unitsize > 0 && chunkSize == Consumed(buf, unitsize)
      modifies this`packets
      ensures packets == old(packets) + BufferPackets(buf, unitsize)
    {
      var limit := ChunkLimit(unitsize);
      var i: nat := 0;
      while i < chunkSize
        invariant i <= chunkSize
        invariant old(packets) + Chunks(buf, unitsize, limit, 0, chunkSize) == packets + Chunks(buf, unitsize, limit, i, chunkSize)
        decreases chunkSize - i
      {
        var chunk := if limit < chunkSize - i then limit else chunkSize - i;
        var p := Logic(unitsize, buf[i..i + chunk]);
        assert Chunks(buf, unitsize, limit, i, chunkSize) == [p] + Chunks(buf, unitsize, limit, i + chunk, chunkSize);
        assert packets + ([p] + Chunks(buf, unitsize, limit, i + chunk, chunkSize)) ==
          (packets + [p]) + Chunks(buf, unitsize, limit, i + chunk, chunkSize);
        packets := packets + [p];
        i := i + chunk;
      }
    }

    /** receive: the new bytes are appended; the first call only marks the input ready. */
    method Receive(data: seq<bv8>) returns (st: Status)
      requires Valid()
      modifies this`buf, this`sdiReady, this`started, this`packets
      ensures st == Ok && sdiReady
      ensures !old(sdiReady) ==>
        buf == old(buf) + data && started == old(started) && packets == old(packets)
      ensures old(sdiReady) ==>
        var all := old(buf) + data;
        var u := UnitSize(numChannels);
        started &&
        packets == old(packets) + StartPackets(old(started), samplerate) + BufferPackets(all, u) &&
        buf == all[Consumed(all, u)..]
    {
      buf := buf + data;
      if !sdiReady {
        sdiReady := true;
        return Ok;
      }
      st := ProcessBuffer();
    }

    /** end: what is left is processed if the input got ready, and SR_DF_END follows only once started. */
    method End() returns (st: Status)
      requires Valid()
      modifies this`buf, this`started, this`packets
      ensures st == Ok
      ensures !sdiReady ==> packets == old(packets) + (if old(started) then [Common.End] else [])
      ensures sdiReady ==>
        packets == old(packets) + StartPackets(old(started), samplerate) +
          BufferPackets(old(buf), UnitSize(numChannels)) + [Common.End]
    {
      st := Ok;
      if sdiReady {
        st := ProcessBuffer();
      }
      if started {
        packets := packets + [Common.End];
      }
    }

    /** reset: back to before the header, with an empty buffer; the input stays ready. */
    method Reset() returns (st: Status)
      modifies this`buf, this`started
      ensures st == Ok && !started && buf == []
    {
      started := false;
      buf := [];
      st := Ok;
    }
  }

  /** What process_buffer keeps, together with what it sent, is the buffer it had. */
  lemma SentThenKept(data: seq<bv8>, unitsize: nat)
    requires unitsize > 0
    ensures LogicBytes(BufferPackets(data, unitsize)) + data[Consumed(data, unitsize)..] == data
    ensures |data[Consumed(data, unitsize)..]| < unitsize
  {
    BufferPayload(data, unitsize);
    assert data[..Consumed(data, unitsize)] + data[Consumed(data, unitsize)..] == data;
  }
}
