/**
 * The packet scan that the serial meter drivers (serial-dmm, kern-scale)
 * run over their receive buffer: append what the port delivered, look for
 * packets of a fixed size, hand each valid one to the meter's parser, then
 * move the unscanned tail to the front of the buffer.
 */
module Scanner {
  import opened Common

  /** What serial_read_nonblocking reports: an error, or the bytes waiting at the port. */
  datatype PortRead = PortError(code: int) | PortBytes(waiting: seq<bv8>)

  /** The bytes a read into `room` free bytes stores: never more than fit. */
  function Received(read: PortRead, room: nat): (got: seq<bv8>)
    ensures |got| <= room
    ensures read.PortError? ==> got == []
    ensures read.PortBytes? ==> got == read.waiting[..Min(|read.waiting|, room)]
  {
    match read
    case PortError(_) => []
    case PortBytes(w) => w[..Min(|w|, room)]
  }

  /** The offsets of the valid packets a scan handled, in order, and the offset of the first byte it kept. */
  datatype ScanResult = ScanResult(found: seq<nat>, end: nat)

  /**
   * The scan loop from `offset`: while a whole packet's worth of bytes is
   * left, a valid packet is handled and skipped whole, anything else skips
   * one byte. With firstOnly the scan ends after the first valid packet.
   */
  function Scan(data: seq<bv8>, size: nat, valid: seq<bv8> -> bool, firstOnly: bool, offset: nat): (r: ScanResult)
    requires 0 < size && offset <= |data|
    ensures offset <= r.end <= |data|
    decreases |data| - offset
  {
    if |data| - offset < size then ScanResult([], offset)
    else if valid(data[offset..offset + size]) then
      if firstOnly then ScanResult([offset], offset + size)
      else
        var r := Scan(data, size, valid, firstOnly, offset + size);
        ScanResult([offset] + r.found, r.end)
    else Scan(data, size, valid, firstOnly, offset + 1)
  }

  /** Position p lies inside (or at the start of) one of the found packets. */
  ghost predicate Covered(found: seq<nat>, size: nat, p: nat)
  {
    exists i :: 0 <= i < |found| && found[i] <= p < found[i] + size
  }

  /** The handled packets lie between offset and the end, are valid, in order and do not overlap. */
  ghost predicate FoundValid(data: seq<bv8>, size: nat, valid: seq<bv8> -> bool, offset: nat, r: ScanResult)
  {
    (forall i :: 0 <= i < |r.found| ==>
       offset <= r.found[i] && r.found[i] + size <= r.end && r.end <= |data| &&
       valid(data[r.found[i]..r.found[i] + size])) &&
    (forall i, j :: 0 <= i < j < |r.found| ==> r.found[i] + size <= r.found[j])
  }

  /** Every byte below the end is inside a handled packet or the start of an invalid one. */
  ghost predicate SkippedInvalid(data: seq<bv8>, size: nat, valid: seq<bv8> -> bool, offset: nat, r: ScanResult)
  {
    forall p :: offset <= p < r.end ==>
      Covered(r.found, size, p) || (p + size <= |data| && !valid(data[p..p + size]))
  }

  /** The packets the scan handled are valid, in order and do not overlap. */
  lemma {:induction false} ScanFound(data: seq<bv8>, size: nat, valid: seq<bv8> -> bool, firstOnly: bool, offset: nat)
    requires 0 < size && offset <= |data|
    ensures FoundValid(data, size, valid, offset, Scan(data, size, valid, firstOnly, offset))
    decreases |data| - offset
  {
    if |data| - offset < size {
    } else if !valid(data[offset..offset + size]) {
      ScanFound(data, size, valid, firstOnly, offset + 1);
    } else if firstOnly {
      var r := ScanResult([offset], offset + size);
      assert FoundValid(data, size, valid, offset, r) by {
        assert r.found[0] == offset;
      }
    } else {
      var t := Scan(data, size, valid, firstOnly, offset + size);
      ScanFound(data, size, valid, firstOnly, offset + size);
      FoundCons(data, size, valid, offset, t);
    }
  }

  /** A valid packet at offset in front of a later scan's packets. */
  lemma FoundCons(data: seq<bv8>, size: nat, valid: seq<bv8> -> bool, offset: nat, t: ScanResult)
    requires offset + size <= t.end <= |data| && valid(data[offset..offset + size])
    requires FoundValid(data, size, valid, offset + size, t)
    ensures FoundValid(data, size, valid, offset, ScanResult([offset] + t.found, t.end))
  {
    var f := [offset] + t.found;
    forall i | 0 <= i < |f|
      ensures offset <= f[i] && f[i] + size <= t.end && valid(data[f[i]..f[i] + size])
    {
      if i > 0 { assert f[i] == t.found[i - 1]; }
    }
    forall i, j | 0 <= i < j < |f|
      ensures f[i] + size <= f[j]
    {
      assert f[j] == t.found[j - 1];
      if i > 0 { assert f[i] == t.found[i - 1]; }
    }
  }

  /** Every byte the scan let go was inside a handled packet or the start of an invalid packet. */
  lemma {:induction false} ScanSkips(data: seq<bv8>, size: nat, valid: seq<bv8> -> bool, firstOnly: bool, offset: nat)
    requires 0 < size && offset <= |data|
    ensures SkippedInvalid(data, size, valid, offset, Scan(data, size, valid, firstOnly, offset))
    decreases |data| - offset
  {
    var r := Scan(data, size, valid, firstOnly, offset);
    if |data| - offset < size {
    } else if valid(data[offset..offset + size]) {
      assert |r.found| > 0 && r.found[0] == offset by {
        if !firstOnly {
          assert r.found == [offset] + Scan(data, size, valid, firstOnly, offset + size).found;
        }
      }
      forall p | offset <= p < offset + size
        ensures Covered(r.found, size, p)
      {
        assert r.found[0] <= p < r.found[0] + size;
      }
      if !firstOnly {
        var t := Scan(data, size, valid, firstOnly, offset + size);
        ScanSkips(data, size, valid, firstOnly, offset + size);
        assert r.found == [offset] + t.found;
        forall p | offset + size <= p < r.end && Covered(t.found, size, p)
          ensures Covered(r.found, size, p)
        {
          var i :| 0 <= i < |t.found| && t.found[i] <= p < t.found[i] + size;
          assert r.found[i + 1] == t.found[i];
        }
      }
    } else {
      var t := Scan(data, size, valid, firstOnly, offset + 1);
      ScanSkips(data, size, valid, firstOnly, offset + 1);
      assert r == t;
      forall p | offset <= p < r.end
        ensures Covered(r.found, size, p) || (p + size <= |data| && !valid(data[p..p + size]))
      {
        if p > offset {
          assert offset + 1 <= p < t.end;
        }
      }
    }
  }

  /**
   * The scan stops only when less than a packet is left, or (firstOnly)
   * right after its one packet.
   */
  lemma {:induction false} ScanEnds(data: seq<bv8>, size: nat, valid: seq<bv8> -> bool, firstOnly: bool, offset: nat)
    requires 0 < size && offset <= |data|
    ensures Scan(data, size, valid, firstOnly, offset).found == [] || !firstOnly ==>
      |data| - Scan(data, size, valid, firstOnly, offset).end < size
    ensures firstOnly ==> |Scan(data, size, valid, firstOnly, offset).found| <= 1
    ensures firstOnly && Scan(data, size, valid, firstOnly, offset).found != [] ==>
      Scan(data, size, valid, firstOnly, offset).end == Scan(data, size, valid, firstOnly, offset).found[0] + size
    decreases |data| - offset
  {
    if |data| - offset >= size {
      if valid(data[offset..offset + size]) {
        if !firstOnly {
          ScanEnds(data, size, valid, firstOnly, offset + size);
        }
      } else {
        ScanEnds(data, size, valid, firstOnly, offset + 1);
      }
    }
  }

  /** At a valid packet the scan takes it and goes on after it (or stops, with firstOnly). */
  lemma ScanValidStep(data: seq<bv8>, size: nat, valid: seq<bv8> -> bool, firstOnly: bool, offset: nat)
    returns (next: ScanResult)
    requires 0 < size && offset + size <= |data| && valid(data[offset..offset + size])
    ensures next == if firstOnly then ScanResult([], offset + size) else Scan(data, size, valid, firstOnly, offset + size)
    ensures Scan(data, size, valid, firstOnly, offset) == ScanResult([offset] + next.found, next.end)
  {
    next := if firstOnly then ScanResult([], offset + size) else Scan(data, size, valid, firstOnly, offset + size);
  }

  /** At an invalid packet the scan moves on by one byte. */
  lemma ScanInvalidStep(data: seq<bv8>, size: nat, valid: seq<bv8> -> bool, firstOnly: bool, offset: nat)
    requires 0 < size && offset + size <= |data| && !valid(data[offset..offset + size])
    ensures Scan(data, size, valid, firstOnly, offset) == Scan(data, size, valid, firstOnly, offset + 1)
  {
  }

  /** With less than a packet left the scan ends where it is. */
  lemma ScanAtEnd(data: seq<bv8>, size: nat, valid: seq<bv8> -> bool, firstOnly: bool, offset: nat)
    requires 0 < size && offset <= |data| < offset + size
    ensures Scan(data, size, valid, firstOnly, offset) == ScanResult([], offset)
  {
  }

  /**
   * A scan that has got to offset, having handled the packets at
   * `handled`: those and what the scan from offset finds make up the
   * whole scan from 0.
   */
  ghost predicate Midway(data: seq<bv8>, size: nat, valid: seq<bv8> -> bool, firstOnly: bool, offset: nat, handled: seq<nat>)
    requires 0 < size && offset <= |data|
  {
    var r := Scan(data, size, valid, firstOnly, 0);
    var rest := Scan(data, size, valid, firstOnly, offset);
    handled + rest.found == r.found && rest.end == r.end
  }

  /** Taking the valid packet at offset: the scan is midway after it, or (firstOnly) done. */
  lemma MidwayValid(data: seq<bv8>, size: nat, valid: seq<bv8> -> bool, firstOnly: bool, offset: nat, handled: seq<nat>)
    requires 0 < size && offset + size <= |data| && valid(data[offset..offset + size])
    requires Midway(data, size, valid, firstOnly, offset, handled)
    ensures firstOnly ==>
      handled + [offset] == Scan(data, size, valid, firstOnly, 0).found &&
      offset + size == Scan(data, size, valid, firstOnly, 0).end
    ensures !firstOnly ==> Midway(data, size, valid, firstOnly, offset + size, handled + [offset])
  {
    var next := ScanValidStep(data, size, valid, firstOnly, offset);
    assert (handled + [offset]) + next.found == handled + ([offset] + next.found);
  }

  /** Skipping the invalid byte at offset keeps the scan midway. */
  lemma MidwayInvalid(data: seq<bv8>, size: nat, valid: seq<bv8> -> bool, firstOnly: bool, offset: nat, handled: seq<nat>)
    requires 0 < size && offset + size <= |data| && !valid(data[offset..offset + size])
    requires Midway(data, size, valid, firstOnly, offset, handled)
    ensures Midway(data, size, valid, firstOnly, offset + 1, handled)
  {
    ScanInvalidStep(data, size, valid, firstOnly, offset);
  }

  /** With less than a packet left a midway scan is done. */
  lemma MidwayEnd(data: seq<bv8>, size: nat, valid: seq<bv8> -> bool, firstOnly: bool, offset: nat, handled: seq<nat>)
    requires 0 < size && offset <= |data| < offset + size
    requires Midway(data, size, valid, firstOnly, offset, handled)
    ensures handled == Scan(data, size, valid, firstOnly, 0).found && offset == Scan(data, size, valid, firstOnly, 0).end
  {
    ScanAtEnd(data, size, valid, firstOnly, offset);
  }

  /** A parse result: analog.mq as the meter's parser leaves it (-1 for none) and the value. */
  datatype Reading = Reading(mq: int, value: real)

  /** handle_packet's output: one measurement packet exactly when the parser set mq. */
  function Report(rd: Reading): (r: seq<Packet>)
    ensures |r| <= 1 && (r != [] <==> rd.mq != -1)
    ensures r != [] ==> r[0] == Measurement(rd.mq, rd.value)
  {
    if rd.mq != -1 then [Measurement(rd.mq, rd.value)] else []
  }

  /** The packets a run of handled packets at the given offsets sends, in order. */
  function Reports(data: seq<bv8>, found: seq<nat>, size: nat, parse: seq<bv8> -> Reading): (r: seq<Packet>)
    ensures |r| <= |found|
    decreases |found|
  {
    if found == [] then []
    else
      var o := found[|found| - 1];
      Reports(data, found[..|found| - 1], size, parse) +
      (if o + size <= |data| then Report(parse(data[o..o + size])) else [])
  }

  /** Every packet sent for handled packets is a measurement the parser gave an mq for. */
  lemma {:induction false} ReportsMeasurements(data: seq<bv8>, found: seq<nat>, size: nat, parse: seq<bv8> -> Reading)
    ensures forall i :: 0 <= i < |Reports(data, found, size, parse)| ==>
      Reports(data, found, size, parse)[i].Measurement? && Reports(data, found, size, parse)[i].mq != -1
    decreases |found|
  {
    if found != [] {
      ReportsMeasurements(data, found[..|found| - 1], size, parse);
    }
  }

  /** Adding one handled packet adds its report. */
  lemma ReportsSnoc(data: seq<bv8>, found: seq<nat>, o: nat, size: nat, parse: seq<bv8> -> Reading)
    requires o + size <= |data|
    ensures Reports(data, found + [o], size, parse) ==
            Reports(data, found, size, parse) + Report(parse(data[o..o + size]))
  {
    assert (found + [o])[..|found|] == found;
  }

  /** A slice inside a prefix is the same slice of the whole. */
  lemma SliceOfPrefix<T>(s: seq<T>, len: nat, i: nat, j: nat)
    requires i <= j <= len <= |s|
    ensures s[..len][i..j] == s[i..j]
  {
  }

  /**
   * The compaction loop: bytes [offset, len) move to the front in order;
   * the bytes after them stay as they were.
   */
  method Compact(buf: array<bv8>, len: nat, offset: nat)
    requires offset <= len <= buf.Length
    modifies buf
    ensures buf[..len - offset] == old(buf[offset..len])
    ensures buf[len - offset..] == old(buf[len - offset..])
  {
    var i := 0;
    while i < len - offset
      invariant i <= len - offset
      invariant forall k :: 0 <= k < i ==> buf[k] == old(buf[offset + k])
      invariant forall k :: i <= k < buf.Length ==> buf[k] == old(buf[k])
    {
      buf[i] := buf[offset + i];
      i := i + 1;
    }
  }
}
