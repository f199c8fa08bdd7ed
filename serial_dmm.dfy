/**
 * The receive side of the generic serial multimeter driver
 * (src/hardware/serial-dmm/protocol.c): a fixed-size receive buffer that
 * each callback tops up from the port, scans for meter packets and
 * compacts, a request pacer for meters that only answer when asked, and
 * the software limits that end the acquisition. Time is the monotonic
 * clock in microseconds, passed in as `now` (one reading per callback).
 */
module SerialDmm {
  import opened Common
  import opened Scanner
  import SwLimits

  /**
   * struct dmm_info, as far as this code uses it: the packet size, whether
   * the meter needs a request per packet and its pacing in milliseconds,
   * and the meter-specific validity check and parser.
   */
  datatype DmmInfo = DmmInfo(
    packetSize: nat,
    hasRequest: bool,
    reqTimeoutMs: nat,
    reqDelayMs: nat,
    valid: seq<bv8> -> bool,
    parse: seq<bv8> -> Reading)

  /** What req_packet did: its return value, the new req_next_at, and whether a request was written. */
  datatype ReqOutcome = ReqOutcome(st: Status, nextAt: nat, sent: bool)

  /**
   * req_packet at time now, where reqResult is what the meter's
   * packet_request returns (negative on failure).
   */
  function ReqPacket(d: DmmInfo, nextAt: nat, now: nat, reqResult: int): (r: ReqOutcome)
    ensures !d.hasRequest || (nextAt != 0 && nextAt > now) ==> r == ReqOutcome(Ok, nextAt, false)
    ensures d.hasRequest && (nextAt == 0 || nextAt <= now) ==> r.sent
    ensures r.sent && reqResult < 0 ==> r.st == Failed(reqResult) && r.nextAt == nextAt
    ensures r.sent && reqResult >= 0 ==>
      r.st == Ok && r.nextAt == (if d.reqTimeoutMs > 0 then now + d.reqTimeoutMs * 1000 else nextAt)
  {
    if !d.hasRequest then ReqOutcome(Ok, nextAt, false)
    else if nextAt != 0 && nextAt > now then ReqOutcome(Ok, nextAt, false)
    else if reqResult < 0 then ReqOutcome(Failed(reqResult), nextAt, true)
    else ReqOutcome(Ok, if d.reqTimeoutMs > 0 then now + d.reqTimeoutMs * 1000 else nextAt, true)
  }

  /** After a valid packet of a request-driven meter: req_next_at is pushed on by the delay, then req_packet. */
  function AfterPacket(d: DmmInfo, nextAt: nat, now: nat, reqResult: int): ReqOutcome
  {
    ReqPacket(d, if d.reqTimeoutMs > 0 || d.reqDelayMs > 0 then now + d.reqDelayMs * 1000 else nextAt, now, reqResult)
  }

  /** Where req_next_at and the count of written requests stand after k handled packets. */
  datatype Pacing = Pacing(nextAt: nat, sent: nat)

  function PacingAfter(d: DmmInfo, nextAt: nat, now: nat, reqResult: int, k: nat): (r: Pacing)
    ensures r.sent <= k
    decreases k
  {
    if k == 0 then Pacing(nextAt, 0)
    else
      var p := PacingAfter(d, nextAt, now, reqResult, k - 1);
      var o := AfterPacket(d, p.nextAt, now, reqResult);
      Pacing(o.nextAt, p.sent + if o.sent then 1 else 0)
  }

  /** One more handled packet: the pacing step after the first k. */
  lemma PacingStep(d: DmmInfo, nextAt: nat, now: nat, reqResult: int, k: nat)
    ensures var p := PacingAfter(d, nextAt, now, reqResult, k);
      var o := AfterPacket(d, p.nextAt, now, reqResult);
      PacingAfter(d, nextAt, now, reqResult, k + 1) == Pacing(o.nextAt, p.sent + if o.sent then 1 else 0)
  {
  }

  /**
   * A request-driven meter with a request delay writes no request while
   * scanning: each packet puts req_next_at a delay into the future, past
   * the check in req_packet.
   */
  lemma {:induction false} DelayHoldsRequests(d: DmmInfo, nextAt: nat, now: nat, reqResult: int, k: nat)
    requires d.hasRequest && d.reqDelayMs > 0 && k > 0
    ensures PacingAfter(d, nextAt, now, reqResult, k) == Pacing(now + d.reqDelayMs * 1000, 0)
    decreases k
  {
    if k > 1 {
      DelayHoldsRequests(d, nextAt, now, reqResult, k - 1);
    }
  }

  /**
   * A request-driven meter with a timeout and no delay asks for the next
   * packet after every packet it handles.
   */
  lemma {:induction false} TimeoutRequestsEach(d: DmmInfo, nextAt: nat, now: nat, reqResult: int, k: nat)
    requires d.hasRequest && d.reqDelayMs == 0 && d.reqTimeoutMs > 0
    ensures PacingAfter(d, nextAt, now, reqResult, k).sent == k
    decreases k
  {
    if k > 0 {
      TimeoutRequestsEach(d, nextAt, now, reqResult, k - 1);
    }
  }

  /** Receive state of one meter (struct dev_context). */
  class DmmDevice {
    const info: DmmInfo
    /** devc->buf, DMM_BUFSIZE bytes */
    const buf: array<bv8>
    var buflen: nat
    var reqNextAt: nat
    const limits: SwLimits.Limits
    /** The session bus. */
    var packets: seq<Packet>
    /** The packet requests written to the port. */
    var requests: nat
    /** dev_acquisition_stop was called. */
    var stopRequested: bool

    ghost predicate Valid()
      reads this
    {
      buflen <= buf.Length && info.packetSize > 0
    }

    constructor (info: DmmInfo, bufsize: nat, limits: SwLimits.Limits)
      requires info.packetSize > 0
      ensures Valid() && this.info == info && buf.Length == bufsize && fresh(buf) && this.limits == limits
      ensures buflen == 0 && reqNextAt == 0 && packets == [] && requests == 0 && !stopRequested
    {
      this.info := info;
      buf := new bv8[bufsize];
      buflen := 0;
      reqNextAt := 0;
      this.limits := limits;
      packets := [];
      requests := 0;
      stopRequested := false;
    }

    /** req_packet, with the request's result as an input. */
    method RequestPacket(now: nat, reqResult: int) returns (st: Status)
      modifies this`reqNextAt, this`requests
      ensures var o := ReqPacket(info, old(reqNextAt), now, reqResult);
        st == o.st && reqNextAt == o.nextAt && requests == old(requests) + (if o.sent then 1 else 0)
    {
      if !info.hasRequest {
        return Ok;
      }
      if reqNextAt != 0 && reqNextAt > now {
        return Ok;
      }
      requests := requests + 1;
      if reqResult < 0 {
        return Failed(reqResult);
      }
      if info.reqTimeoutMs > 0 {
        reqNextAt := now + info.reqTimeoutMs * 1000;
      }
      st := Ok;
    }

    /** handle_packet: the parsed reading is sent and counted only when the parser set mq. */
    method HandlePacket(pkt: seq<bv8>)
      modifies this`packets, limits`samplesRead
      ensures packets == old(packets) + Report(info.parse(pkt))
      ensures limits.samplesRead == old(limits.samplesRead) + |Report(info.parse(pkt))|
    {
      var rd := info.parse(pkt);
      if rd.mq != -1 {
        packets := packets + [Measurement(rd.mq, rd.value)];
        limits.UpdateSamplesRead(1);
      }
    }

    /**
     * How far the scan of data has got: the packets handled so far, then
     * what the rest of the scan from offset will find, make up the whole
     * scan; once stopped (after the one packet of a meter without
     * requests) the handled packets are the whole scan.
     */
    ghost predicate Progress(data: seq<bv8>, offset: nat, handled: seq<nat>, stopped: bool)
      requires info.packetSize > 0 && offset <= |data|
    {
      var r := Scan(data, info.packetSize, info.valid, !info.hasRequest, 0);
      if stopped then handled == r.found && offset == r.end
      else Midway(data, info.packetSize, info.valid, !info.hasRequest, offset, handled) && (!info.hasRequest ==> handled == [])
    }

    /** The packets sent and samples counted for the handled packets, from the state at the start. */
    ghost predicate Sent(data: seq<bv8>, handled: seq<nat>, packets0: seq<Packet>, samples0: nat)
      reads this`packets, limits`samplesRead
    {
      var reports := Reports(data, handled, info.packetSize, info.parse);
      packets == packets0 + reports && limits.samplesRead == samples0 + |reports|
    }

    /** req_next_at and the written requests after k paced packets, from the state at the start. */
    ghost predicate Paced(k: nat, nextAt0: nat, requests0: nat, now: nat, reqResult: int)
      reads this`reqNextAt, this`requests
    {
      var p := PacingAfter(info, nextAt0, now, reqResult, k);
      reqNextAt == p.nextAt && requests == requests0 + p.sent
    }

    /** What handling `handled` leaves: its packets, and the pacing of a request-driven meter. */
    ghost predicate Effects(data: seq<bv8>, handled: seq<nat>, packets0: seq<Packet>, samples0: nat,
                            nextAt0: nat, requests0: nat, now: nat, reqResult: int)
      reads this`packets, limits`samplesRead, this`reqNextAt, this`requests
    {
      Sent(data, handled, packets0, samples0) &&
      Paced(if info.hasRequest then |handled| else 0, nextAt0, requests0, now, reqResult)
    }

    /**
     * The scan loop of handle_new_data over data == buf[..buflen]: a meter
     * without requests stops after its first valid packet; a
     * request-driven one paces a request after each.
     */
    method ScanPackets(ghost data: seq<bv8>, now: nat, reqResult: int) returns (offset: nat)
      requires Valid() && data == buf[..buflen]
      modifies this`packets, limits`samplesRead, this`reqNextAt, this`requests
      ensures var r := Scan(data, info.packetSize, info.valid, !info.hasRequest, 0);
        offset == r.end &&
        packets == old(packets) + Reports(data, r.found, info.packetSize, info.parse) &&
        limits.samplesRead == old(limits.samplesRead) + |Reports(data, r.found, info.packetSize, info.parse)|
      ensures var r := Scan(data, info.packetSize, info.valid, !info.hasRequest, 0);
        var p := PacingAfter(info, old(reqNextAt), now, reqResult, if info.hasRequest then |r.found| else 0);
        reqNextAt == p.nextAt && requests == old(requests) + p.sent
    {
      ghost var handled: seq<nat> := [];
      var stopped := false;
      offset := 0;
      while offset + info.packetSize <= buflen
        invariant offset <= buflen == |data| && buf[..buflen] == data
        invariant Progress(data, offset, handled, stopped) && !stopped
        invariant Effects(data, handled, old(packets), old(limits.samplesRead), old(reqNextAt), old(requests), now, reqResult)
        decreases buflen - offset
      {
        offset, handled, stopped := ScanAt(data, offset, handled, now, reqResult,
                                           old(packets), old(limits.samplesRead), old(reqNextAt), old(requests));
        if stopped {
          break;
        }
      }
      if !stopped {
        MidwayEnd(data, info.packetSize, info.valid, !info.hasRequest, offset, handled);
      }
      assert handled == Scan(data, info.packetSize, info.valid, !info.hasRequest, 0).found;
    }

    /**
     * One turn of the scan loop at offset: a valid packet is handled and
     * skipped whole (and, for a meter without requests, ends the scan);
     * anything else skips one byte.
     */
    method ScanAt(ghost data: seq<bv8>, offset: nat, ghost handled: seq<nat>, now: nat, reqResult: int,
                  ghost packets0: seq<Packet>, ghost samples0: nat, ghost nextAt0: nat, ghost requests0: nat)
      returns (next: nat, ghost handled': seq<nat>, stopped: bool)
      requires Valid() && data == buf[..buflen] && offset + info.packetSize <= buflen
      requires Progress(data, offset, handled, false)
      requires Effects(data, handled, packets0, samples0, nextAt0, requests0, now, reqResult)
      modifies this`packets, limits`samplesRead, this`reqNextAt, this`requests
      ensures offset < next <= buflen
      ensures Progress(data, next, handled', stopped)
      ensures Effects(data, handled', packets0, samples0, nextAt0, requests0, now, reqResult)
    {
      SliceOfPrefix(buf[..], buflen, offset, offset + info.packetSize);
      if info.valid(buf[offset..offset + info.packetSize]) {
        ProgressValid(data, offset, handled);
        TakePacket(data, offset, handled, now, reqResult, packets0, samples0, nextAt0, requests0);
        handled' := handled + [offset];
        next := offset + info.packetSize;
        stopped := !info.hasRequest;
      } else {
        ProgressInvalid(data, offset, handled);
        handled' := handled;
        next := offset + 1;
        stopped := false;
      }
    }

    /** A valid packet at offset is handled and the scan goes on after it (or stops, for a meter without requests). */
    lemma ProgressValid(data: seq<bv8>, offset: nat, handled: seq<nat>)
      requires info.packetSize > 0 && offset + info.packetSize <= |data|
      requires info.valid(data[offset..offset + info.packetSize])
      requires Progress(data, offset, handled, false)
      ensures Progress(data, offset + info.packetSize, handled + [offset], !info.hasRequest)
    {
      MidwayValid(data, info.packetSize, info.valid, !info.hasRequest, offset, handled);
    }

    /** An invalid packet at offset costs the scan one byte. */
    lemma ProgressInvalid(data: seq<bv8>, offset: nat, handled: seq<nat>)
      requires info.packetSize > 0 && offset + info.packetSize <= |data|
      requires !info.valid(data[offset..offset + info.packetSize])
      requires Progress(data, offset, handled, false)
      ensures Progress(data, offset + 1, handled, false)
    {
      MidwayInvalid(data, info.packetSize, info.valid, !info.hasRequest, offset, handled);
    }

    /**
     * One valid packet at offset: it is handled, and a request-driven meter
     * pushes req_next_at on by the delay and may ask for the next packet.
     */
    method TakePacket(ghost data: seq<bv8>, offset: nat, ghost handled: seq<nat>, now: nat, reqResult: int,
                      ghost packets0: seq<Packet>, ghost samples0: nat, ghost nextAt0: nat, ghost requests0: nat)
      requires Valid() && data == buf[..buflen] && offset + info.packetSize <= buflen
      requires Effects(data, handled, packets0, samples0, nextAt0, requests0, now, reqResult)
      modifies this`packets, limits`samplesRead, this`reqNextAt, this`requests
      ensures Effects(data, handled + [offset], packets0, samples0, nextAt0, requests0, now, reqResult)
    {
      HandleAt(data, offset, handled, packets0, samples0);
      if info.hasRequest {
        PaceAfterPacket(|handled|, now, reqResult, nextAt0, requests0);
      }
    }

    /** handle_packet on the packet at offset adds its report to those of the packets before. */
    method HandleAt(ghost data: seq<bv8>, offset: nat, ghost handled: seq<nat>, ghost packets0: seq<Packet>, ghost samples0: nat)
      requires Valid() && data == buf[..buflen] && offset + info.packetSize <= buflen
      requires Sent(data, handled, packets0, samples0)
      modifies this`packets, limits`samplesRead
      ensures Sent(data, handled + [offset], packets0, samples0)
    {
      ReportsSnoc(data, handled, offset, info.packetSize, info.parse);
      SliceOfPrefix(buf[..], buflen, offset, offset + info.packetSize);
      HandlePacket(buf[offset..offset + info.packetSize]);
    }

    /** The request step after the (k+1)-th packet: req_next_at is pushed on by the delay, then req_packet. */
    method PaceAfterPacket(ghost k: nat, now: nat, reqResult: int, ghost nextAt0: nat, ghost requests0: nat)
      requires Paced(k, nextAt0, requests0, now, reqResult)
      modifies this`reqNextAt, this`requests
      ensures Paced(k + 1, nextAt0, requests0, now, reqResult)
    {
      PacingStep(info, nextAt0, now, reqResult, k);
      if info.reqTimeoutMs > 0 || info.reqDelayMs > 0 {
        reqNextAt := now + info.reqDelayMs * 1000;
      }
      var st := RequestPacket(now, reqResult);
    }

    /**
     * handle_new_data: top the buffer up with what the port has (at most
     * the free room), scan it, and move the unscanned tail to the front.
     * A failed or empty read changes nothing.
     */
    method HandleNewData(read: PortRead, now: nat, reqResult: int)
      requires Valid()
      modifies buf, this`buflen, this`packets, limits`samplesRead, this`reqNextAt, this`requests
      ensures Valid()
      ensures Received(read, buf.Length - old(buflen)) == [] ==>
        buflen == old(buflen) && buf[..] == old(buf[..]) && packets == old(packets) &&
        limits.samplesRead == old(limits.samplesRead) && reqNextAt == old(reqNextAt) && requests == old(requests)
      ensures var data := old(buf[..buflen]) + Received(read, buf.Length - old(buflen));
        var r := Scan(data, info.packetSize, info.valid, !info.hasRequest, 0);
        var p := PacingAfter(info, old(reqNextAt), now, reqResult, if info.hasRequest then |r.found| else 0);
        Received(read, buf.Length - old(buflen)) != [] ==>
          buf[..buflen] == data[r.end..] &&
          packets == old(packets) + Reports(data, r.found, info.packetSize, info.parse) &&
          limits.samplesRead == old(limits.samplesRead) + |Reports(data, r.found, info.packetSize, info.parse)| &&
          reqNextAt == p.nextAt && requests == old(requests) + p.sent
      ensures info.hasRequest ==> buflen < info.packetSize || buflen == old(buflen)
    {
      var got := Received(read, buf.Length - buflen);
      if got == [] {
        return;
      }
      ghost var data := buf[..buflen] + got;
      forall i | 0 <= i < |got| {
        buf[buflen + i] := got[i];
      }
      buflen := buflen + |got|;
      assert buf[..buflen] == data;
      var offset := ScanPackets(data, now, reqResult);
      ScanEnds(data, info.packetSize, info.valid, !info.hasRequest, 0);
      Compact(buf, buflen, offset);
      buflen := buflen - offset;
    }

    /**
     * receive_data: new bytes are handled; on a timeout a request-driven
     * meter is asked again, and a failed request ends the source (FALSE).
     * Otherwise the acquisition is stopped once the limits are reached.
     */
    method ReceiveData(dataIn: bool, read: PortRead, now: nat, reqResult: int) returns (keep: bool)
      requires Valid()
      modifies buf, this`buflen, this`packets, limits`samplesRead, this`reqNextAt, this`requests, this`stopRequested
      ensures Valid()
      ensures !dataIn ==> buflen == old(buflen) && buf[..] == old(buf[..]) && packets == old(packets)
      ensures !dataIn && info.hasRequest ==>
        var o := ReqPacket(info, old(reqNextAt), now, reqResult);
        reqNextAt == o.nextAt && requests == old(requests) + (if o.sent then 1 else 0)
      ensures var failed := !dataIn && info.hasRequest && ReqPacket(info, old(reqNextAt), now, reqResult).st != Ok;
        (failed ==> !keep && stopRequested == old(stopRequested)) &&
        (!failed ==> keep && stopRequested == (old(stopRequested) || limits.Check(now)))
    {
      if dataIn {
        HandleNewData(read, now, reqResult);
      } else if info.hasRequest {
        var st := RequestPacket(now, reqResult);
        if st != Ok {
          return false;
        }
      }
      if limits.Check(now) {
        stopRequested := true;
      }
      keep := true;
    }
  }
}
