/**
 * The receive side of the KERN scale driver
 * (src/hardware/kern-scale/protocol.c): the same receive buffer and
 * packet scan as the serial multimeters, without packet requests, so every
 * valid packet in the buffer is handled. Time is the monotonic clock in
 * microseconds, passed in as `now`.
 */
module KernScale {
  import opened Common
  import opened Scanner
  import SwLimits

  /** struct scale_info, as far as this code uses it. */
  datatype ScaleInfo = ScaleInfo(packetSize: nat, valid: seq<bv8> -> bool, parse: seq<bv8> -> Reading)

  /** Receive state of one scale (struct dev_context). */
  class ScaleDevice {
    const info: ScaleInfo
    /** devc->buf, SCALE_BUFSIZE bytes */
    const buf: array<bv8>
    var buflen: nat
    const limits: SwLimits.Limits
    /** The session bus. */
    var packets: seq<Packet>
    /** dev_acquisition_stop was called. */
    var stopRequested: bool

    ghost predicate Valid()
      reads this
    {
      buflen <= buf.Length && info.packetSize > 0
    }

    constructor (info: ScaleInfo, bufsize: nat, limits: SwLimits.Limits)
      requires info.packetSize > 0
      ensures Valid() && this.info == info && buf.Length == bufsize && fresh(buf) && this.limits == limits
      ensures buflen == 0 && packets == [] && !stopRequested
    {
      this.info := info;
      buf := new bv8[bufsize];
      buflen := 0;
      this.limits := limits;
      packets := [];
      stopRequested := false;
    }

    /** handle_packet: the parsed weight is sent and counted only when the parser set mq. */
    method HandlePacket(pkt: seq<bv8>)
      modifies this`packets, limits`samplesRead
      ensures packets == old(packets) + Report(info.parse(pkt))
      ensures limits.samplesRead == old(limits.samplesRead) + |Report(info.parse(pkt))|
    {
      var rd := info.parse(pkt);
      if rd.mq != -1 {
        packets := packets + [Measurement(rd.mq, rd.value)];
        limits.UpdateSamplesRead(1);
      }
    }

    /** The packets sent and samples counted for the handled packets, from the state at the start. */
    ghost predicate Sent(data: seq<bv8>, handled: seq<nat>, packets0: seq<Packet>, samples0: nat)
      reads this`packets, limits`samplesRead
    {
      var reports := Reports(data, handled, info.packetSize, info.parse);
      packets == packets0 + reports && limits.samplesRead == samples0 + |reports|
    }

    /**
     * The scan loop of handle_new_data over data == buf[..buflen]: every
     * valid packet is handled and skipped whole, anything else skips a byte.
     */
    method ScanPackets(ghost data: seq<bv8>) returns (offset: nat)
      requires Valid() && data == buf[..buflen]
      modifies this`packets, limits`samplesRead
      ensures var r := Scan(data, info.packetSize, info.valid, false, 0);
        offset == r.end &&
        packets == old(packets) + Reports(data, r.found, info.packetSize, info.parse) &&
        limits.samplesRead == old(limits.samplesRead) + |Reports(data, r.found, info.packetSize, info.parse)|
    {
      ghost var handled: seq<nat> := [];
      offset := 0;
      while offset + info.packetSize <= buflen
        invariant offset <= buflen == |data| && buf[..buflen] == data
        invariant Midway(data, info.packetSize, info.valid, false, offset, handled)
        invariant Sent(data, handled, old(packets), old(limits.samplesRead))
        decreases buflen - offset
      {
        offset, handled := ScanAt(data, offset, handled, old(packets), old(limits.samplesRead));
      }
      MidwayEnd(data, info.packetSize, info.valid, false, offset, handled);
    }

    /** One turn of the scan loop at offset. */
    method ScanAt(ghost data: seq<bv8>, offset: nat, ghost handled: seq<nat>, ghost packets0: seq<Packet>, ghost samples0: nat)
      returns (next: nat, ghost handled': seq<nat>)
      requires Valid() && data == buf[..buflen] && offset + info.packetSize <= buflen
      requires Midway(data, info.packetSize, info.valid, false, offset, handled)
      requires Sent(data, handled, packets0, samples0)
      modifies this`packets, limits`samplesRead
      ensures offset < next <= buflen
      ensures Midway(data, info.packetSize, info.valid, false, next, handled')
      ensures Sent(data, handled', packets0, samples0)
    {
      SliceOfPrefix(buf[..], buflen, offset, offset + info.packetSize);
      if info.valid(buf[offset..offset + info.packetSize]) {
        MidwayValid(data, info.packetSize, info.valid, false, offset, handled);
        ReportsSnoc(data, handled, offset, info.packetSize, info.parse);
        HandlePacket(buf[offset..offset + info.packetSize]);
        handled' := handled + [offset];
        next := offset + info.packetSize;
      } else {
        MidwayInvalid(data, info.packetSize, info.valid, false, offset, handled);
        handled' := handled;
        next := offset + 1;
      }
    }

    /**
     * handle_new_data: top the buffer up with what the port has (at most
     * the free room), handle every packet in it, and keep only the tail
     * that is shorter than a packet. A failed or empty read changes nothing.
     */
    method HandleNewData(read: PortRead)
      requires Valid()
      modifies buf, this`buflen, this`packets, limits`samplesRead
      ensures Valid()
      ensures Received(read, buf.Length - old(buflen)) == [] ==>
        buflen == old(buflen) && buf[..] == old(buf[..]) && packets == old(packets) &&
        limits.samplesRead == old(limits.samplesRead)
      ensures var data := old(buf[..buflen]) + Received(read, buf.Length - old(buflen));
        var r := Scan(data, info.packetSize, info.valid, false, 0);
        Received(read, buf.Length - old(buflen)) != [] ==>
          buf[..buflen] == data[r.end..] &&
          packets == old(packets) + Reports(data, r.found, info.packetSize, info.parse) &&
          limits.samplesRead == old(limits.samplesRead) + |Reports(data, r.found, info.packetSize, info.parse)|
      ensures Received(read, buf.Length - old(buflen)) != [] ==> buflen < info.packetSize
    {
      var got := Received(read, buf.Length - buflen);
      if got == [] {
        return;
      }
      ghost var data := buf[..buflen] + got;
      forall i | 0 <= i < |got| {
        buf[buflen + i] := got[i];
      }
      buflen := buflen + |got|;
      assert buf[..buflen] == data;
      var offset := ScanPackets(data);
      ScanEnds(data, info.packetSize, info.valid, false, 0);
      Compact(buf, buflen, offset);
      buflen := buflen - offset;
    }

    /**
     * kern_scale_receive_data: new bytes are handled, then the acquisition
     * is stopped once the limits are reached; the source is always kept.
     */
    method ReceiveData(dataIn: bool, read: PortRead, now: nat) returns (keep: bool)
      requires Valid()
      modifies buf, this`buflen, this`packets, limits`samplesRead, this`stopRequested
      ensures Valid() && keep
      ensures !dataIn ==>
        buflen == old(buflen) && buf[..] == old(buf[..]) && packets == old(packets) &&
        limits.samplesRead == old(limits.samplesRead)
      ensures stopRequested == (old(stopRequested) || limits.Check(now))
    {
      if dataIn {
        HandleNewData(read);
      }
      if limits.Check(now) {
        stopRequested := true;
      }
      keep := true;
    }
  }
}
