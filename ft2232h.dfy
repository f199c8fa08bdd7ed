/**
 * The sample forwarder of the FT2232H logic analyser
 * (src/hardware/ft2232h/protocol.c): each callback reads a block from the
 * FTDI chip, counts the bytes as samples (one byte per sample), and sends
 * them on, cutting the last block off at the sample limit.
 */
module Ft2232h {
  import opened Common

  /** G_IO_IN */
  const GIoIn: int := 1

  /** Acquisition state of one analyser (struct dev_context). */
  class Ft2232hDevice {
    var limitSamples: nat
    var samplesSent: nat
    var bytesReceived: nat
    /** devc->ftdic is set (the FTDI context is open). */
    var ftdiOpen: bool
    /** The session bus; the logic payload is the read buffer and is not modelled. */
    var packets: seq<Packet>
    /** dev_acquisition_stop was called. */
    var stopRequested: bool

    /** With a limit, no more than the limit has been sent. */
    ghost predicate Valid()
      reads this
    {
      limitSamples == 0 || samplesSent <= limitSamples
    }

    constructor (limitSamples: nat, ftdiOpen: bool)
      ensures Valid() && this.limitSamples == limitSamples && this.ftdiOpen == ftdiOpen
      ensures samplesSent == 0 && bytesReceived == 0 && packets == [] && !stopRequested
    {
      this.limitSamples := limitSamples;
      samplesSent := 0;
      bytesReceived := 0;
      this.ftdiOpen := ftdiOpen;
      packets := [];
      stopRequested := false;
    }

    /**
     * send_samples: k samples go out in one logic packet and move from
     * the received count to the sent count, their sum unchanged.
     */
    method SendSamples(k: nat)
      requires k <= bytesReceived
      modifies this`samplesSent, this`bytesReceived, this`packets
      ensures samplesSent == old(samplesSent) + k && bytesReceived == old(bytesReceived) - k
      ensures samplesSent + bytesReceived == old(samplesSent + bytesReceived)
      ensures packets == old(packets) + [LogicOfLength(1, k)]
    {
      packets := packets + [LogicOfLength(1, k)];
      samplesSent := samplesSent + k;
      bytesReceived := bytesReceived - k;
    }

    /**
     * ft2232h_receive_data, where bytesRead is what ftdi_read_data
     * returned (negative on error).
     */
    method ReceiveData(revents: int, bytesRead: int) returns (keep: bool)
      requires Valid()
      modifies this`samplesSent, this`bytesReceived, this`packets, this`stopRequested
      ensures Valid()
      ensures (revents != GIoIn && revents != 0) || !ftdiOpen || bytesRead == 0 ==>
        keep && samplesSent == old(samplesSent) && bytesReceived == old(bytesReceived) &&
        packets == old(packets) && stopRequested == old(stopRequested)
      ensures (revents == GIoIn || revents == 0) && ftdiOpen && bytesRead < 0 ==>
        !keep && stopRequested && samplesSent == old(samplesSent) && packets == old(packets)
      ensures (revents == GIoIn || revents == 0) && ftdiOpen && bytesRead > 0 ==>
        keep && samplesSent + bytesReceived == old(samplesSent + bytesReceived) + bytesRead
      ensures var limited := limitSamples != 0 && old(samplesSent + bytesReceived) + bytesRead >= limitSamples;
        (revents == GIoIn || revents == 0) && ftdiOpen && bytesRead > 0 && limited ==>
        samplesSent == limitSamples && stopRequested &&
        packets == old(packets) + [LogicOfLength(1, limitSamples - old(samplesSent))]
      ensures var limited := limitSamples != 0 && old(samplesSent + bytesReceived) + bytesRead >= limitSamples;
        (revents == GIoIn || revents == 0) && ftdiOpen && bytesRead > 0 && !limited ==>
        bytesReceived == 0 && stopRequested == old(stopRequested) &&
        packets == old(packets) + [LogicOfLength(1, old(bytesReceived) + bytesRead)]
    {
      if !(revents == GIoIn || revents == 0) {
        return true;
      }
      if !ftdiOpen {
        return true;
      }
      if bytesRead < 0 {
        stopRequested := true;
        return false;
      }
      if bytesRead == 0 {
        return true;
      }
      bytesReceived := bytesReceived + bytesRead;
      var n := samplesSent + bytesReceived;
      if limitSamples != 0 && n >= limitSamples {
        SendSamples(limitSamples - samplesSent);
        stopRequested := true;
        return true;
      } else {
        SendSamples(bytesReceived);
      }
      keep := true;
    }
  }
}
