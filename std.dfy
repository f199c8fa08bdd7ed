/**
 * The standard driver helpers of src/std.c: the driver context that
 * std_init installs, the header and end packets, the serial open / close /
 * stop helpers, and std_dev_clear's teardown of a driver's instance list.
 * The transport calls (serial_open, serial_close, serial_source_remove,
 * sr_session_send) and the driver callbacks are not modelled; their
 * return codes are inputs, and the order of the calls is recorded.
 */
module Std {
  import opened Common

  // ---------------------------------------------------------------
  // Session packets: std_session_send_df_header / _end
  // ---------------------------------------------------------------

  /**
   * std_session_send_df_header: a NULL prefix is refused before anything
   * is sent; otherwise the header goes to sr_session_send, whose negative
   * code is passed back. Gives the status and whether a header was sent.
   */
  function SendHeader(hasPrefix: bool, sendResult: Status): (r: (Status, bool))
    ensures !hasPrefix <==> r == (ErrArg, false)
    ensures hasPrefix ==> r.1 && (r.0 == Ok <==> !Negative(sendResult))
    ensures hasPrefix && Negative(sendResult) ==> r.0 == sendResult
  {
    if !hasPrefix then (ErrArg, false)
    else if Negative(sendResult) then (sendResult, true)
    else (Ok, true)
  }

  /** std_session_send_df_end: both the instance and the prefix must be given. */
  function SendEnd(hasSdi: bool, hasPrefix: bool, sendResult: Status): (r: (Status, bool))
    ensures !(hasSdi && hasPrefix) <==> r == (ErrArg, false)
    ensures hasSdi && hasPrefix ==> r.1 && (r.0 == Ok <==> !Negative(sendResult))
    ensures hasSdi && hasPrefix && Negative(sendResult) ==> r.0 == sendResult
  {
    if !hasSdi || !hasPrefix then (ErrArg, false)
    else if Negative(sendResult) then (sendResult, true)
    else (Ok, true)
  }

  // ---------------------------------------------------------------
  // The serial open / close / stop helpers
  // ---------------------------------------------------------------

  /** std_serial_dev_close on the status: only an open device with a port is closed. */
  function CloseStatus(hasConn: bool, status: DevStatus): (s: DevStatus)
    ensures s == Active ==> status == Active && !hasConn
    ensures s != status ==> status == Active && s == Inactive
  {
    if hasConn && status == Active then Inactive else status
  }

  /** Closing twice leaves the device as closing once does. */
  lemma CloseIdempotent(hasConn: bool, status: DevStatus)
    ensures CloseStatus(hasConn, CloseStatus(hasConn, status)) == CloseStatus(hasConn, status)
  {
  }

  /** The calls std_serial_dev_acquisition_stop makes, in order. */
  datatype StopStep = RemoveSource | CloseDevice | SendEndPacket

  /**
   * std_serial_dev_acquisition_stop: the arguments are checked, then the
   * source is removed, the device closed and the end packet sent, stopping
   * at the first step that returns a negative code. The end packet's own
   * result is not looked at. Gives the status and the calls made.
   */
  function StopSteps(hasPrefix: bool, status: DevStatus, removeResult: Status, closeResult: Status)
    : (r: (Status, seq<StopStep>))
    ensures !hasPrefix ==> r == (ErrArg, [])
    ensures hasPrefix && status != Active ==> r == (ErrDevClosed, [])
    ensures r.0 == Ok <==> hasPrefix && status == Active && !Negative(removeResult) && !Negative(closeResult)
    ensures r.0 == Ok ==> r.1 == [RemoveSource, CloseDevice, SendEndPacket]
    ensures r.1 != [] ==> r.1 <= [RemoveSource, CloseDevice, SendEndPacket]
  {
    if !hasPrefix then (ErrArg, [])
    else if status != Active then (ErrDevClosed, [])
    else if Negative(removeResult) then (removeResult, [RemoveSource])
    else if Negative(closeResult) then (closeResult, [RemoveSource, CloseDevice])
    else (Ok, [RemoveSource, CloseDevice, SendEndPacket])
  }

  /** The end packet is sent exactly when the source was removed and the device closed without error. */
  lemma StopEndsOnlyAfterClose(hasPrefix: bool, status: DevStatus, removeResult: Status, closeResult: Status)
    ensures var r := StopSteps(hasPrefix, status, removeResult, closeResult);
      (SendEndPacket in r.1 <==> hasPrefix && status == Active && !Negative(removeResult) && !Negative(closeResult)) &&
      (CloseDevice in r.1 <==> hasPrefix && status == Active && !Negative(removeResult))
  {
  }

  /** A device instance as the serial helpers see it (sdi->status, sdi->conn) and the packets it sent. */
  class SerialDevice {
    var status: DevStatus
    /** sdi->conn is set. */
    var hasConn: bool
    /** What was handed to sr_session_send. */
    var packets: seq<Packet>
    /** The calls the stop helper made, in order. */
    var steps: seq<StopStep>

    constructor (hasConn: bool)
      ensures status == Inactive && this.hasConn == hasConn && packets == [] && steps == []
    {
      status := Inactive;
      this.hasConn := hasConn;
      packets := [];
      steps := [];
    }

    /** std_session_send_df_header, with sr_session_send's result as sendResult. */
    method SendDfHeader(hasPrefix: bool, sendResult: Status) returns (st: Status)
      modifies this`packets
      ensures var r := SendHeader(hasPrefix, sendResult);
        st == r.0 && packets == old(packets) + (if r.1 then [Header] else [])
    {
      if !hasPrefix {
        return ErrArg;
      }
      packets := packets + [Header];
      if Negative(sendResult) {
        return sendResult;
      }
      st := Ok;
    }

    /** std_session_send_df_end on this instance. */
    method SendDfEnd(hasPrefix: bool, sendResult: Status) returns (st: Status)
      modifies this`packets
      ensures var r := SendEnd(true, hasPrefix, sendResult);
        st == r.0 && packets == old(packets) + (if r.1 then [End] else [])
    {
      if !hasPrefix {
        return ErrArg;
      }
      packets := packets + [End];
      if Negative(sendResult) {
        return sendResult;
      }
      st := Ok;
    }

    /** std_serial_dev_open, with serial_open's result as openResult. */
    method SerialDevOpen(openResult: Status) returns (st: Status)
      modifies this`status
      ensures openResult == Ok ==> st == Ok && status == Active
      ensures openResult != Ok ==> st == Err && status == old(status)
    {
      if openResult != Ok {
        return Err;
      }
      status := Active;
      st := Ok;
    }

    /** std_serial_dev_close: always SR_OK. */
    method SerialDevClose() returns (st: Status)
      modifies this`status
      ensures st == Ok && status == CloseStatus(hasConn, old(status))
    {
      if hasConn && status == Active {
        status := Inactive;
      }
      st := Ok;
    }

    /**
     * std_serial_dev_acquisition_stop, with the results of
     * serial_source_remove, of the driver's dev_close callback and of
     * sr_session_send as inputs.
     */
    method SerialDevAcquisitionStop(hasPrefix: bool, removeResult: Status, closeResult: Status, endResult: Status)
      returns (st: Status)
      modifies this`steps, this`packets
      ensures var r := StopSteps(hasPrefix, old(status), removeResult, closeResult);
        st == r.0 && steps == old(steps) + r.1 &&
        packets == old(packets) + (if SendEndPacket in r.1 then [End] else [])
    {
      if !hasPrefix {
        return ErrArg;
      }
      if status != Active {
        return ErrDevClosed;
      }
      steps := steps + [RemoveSource];
      if Negative(removeResult) {
        return removeResult;
      }
      steps := steps + [CloseDevice];
      if Negative(closeResult) {
        return closeResult;
      }
      steps := steps + [SendEndPacket];
      var _ := SendDfEnd(true, endResult);
      st := Ok;
    }
  }

  // ---------------------------------------------------------------
  // The driver context: std_init, std_dev_clear, std_dev_list
  // ---------------------------------------------------------------

  /** enum sr_instance_type */
  datatype InstType = InstUsb | InstSerial | InstScpi | InstUser | InstModbus

  /** One device instance of a driver's list: an identity, whether sdi->conn is set, and its transport. */
  datatype DevInst = DevInst(id: nat, hasConn: bool, instType: InstType)

  /** What std_dev_clear does to one instance, in order. */
  datatype ClearStep =
    | CloseInst(id: nat)                       // driver->dev_close(sdi)
    | FreeConn(id: nat, instType: InstType)    // sr_serial/usb_dev_inst_free, sr_scpi_free, sr_modbus_free
    | ClearPrivate(id: nat)                    // clear_private(sdi->priv)
    | FreePriv(id: nat)                        // g_free(sdi->priv)
    | FreeInst(id: nat)                        // sr_dev_inst_free(sdi)

  /** The connection is freed when there is one of a transport std_dev_clear knows. */
  predicate FreesConn(d: DevInst) {
    d.hasConn && d.instType != InstUser
  }

  /** The teardown of one instance. */
  function Teardown(d: DevInst, hasDevClose: bool, hasClearPrivate: bool): (r: seq<ClearStep>)
    ensures |r| >= 2 && r[|r| - 1] == FreeInst(d.id)
    ensures forall k :: 0 <= k < |r| ==> r[k].id == d.id
  {
    (if hasDevClose then [CloseInst(d.id)] else []) +
    (if FreesConn(d) then [FreeConn(d.id, d.instType)] else []) +
    (if hasClearPrivate then [ClearPrivate(d.id)] else [FreePriv(d.id)]) +
    [FreeInst(d.id)]
  }

  /** The loop of std_dev_clear over a list: NULL entries are skipped, every other one is torn down. */
  function ClearAll(l: seq<Option<DevInst>>, hasDevClose: bool, hasClearPrivate: bool): seq<ClearStep>
    decreases |l|
  {
    if l == [] then []
    else
      var init := ClearAll(l[..|l| - 1], hasDevClose, hasClearPrivate);
      var e := l[|l| - 1];
      init + (if e.Some? then Teardown(e.value, hasDevClose, hasClearPrivate) else [])
  }

  /** The freed instances, in list order. */
  function Freed(steps: seq<ClearStep>): seq<nat>
    decreases |steps|
  {
    if steps == [] then []
    else Freed(steps[..|steps| - 1]) + (if steps[|steps| - 1].FreeInst? then [steps[|steps| - 1].id] else [])
  }

  /** The identities of the non-NULL entries, in list order. */
  function Present(l: seq<Option<DevInst>>): seq<nat>
    decreases |l|
  {
    if l == [] then []
    else Present(l[..|l| - 1]) + (if l[|l| - 1].Some? then [l[|l| - 1].value.id] else [])
  }

  lemma {:induction false} FreedAppend(a: seq<ClearStep>, b: seq<ClearStep>)
    ensures Freed(a + b) == Freed(a) + Freed(b)
    decreases |b|
  {
    if b == [] {
      assert a + b == a;
    } else {
      assert (a + b)[..|a + b| - 1] == a + b[..|b| - 1];
      FreedAppend(a, b[..|b| - 1]);
    }
  }

  /** One teardown frees exactly its own instance. */
  lemma FreedTeardown(d: DevInst, hasDevClose: bool, hasClearPrivate: bool)
    ensures Freed(Teardown(d, hasDevClose, hasClearPrivate)) == [d.id]
  {
    var c := if hasDevClose then [CloseInst(d.id)] else [];
    var f := if FreesConn(d) then [FreeConn(d.id, d.instType)] else [];
    var p := if hasClearPrivate then [ClearPrivate(d.id)] else [FreePriv(d.id)];
    assert Freed(c) == [] by { if hasDevClose { assert c[..0] == []; } }
    assert Freed(f) == [] by { if FreesConn(d) { assert f[..0] == []; } }
    assert Freed(p) == [] by { assert p[..0] == []; }
    assert Freed([FreeInst(d.id)]) == [d.id] by { assert [FreeInst(d.id)][..0] == []; }
    FreedAppend(c, f);
    FreedAppend(c + f, p);
    FreedAppend(c + f + p, [FreeInst(d.id)]);
  }

  /** std_dev_clear frees every non-NULL instance once, in list order, and nothing else. */
  lemma {:induction false} ClearFreesEachOnce(l: seq<Option<DevInst>>, hasDevClose: bool, hasClearPrivate: bool)
    ensures Freed(ClearAll(l, hasDevClose, hasClearPrivate)) == Present(l)
    decreases |l|
  {
    if l != [] {
      var init := l[..|l| - 1];
      var e := l[|l| - 1];
      ClearFreesEachOnce(init, hasDevClose, hasClearPrivate);
      var t := if e.Some? then Teardown(e.value, hasDevClose, hasClearPrivate) else [];
      FreedAppend(ClearAll(init, hasDevClose, hasClearPrivate), t);
      if e.Some? {
        FreedTeardown(e.value, hasDevClose, hasClearPrivate);
      }
    }
  }

  /** One more entry of the list adds its teardown, or nothing for a NULL entry. */
  lemma ClearAllSnoc(l: seq<Option<DevInst>>, i: nat, hasDevClose: bool, hasClearPrivate: bool)
    requires i < |l|
    ensures ClearAll(l[..i + 1], hasDevClose, hasClearPrivate) ==
      ClearAll(l[..i], hasDevClose, hasClearPrivate) +
      (if l[i].Some? then Teardown(l[i].value, hasDevClose, hasClearPrivate) else [])
  {
    assert l[..i + 1][..i] == l[..i];
  }

  /** A NULL entry in the list. */
  predicate HasNull(l: seq<Option<DevInst>>) {
    exists k :: 0 <= k < |l| && l[k].None?
  }

  lemma HasNullSnoc(l: seq<Option<DevInst>>, i: nat)
    requires i < |l|
    ensures HasNull(l[..i + 1]) <==> HasNull(l[..i]) || l[i].None?
  {
    if HasNull(l[..i]) {
      var k :| 0 <= k < i && l[..i][k].None?;
      assert l[..i + 1][k].None?;
    }
    if l[i].None? {
      assert l[..i + 1][i].None?;
    }
  }

  /**
   * The loop of std_dev_clear: every entry is torn down in order, a NULL
   * one is skipped and turns the result into SR_ERR_BUG.
   */
  method ClearLoop(l: seq<Option<DevInst>>, hasDevClose: bool, hasClearPrivate: bool)
    returns (st: Status, done: seq<ClearStep>)
    ensures done == ClearAll(l, hasDevClose, hasClearPrivate)
    ensures st == ErrBug <==> HasNull(l)
    ensures st != ErrBug ==> st == Ok
  {
    st := Ok;
    done := [];
    var i := 0;
    while i < |l|
      invariant 0 <= i <= |l|
      invariant done == ClearAll(l[..i], hasDevClose, hasClearPrivate)
      invariant st == ErrBug <==> HasNull(l[..i])
      invariant st != ErrBug ==> st == Ok
    {
      HasNullSnoc(l, i);
      ClearAllSnoc(l, i, hasDevClose, hasClearPrivate);
      if l[i].None? {
        st := ErrBug;
      } else {
        done := done + Teardown(l[i].value, hasDevClose, hasClearPrivate);
      }
      i := i + 1;
    }
    assert l[..i] == l;
  }

  /** A driver (struct sr_dev_driver) and the context std_init gives it. */
  class Driver {
    /** The driver has a dev_close callback. */
    const hasDevClose: bool
    /** di->context is set. */
    var initialized: bool
    /** drvc->sr_ctx */
    var srCtx: nat
    /** drvc->instances; None stands for a NULL list entry. */
    var instances: seq<Option<DevInst>>
    /** What std_dev_clear did, in order. */
    var steps: seq<ClearStep>

    constructor (hasDevClose: bool)
      ensures this.hasDevClose == hasDevClose && !initialized && instances == [] && steps == []
    {
      this.hasDevClose := hasDevClose;
      initialized := false;
      srCtx := 0;
      instances := [];
      steps := [];
    }

    /** std_init: a fresh context holding srCtx and no instances. */
    method Init(srCtx: nat) returns (st: Status)
      modifies this`initialized, this`srCtx, this`instances
      ensures st == Ok && initialized && this.srCtx == srCtx && instances == []
    {
      initialized := true;
      this.srCtx := srCtx;
      instances := [];
      st := Ok;
    }

    /** std_dev_list: the instances of the context. */
    method DevList() returns (l: seq<Option<DevInst>>)
      requires initialized
      ensures l == instances
    {
      l := instances;
    }

    /**
     * std_dev_clear: without a context nothing happens; otherwise every
     * instance is closed and freed, a NULL entry is reported as a bug but
     * does not stop the loop, and the list ends empty.
     */
    method DevClear(hasClearPrivate: bool) returns (st: Status)
      modifies this`instances, this`steps
      ensures !initialized ==> st == Ok && instances == old(instances) && steps == old(steps)
      ensures initialized ==> (instances == [] &&
        steps == old(steps) + ClearAll(old(instances), hasDevClose, hasClearPrivate) &&
        (st == ErrBug <==> HasNull(old(instances))) && (st != ErrBug ==> st == Ok))
    {
      if !initialized {
        return Ok;
      }
      var done;
      st, done := ClearLoop(instances, hasDevClose, hasClearPrivate);
      steps := steps + done;
      instances := [];
    }
  }
}
