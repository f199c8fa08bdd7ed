/**
 * The software acquisition limits record shared by meter-style drivers
 * (struct sr_sw_limits): a sample limit, a time limit kept in
 * microseconds, the number of samples read so far and the start time.
 * Time is the monotonic clock in microseconds, passed in as `now`.
 */
module SwLimits {
  import opened Common

  /** 2^64: the uint64 fields of the record wrap modulo this. */
  const Two64: nat := 0x1_0000_0000_0000_0000

  class Limits {
    var limitSamples: nat
    /** The time limit in microseconds (the key's millisecond value times 1000, modulo 2^64). */
    var limitMsec: nat
    var samplesRead: nat
    var startTime: nat

    /** The record lives inside a zero-allocated device context. */
    constructor ()
      ensures limitSamples == 0 && limitMsec == 0 && samplesRead == 0 && startTime == 0
    {
      limitSamples, limitMsec, samplesRead, startTime := 0, 0, 0, 0;
    }

    /** sr_sw_limits_init: both limits off. */
    method Init()
      modifies this`limitSamples, this`limitMsec
      ensures limitSamples == 0 && limitMsec == 0
    {
      limitSamples := 0;
      limitMsec := 0;
    }

    /** sr_sw_limits_config_get: the time limit is reported back in milliseconds. */
    method ConfigGet(key: Key) returns (st: Status, data: Option<Variant>)
      ensures key == LimitSamples ==> st == Ok && data == Some(VUint64(limitSamples))
      ensures key == LimitMsec ==> st == Ok && data == Some(VUint64(limitMsec / 1000))
      ensures key != LimitSamples && key != LimitMsec ==> st == ErrNa && data == None
    {
      match key {
        case LimitSamples => st, data := Ok, Some(VUint64(limitSamples));
        case LimitMsec => st, data := Ok, Some(VUint64(limitMsec / 1000));
        case _ => st, data := ErrNa, None;
      }
    }

    /**
     * sr_sw_limits_config_set: one limit is stored, the other is left as it
     * was; an unknown key changes nothing. The time limit is the uint64
     * product of the value and 1000, so it reads back as the value only
     * while that product fits 64 bits.
     */
    method ConfigSet(key: Key, value: nat) returns (st: Status)
      requires value < Two64
      modifies this`limitSamples, this`limitMsec
      ensures key == LimitSamples ==> st == Ok && limitSamples == value && limitMsec == old(limitMsec)
      ensures key == LimitMsec ==> st == Ok && limitMsec == value * 1000 % Two64 && limitSamples == old(limitSamples)
      ensures key == LimitMsec ==> (limitMsec / 1000 == value <==> value * 1000 < Two64)
      ensures key != LimitSamples && key != LimitMsec ==>
        st == ErrNa && limitSamples == old(limitSamples) && limitMsec == old(limitMsec)
    {
      match key {
        case LimitSamples => limitSamples := value; st := Ok;
        case LimitMsec =>
          limitMsec := value * 1000 % Two64;
          MsecRoundTrip(value);
          st := Ok;
        case _ => st := ErrNa;
      }
    }

    /** sr_sw_limits_acquisition_start */
    method AcquisitionStart(now: nat)
      modifies this`samplesRead, this`startTime
      ensures samplesRead == 0 && startTime == now
    {
      samplesRead := 0;
      startTime := now;
    }

    /**
     * sr_sw_limits_check: the sample limit is reached, or more than the
     * time limit has passed since the start.
     */
    function Check(now: nat): (r: bool)
      reads this
      ensures r <==> ((limitSamples != 0 && samplesRead >= limitSamples) ||
                      (limitMsec != 0 && now > startTime && now - startTime > limitMsec))
    {
      if limitSamples != 0 && samplesRead >= limitSamples then true
      else if limitMsec != 0 then now > startTime && now - startTime > limitMsec
      else false
    }

    /** sr_sw_limits_update_samples_read */
    method UpdateSamplesRead(n: nat)
      modifies this`samplesRead
      ensures samplesRead == old(samplesRead) + n
    {
      samplesRead := samplesRead + n;
    }
  }

  /**
   * The millisecond value comes back from the wrapped product exactly when
   * the product did not wrap: past that, the stored limit is below 2^64,
   * so its thousandth is below the value.
   */
  lemma MsecRoundTrip(value: nat)
    requires value < Two64
    ensures (value * 1000 % Two64) / 1000 == value <==> value * 1000 < Two64
  {
    var m := value * 1000 % Two64;
    if value * 1000 < Two64 {
      assert m == value * 1000;
    } else {
      assert m < Two64;
      assert m / 1000 * 1000 <= m;
      assert value * 1000 >= Two64;
    }
  }

  /** With both limits off the check never fires. */
  lemma UnlimitedNeverStops(l: Limits, now: nat)
    requires l.limitSamples == 0 && l.limitMsec == 0
    ensures !l.Check(now)
  {
  }

  /** Once the check fires it keeps firing as time goes on. */
  lemma CheckStaysTrue(l: Limits, now: nat, later: nat)
    requires now <= later && l.Check(now)
    ensures l.Check(later)
  {
  }
}
