/**
 * The pure decisions of the sampling engine: the period clamp of `batch`,
 * the deadline rule of the timed worker, the result tables of `flush` and
 * `injectEvent`, and the `readBool` decoder, with the schedule of samples a
 * timed worker produces from a series of clock readings.
 */
module SensorLogic {
  import opened SensorTypes

  /**
   * `std::clamp(v, lo, hi)` as the library computes it:
   * `v < lo ? lo : hi < v ? hi : v`.
   */
  function Clamp(v: int, lo: int, hi: int): (r: int)
    ensures r == v || r == lo || r == hi
    ensures lo <= hi ==> lo <= r <= hi
    ensures lo <= v <= hi ==> r == v
    ensures v < lo ==> r == lo
    ensures lo <= v && hi < v ==> r == hi
  {
    if v < lo then lo else if hi < v then hi else v
  }

  /** A clamped value is a fixed point: clamping it again changes nothing. */
  lemma ClampIdempotent(v: int, lo: int, hi: int)
    requires lo <= hi
    ensures Clamp(Clamp(v, lo, hi), lo, hi) == Clamp(v, lo, hi)
  {
  }

  /** The outcome of one pass of the timed worker while it is sampling. */
  datatype Deadline = Deadline(sample: bool, lastSampleTime: int, wait: int)

  /**
   * The timed worker's deadline rule: the next sample is due at
   * `last + period`; when `now` has reached it, a sample is taken and the
   * new reference time is `now`, the clock reading, not the time the
   * delivery completes. The wait is measured from `now` to the next deadline.
   */
  function NextDeadline(last: int, period: int, now: int): (d: Deadline)
    ensures d.sample <==> now >= last + period
    ensures d.lastSampleTime == (if d.sample then now else last)
    ensures d.sample ==> d.wait == period
    ensures !d.sample ==> 0 < d.wait
    ensures !d.sample && last <= now ==> d.wait <= period
    ensures d.lastSampleTime + period == now + d.wait
  {
    var next := last + period;
    if now >= next then
      var last' := now;
      Deadline(true, last', last' + period - now)
    else
      Deadline(false, last, next - now)
  }

  /**
   * The clock readings at which a timed worker that keeps sampling (enabled,
   * normal mode, no stop) takes a sample, when its successive passes read
   * the clock as `nows`, starting from reference time `last`.
   */
  function SampleTimes(last: int, period: int, nows: seq<int>): (ts: seq<int>)
    ensures |ts| <= |nows|
    decreases |nows|
  {
    if nows == [] then []
    else
      var d := NextDeadline(last, period, nows[0]);
      (if d.sample then [nows[0]] else []) + SampleTimes(d.lastSampleTime, period, nows[1..])
  }

  /** The last sample time, or `last` when no sample was taken. */
  function LastOr(ts: seq<int>, last: int): int {
    if ts == [] then last else ts[|ts| - 1]
  }

  /**
   * Samples are spaced by at least one period: the first comes no earlier
   * than `last + period`, each later one no earlier than its predecessor
   * plus `period`.
   */
  lemma {:induction false} SampleTimesSpaced(last: int, period: int, nows: seq<int>)
    ensures var ts := SampleTimes(last, period, nows);
      (|ts| > 0 ==> ts[0] >= last + period) &&
      forall k :: 0 <= k < |ts| - 1 ==> ts[k + 1] >= ts[k] + period
    decreases |nows|
  {
    if nows != [] {
      var d := NextDeadline(last, period, nows[0]);
      var rest := SampleTimes(d.lastSampleTime, period, nows[1..]);
      SampleTimesSpaced(d.lastSampleTime, period, nows[1..]);
      if d.sample {
        var ts := SampleTimes(last, period, nows);
        assert ts == [nows[0]] + rest;
        forall k | 0 <= k < |ts| - 1
          ensures ts[k + 1] >= ts[k] + period
        {
          if k > 0 {
            assert ts[k] == rest[k - 1] && ts[k + 1] == rest[k];
          }
        }
      }
    }
  }

  /** Every sample time is one of the clock readings, never a later delivery time. */
  lemma {:induction false} SampleTimesAreReadings(last: int, period: int, nows: seq<int>)
    ensures forall t :: t in SampleTimes(last, period, nows) ==> t in nows
    decreases |nows|
  {
    if nows != [] {
      var d := NextDeadline(last, period, nows[0]);
      SampleTimesAreReadings(d.lastSampleTime, period, nows[1..]);
      forall t | t in SampleTimes(d.lastSampleTime, period, nows[1..])
        ensures t in nows
      {
        assert t in nows[1..];
      }
    }
  }

  /**
   * No drift: when the worker wakes exactly at each deadline, every
   * reading is sampled, so the k-th sample is taken at `last + k * period`.
   */
  lemma {:induction false} ExactWakeupsAllSampled(last: int, period: int, nows: seq<int>)
    requires forall k :: 0 <= k < |nows| ==> nows[k] == last + (k + 1) * period
    ensures SampleTimes(last, period, nows) == nows
    decreases |nows|
  {
    if nows != [] {
      var d := NextDeadline(last, period, nows[0]);
      assert d.sample && d.lastSampleTime == last + period;
      forall k | 0 <= k < |nows[1..]|
        ensures nows[1..][k] == d.lastSampleTime + (k + 1) * period
      {
        calc {
          nows[1..][k];
          nows[k + 1];
          last + (k + 2) * period;
          { assert (k + 2) * period == period + (k + 1) * period; }
          last + period + (k + 1) * period;
        }
      }
      ExactWakeupsAllSampled(d.lastSampleTime, period, nows[1..]);
      assert nows == [nows[0]] + nows[1..];
    }
  }

  /** What a control call answers and what it posts to the callback. */
  datatype Reply = Reply(result: Result, posted: seq<Delivery>)

  /**
   * `Sensor::flush`: a disabled sensor answers BAD_VALUE and posts nothing;
   * an enabled one answers OK and posts one flush-complete meta event of its
   * own handle, flagged as a wake-up delivery iff the sensor is a wake-up sensor.
   */
  function FlushReply(enabled: bool, info: SensorInfo): (r: Reply)
    ensures r.result == Ok <==> enabled
    ensures !enabled ==> r.result == BadValue && r.posted == []
    ensures enabled ==>
      && |r.posted| == 1
      && |r.posted[0].events| == 1
      && r.posted[0].events[0].sensorHandle == info.sensorHandle
      && r.posted[0].events[0].sensorType == MetaData
      && r.posted[0].events[0].payload == FlushComplete
      && r.posted[0].wakeUp == IsWakeUp(info.flags)
  {
    if !enabled then
      Reply(BadValue, [])
    else
      var ev := Event(info.sensorHandle, MetaData, FlushComplete);
      Reply(Ok, [Delivery([ev], IsWakeUp(info.flags))])
  }

  /**
   * `Sensor::injectEvent`: an additional-info event is accepted silently;
   * otherwise a sensor without injection support answers INVALID_OPERATION,
   * one in data-injection mode delivers the event verbatim, and one in
   * normal mode answers BAD_VALUE.
   */
  function InjectReply(mode: OperationMode, flags: bv32, event: Event): (r: Reply)
    ensures r.result == Ok <==>
      event.sensorType == AdditionalInfo || (SupportsDataInjection(flags) && mode == DataInjection)
    ensures r.result == InvalidOperation <==>
      event.sensorType != AdditionalInfo && !SupportsDataInjection(flags)
    ensures r.result == BadValue <==>
      event.sensorType != AdditionalInfo && SupportsDataInjection(flags) && mode == Normal
    ensures r.posted != [] <==>
      event.sensorType != AdditionalInfo && SupportsDataInjection(flags) && mode == DataInjection
    ensures r.posted != [] ==> r.posted == [Delivery([event], IsWakeUp(flags))]
  {
    if event.sensorType == AdditionalInfo then
      Reply(Ok, [])
    else if !SupportsDataInjection(flags) then
      Reply(InvalidOperation, [])
    else
      match mode
      case DataInjection => Reply(Ok, [Delivery([event], IsWakeUp(flags))])
      case Normal => Reply(BadValue, [])
  }

  /**
   * What a descriptor returns to `readBool`: the return code of the seek to
   * offset 0 (consulted only when seeking), the return code of the one-byte
   * read, and the byte read.
   */
  datatype ReadOutcome = ReadOutcome(seekRc: int, readRc: int, byte: char)

  /**
   * `readBool`: false when a requested seek failed or the read did not
   * return exactly one byte; otherwise true iff the byte is not '0'.
   */
  function ReadBool(seek: bool, r: ReadOutcome): (b: bool)
    ensures seek && r.seekRc != 0 ==> !b
    ensures r.readRc != 1 ==> !b
    ensures b <==> (!seek || r.seekRc == 0) && r.readRc == 1 && r.byte != '0'
  {
    if seek && r.seekRc != 0 then false
    else if r.readRc != 1 then false
    else r.byte != '0'
  }

  /** What `poll` returned to the one-shot worker. */
  datatype PollOutcome =
    | PollFailed
    | PollReturned(waitRevents: bv16, sysfsRevents: bv16, latched: ReadOutcome)

  /**
   * The one-shot sensor fires when the sysfs descriptor reports exactly the
   * events it was polled for (POLLERR | POLLPRI) and its latched value,
   * read after seeking to the start, is true. Any further event bit, such
   * as POLLHUP, keeps it from firing.
   */
  function Fires(o: PollOutcome): (b: bool)
    ensures b ==> o.PollReturned? && o.sysfsRevents & PollErr != 0 && o.sysfsRevents & PollPri != 0
    ensures b ==> o.latched.seekRc == 0 && o.latched.readRc == 1 && o.latched.byte != '0'
    ensures o.PollReturned? && o.sysfsRevents & !(PollErr | PollPri) != 0 ==> !b
  {
    o.PollReturned? && o.sysfsRevents == PollErr | PollPri && ReadBool(true, o.latched)
  }

  /**
   * When the attribute does not fire, the wake pipe is drained if it
   * reports exactly POLLIN; any further event bit keeps it from draining.
   */
  function Drains(o: PollOutcome): (b: bool)
    ensures b ==> o.PollReturned? && !Fires(o) && o.waitRevents & PollIn != 0
    ensures o.PollReturned? && o.waitRevents & !PollIn != 0 ==> !b
  {
    o.PollReturned? && !Fires(o) && o.waitRevents == PollIn
  }

  /**
   * The index of the first outcome that ends a sampling one-shot worker's
   * polling: a failed poll or a firing attribute; `|outcomes|` when none does.
   */
  function FirstDecisive(outcomes: seq<PollOutcome>): (i: nat)
    ensures i <= |outcomes|
    ensures forall k :: 0 <= k < i ==> !outcomes[k].PollFailed? && !Fires(outcomes[k])
    ensures i < |outcomes| ==> outcomes[i].PollFailed? || Fires(outcomes[i])
  {
    if outcomes == [] then 0
    else if outcomes[0].PollFailed? || Fires(outcomes[0]) then 0
    else 1 + FirstDecisive(outcomes[1..])
  }

  /** How many of `outcomes` drain the wake pipe. */
  function CountDrains(outcomes: seq<PollOutcome>): nat {
    if outcomes == [] then 0
    else CountDrains(outcomes[..|outcomes| - 1]) + if Drains(outcomes[|outcomes| - 1]) then 1 else 0
  }

  /** Bytes left in the wake pipe after `drains` one-byte reads, none of which reads past empty. */
  function DrainedBytes(bytes: nat, drains: nat): nat {
    if bytes >= drains then bytes - drains else 0
  }

  /**
   * A sysfs one-shot sensor rejects every injected event other than
   * additional information with INVALID_OPERATION, whatever its mode, and
   * never delivers an injected event.
   */
  lemma SysfsInjectRejected(handle: Int32, sensorType: SensorType, mode: OperationMode, event: Event)
    ensures var r := InjectReply(mode, SysfsInfo(handle, sensorType).flags, event);
      r.posted == [] &&
      r.result == (if event.sensorType == AdditionalInfo then Ok else InvalidOperation)
  {
  }

  /**
   * `flush` does not test the one-shot flag: an enabled sysfs one-shot
   * sensor answers OK and posts a flush-complete event as a wake-up delivery.
   */
  lemma SysfsFlushPosts(handle: Int32, sensorType: SensorType)
    ensures var r := FlushReply(true, SysfsInfo(handle, sensorType));
      r.result == Ok && |r.posted| == 1 && r.posted[0].wakeUp &&
      r.posted[0].events == [Event(handle, MetaData, FlushComplete)]
  {
  }
}
