/**
 * The sensor objects: the timed `Sensor` with its control surface and one
 * pass of its worker loop, and `SysfsPollingOneShotSensor`, which waits on a
 * sysfs attribute and a wake pipe instead of a clock.
 *
 * The worker thread, the mutex and the condition variable are not
 * modelled: every control call and every pass of a worker loop is one
 * sequential step. `notify_all` is counted in the ghost field
 * `notifications`. The callback's `postEvents` appends to `posted`.
 */
module Sensors {
  import opened SensorTypes
  import opened SensorLogic

  /** What the worker does after one pass of its loop body. */
  datatype Continuation =
    | Exited          // the stop flag is set: the loop test fails
    | WaitForChange   // disabled or injecting: wait until enabled in normal mode, or stopped
    | WaitFor(ns: int) // timed worker: wait this long for the next deadline
    | PollAgain       // one-shot worker: back to the multiplexed wait

  /** The schedule of `nows[i..]` unfolds by the decision on its first reading. */
  lemma SampleTimesUnfold(last: int, period: int, nows: seq<int>, i: nat)
    requires i < |nows|
    ensures var d := NextDeadline(last, period, nows[i]);
      SampleTimes(last, period, nows[i..])
        == (if d.sample then [nows[i]] else []) + SampleTimes(d.lastSampleTime, period, nows[i + 1..])
  {
    assert nows[i..][1..] == nows[i + 1..];
  }

  lemma AppendAssoc(a: seq<int>, b: seq<int>, c: seq<int>)
    ensures a + (b + c) == (a + b) + c
  {
  }

  /**
   * One more pass of a sampling worker: if the schedule of `nows` is `done`
   * followed by the schedule of `nows[i..]` from `last`, it stays so once
   * the reading `nows[i]` is decided, and the new reference time is still
   * the last sample taken.
   */
  lemma SampleTimesStep(last0: int, period: int, nows: seq<int>, i: nat, done: seq<int>, last: int)
    requires i < |nows|
    requires SampleTimes(last0, period, nows) == done + SampleTimes(last, period, nows[i..])
    requires last == LastOr(done, last0)
    ensures var d := NextDeadline(last, period, nows[i]);
      d.sample ==>
        && SampleTimes(last0, period, nows) == (done + [nows[i]]) + SampleTimes(d.lastSampleTime, period, nows[i + 1..])
        && d.lastSampleTime == LastOr(done + [nows[i]], last0)
    ensures var d := NextDeadline(last, period, nows[i]);
      !d.sample ==>
        && SampleTimes(last0, period, nows) == done + SampleTimes(d.lastSampleTime, period, nows[i + 1..])
        && d.lastSampleTime == LastOr(done, last0)
  {
    var d := NextDeadline(last, period, nows[i]);
    var rest := SampleTimes(d.lastSampleTime, period, nows[i + 1..]);
    SampleTimesUnfold(last, period, nows, i);
    if d.sample {
      AppendAssoc(done, [nows[i]], rest);
    } else {
      assert [] + rest == rest;
    }
  }

  /** One more sample delivery after `n` of them, following earlier deliveries. */
  lemma SampleDeliveriesSnoc(info: SensorInfo, prefix: seq<Delivery>, n: nat)
    ensures prefix + SampleDeliveries(info, n) + [SampleDelivery(info)] == prefix + SampleDeliveries(info, n + 1)
  {
    assert SampleDeliveries(info, n + 1) == SampleDeliveries(info, n) + [SampleDelivery(info)];
  }

  /**
   * One pass of a sampling worker keeps the run's bookkeeping: if before
   * the pass `done` is the schedule so far, the deliveries so far are one
   * per sample and the reference time is the last sample, then after a pass
   * that behaves as `NextDeadline` decides, the same holds with the pass's
   * sample, if any, appended to `done`.
   */
  lemma PassKeepsSchedule(
    info: SensorInfo, period: int, nows: seq<int>, i: nat,
    last0: int, posted0: seq<Delivery>, done: seq<int>,
    last: int, before: seq<Delivery>, last': int, after: seq<Delivery>)
    requires i < |nows|
    requires SampleTimes(last0, period, nows) == done + SampleTimes(last, period, nows[i..])
    requires before == posted0 + SampleDeliveries(info, |done|)
    requires last == LastOr(done, last0)
    requires var d := NextDeadline(last, period, nows[i]);
      && last' == d.lastSampleTime
      && after == before + if d.sample then [SampleDelivery(info)] else []
    ensures var done' := done + if NextDeadline(last, period, nows[i]).sample then [nows[i]] else [];
      && SampleTimes(last0, period, nows) == done' + SampleTimes(last', period, nows[i + 1..])
      && after == posted0 + SampleDeliveries(info, |done'|)
      && last' == LastOr(done', last0)
  {
    SampleTimesStep(last0, period, nows, i, done, last);
    if NextDeadline(last, period, nows[i]).sample {
      SampleDeliveriesSnoc(info, posted0, |done|);
    } else {
      assert done + [] == done;
    }
  }

  class Sensor {
    const info: SensorInfo
    var isEnabled: bool
    var samplingPeriodNs: int
    var lastSampleTimeNs: int
    var mode: OperationMode
    var stopThread: bool
    /** Every call of the callback's `postEvents`, in order. */
    var posted: seq<Delivery>
    /** How many times the condition variable was notified. */
    ghost var notifications: nat

    /**
     * The descriptor is well formed, the period is unset or within its
     * bounds, and every delivery carries the sensor's wake-up flag.
     */
    ghost predicate Valid()
      reads this`samplingPeriodNs, this`posted
    {
      && WellFormed(info)
      && (samplingPeriodNs == 0 || MinPeriodNs(info) <= samplingPeriodNs <= MaxPeriodNs(info))
      && AllFlagged(posted, IsWakeUp(info.flags))
    }

    /** The worker samples (or polls) only when enabled in normal mode. */
    predicate Sampling()
      reads this`isEnabled, this`mode
    {
      isEnabled && mode == Normal
    }

    /**
     * `Sensor::Sensor`, given the descriptor as the concrete sensor
     * completes it: disabled, period and last sample time 0, normal mode.
     */
    constructor (info: SensorInfo)
      requires WellFormed(info)
      ensures Valid()
      ensures this.info == info
      ensures !isEnabled && samplingPeriodNs == 0 && lastSampleTimeNs == 0
      ensures mode == Normal && !stopThread && posted == [] && notifications == 0
    {
      this.info := info;
      isEnabled := false;
      samplingPeriodNs := 0;
      lastSampleTimeNs := 0;
      mode := Normal;
      stopThread := false;
      posted := [];
      notifications := 0;
    }

    /**
     * The locked block of `Sensor::~Sensor`: request the stop, disable and
     * notify the worker.
     */
    method Destroy()
      requires Valid()
      modifies this`stopThread, this`isEnabled, this`notifications
      ensures Valid()
      ensures stopThread && !isEnabled
      ensures notifications == old(notifications) + 1
    {
      stopThread := true;
      isEnabled := false;
      notifications := notifications + 1;
    }

    /**
     * `Sensor::batch`: clamp the period into [minDelay, maxDelay]
     * microseconds, expressed in nanoseconds, and store and notify only if
     * it changed.
     */
    method Batch(samplingPeriodNs: Int32)
      requires Valid()
      modifies this`samplingPeriodNs, this`notifications
      ensures Valid()
      ensures this.samplingPeriodNs == Clamp(samplingPeriodNs, MinPeriodNs(info), MaxPeriodNs(info))
      ensures MinPeriodNs(info) <= this.samplingPeriodNs <= MaxPeriodNs(info)
      ensures notifications == old(notifications) + if this.samplingPeriodNs == old(this.samplingPeriodNs) then 0 else 1
    {
      var clamped := Clamp(samplingPeriodNs, MinPeriodNs(info), MaxPeriodNs(info));
      if this.samplingPeriodNs != clamped {
        this.samplingPeriodNs := clamped;
        notifications := notifications + 1;
      }
    }

    /** `Sensor::activate`: a no-op when unchanged; otherwise store and notify. */
    method Activate(enable: bool)
      requires Valid()
      modifies this`isEnabled, this`notifications
      ensures Valid()
      ensures isEnabled == enable
      ensures notifications == old(notifications) + if old(isEnabled) == enable then 0 else 1
    {
      if isEnabled != enable {
        isEnabled := enable;
        notifications := notifications + 1;
      }
    }

    /** `Sensor::setOperationMode`: a no-op when unchanged; otherwise store and notify. */
    method SetOperationMode(mode: OperationMode)
      requires Valid()
      modifies this`mode, this`notifications
      ensures Valid()
      ensures this.mode == mode
      ensures notifications == old(notifications) + if old(this.mode) == mode then 0 else 1
    {
      if this.mode != mode {
        this.mode := mode;
        notifications := notifications + 1;
      }
    }

    /**
     * `Sensor::flush`: BAD_VALUE and nothing posted when disabled; OK and one
     * flush-complete meta event when enabled. No other state changes.
     */
    method Flush() returns (result: Result)
      requires Valid()
      modifies this`posted
      ensures Valid()
      ensures result == FlushReply(isEnabled, info).result
      ensures posted == old(posted) + FlushReply(isEnabled, info).posted
    {
      var reply := FlushReply(isEnabled, info);
      assert reply.posted != [] ==> reply.posted[..0] == [];
      AllFlaggedAppend(posted, reply.posted, IsWakeUp(info.flags));
      posted := posted + reply.posted;
      result := reply.result;
    }

    /**
     * `Sensor::injectEvent`: the decision table of `InjectReply`; an accepted
     * event in data-injection mode is delivered verbatim. No other state changes.
     */
    method InjectEvent(event: Event) returns (result: Result)
      requires Valid()
      modifies this`posted
      ensures Valid()
      ensures result == InjectReply(mode, info.flags, event).result
      ensures posted == old(posted) + InjectReply(mode, info.flags, event).posted
    {
      var reply := InjectReply(mode, info.flags, event);
      assert reply.posted != [] ==> reply.posted[..0] == [];
      AllFlaggedAppend(posted, reply.posted, IsWakeUp(info.flags));
      posted := posted + reply.posted;
      result := reply.result;
    }

    /**
     * One pass of the `Sensor::run` loop, with the clock reading `now`.
     * A stopped worker does not iterate; a disabled or injecting one waits
     * without sampling; otherwise the deadline rule decides whether to
     * sample, and the worker waits until the next deadline.
     */
    method TimedStep(now: int) returns (next: Continuation)
      requires Valid()
      modifies this`lastSampleTimeNs, this`posted
      ensures Valid()
      ensures stopThread ==> next == Exited && lastSampleTimeNs == old(lastSampleTimeNs) && posted == old(posted)
      ensures !stopThread && !Sampling() ==>
        next == WaitForChange && lastSampleTimeNs == old(lastSampleTimeNs) && posted == old(posted)
      ensures !stopThread && Sampling() ==>
        var d := NextDeadline(old(lastSampleTimeNs), samplingPeriodNs, now);
        && next == WaitFor(d.wait)
        && lastSampleTimeNs == d.lastSampleTime
        && posted == old(posted) + if d.sample then [SampleDelivery(info)] else []
    {
      if stopThread {
        return Exited;
      }
      if !isEnabled || mode == DataInjection {
        return WaitForChange;
      }
      var nextSampleTime := lastSampleTimeNs + samplingPeriodNs;
      if now >= nextSampleTime {
        lastSampleTimeNs := now;
        nextSampleTime := lastSampleTimeNs + samplingPeriodNs;
        assert [SampleDelivery(info)][..0] == [];
        AllFlaggedAppend(posted, [SampleDelivery(info)], IsWakeUp(info.flags));
        posted := posted + [SampleDelivery(info)];
      }
      next := WaitFor(nextSampleTime - now);
    }

    /**
     * The `Sensor::run` loop over a series of passes whose clock readings
     * are `nows`. No other thread runs meanwhile, so enablement, mode,
     * period and the stop flag stay as they are: a sampling worker samples
     * exactly at `SampleTimes`, any other worker does nothing.
     */
    method Run(nows: seq<int>)
      requires Valid()
      modifies this`lastSampleTimeNs, this`posted
      ensures Valid()
      ensures !stopThread && Sampling() ==>
        var ts := SampleTimes(old(lastSampleTimeNs), samplingPeriodNs, nows);
        && posted == old(posted) + SampleDeliveries(info, |ts|)
        && lastSampleTimeNs == LastOr(ts, old(lastSampleTimeNs))
      ensures stopThread || !Sampling() ==> posted == old(posted) && lastSampleTimeNs == old(lastSampleTimeNs)
    {
      if stopThread || !Sampling() {
        // every pass exits or waits for a change no other thread makes
        return;
      }
      ghost var last0, posted0 := lastSampleTimeNs, posted;
      var i := 0;
      ghost var done: seq<int> := [];
      while i < |nows|
        invariant 0 <= i <= |nows|
        invariant Valid()
        invariant SampleTimes(last0, samplingPeriodNs, nows) == done + SampleTimes(lastSampleTimeNs, samplingPeriodNs, nows[i..])
        invariant posted == posted0 + SampleDeliveries(info, |done|)
        invariant lastSampleTimeNs == LastOr(done, last0)
      {
        ghost var d := NextDeadline(lastSampleTimeNs, samplingPeriodNs, nows[i]);
        ghost var last, before := lastSampleTimeNs, posted;
        var next := TimedStep(nows[i]);
        assert !stopThread && Sampling();
        assert lastSampleTimeNs == d.lastSampleTime;
        assert posted == before + if d.sample then [SampleDelivery(info)] else [];
        PassKeepsSchedule(info, samplingPeriodNs, nows, i, last0, posted0, done, last, before, lastSampleTimeNs, posted);
        done := done + if d.sample then [nows[i]] else [];
        i := i + 1;
      }
      assert nows[i..] == [];
      assert SampleTimes(last0, samplingPeriodNs, nows) == done + [] == done;
    }
  }

  class SysfsPollingOneShotSensor {
    /** The `Sensor` part of this object. */
    const base: Sensor
    const waitPipeRead: int
    const waitPipeWrite: int
    const pollFd: int
    /** The text of the touchscreen's `enabled` sysfs attribute. */
    ghost var tspEnabled: string
    /** Bytes written to the wake pipe and not yet drained. */
    ghost var pipeBytes: nat

    /** Construction could not open the wake pipe or the polled attribute. */
    function Degraded(): (b: bool)
      ensures !b <==> 0 <= waitPipeRead && 0 <= waitPipeWrite && 0 <= pollFd
    {
      waitPipeRead < 0 || waitPipeWrite < 0 || pollFd < 0
    }

    ghost predicate Valid()
      reads base`samplingPeriodNs, base`posted, base`stopThread
    {
      && base.Valid()
      && base.info == SysfsInfo(base.info.sensorHandle, base.info.sensorType)
      && (Degraded() ==> base.stopThread)
    }

    /**
     * `SysfsPollingOneShotSensor::SysfsPollingOneShotSensor`. `pipeRc`,
     * `pipeRead` and `pipeWrite` are what `pipe` returned and filled in,
     * `openFd` what `open` returned for the polled attribute, and `tsp` the
     * attribute's current text. A failed `pipe` leaves both pipe ends -1;
     * any negative descriptor leaves the sensor stopped for good.
     */
    constructor (handle: Int32, sensorType: SensorType, pipeRc: int, pipeRead: int, pipeWrite: int,
                 openFd: int, ghost tsp: string)
      ensures Valid() && fresh(base)
      ensures base.info == SysfsInfo(handle, sensorType)
      ensures waitPipeRead == (if pipeRc < 0 then -1 else pipeRead)
      ensures waitPipeWrite == (if pipeRc < 0 then -1 else pipeWrite)
      ensures pollFd == openFd
      ensures base.stopThread <==> pipeRc < 0 || pipeRead < 0 || pipeWrite < 0 || openFd < 0
      ensures !base.isEnabled && base.mode == Normal && base.posted == []
      ensures base.samplingPeriodNs == 0 && base.lastSampleTimeNs == 0
      ensures tspEnabled == tsp && pipeBytes == 0
    {
      base := new Sensor(SysfsInfo(handle, sensorType));
      if pipeRc < 0 {
        waitPipeRead, waitPipeWrite := -1, -1;
      } else {
        waitPipeRead, waitPipeWrite := pipeRead, pipeWrite;
      }
      pollFd := openFd;
      tspEnabled := tsp;
      pipeBytes := 0;
      new;
      if waitPipeRead < 0 || waitPipeWrite < 0 || pollFd < 0 {
        base.stopThread := true;
      }
    }

    /**
     * `SysfsPollingOneShotSensor::interruptPoll`: write one byte to the wake
     * pipe, or do nothing when its write end is not open.
     */
    method InterruptPoll()
      modifies this`pipeBytes
      ensures pipeBytes == old(pipeBytes) + if waitPipeWrite < 0 then 0 else 1
    {
      if waitPipeWrite < 0 {
        return;
      }
      pipeBytes := pipeBytes + 1;
    }

    /**
     * `~SysfsPollingOneShotSensor` followed by the locked block of
     * `~Sensor`: interrupt the poll, then request the stop and disable.
     */
    method Destroy()
      requires Valid()
      modifies this`pipeBytes, base`stopThread, base`isEnabled, base`notifications
      ensures Valid()
      ensures base.stopThread && !base.isEnabled
      ensures pipeBytes == old(pipeBytes) + if waitPipeWrite < 0 then 0 else 1
      ensures base.notifications == old(base.notifications) + 1
    {
      InterruptPoll();
      base.Destroy();
    }

    /**
     * `activate(enable, notify, lock)` without the lock: before the state
     * change, a disable writes "1" to the TSP attribute if it reads "0";
     * the enabled flag is stored, with a poll interrupt and a notification
     * when asked, only if it changed; after it, an enable writes "0" to the
     * attribute if it reads "1".
     */
    method ActivateWith(enable: bool, notify: bool)
      requires Valid()
      modifies this`tspEnabled, this`pipeBytes, base`isEnabled, base`notifications
      ensures Valid()
      ensures base.isEnabled == enable
      ensures var changed := old(base.isEnabled) != enable;
        && pipeBytes == old(pipeBytes) + (if changed && notify && waitPipeWrite >= 0 then 1 else 0)
        && base.notifications == old(base.notifications) + (if changed && notify then 1 else 0)
      ensures !enable ==> tspEnabled == if old(tspEnabled) == "0" then "1" else old(tspEnabled)
      ensures enable ==> tspEnabled == if old(tspEnabled) == "1" then "0" else old(tspEnabled)
    {
      if !enable && tspEnabled == "0" {
        tspEnabled := "1";
      }
      if base.isEnabled != enable {
        base.isEnabled := enable;
        if notify {
          InterruptPoll();
          base.notifications := base.notifications + 1;
        }
      }
      if enable && tspEnabled == "1" {
        tspEnabled := "0";
      }
    }

    /** `SysfsPollingOneShotSensor::activate(enable)`: notify and lock. */
    method Activate(enable: bool)
      requires Valid()
      modifies this`tspEnabled, this`pipeBytes, base`isEnabled, base`notifications
      ensures Valid()
      ensures base.isEnabled == enable
      ensures var changed := old(base.isEnabled) != enable;
        && pipeBytes == old(pipeBytes) + (if changed && waitPipeWrite >= 0 then 1 else 0)
        && base.notifications == old(base.notifications) + (if changed then 1 else 0)
      ensures !enable ==> tspEnabled == if old(tspEnabled) == "0" then "1" else old(tspEnabled)
      ensures enable ==> tspEnabled == if old(tspEnabled) == "1" then "0" else old(tspEnabled)
    {
      ActivateWith(enable, true);
    }

    /**
     * `SysfsPollingOneShotSensor::setOperationMode`: the base class's
     * update, then an unconditional poll interrupt.
     */
    method SetOperationMode(mode: OperationMode)
      requires Valid()
      modifies this`pipeBytes, base`mode, base`notifications
      ensures Valid()
      ensures base.mode == mode
      ensures base.notifications == old(base.notifications) + if old(base.mode) == mode then 0 else 1
      ensures pipeBytes == old(pipeBytes) + if waitPipeWrite < 0 then 0 else 1
    {
      base.SetOperationMode(mode);
      InterruptPoll();
    }

    /**
     * One pass of the `SysfsPollingOneShotSensor::run` loop, where `outcome`
     * is what `poll` returned. A failed poll stops the worker. A firing
     * attribute rearms the TSP attribute, disables the sensor without a
     * notification and posts one sample. Otherwise a ready wake pipe is
     * drained by one byte. Nothing else changes.
     */
    method PollStep(outcome: PollOutcome) returns (next: Continuation)
      requires Valid()
      modifies this`tspEnabled, this`pipeBytes, base`stopThread, base`isEnabled, base`posted, base`notifications
      ensures Valid()
      ensures base.notifications == old(base.notifications)
      ensures var polled := !old(base.stopThread) && old(base.Sampling());
        && (!polled || outcome.PollReturned? ==> base.stopThread == old(base.stopThread))
        && (polled && Fires(outcome) ==> !base.isEnabled)
        && (!(polled && Fires(outcome)) ==> base.isEnabled == old(base.isEnabled))
        && base.posted == old(base.posted) + (if polled && Fires(outcome) then [SampleDelivery(base.info)] else [])
        && tspEnabled == (if polled && Fires(outcome) && old(tspEnabled) == "0" then "1" else old(tspEnabled))
        && pipeBytes == (if polled && Drains(outcome) && old(pipeBytes) > 0 then old(pipeBytes) - 1 else old(pipeBytes))
      ensures old(base.stopThread) ==> next == Exited
      ensures !old(base.stopThread) && !old(base.Sampling()) ==> next == WaitForChange
      ensures !old(base.stopThread) && old(base.Sampling()) ==>
        (outcome.PollFailed? ==> next == Exited && base.stopThread) &&
        (outcome.PollReturned? ==> next == PollAgain)
      ensures |base.posted| > |old(base.posted)| ==> base.posted[|base.posted| - 1].wakeUp
    {
      if base.stopThread {
        return Exited;
      }
      if !base.isEnabled || base.mode == DataInjection {
        return WaitForChange;
      }
      if outcome.PollFailed? {
        base.stopThread := true;
        return Exited;
      }
      if Fires(outcome) {
        if tspEnabled == "0" {
          tspEnabled := "1";
        }
        ActivateWith(false, false);
        assert [SampleDelivery(base.info)][..0] == [];
        AllFlaggedAppend(base.posted, [SampleDelivery(base.info)], IsWakeUp(base.info.flags));
        base.posted := base.posted + [SampleDelivery(base.info)];
      } else if outcome.waitRevents == PollIn {
        if pipeBytes > 0 {
          pipeBytes := pipeBytes - 1;
        }
      }
      next := PollAgain;
    }

    /**
     * The `SysfsPollingOneShotSensor::run` loop over a series of poll
     * outcomes. Nothing rearms the sensor meanwhile. A sampling worker
     * drains the wake pipe once per draining outcome until the first
     * decisive one: a failed poll stops it, a firing attribute rearms the
     * TSP attribute, disables the sensor and posts the one sample. Later
     * outcomes find the worker stopped or suspended and change nothing, so
     * at most one sample is posted. Any other worker changes nothing.
     */
    method Run(outcomes: seq<PollOutcome>)
      requires Valid()
      modifies this`tspEnabled, this`pipeBytes, base`stopThread, base`isEnabled, base`posted, base`notifications
      ensures Valid()
      ensures base.notifications == old(base.notifications)
      ensures var active := !old(base.stopThread) && old(base.Sampling());
        var i := FirstDecisive(outcomes);
        var fires := active && i < |outcomes| && Fires(outcomes[i]);
        var fails := active && i < |outcomes| && outcomes[i].PollFailed?;
        && base.posted == old(base.posted) + (if fires then [SampleDelivery(base.info)] else [])
        && base.isEnabled == (old(base.isEnabled) && !fires)
        && base.stopThread == (old(base.stopThread) || fails)
        && tspEnabled == (if fires && old(tspEnabled) == "0" then "1" else old(tspEnabled))
        && pipeBytes == if active then DrainedBytes(old(pipeBytes), CountDrains(outcomes[..i])) else old(pipeBytes)
      ensures || base.posted == old(base.posted)
              || (base.posted == old(base.posted) + [SampleDelivery(base.info)] && old(base.isEnabled) && !base.isEnabled)
    {
      var active := !base.stopThread && base.Sampling();
      ghost var decisive := FirstDecisive(outcomes);
      ghost var fires := active && decisive < |outcomes| && Fires(outcomes[decisive]);
      ghost var fails := active && decisive < |outcomes| && outcomes[decisive].PollFailed?;
      var i := 0;
      while i < |outcomes| && !base.stopThread
        invariant 0 <= i <= |outcomes|
        invariant Valid()
        invariant base.mode == old(base.mode) && base.notifications == old(base.notifications)
        invariant !active ==>
          && base.posted == old(base.posted) && base.isEnabled == old(base.isEnabled)
          && base.stopThread == old(base.stopThread)
          && tspEnabled == old(tspEnabled) && pipeBytes == old(pipeBytes)
        invariant active && i <= decisive ==>
          && base.posted == old(base.posted) && base.isEnabled && !base.stopThread
          && tspEnabled == old(tspEnabled)
          && pipeBytes == DrainedBytes(old(pipeBytes), CountDrains(outcomes[..i]))
        invariant active && decisive < i ==>
          && base.posted == old(base.posted) + (if fires then [SampleDelivery(base.info)] else [])
          && base.isEnabled == !fires
          && base.stopThread == fails
          && tspEnabled == (if fires && old(tspEnabled) == "0" then "1" else old(tspEnabled))
          && pipeBytes == DrainedBytes(old(pipeBytes), CountDrains(outcomes[..decisive]))
        decreases |outcomes| - i
      {
        if active && i < decisive {
          assert outcomes[..i + 1][..i] == outcomes[..i];
        }
        var next := PollStep(outcomes[i]);
        i := i + 1;
      }
    }
  }
}
