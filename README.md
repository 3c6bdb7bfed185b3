# Sensor sampling engine — a Dafny model

This project models the sampling engine of a Samsung device's sensors
sub-HAL (`sensors/Sensor.cpp`). There are two kinds of sensor:

- `Sensor` is a timed sampler. Its worker thread samples whenever the clock
  reaches the last sample time plus the sampling period. It waits on a
  condition variable when the sensor is disabled or in data-injection mode.
- `SysfsPollingOneShotSensor` is a one-shot sensor. Its worker blocks in
  `poll` on a sysfs attribute and on a private wake pipe. When the attribute
  fires with a true latched value, the worker disables the sensor and posts
  one event.

Both share a control surface: `batch`, `activate`, `setOperationMode`,
`flush` and `injectEvent`. Every call of the callback's `postEvents` is
recorded, with its wake-up flag, in the sequence field `posted`.

The model is sequential. Each control call and each pass of a worker loop is
one method call. Time and I/O are parameters:

- the timed step takes the clock reading `now`;
- the poll step takes what `poll` returned and what `readBool` read;
- the constructor takes what `pipe` and `open` returned.

`notify_all` is counted in the ghost field `notifications`. The wake pipe is
a ghost count of unread bytes (`pipeBytes`). The touchscreen's `enabled`
attribute is a ghost string (`tspEnabled`).

In C++, `SysfsPollingOneShotSensor` derives from `OneShotSensor`, which
derives from `Sensor`. The model expresses this by composition:
`SysfsPollingOneShotSensor` holds its `Sensor` part as the field `base`.

- It calls `base.Batch`, `base.Flush` and `base.InjectEvent` for the
  operations it inherits.
- It has its own `Activate`, `SetOperationMode`, `Run` and `Destroy`, as the
  C++ class overrides them.
- In C++, virtual dispatch always selects the override. In the model,
  nothing stops a client from calling `base.Activate` or
  `base.SetOperationMode` directly and skipping the poll interrupt and the
  TSP attribute toggle.

Where the code and its documentation disagree, the model follows the code:

- `Sensor::flush` (sensors/Sensor.cpp:122-138) does not test the one-shot
  flag. The comment at lines 123-124 says no flush-complete event should be
  generated for a one-shot sensor. The Android sensors HAL contract goes
  further and says such a flush should fail. `SensorLogic.SysfsFlushPosts`
  states what the code does: an enabled one-shot sensor answers OK and posts
  the event.
- `injectEvent` accepts an additional-info event silently in either mode, not
  only in normal mode.
- `batch` clamps into `[minDelay * 1000, maxDelay * 1000]`, because the
  descriptor's delays are in microseconds and the period is in nanoseconds.

The following are Android values, not constants from the file:
`WAKE_UP = 0x1`, `ONE_SHOT_MODE = 0x4` and `DATA_INJECTION = 0x10` from
`SensorFlagBits`, and `POLLIN = 0x1`, `POLLPRI = 0x2` and `POLLERR = 0x8`
from Linux.

Files:

- `types.dfy`, module `SensorTypes`: the values, the flags and the
  descriptors the three constructors build.
- `logic.dfy`, module `SensorLogic`: the pure decisions and the sample
  schedule.
- `sensors.dfy`, module `Sensors`: the two classes.

## Model

| member | source | states |
|---|---|---|
| `SensorTypes.IsWakeUp` | sensors/Sensor.cpp:171-173 | a sensor is a wake-up sensor iff the WAKE_UP bit of its flags is set, whatever the other bits |
| `SensorTypes.SupportsDataInjection` | sensors/Sensor.cpp:197-199 | a sensor supports injection iff the DATA_INJECTION bit of its flags is set, whatever the other bits |
| `SensorTypes.BaseInfo` | sensors/Sensor.cpp:75-83 | the base descriptor keeps the handle, type and minimum delay it is given; its period bound is one second in ns; it is not wake-up, not one-shot and does not support injection; it is well formed iff the minimum delay is in `[-2147483, 1000000]` µs |
| `SensorTypes.OneShotInfo` | sensors/Sensor.cpp:216-221 | a one-shot descriptor is one-shot, not wake-up and without injection, and bounds periods to `[-1000, 0]` ns |
| `SensorTypes.SysfsInfo` | sensors/Sensor.cpp:223-233 | a sysfs one-shot descriptor has the given handle and type; it is wake-up and one-shot, does not support injection, and bounds periods to `[-1000, 0]` ns |
| `SensorTypes.SampleEvent` | sensors/Sensor.cpp:175-187 | a sample carries the sensor's own handle and type and is never a flush-complete marker |
| `SensorLogic.Clamp` | sensors/Sensor.cpp:104-105 | a value below `lo` becomes `lo`; a value not below `lo` but above `hi` becomes `hi`; a value within the bounds is kept; so the result lies in `[lo, hi]` when `lo <= hi` |
| `SensorLogic.ClampIdempotent` | sensors/Sensor.cpp:103-112 | clamping an already clamped period yields it again, so `batch` called with the stored period neither writes it nor notifies |
| `SensorLogic.Fires` | sensors/Sensor.cpp:327 | firing needs the POLLERR and POLLPRI bits, a successful seek and a one-byte read of a byte other than `'0'`; any other event bit on the attribute prevents it |
| `SensorLogic.Drains` | sensors/Sensor.cpp:333 | draining happens only on a returned poll where the attribute does not fire and the pipe reports POLLIN; any other event bit on the pipe prevents it |
| `SensorLogic.FirstDecisive` | sensors/Sensor.cpp:318-332 | the index of the first failed or firing outcome (the length when none): every earlier outcome neither fails nor fires |
| `Sensors.SysfsPollingOneShotSensor.Degraded` | sensors/Sensor.cpp:249 | the sensor is functional iff both pipe ends and the polled descriptor are non-negative |
| `Sensors.SysfsPollingOneShotSensor.Run` | sensors/Sensor.cpp:307-338 | for a sampling worker, everything is decided by the first failed or firing outcome. A failure sets stop and posts nothing. A firing outcome disables the sensor, rearms a `"0"` TSP attribute to `"1"`, and posts exactly one sample. Every draining outcome before it removes one pipe byte. A stopped or suspended worker changes nothing. In all cases at most one sample is posted |
| `SensorLogic.NextDeadline` | sensors/Sensor.cpp:158-166 | a sample is due iff `now >= last + period`; after a sample the reference time is `now` and the wait equals the period; otherwise the wait is strictly positive, and at most one period when the clock is not behind `last` |
| `SensorLogic.SampleTimes` | sensors/Sensor.cpp:149-168 | a series of passes takes at most one sample per clock reading |
| `SensorLogic.SampleTimesSpaced` | sensors/Sensor.cpp:158-163 | the first sample comes no earlier than `last + period`, and each later one at least one period after the one before |
| `SensorLogic.SampleTimesAreReadings` | sensors/Sensor.cpp:156-161 | every sample time is a clock reading of some pass, never a delivery time |
| `SensorLogic.ExactWakeupsAllSampled` | sensors/Sensor.cpp:158-166 | when each pass wakes exactly at its deadline, every pass samples, so the k-th sample is at `last + k * period` and there is no drift |
| `SensorLogic.FlushReply` | sensors/Sensor.cpp:122-138 | OK iff enabled; disabled gives BAD_VALUE with nothing posted; enabled posts one delivery of one `META_DATA` flush-complete event with the sensor's handle, and that delivery's wake-up flag is the sensor's `WAKE_UP` bit |
| `SensorLogic.InjectReply` | sensors/Sensor.cpp:201-214 | OK iff the event is additional info, or the sensor supports injection and is in injection mode; INVALID_OPERATION iff not additional info and injection unsupported; BAD_VALUE iff supported but in normal mode; delivery iff supported and in injection mode, of exactly that event |
| `SensorLogic.ReadBool` | sensors/Sensor.cpp:32-51 | false if a requested seek failed or the read did not return exactly one byte; otherwise true iff the byte is not `'0'` |
| `SensorLogic.SysfsInjectRejected` | sensors/Sensor.cpp:197-214 | a sysfs one-shot sensor answers OK only to additional info, INVALID_OPERATION to anything else, in any mode, and never delivers an injected event |
| `SensorLogic.SysfsFlushPosts` | sensors/Sensor.cpp:122-138 | an enabled sysfs one-shot sensor's flush answers OK and posts a flush-complete event as a wake-up delivery |
| `Sensors.Sensor.constructor` | sensors/Sensor.cpp:69-85 | a new sensor is disabled, has period and last sample time 0, is in normal mode, is not stopped, and has posted nothing |
| `Sensors.Sensor.Destroy` | sensors/Sensor.cpp:90-95 | stop is requested, the sensor is disabled, and the worker is notified once |
| `Sensors.Sensor.Batch` | sensors/Sensor.cpp:103-112 | the stored period is the clamp of the argument and lies within `[minDelay * 1000, maxDelay * 1000]`; a notification happens iff the stored period changed; nothing else changes |
| `Sensors.Sensor.Activate` | sensors/Sensor.cpp:114-120 | the flag equals the argument; a notification happens iff it changed, so the same value changes nothing at all; nothing else changes |
| `Sensors.Sensor.SetOperationMode` | sensors/Sensor.cpp:189-195 | the mode equals the argument; a notification happens iff it changed, so the same value changes nothing at all; nothing else changes |
| `Sensors.Sensor.Flush` | sensors/Sensor.cpp:122-139 | answers as `FlushReply` and appends exactly its deliveries to the posted log; no sensor state changes |
| `Sensors.Sensor.InjectEvent` | sensors/Sensor.cpp:201-214 | answers as `InjectReply` and appends exactly its deliveries; no sensor state changes |
| `Sensors.Sensor.TimedStep` | sensors/Sensor.cpp:149-167 | a stopped worker exits and a disabled or injecting one waits for a change, both without sampling or changing state; a sampling worker follows `NextDeadline`: it samples iff the deadline is reached, sets the last sample time to `now`, posts one sample with the wake-up flag, and waits the computed time |
| `Sensors.Sensor.Run` | sensors/Sensor.cpp:145-169 | over a series of clock readings, a sampling worker posts exactly one sample per time in `SampleTimes` and ends with the last of them as its reference time; any other worker posts nothing and changes nothing |
| `Sensors.SysfsPollingOneShotSensor.constructor` | sensors/Sensor.cpp:223-263 | a failed `pipe` leaves both ends -1; the sensor starts stopped iff a pipe end or the polled descriptor is negative; otherwise it starts like a `Sensor` with the sysfs one-shot descriptor |
| `Sensors.SysfsPollingOneShotSensor.InterruptPoll` | sensors/Sensor.cpp:340-345 | one byte is written to the wake pipe, or nothing when the write end is negative |
| `Sensors.SysfsPollingOneShotSensor.Destroy` | sensors/Sensor.cpp:265-267 | the poll is interrupted, then the base destructor's stop and disable apply |
| `Sensors.SysfsPollingOneShotSensor.ActivateWith` | sensors/Sensor.cpp:269-296 | the enabled flag equals the argument; it interrupts the poll and notifies iff it changed and notification is asked; a disable turns a `"0"` TSP attribute into `"1"`; an enable turns `"1"` into `"0"` |
| `Sensors.SysfsPollingOneShotSensor.Activate` | sensors/Sensor.cpp:298-300 | `ActivateWith` with notification: a change interrupts the poll and notifies, the same value changes neither flag nor pipe |
| `Sensors.SysfsPollingOneShotSensor.SetOperationMode` | sensors/Sensor.cpp:302-305 | the base update (notify iff changed), then one wake-pipe byte even when the mode is unchanged |
| `Sensors.SysfsPollingOneShotSensor.PollStep` | sensors/Sensor.cpp:310-337 | a stopped worker exits; a disabled or injecting one waits for a change; a failed poll sets stop and posts nothing; a firing attribute rearms the TSP attribute, disables without notifying, and posts exactly one wake-up sample; otherwise a ready wake pipe loses one byte and nothing else changes |

## Left out

- Threads, `mRunMutex`, `mWaitCV` and `join`. Each step is sequential. A wait
  is reported as a `Continuation`, and `notify_all` is a ghost counter.
- Data races. `batch` writing the period without the lock, and two sensors
  toggling the shared TSP attribute, are concurrency matters the sequential
  model cannot express. So is the ordering in the one-shot destructor, which
  interrupts the poll before the base destructor sets the stop flag.
- The worker thread started in `Sensor::Sensor` (`startThread`) is not
  modelled. A worker pass is a call of `TimedStep` or `PollStep`.
- `poll`, `pipe`, `open`, `lseek`, `read` and `write` become parameters.
  `interruptPoll` assumes the write succeeds.
- The `set`/`get` helpers on `/sys/class/sec/tsp/input/enabled` become the
  ghost string `tspEnabled`. A failed read, which `get` turns into `"0"`, is
  not modelled.
- `clock_gettime` and `elapsedRealtimeNano` become the parameter `now`.
  Events carry no timestamp.
- `readEvents` and `fillEventData` produce an event with the sensor's handle
  and type only. Float payloads and the float and string descriptor fields
  (`maxRange`, `resolution`, `power`, `vendor`, `name`, `typeAsString`,
  `requiredPermission`, `version`, FIFO counts) are not modelled.
  `getSensorInfo` is a plain accessor.
- Virtual dispatch. `SysfsPollingOneShotSensor` holds its `Sensor` part as
  `base` instead of deriving from it. A client can therefore call
  `base.Activate` or `base.SetOperationMode` directly and skip the poll
  interrupt and the TSP toggle. In C++, a call made through the base class
  would reach the override.
- `ALOGE` logging.
- `Sensors.Sensor.TimedStep`: does not model 64-bit overflow of
  `mLastSampleTimeNs + mSamplingPeriodNs`. Times are unbounded integers.
- `Sensors.Sensor.constructor`: requires a descriptor whose delays times 1000
  fit in 32 bits, with `minDelay <= maxDelay`. Signed overflow and
  `std::clamp` with crossed bounds are undefined behaviour in C++.
- `Sensor.h` is not part of this model. The period and last sample time are
  taken to be 64-bit, and `mStopThread` to start false.
