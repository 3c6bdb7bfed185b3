/**
 * Values exchanged by the sensor sampling engine: the sensor descriptor,
 * events and deliveries to the event callback, operation modes, results
 * of the control surface, and the flag and poll bits the engine tests.
 */
module SensorTypes {

  /** A signed 32-bit integer, the width of the descriptor's delays and of `batch`'s argument. */
  type Int32 = x: int | -0x8000_0000 <= x < 0x8000_0000

  /** Operation modes of a sensor (Android `OperationMode`). */
  datatype OperationMode = Normal | DataInjection

  /** Results of `flush` and `injectEvent` (Android `Result`). */
  datatype Result = Ok | BadValue | InvalidOperation

  /**
   * Sensor types the engine distinguishes. `Other` stands for every
   * measured type (accelerometer, a wake gesture, ...), by its code.
   */
  datatype SensorType = MetaData | AdditionalInfo | Other(code: nat)

  /**
   * What an event carries besides its handle and type: the flush-complete
   * meta tag, or a reading whose numeric payload is not modelled.
   */
  datatype Payload = FlushComplete | Reading

  datatype Event = Event(sensorHandle: int, sensorType: SensorType, payload: Payload)

  /** One call of the callback's `postEvents`: the events and the wake-up flag passed with them. */
  datatype Delivery = Delivery(events: seq<Event>, wakeUp: bool)

  /** Every delivery in `ds` carries the wake-up flag `w`. */
  ghost predicate AllFlagged(ds: seq<Delivery>, w: bool)
    decreases |ds|
  {
    ds == [] || (AllFlagged(ds[..|ds| - 1], w) && ds[|ds| - 1].wakeUp == w)
  }

  /** Deliveries that all carry `w`, appended to others that do, still all carry `w`. */
  lemma {:induction false} AllFlaggedAppend(a: seq<Delivery>, b: seq<Delivery>, w: bool)
    requires AllFlagged(a, w) && AllFlagged(b, w)
    ensures AllFlagged(a + b, w)
    decreases |b|
  {
    if b == [] {
      assert a + b == a;
    } else {
      var c := b[..|b| - 1];
      AllFlaggedAppend(a, c, w);
      assert (a + b)[..|a + b| - 1] == a + c;
    }
  }

  /** `SensorFlagBits` values the engine uses. */
  const WakeUpFlag: bv32 := 0x1
  const OneShotModeFlag: bv32 := 0x4
  const DataInjectionFlag: bv32 := 0x10

  /** `poll` event bits (Linux values). */
  const PollIn: bv16 := 0x1
  const PollPri: bv16 := 0x2
  const PollErr: bv16 := 0x8

  /** The part of `SensorInfo` the engine reads; delays are in microseconds. */
  datatype SensorInfo = SensorInfo(
    sensorHandle: Int32,
    sensorType: SensorType,
    minDelay: Int32,
    maxDelay: Int32,
    flags: bv32)

  /** `Sensor::isWakeUpSensor`: the WAKE_UP bit is set, whatever the other bits. */
  function IsWakeUp(flags: bv32): (b: bool)
    ensures b <==> flags & WakeUpFlag == WakeUpFlag
  {
    flags & WakeUpFlag != 0
  }

  /** `Sensor::supportsDataInjection`: the DATA_INJECTION bit is set, whatever the other bits. */
  function SupportsDataInjection(flags: bv32): (b: bool)
    ensures b <==> flags & DataInjectionFlag == DataInjectionFlag
  {
    flags & DataInjectionFlag != 0
  }

  predicate IsOneShot(flags: bv32) {
    flags & OneShotModeFlag != 0
  }

  /** Lower bound of the sampling period in nanoseconds, `minDelay * 1000`. */
  function MinPeriodNs(info: SensorInfo): int {
    info.minDelay * 1000
  }

  /** Upper bound of the sampling period in nanoseconds, `maxDelay * 1000`. */
  function MaxPeriodNs(info: SensorInfo): int {
    info.maxDelay * 1000
  }

  /**
   * A descriptor `batch` can work with: both bounds in nanoseconds are
   * computed in 32-bit arithmetic without overflow, and the lower bound
   * does not exceed the upper one, as `std::clamp` demands.
   */
  predicate WellFormed(info: SensorInfo) {
    -0x8000_0000 <= MinPeriodNs(info) <= MaxPeriodNs(info) < 0x8000_0000
  }

  /**
   * The descriptor `Sensor::Sensor` fills in: maximum delay one second,
   * no flags. Type and minimum delay are left to the concrete sensor.
   */
  function BaseInfo(handle: Int32, sensorType: SensorType, minDelay: Int32): (info: SensorInfo)
    ensures info.sensorHandle == handle && info.sensorType == sensorType && info.minDelay == minDelay
    ensures MaxPeriodNs(info) == 1_000_000_000
    ensures !IsWakeUp(info.flags) && !SupportsDataInjection(info.flags) && !IsOneShot(info.flags)
    ensures WellFormed(info) <==> -2_147_483 <= minDelay <= 1000 * 1000
  {
    SensorInfo(handle, sensorType, minDelay, 1000 * 1000, 0)
  }

  /**
   * `OneShotSensor::OneShotSensor`: minimum delay -1, maximum delay 0,
   * one-shot reporting; not a wake-up sensor and no injection support.
   */
  function OneShotInfo(handle: Int32, sensorType: SensorType): (info: SensorInfo)
    ensures info.sensorHandle == handle && info.sensorType == sensorType
    ensures IsOneShot(info.flags) && !IsWakeUp(info.flags) && !SupportsDataInjection(info.flags)
    ensures WellFormed(info) && MinPeriodNs(info) == -1000 && MaxPeriodNs(info) == 0
  {
    var base := BaseInfo(handle, sensorType, -1);
    base.(maxDelay := 0, flags := base.flags | OneShotModeFlag)
  }

  /**
   * `SysfsPollingOneShotSensor::SysfsPollingOneShotSensor`: a one-shot
   * sensor that wakes the device and does not support injection; every
   * sampling period clamps into [-1000, 0] nanoseconds.
   */
  function SysfsInfo(handle: Int32, sensorType: SensorType): (info: SensorInfo)
    ensures info.sensorHandle == handle && info.sensorType == sensorType
    ensures IsWakeUp(info.flags) && IsOneShot(info.flags) && !SupportsDataInjection(info.flags)
    ensures WellFormed(info) && MinPeriodNs(info) == -1000 && MaxPeriodNs(info) == 0
  {
    var oneShot := OneShotInfo(handle, sensorType);
    oneShot.(flags := oneShot.flags | WakeUpFlag)
  }

  /**
   * The event `readEvents` produces: it carries the sensor's own handle and
   * type and is a reading, never a flush-complete marker (payload values
   * not modelled).
   */
  function SampleEvent(info: SensorInfo): (e: Event)
    ensures e.sensorHandle == info.sensorHandle && e.sensorType == info.sensorType
    ensures e.payload != FlushComplete
  {
    Event(info.sensorHandle, info.sensorType, Reading)
  }

  /** The delivery of one sample, flagged as the descriptor says. */
  function SampleDelivery(info: SensorInfo): Delivery {
    Delivery([SampleEvent(info)], IsWakeUp(info.flags))
  }

  /** `n` sample deliveries in a row. */
  function SampleDeliveries(info: SensorInfo, n: nat): seq<Delivery> {
    if n == 0 then [] else SampleDeliveries(info, n - 1) + [SampleDelivery(info)]
  }
}
