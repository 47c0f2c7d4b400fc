/**
 * The records the external `kerblwelt_api` client hands to the integration.
 * Only the fields the integration reads are kept; numeric readings are passed
 * through untouched, so they are plain reals here.
 */
module Api {
  import opened Common

  type DeviceId = string

  /** A `datetime` as the client reports it; the integration only renders it with isoformat(). */
  datatype Instant = Instant(microsSinceEpoch: int)

  /** One fence monitor (`SmartSatelliteDevice`). */
  datatype Device = Device(
    id: string,
    identifier: string,
    brand: string,
    description: string,
    firmwareVersion: string,
    fenceVoltage: real,
    fenceVoltageAlarmThreshold: real,
    batteryVoltage: real,
    batteryState: real,
    signalQuality: real,
    isOnline: bool,
    offlineSince: Option<Instant>,
    registeredAt: Instant)

  /** `DeviceEventCount`; `newEvents` is the record's `new` field. */
  datatype EventCount = EventCount(newEvents: int)

  /** The account returned by `get_user()`. */
  datatype User = User(id: string)

  /** What `get_all_device_data()` returns and the coordinator keeps as `data`. */
  type Snapshot = map<DeviceId, (Device, EventCount)>
}
