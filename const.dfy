/** Identifiers and defaults of the integration (custom_components/kerblwelt/const.py). */
module Const {

  const Domain := "kerblwelt"

  const ConfEmail := "email"
  const ConfPassword := "password"

  /** The polling interval, `timedelta(minutes=5)`. */
  const DefaultScanIntervalMinutes: nat := 5
  const DefaultName := "Kerbl Welt"

  const AttrDeviceId := "device_id"
  const AttrSerialNumber := "serial_number"
  const AttrBrand := "brand"
  const AttrSignalQuality := "signal_quality"
  const AttrBatteryState := "battery_state"
  const AttrBatteryVoltage := "battery_voltage"
  const AttrAlarmThreshold := "alarm_threshold"
  const AttrRegisteredAt := "registered_at"
  const AttrLastOnline := "last_online"
  const AttrNewEvents := "new_events"
}
