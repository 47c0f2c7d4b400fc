/**
 * The sensor platform (custom_components/kerblwelt/sensor.py): a static table of
 * five sensor descriptors, one `KerblweltSensor` per (device, descriptor) pair,
 * and the value, attributes and availability each sensor reads from the
 * coordinator's latest snapshot.
 */
module Sensor {
  import opened Common
  import opened Api
  import opened PyStr
  import Const

  /** The device field a descriptor's `value_fn` reads. */
  datatype ValueField = FenceVoltageField | BatteryVoltageField | BatteryStateField | SignalQualityField | NoField

  /** The extra attribute a descriptor's `attributes_fn` contributes. */
  datatype AttributesField = AlarmThresholdAttribute | BatteryVoltageAttribute

  /** `KerblweltSensorEntityDescription`, without units, icons and device classes. */
  datatype SensorDescriptor = SensorDescriptor(
    key: string,
    name: string,
    valueFn: ValueField,
    attributesFn: Option<AttributesField>)

  /** `SENSOR_TYPES`. */
  const SensorTypes: seq<SensorDescriptor> := [
    SensorDescriptor("fence_voltage", "Fence Voltage", FenceVoltageField, Some(AlarmThresholdAttribute)),
    SensorDescriptor("battery_voltage", "Battery Voltage", BatteryVoltageField, None),
    SensorDescriptor("battery_level", "Battery Level", BatteryStateField, Some(BatteryVoltageAttribute)),
    SensorDescriptor("signal_quality", "Signal Quality", SignalQualityField, None),
    SensorDescriptor("event_count", "Event Count", NoField, None)
  ]

  const EventCountKey := "event_count"
  const FallbackDeviceName := "Kerbl Welt Fence Monitor"
  const DeviceModel := "AKO Smart Satellite"

  /** A sensor's state: `None`, a reading passed through from the device, or the event count. */
  datatype StateValue = NoneValue | Reading(x: real) | Count(n: int)

  /** An attribute value: text or a reading passed through from the device. */
  datatype AttrValue = Text(s: string) | Number(x: real)

  /**
   * `description.value_fn(device)`: each field names the device reading passed
   * through; the event-count descriptor's lambda gives None.
   */
  function ValueFn(f: ValueField, d: Device): (r: StateValue)
    ensures r == NoneValue <==> f == NoField
    ensures f == FenceVoltageField ==> r == Reading(d.fenceVoltage)
    ensures f == BatteryVoltageField ==> r == Reading(d.batteryVoltage)
    ensures f == BatteryStateField ==> r == Reading(d.batteryState)
    ensures f == SignalQualityField ==> r == Reading(d.signalQuality)
  {
    match f
    case FenceVoltageField => Reading(d.fenceVoltage)
    case BatteryVoltageField => Reading(d.batteryVoltage)
    case BatteryStateField => Reading(d.batteryState)
    case SignalQualityField => Reading(d.signalQuality)
    case NoField => NoneValue
  }

  /**
   * `description.attributes_fn(device, events)`: one attribute each, the fence
   * descriptor's alarm threshold or the battery-level descriptor's battery voltage.
   */
  function AttributesFn(f: AttributesField, d: Device, events: EventCount): (r: map<string, AttrValue>)
    ensures f == AlarmThresholdAttribute ==>
      r.Keys == {Const.AttrAlarmThreshold} && r[Const.AttrAlarmThreshold] == Number(d.fenceVoltageAlarmThreshold)
    ensures f == BatteryVoltageAttribute ==>
      r.Keys == {Const.AttrBatteryVoltage} && r[Const.AttrBatteryVoltage] == Number(d.batteryVoltage)
  {
    match f
    case AlarmThresholdAttribute => map[Const.AttrAlarmThreshold := Number(d.fenceVoltageAlarmThreshold)]
    case BatteryVoltageAttribute => map[Const.AttrBatteryVoltage := Number(d.batteryVoltage)]
  }

  /** The descriptor-specific attributes; none when `attributes_fn` is None. */
  function DescriptorAttributes(desc: SensorDescriptor, d: Device, events: EventCount): map<string, AttrValue> {
    match desc.attributesFn
    case None => map[]
    case Some(f) => AttributesFn(f, d, events)
  }

  /** The four attribute keys every present device reports. */
  const BaseAttributeKeys: set<string> :=
    {Const.AttrDeviceId, Const.AttrSerialNumber, Const.AttrBrand, Const.AttrRegisteredAt}

  /**
   * The table has five descriptors with pairwise distinct keys; only the last
   * one is the event count, and it is also the only one with no value field.
   */
  lemma SensorTypesShape()
    ensures |SensorTypes| == 5
    ensures forall i, j :: 0 <= i < j < |SensorTypes| ==> SensorTypes[i].key != SensorTypes[j].key
    ensures forall i :: 0 <= i < |SensorTypes| ==>
      (SensorTypes[i].key == EventCountKey <==> i == 4) &&
      (SensorTypes[i].valueFn == NoField <==> i == 4)
  {
  }

  /** No descriptor's own attributes reuse a base key or `last_online`. */
  lemma DescriptorAttributesAreSeparate(i: nat, d: Device, events: EventCount)
    requires i < |SensorTypes|
    ensures DescriptorAttributes(SensorTypes[i], d, events).Keys !! BaseAttributeKeys + {Const.AttrLastOnline}
  {
  }

  /**
   * `device.description.strip() or "Kerbl Welt Fence Monitor"`: never empty, and
   * the fallback is used exactly when the description is blank.
   */
  function DeviceName(description: string): (r: string)
    ensures r != []
    ensures AllSpace(description) ==> r == FallbackDeviceName
    ensures !AllSpace(description) ==> r == Strip(description)
  {
    StripEmptyIffAllSpace(description);
    var stripped := Strip(description);
    if stripped == [] then FallbackDeviceName else stripped
  }

  /**
   * `"Kerbl" if device.brand == "ako" else device.brand.title()`; `titleCase` is
   * Python's `str.title`.
   */
  function Manufacturer(brand: string, titleCase: string -> string): (r: string)
    ensures brand == "ako" ==> r == "Kerbl"
    ensures brand != "ako" ==> r == titleCase(brand)
  {
    if brand == "ako" then "Kerbl" else titleCase(brand)
  }

  /** `DeviceInfo`, the host's device-registry record. */
  datatype DeviceInfo = DeviceInfo(
    identifiers: set<(string, string)>,
    name: string,
    manufacturer: string,
    model: string,
    serialNumber: string,
    swVersion: string)

  /** `f"{device_id}_{description.key}"`. */
  function UniqueId(deviceId: DeviceId, key: string): string {
    deviceId + "_" + key
  }

  /** A unique id reads back as the device id, then "_", then the key. */
  lemma UniqueIdParts(deviceId: DeviceId, key: string)
    ensures var r := UniqueId(deviceId, key);
      && |r| == |deviceId| + 1 + |key|
      && r[..|deviceId|] == deviceId && r[|deviceId|] == '_' && r[|deviceId| + 1..] == key
  {
  }

  /**
   * Where a longer descriptor key would have to hold the "_" that precedes a
   * shorter one at its end, it holds another character.
   */
  lemma KeysAreSuffixSeparated(i: nat, j: nat)
    requires i < |SensorTypes| && j < |SensorTypes|
    requires |SensorTypes[i].key| < |SensorTypes[j].key|
    ensures SensorTypes[j].key[|SensorTypes[j].key| - |SensorTypes[i].key| - 1] != '_'
  {
  }

  /**
   * Two ways of writing one string as head + "_" + tail: with tails of equal
   * length they are the same split, and otherwise the longer tail holds a "_"
   * just before its last |x| characters.
   */
  lemma SplitAtSeparator(a: string, x: string, b: string, y: string)
    requires a + "_" + x == b + "_" + y && |x| <= |y|
    ensures |x| == |y| ==> a == b && x == y
    ensures |x| < |y| ==> y[|y| - |x| - 1] == '_'
  {
    var s := a + "_" + x;
    assert s[|a|] == '_' && s[|a| + 1..] == x && s[..|a|] == a;
    assert s[|b| + 1..] == y && s[..|b|] == b;
    if |x| < |y| {
      assert y[|y| - |x| - 1] == s[|b| + 1 + |y| - |x| - 1];
    }
  }

  /**
   * Unique ids do not collide: two (device, descriptor) pairs of the table give
   * the same id only when they are the same pair, even though device ids may
   * themselves contain "_".
   */
  lemma {:induction false} UniqueIdInjective(a: DeviceId, i: nat, b: DeviceId, j: nat)
    requires i < |SensorTypes| && j < |SensorTypes|
    requires UniqueId(a, SensorTypes[i].key) == UniqueId(b, SensorTypes[j].key)
    ensures a == b && i == j
  {
    var ki, kj := SensorTypes[i].key, SensorTypes[j].key;
    if |ki| <= |kj| {
      SplitAtSeparator(a, ki, b, kj);
      if |ki| < |kj| {
        KeysAreSuffixSeparated(i, j);
      }
    } else {
      SplitAtSeparator(b, kj, a, ki);
      KeysAreSuffixSeparated(j, i);
    }
    SensorTypesShape();
  }

  /**
   * `KerblweltSensor`. Its fields are set once by the constructor; everything
   * else it reports is read from the coordinator's snapshot `data` and its
   * `last_update_success` flag, which are passed in.
   */
  class KerblweltSensor {
    const description: SensorDescriptor
    const deviceId: DeviceId
    const uniqueId: string
    const deviceInfo: DeviceInfo
    const name: string

    /** `__init__`; `coordinator.data[device_id]` must exist. */
    constructor (data: Snapshot, deviceId: DeviceId, description: SensorDescriptor, titleCase: string -> string)
      requires deviceId in data
      ensures this.description == description && this.deviceId == deviceId
      ensures uniqueId == UniqueId(deviceId, description.key)
      ensures var d := data[deviceId].0;
        deviceInfo == DeviceInfo({(Const.Domain, deviceId)}, DeviceName(d.description),
                                 Manufacturer(d.brand, titleCase), DeviceModel, d.identifier, d.firmwareVersion)
      ensures name == Strip(data[deviceId].0.description) + " " + description.name
    {
      this.description := description;
      this.deviceId := deviceId;
      var device := data[deviceId].0;
      uniqueId := deviceId + "_" + description.key;
      deviceInfo := DeviceInfo(
        {(Const.Domain, deviceId)},
        DeviceName(device.description),
        Manufacturer(device.brand, titleCase),
        DeviceModel,
        device.identifier,
        device.firmwareVersion);
      name := Strip(device.description) + " " + description.name;
    }

    /** `native_value`. */
    function NativeValue(data: Snapshot): (r: StateValue)
      ensures deviceId !in data ==> r == NoneValue
      ensures deviceId in data && description.key == EventCountKey ==> r == Count(data[deviceId].1.newEvents)
      ensures deviceId in data && description.key != EventCountKey ==>
        r == ValueFn(description.valueFn, data[deviceId].0)
    {
      if deviceId !in data then NoneValue
      else
        var (device, eventCount) := data[deviceId];
        if description.key == EventCountKey then Count(eventCount.newEvents)
        else ValueFn(description.valueFn, device)
    }

    /** `available`. */
    function Available(data: Snapshot, lastUpdateSuccess: bool): (r: bool)
      ensures !lastUpdateSuccess ==> !r
      ensures deviceId !in data ==> !r
      ensures lastUpdateSuccess && deviceId in data ==> r == data[deviceId].0.isOnline
    {
      if !lastUpdateSuccess then false
      else if deviceId !in data then false
      else data[deviceId].0.isOnline
    }

    /**
     * `extra_state_attributes`: starts from the four base attributes, adds
     * `last_online` when the device reports an offline time, then merges the
     * descriptor's own attributes over them. `isoFormat` is `datetime.isoformat`.
     */
    method ExtraStateAttributes(data: Snapshot, isoFormat: Instant -> string)
      returns (attrs: map<string, AttrValue>)
      ensures deviceId !in data ==> attrs == map[]
      ensures deviceId in data ==>
        AttributesAgree(attrs, description, data[deviceId].0, data[deviceId].1, isoFormat)
    {
      if deviceId !in data {
        return map[];
      }
      var (device, eventCount) := data[deviceId];
      attrs := map[
        Const.AttrDeviceId := Text(device.id),
        Const.AttrSerialNumber := Text(device.identifier),
        Const.AttrBrand := Text(device.brand),
        Const.AttrRegisteredAt := Text(isoFormat(device.registeredAt))];
      if device.offlineSince.Some? {
        attrs := attrs[Const.AttrLastOnline := Text(isoFormat(device.offlineSince.value))];
      }
      if description.attributesFn.Some? {
        attrs := attrs + AttributesFn(description.attributesFn.value, device, eventCount);
      }
    }
  }

  /**
   * What the attributes of a present device are: the base keys, `last_online`
   * exactly when an offline time is set, and the descriptor's own keys, whose
   * values win on a clash.
   */
  predicate AttributesAgree(attrs: map<string, AttrValue>, desc: SensorDescriptor, d: Device,
                            events: EventCount, isoFormat: Instant -> string)
  {
    var extra := DescriptorAttributes(desc, d, events);
    && attrs.Keys == BaseAttributeKeys + (if d.offlineSince.Some? then {Const.AttrLastOnline} else {}) + extra.Keys
    && (forall k :: k in extra ==> attrs[k] == extra[k])
    && (Const.AttrDeviceId !in extra ==> attrs[Const.AttrDeviceId] == Text(d.id))
    && (Const.AttrSerialNumber !in extra ==> attrs[Const.AttrSerialNumber] == Text(d.identifier))
    && (Const.AttrBrand !in extra ==> attrs[Const.AttrBrand] == Text(d.brand))
    && (Const.AttrRegisteredAt !in extra ==> attrs[Const.AttrRegisteredAt] == Text(isoFormat(d.registeredAt)))
    && (d.offlineSince.Some? && Const.AttrLastOnline !in extra ==>
          attrs[Const.AttrLastOnline] == Text(isoFormat(d.offlineSince.value)))
  }

  /** `order` is the snapshot's iteration order: each key exactly once. */
  predicate EnumeratesKeys(order: seq<DeviceId>, data: Snapshot) {
    && (forall n :: 0 <= n < |order| ==> order[n] in data)
    && (forall k :: k in data ==> k in order)
    && (forall m, n :: 0 <= m < n < |order| ==> order[m] != order[n])
  }

  function ElementsOf(s: seq<DeviceId>): (r: set<DeviceId>)
    ensures forall x :: x in r <==> x in s
  {
    if s == [] then {} else {s[0]} + ElementsOf(s[1..])
  }

  /** A sequence without repeats has as many elements as its set. */
  lemma {:induction false} DistinctElementsCount(s: seq<DeviceId>)
    requires forall m, n :: 0 <= m < n < |s| ==> s[m] != s[n]
    ensures |ElementsOf(s)| == |s|
  {
    if s != [] {
      DistinctElementsCount(s[1..]);
      assert s[0] !in ElementsOf(s[1..]);
    }
  }

  /** Iterating over the snapshot visits exactly |data| devices. */
  lemma EnumerationLength(order: seq<DeviceId>, data: Snapshot)
    requires EnumeratesKeys(order, data)
    ensures |order| == |data|
  {
    DistinctElementsCount(order);
    assert ElementsOf(order) == data.Keys;
  }

  /**
   * `async_setup_entry`: for each device of the snapshot, in iteration order
   * `order`, one sensor per descriptor of the table, in table order.
   * `titleCase` is Python's `str.title`.
   */
  method AsyncSetupEntry(data: Snapshot, order: seq<DeviceId>, titleCase: string -> string)
    returns (entities: seq<KerblweltSensor>)
    requires EnumeratesKeys(order, data)
    ensures |order| == |data| && |entities| == |data| * |SensorTypes|
    ensures forall n :: 0 <= n < |entities| ==> Enumerated(entities, order, n)
    ensures forall m, n :: 0 <= m < n < |entities| ==> entities[m].uniqueId != entities[n].uniqueId
  {
    SensorTypesShape();
    entities := [];
    var i := 0;
    while i < |order|
      invariant 0 <= i <= |order|
      invariant |entities| == i * 5
      invariant forall n :: 0 <= n < |entities| ==> Enumerated(entities, order, n)
    {
      var j := 0;
      while j < |SensorTypes|
        invariant 0 <= j <= 5
        invariant |entities| == i * 5 + j
        invariant forall n :: 0 <= n < |entities| ==> Enumerated(entities, order, n)
      {
        var sensor := new KerblweltSensor(data, order[i], SensorTypes[j], titleCase);
        EnumeratedExtend(entities, sensor, order, i, j);
        entities := entities + [sensor];
        j := j + 1;
      }
      i := i + 1;
    }
    EnumerationLength(order, data);
    EnumeratedIdsDistinct(entities, order);
  }

  /** Appending the sensor of device `order[i]` and descriptor `j` keeps the layout. */
  lemma EnumeratedExtend(entities: seq<KerblweltSensor>, sensor: KerblweltSensor, order: seq<DeviceId>, i: nat, j: nat)
    requires i < |order| && j < |SensorTypes| && |entities| == i * 5 + j
    requires forall n :: 0 <= n < |entities| ==> Enumerated(entities, order, n)
    requires sensor.deviceId == order[i] && sensor.description == SensorTypes[j]
    requires sensor.uniqueId == UniqueId(order[i], SensorTypes[j].key)
    ensures forall n :: 0 <= n < |entities| + 1 ==> Enumerated(entities + [sensor], order, n)
  {
    var after := entities + [sensor];
    assert (i * 5 + j) / 5 == i && (i * 5 + j) % 5 == j;
    forall n | 0 <= n < |after| ensures Enumerated(after, order, n) {
      if n < |entities| {
        assert after[n] == entities[n] && Enumerated(entities, order, n);
      }
    }
  }

  /** Entities laid out as `Enumerated` says, over distinct devices, have distinct unique ids. */
  lemma EnumeratedIdsDistinct(entities: seq<KerblweltSensor>, order: seq<DeviceId>)
    requires |entities| == |order| * 5
    requires forall m, n :: 0 <= m < n < |order| ==> order[m] != order[n]
    requires forall n :: 0 <= n < |entities| ==> Enumerated(entities, order, n)
    ensures forall m, n :: 0 <= m < n < |entities| ==> entities[m].uniqueId != entities[n].uniqueId
  {
    forall m, n | 0 <= m < n < |entities| ensures entities[m].uniqueId != entities[n].uniqueId {
      assert Enumerated(entities, order, m) && Enumerated(entities, order, n);
      if entities[m].uniqueId == entities[n].uniqueId {
        UniqueIdInjective(order[m / 5], m % 5, order[n / 5], n % 5);
      }
    }
  }

  /**
   * Entity `n` of the setup list belongs to device `order[n / 5]` and descriptor
   * `SensorTypes[n % 5]`, and carries their unique id.
   */
  predicate Enumerated(entities: seq<KerblweltSensor>, order: seq<DeviceId>, n: nat)
    requires n < |entities| && n / 5 < |order|
  {
    && entities[n].deviceId == order[n / 5]
    && entities[n].description == SensorTypes[n % 5]
    && entities[n].uniqueId == UniqueId(order[n / 5], SensorTypes[n % 5].key)
  }

  /** After a failed poll every sensor is unavailable, whatever the snapshot holds. */
  lemma FailedPollMakesEverySensorUnavailable(entities: seq<KerblweltSensor>, data: Snapshot)
    ensures forall n :: 0 <= n < |entities| ==> !entities[n].Available(data, false)
  {
  }

  /** A sensor whose device left the snapshot reports nothing and is unavailable. */
  lemma MissingDeviceReportsNothing(s: KerblweltSensor, data: Snapshot, lastUpdateSuccess: bool)
    requires s.deviceId !in data
    ensures s.NativeValue(data) == NoneValue && !s.Available(data, lastUpdateSuccess)
  {
  }

  /**
   * An event-count sensor reads only the paired event record: two snapshots
   * that agree on it give the same value, whatever the device records say.
   */
  lemma EventCountIgnoresDevice(s: KerblweltSensor, data: Snapshot, data': Snapshot)
    requires s.description.key == EventCountKey
    requires s.deviceId in data && s.deviceId in data'
    requires data[s.deviceId].1 == data'[s.deviceId].1
    ensures s.NativeValue(data) == s.NativeValue(data') == Count(data[s.deviceId].1.newEvents)
  {
  }

  /**
   * For a descriptor of the table and a present device, the value is the field
   * the key names (the event record's count for "event_count"), never None.
   */
  lemma TableSensorValues(s: KerblweltSensor, data: Snapshot)
    requires s.description in SensorTypes && s.deviceId in data
    ensures var (d, ev) := data[s.deviceId];
      && (s.description.key == "fence_voltage" ==> s.NativeValue(data) == Reading(d.fenceVoltage))
      && (s.description.key == "battery_voltage" ==> s.NativeValue(data) == Reading(d.batteryVoltage))
      && (s.description.key == "battery_level" ==> s.NativeValue(data) == Reading(d.batteryState))
      && (s.description.key == "signal_quality" ==> s.NativeValue(data) == Reading(d.signalQuality))
      && (s.description.key == "event_count" ==> s.NativeValue(data) == Count(ev.newEvents))
      && s.NativeValue(data) != NoneValue
  {
  }
}
