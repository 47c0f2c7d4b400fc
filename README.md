# Kerbl Welt integration: a Dafny model of its decision logic

The Kerbl Welt integration is a smart-home plugin. It polls a vendor cloud for
electric-fence monitor telemetry and shows each monitor as five sensors. This
project models the three parts of it that make decisions, and proves what they
promise:

- **Entity projection** (`sensor.py`, module `Sensor`). The table of five
  sensor descriptors. One `KerblweltSensor` object is built per (device,
  descriptor) pair. Each sensor has a unique id, device info and a name, and it
  reads its value, availability and attributes from the coordinator's latest
  snapshot. The snapshot is passed in as a map from device id to (device
  record, event-count record), together with the coordinator's
  `last_update_success` flag.
- **Poll-result classification** (`coordinator.py`, module `Coordinator`).
  `_async_update_data` either returns the client's device mapping unchanged or
  turns a raised exception into one of two host signals: re-authentication
  (`ConfigEntryAuthFailed`) or a transient failure (`UpdateFailed`).
- **Credential validation** (`config_flow.py`, module `ConfigFlow`).
  `validate_input` sorts sign-in failures into three error kinds.
  `async_step_user` then shows the form with one error, aborts for an account
  that is already configured, or creates the entry.

Shared modules:

- `Exceptions` treats a Python exception as the set of named classes it is an
  instance of. Every named class subclasses `Exception`, so an exception with
  any named class is also an instance of `Exception`. A plain `Exception` is
  `{PyException}`. An exception with no class at all is a `BaseException` that
  is not an `Exception`, such as a cancellation. It also gives a reference definition of Python's rule that the
  first matching `except` clause wins (`FirstMatch`). Both `except` chains are
  proved to follow that rule.
- `PyStr` models `str.strip()` using Python's full `isspace` character set.
- `Api` holds the external client's records.
- `Const` holds the integration's constants.
- `Common` holds `Option` and `Result`.

Python's `str.title()` and `datetime.isoformat()` are library code with no
source here. They are passed in as function parameters (`titleCase`,
`isoFormat`). What the external client does is modelled by its outcome: the
mapping it returned or the exception it raised. `authenticate`, `get_user` and
`get_all_device_data` are parameters of that kind.

Two behaviours of the code that the model keeps as written:

- The config flow's `cannot_connect` covers only `aiohttp.ClientError`. A
  `kerblwelt_api.ConnectionError` or `TokenExpiredError` that is not also one
  of the first two clauses' classes is reported as `unknown`. See
  `ConfigFlow.OtherClientErrorsAreUnknown`.
- `Sensor.Manufacturer` is not an if-and-only-if: `"kerbl".title()` is also
  `"Kerbl"`, so the model states the two branches of the code.

Two more behaviours follow from the code. The entity name uses the stripped
description even when it is blank, so it can start with a space. A submitted
form that lacks the email or password key raises `KeyError` inside the `try`,
which ends as the "unknown" error.

## Model

| member | source | states |
|---|---|---|
| `Exceptions.FirstMatch` | custom_components/kerblwelt/coordinator.py:65-83 | the clause that runs is the first one catching the exception, no earlier one catches it, and nothing runs exactly when no clause catches it |
| `Exceptions.InstanceClasses` | custom_components/kerblwelt/coordinator.py:80-83 | the classes an exception is an instance of include its own, and include Exception exactly when it has any class |
| `Exceptions.InstanceOfOne` | custom_components/kerblwelt/coordinator.py:65-83 | an exception is an instance of Exception exactly when it has a class, and of any named class exactly when that class is one of its own |
| `Coordinator.AsyncUpdateData` | custom_components/kerblwelt/coordinator.py:49-83 | a successful fetch returns exactly the fetched mapping; a failure never returns data; re-authentication is asked exactly for invalid-credential or expired-token errors; every other caught exception becomes UpdateFailed; only a non-Exception escapes, unchanged |
| `Coordinator.UpdateDataFollowsClauseOrder` | custom_components/kerblwelt/coordinator.py:65-83 | for every exception, the result is what the first matching clause of the four-clause table raises, with that clause's message |
| `Coordinator.AuthErrorWinsOverLaterClauses` | custom_components/kerblwelt/coordinator.py:65-68 | an invalid-credential or expired-token error gives ConfigEntryAuthFailed("Authentication failed"), even if it is also a connection or API error |
| `Coordinator.ConnectionErrorIsTransient` | custom_components/kerblwelt/coordinator.py:70-73 | a client ConnectionError that is not an auth error gives UpdateFailed with the "Error connecting" message and the error's text |
| `Coordinator.ApiErrorIsTransient` | custom_components/kerblwelt/coordinator.py:75-78 | an APIError not caught earlier gives UpdateFailed with the "Error communicating" message |
| `Coordinator.OtherExceptionIsTransient` | custom_components/kerblwelt/coordinator.py:80-83 | any other Exception gives UpdateFailed("Unexpected error: ...") |
| `Coordinator.FailureIsSignalled` | custom_components/kerblwelt/coordinator.py:65-83 | a raised Exception (including a subclass such as an aiohttp ClientError) is never swallowed: it ends in exactly one of the two host signals |
| `ConfigFlow.ClassifyFailure` | custom_components/kerblwelt/config_flow.py:47-55 | InvalidCredentialsError gives InvalidAuth; otherwise aiohttp ClientError gives CannotConnect; otherwise any Exception gives UnknownError; a non-Exception escapes unchanged; never a success |
| `ConfigFlow.ClassifyFollowsClauseOrder` | custom_components/kerblwelt/config_flow.py:47-55 | the classification is the first-matching-clause rule applied to the three-clause table |
| `ConfigFlow.OtherClientErrorsAreUnknown` | custom_components/kerblwelt/config_flow.py:50-55 | an Exception that is neither an InvalidCredentialsError nor an aiohttp ClientError is reported as UnknownError |
| `ConfigFlow.ValidateInput` | custom_components/kerblwelt/config_flow.py:36-55 | validation succeeds exactly when both keys are present, sign-in succeeds and the user is fetched; it then returns the title "Kerbl Welt (email)" and the fetched user's id; a sign-in or user-fetch failure is classified by its except clauses; a missing key is UnknownError |
| `ConfigFlow.ErrorCode` | custom_components/kerblwelt/config_flow.py:72-77 | the code is "cannot_connect" exactly for CannotConnect, "invalid_auth" exactly for InvalidAuth and "unknown" exactly for UnknownError |
| `ConfigFlow.ErrorCodeInjective` | custom_components/kerblwelt/config_flow.py:72-77 | different error kinds show different codes |
| `ConfigFlow.KerblweltConfigFlow.constructor` | custom_components/kerblwelt/config_flow.py:58-61 | a new flow has VERSION 1 and no unique id yet |
| `ConfigFlow.KerblweltConfigFlow.AsyncStepUser` | custom_components/kerblwelt/config_flow.py:63-97 | with no input, the "user" form with no errors; on a validation error, the form with exactly {"base": code}, no entry and the unique id untouched; on success, the unique id is set to the user id, then the flow aborts with "already_configured" if that id exists, and otherwise creates an entry with the title and the input unchanged |
| `ConfigFlow.WrongPasswordShowsInvalidAuth` | custom_components/kerblwelt/config_flow.py:74-75 | submitting credentials that sign-in rejects as invalid shows the form with the single error "invalid_auth" and creates no entry |
| `PyStr.Strip` | custom_components/kerblwelt/sensor.py:173 | the result is the infix of the input left after its leading and trailing whitespace runs, and it neither starts nor ends with whitespace |
| `PyStr.StripEmptyIffAllSpace` | custom_components/kerblwelt/sensor.py:173 | stripping gives the empty string exactly when the input is all whitespace |
| `PyStr.StripIdempotent` | custom_components/kerblwelt/sensor.py:181 | stripping a stripped string changes nothing |
| `Sensor.ValueFn` | custom_components/kerblwelt/sensor.py:73-115 | the fence descriptor reads the fence voltage, the battery-voltage descriptor the battery voltage, the battery-level descriptor the battery state and the signal descriptor the signal quality; the value is None exactly for the event-count descriptor's field |
| `Sensor.AttributesFn` | custom_components/kerblwelt/sensor.py:74-98 | the fence_voltage attributes are exactly alarm_threshold, set to the fence-voltage alarm threshold; the battery_level attributes are exactly battery_voltage, set to the battery voltage |
| `Sensor.SensorTypesShape` | custom_components/kerblwelt/sensor.py:65-117 | the table has five descriptors with pairwise distinct keys; only the last is "event_count", and only it has no value field |
| `Sensor.DescriptorAttributesAreSeparate` | custom_components/kerblwelt/sensor.py:65-117 | no descriptor's own attributes use a base key or "last_online" |
| `Sensor.DeviceName` | custom_components/kerblwelt/sensor.py:173 | the device name is never empty; it is the stripped description, or "Kerbl Welt Fence Monitor" exactly when the description is blank |
| `Sensor.Manufacturer` | custom_components/kerblwelt/sensor.py:174 | the brand "ako" gives "Kerbl"; every other brand gives its title-cased form |
| `Sensor.UniqueIdParts` | custom_components/kerblwelt/sensor.py:168 | a unique id reads back as the device id, then "_", then the descriptor key, and has their combined length |
| `Sensor.UniqueIdInjective` | custom_components/kerblwelt/sensor.py:168 | two (device id, table descriptor) pairs have the same "deviceid_key" id only when they are the same pair, even when device ids contain "_" |
| `Sensor.KerblweltSensor.constructor` | custom_components/kerblwelt/sensor.py:153-181 | the unique id is device id + "_" + key; device info holds the domain identifier, the device name, the manufacturer, the fixed model, the serial number and the firmware version; the name is the stripped description, a space and the descriptor name |
| `Sensor.KerblweltSensor.NativeValue` | custom_components/kerblwelt/sensor.py:183-195 | None for a device absent from the snapshot; the event record's new-event count for "event_count"; otherwise the descriptor's value field of the device record |
| `Sensor.KerblweltSensor.Available` | custom_components/kerblwelt/sensor.py:223-234 | false after a failed poll whatever the snapshot holds; false for an absent device; otherwise the device's online flag |
| `Sensor.KerblweltSensor.ExtraStateAttributes` | custom_components/kerblwelt/sensor.py:197-221 | an empty map for an absent device; otherwise exactly the four base keys, "last_online" if and only if an offline time is set, and the descriptor's keys; the descriptor's values override on a clash, and each base value is the device field |
| `Sensor.EnumerationLength` | custom_components/kerblwelt/sensor.py:133 | iterating over the snapshot visits exactly as many devices as it has keys |
| `Sensor.AsyncSetupEntry` | custom_components/kerblwelt/sensor.py:120-145 | the setup creates exactly five sensors per device of the snapshot; sensor n belongs to the n/5-th device in iteration order and the (n mod 5)-th descriptor, with their unique id; no two sensors share a unique id |
| `Sensor.EnumeratedExtend` | custom_components/kerblwelt/sensor.py:131-138 | appending the sensor of the next (device, descriptor) pair keeps every sensor at the position the iteration order gives it |
| `Sensor.EnumeratedIdsDistinct` | custom_components/kerblwelt/sensor.py:131-138 | sensors laid out over distinct devices in table order have pairwise distinct unique ids |
| `Sensor.FailedPollMakesEverySensorUnavailable` | custom_components/kerblwelt/sensor.py:226-228 | after a failed poll every sensor is unavailable |
| `Sensor.MissingDeviceReportsNothing` | custom_components/kerblwelt/sensor.py:183-234 | a sensor whose device is missing from the snapshot has value None and is unavailable |
| `Sensor.EventCountIgnoresDevice` | custom_components/kerblwelt/sensor.py:191-193 | an event-count sensor's value depends only on the paired event record, never on the device record |
| `Sensor.TableSensorValues` | custom_components/kerblwelt/sensor.py:65-117 | for each table descriptor and a present device, the value is the field its key names (fence voltage, battery voltage, battery state, signal quality, new-event count) and is never None |

## Left out

- `__init__.py` (session open and close, sign-in at setup, platform forwarding, unload) is lifecycle plumbing between the host and the external client. It is not part of this model.
- The host's `DataUpdateCoordinator` is not modelled. That covers storing the returned mapping as `data`, setting `last_update_success`, scheduling every five minutes, retrying, and keeping the entry in the re-authentication state until the user signs in again. The sensor functions take `data` and `last_update_success` as inputs instead.
- Inside the host, `async_set_unique_id` can also abort a flow that is already in progress. That case is not modelled.
- Errors raised while entering or leaving `async with KerblweltClient()` are not modelled. They would pass through the same `except` clauses as a sign-in failure.
- The external `kerblwelt_api` client is not modelled: transport, tokens and parsing. Its class hierarchy is unknown, so an exception is described only by the named classes it is an instance of.
- `str.title()` and `datetime.isoformat()` are parameters, not models of Unicode casing or date formatting.
- Sensor units, icons, device and state classes, entity categories, the voluptuous form schema, logging, `sys.path` changes and async scheduling are left out, because they carry no decisions.
- Readings (voltages, battery state, signal quality) are passed through as reals without arithmetic. Their Python `None` cases are not modelled.
- Python dictionaries keep insertion order; Dafny maps do not. `Sensor.AsyncSetupEntry` therefore takes the snapshot's iteration order as a sequence that lists every key exactly once.
- `Sensor.Manufacturer`: states the two branches of the code and no converse of the "ako" branch, because `"kerbl".title()` is also "Kerbl".
