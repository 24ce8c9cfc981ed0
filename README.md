# DeviceService: device registration and credential state machine

This project models the `DeviceService` of harbour-quartermaster, a Sailfish OS companion app for a
Home Assistant hub. The service registers the phone with the hub and keeps the resulting credential
record (webhook id, secret, cloudhook URL, remote UI URL, token) in memory and in a Sailfish Secrets
vault collection. It also keeps a device name, a sensor-live-updates flag, a service state and a
sticky last error. It owns two sensors (battery level, battery charging). It reacts to calls, and to
completed requests tagged by request type, by updating those fields, calling the vault in a fixed
order, and sending outbound requests and change notifications. The model records all three kinds of
outside effect in one ordered log (`effects`), so contracts state the order between them.

Layout:

- `json.dfy` (`Json`): JSON values, plus the Qt look-ups the service relies on. A missing or
  non-string value reads as `""`. A document that is not an object reads as the empty object.
- `api.dfy` (`Api`): request-type tags, outbound requests and payload key names. `src/api/api.h` is
  not part of this model. The key strings follow the hub's mobile-app registration API (`device_id`,
  `webhook_id`, …). The numeric tag values are replaced by constructors.
- `device_types.dfy` (`DeviceTypes`): the credential record, sensors, state and error enumerations,
  notifications, the vault protocol, and the entries of the ordered effect log.
- `device_spec.dfy` (`DeviceSpec`): the whole service state as a value (`DeviceState`) and one
  transition function per member of the service. Each function's contract states what that member
  promises.
- `device_service.dfy` (`Device`): the class `DeviceService`, with the source's fields updated in
  place. Each method ensures `State() == DeviceSpec.<member>(old(State()), …)` and preserves `Valid()`.
  `Valid()` says the two sensors are present in order and every sensor's enabled flag equals the
  live-updates flag.
- `scenarios.dfy` (`DeviceScenarios`): properties that relate several members.

External parts:

- **Vault.** Each vault request takes its outcome as a parameter: a `VaultResult` with a status code
  and an error code. Delete, create and store test `errorCode != 0`. Fetch tests
  `code != Succeeded`, as in the source. Every vault request is appended to the effect log as
  `VaultRequest(call)`.
- **Stored blob.** The stored secret is represented by the record it encodes (`StoreSecretCall(record)`).
  A successful fetch is given the record its bytes decode to.
- **Transport.** Outbound requests are appended to the effect log as `Sent(request)`.
- **Notifications.** Change notifications are appended to the effect log as `Emitted(event)`.
- **Platform facts.** The system-information and application getters become a `Platform` value.
- **Settings.** The persisted settings become a `Settings` value passed to the constructor. The
  constructor applies them through the two setters, as `readSettings` does.

## Model

| member | source | states |
|---|---|---|
| `Device.DeviceService.constructor` | src/service/deviceservice.cpp:26-41 | starts with an empty, unregistered record, the two sensors in order, and the name and live-updates flag taken from the settings through the guarded setters (so a notification only for a non-empty name and for live updates on) |
| `Device.DeviceService.IsRegistered` | src/service/deviceservice.cpp:83-86 | true exactly when the webhook id is non-empty; false for the all-empty record |
| `Device.DeviceService.RegisterDevice` | src/service/deviceservice.cpp:88-103 | appends exactly one RegisterDevice API request whose body is `RegistrationPayload` of the current name; nothing else changes |
| `DeviceSpec.RegistrationPayload` | src/service/deviceservice.cpp:90-100 | the body has exactly the ten registration keys; `device_name` is the current name and `supports_encryption` is false |
| `DeviceSpec.RegisterDevice` | src/service/deviceservice.cpp:88-103 | only the effect log changes, by exactly one RegisterDevice request |
| `Device.DeviceService.RegisterSensors` | src/service/deviceservice.cpp:105-110 | the loop appends one sensor-registration request per sensor, in order, and changes nothing else |
| `DeviceSpec.SensorRegistrations` | src/service/deviceservice.cpp:107-109 | one RegisterSensor webhook request per sensor; the k-th carries the k-th sensor's description |
| `DeviceSpec.RegisterSensors` | src/service/deviceservice.cpp:105-110 | the log grows by exactly the number of sensors; the old log is a prefix; entry `old + k` registers sensor k; nothing else changes |
| `Device.DeviceService.ResetRegistration` | src/service/deviceservice.cpp:112-115 | performs only the collection delete |
| `DeviceSpec.ResetRegistration` | src/service/deviceservice.cpp:112-115 | the in-memory record, and so `IsRegistered`, is unchanged; one delete request is logged; the error becomes ErrorDeletingCredentials only on a delete failure |
| `Device.DeviceService.UpdateDeviceRegistration` | src/service/deviceservice.cpp:117-128 | appends exactly one registration-refresh webhook request |
| `DeviceSpec.UpdatePayload` | src/service/deviceservice.cpp:119-125 | the body has exactly the five refresh keys; `device_name` is the current name |
| `DeviceSpec.UpdateDeviceRegistration` | src/service/deviceservice.cpp:117-128 | only the effect log changes, by one UpdateRegistration webhook request |
| `Device.DeviceService.SendSensorUpdate` | src/service/deviceservice.cpp:145-151 | appends one UpdateSensorStates request whose body is a one-element array holding the data |
| `DeviceSpec.SendSensorUpdate` | src/service/deviceservice.cpp:145-151 | only the effect log changes, by that one request |
| `Device.DeviceService.SendSensorUpdates` | src/service/deviceservice.cpp:153-162 | the loop collects every sensor's state, then sends one UpdateSensorStates request |
| `DeviceSpec.SensorReadings` | src/service/deviceservice.cpp:157-159 | one entry per sensor; the k-th is the k-th sensor's state |
| `DeviceSpec.SendSensorUpdates` | src/service/deviceservice.cpp:153-162 | exactly one request is added; its array holds each sensor's state in sensor order; nothing else changes |
| `Device.DeviceService.SetDeviceName` | src/service/deviceservice.cpp:164-171 | the guarded setter, proved equal to `DeviceSpec.SetDeviceName` |
| `DeviceSpec.SetDeviceName` | src/service/deviceservice.cpp:164-171 | the name becomes the argument; with an equal name the state is unchanged and nothing is emitted; otherwise exactly one DeviceNameChanged; nothing else changes |
| `Device.DeviceService.SetSensorLiveUpdates` | src/service/deviceservice.cpp:173-190 | the guarded setter whose loop sets each sensor's enabled flag, proved equal to `DeviceSpec.SetSensorLiveUpdates` |
| `DeviceSpec.SetAllEnabled` | src/service/deviceservice.cpp:182-189 | same length; sensor k is sensor k with its enabled flag set to the argument |
| `DeviceSpec.SetSensorLiveUpdates` | src/service/deviceservice.cpp:173-190 | with the current value nothing changes; otherwise the flag is set, one notification is emitted, and every sensor is enabled exactly when the flag is on, kind and data kept; the sensor invariant is preserved |
| `Device.DeviceService.SetToken` | src/service/deviceservice.cpp:192-200 | the guarded setter, proved equal to `DeviceSpec.SetToken` |
| `DeviceSpec.SetToken` | src/service/deviceservice.cpp:192-200 | only the token changes and the other four credential fields are untouched; emits TokenChanged then CredentialsChanged, or nothing when the token is unchanged |
| `Device.DeviceService.CreateCollection` | src/service/deviceservice.cpp:202-230 | logs one create request; a non-zero error code sets ErrorCreatingCredentials |
| `DeviceSpec.CreateCollection` | src/service/deviceservice.cpp:202-230 | only the effect log (by one create request) and, on an error code, the error change |
| `Device.DeviceService.DeleteCollection` | src/service/deviceservice.cpp:232-256 | logs one delete request; a non-zero error code sets ErrorDeletingCredentials |
| `DeviceSpec.DeleteCollection` | src/service/deviceservice.cpp:232-256 | only the effect log (by one delete request) and, on an error code, the error change |
| `Device.DeviceService.LoadCredentials` | src/service/deviceservice.cpp:258-296 | logs one fetch; on a status other than success sets ErrorLoadingCredentials and returns early; otherwise replaces the record and notifies |
| `DeviceSpec.LoadCredentials` | src/service/deviceservice.cpp:258-296 | after a failed fetch the record and notifications are unchanged and the error is ErrorLoadingCredentials; after a successful fetch the record is the fetched one, with one CredentialsChanged |
| `Device.DeviceService.StoreCredentials` | src/service/deviceservice.cpp:298-337 | deletes, creates, then stores the current record, proved equal to `DeviceSpec.StoreCredentials` |
| `DeviceSpec.StoreCredentials` | src/service/deviceservice.cpp:298-337 | the effect log grows by exactly delete, create, store(current record), in that order; the error is set by the last failing step (store before create before delete); with no failure it is kept; the record is untouched |
| `Device.DeviceService.ParseDeviceRegistration` | src/service/deviceservice.cpp:344-354 | overwrites four fields, stores and notifies, proved equal to `DeviceSpec.ParseDeviceRegistration` |
| `DeviceSpec.ParseDeviceRegistration` | src/service/deviceservice.cpp:344-354 | the four registration fields come from the response and the token is kept, whatever the vault answers; registered exactly when the response's webhook id is non-empty; the effect log grows by delete, create, store(parsed record), then one CredentialsChanged, in that order; the error is what storing gives, so a store failure gives ErrorStoringCredentials |
| `Device.DeviceService.Initialize` | src/service/deviceservice.cpp:356-363 | Initializing, load, then Initialized, proved equal to `DeviceSpec.Initialize` |
| `DeviceSpec.Initialize` | src/service/deviceservice.cpp:356-363 | always ends in StateInitialized; on a load failure the error is ErrorLoadingCredentials, the record is unchanged and only the fetch is logged; on success the record is the loaded one, logged as the fetch then one CredentialsChanged |
| `Device.DeviceService.OnRequestFinished` | src/service/deviceservice.cpp:396-407 | dispatches by tag, proved equal to `DeviceSpec.OnRequestFinished` |
| `DeviceSpec.OnRequestFinished` | src/service/deviceservice.cpp:396-407 | any tag other than RegisterDevice leaves the whole state and the effect log unchanged; RegisterDevice parses the four fields (token kept); the effect log then grows by exactly delete, create, store(parsed record), one CredentialsChanged, and the per-sensor registrations in sensor order, in that order; the error is what storing gives, so a failed store gives ErrorStoringCredentials; the sensor invariant is preserved |
| `DeviceScenarios.RegistrationRoundTrip` | src/service/deviceservice.cpp:396-407 | a response with webhook id "w1" leaves the device registered with the token kept; the log shows delete, create, store, one CredentialsChanged, then one RegisterSensor request for each of the two sensors in order; a failed store gives ErrorStoringCredentials |
| `DeviceScenarios.StoreFailureKeepsParsedRecord` | src/service/deviceservice.cpp:344-354 | a failed store gives the same in-memory record as a successful one, with ErrorStoringCredentials |
| `DeviceScenarios.ResetKeepsRegistration` | src/service/deviceservice.cpp:112-115 | a registered device stays registered after a reset, and a later registration response is still applied |
| `DeviceScenarios.LiveUpdatesToggleRestoresSensors` | src/service/deviceservice.cpp:173-190 | turning live updates away and back restores every sensor, with exactly two notifications |
| `DeviceScenarios.SettersNotifyOnce` | src/service/deviceservice.cpp:164-200 | repeating a name or token update changes nothing further |

## Left out

- `src/service/entitiesservice.h`: it only declares the entities service; no function bodies are part of this model.
- The credential byte encoding (the `QDataStream` operators on the record) is defined outside `deviceservice.cpp`. The model carries the record itself. No encode/decode round trip is claimed.
- The Sailfish Secrets request settings are not modelled: lock type, unlock semantics, access mode, interaction mode, plugin names, identifier, and the debug versus release collection name. Only each request's result is kept.
- Vault error messages and `qDebug` output are not modelled.
- `QSettings` reading and writing (`readSettings`, `writeSettings`, destructor) are left out. The values read become the constructor's `Settings` argument.
- The system-information and application getters (`id`, `manufacturer`, `model`, `softwareVersion`, `wlanMacAddress`, application name and version) are platform calls; their values are opaque strings in `Platform`. `softwareName` is the constant `SOFTWARE_NAME`.
- `sensorsModel` is a plain accessor and is not modelled.
- Sensors are values carrying an enabled flag and two opaque JSON snapshots. `DeviceSensor` is not part of this model. So are readings that change over time and the `connect`/`disconnect` of the `sensorUpdated` signal (the flag stands for it).
- Fresh sensors are assumed disabled, since `DeviceSensor` is not shown. The `Valid()` invariant (every sensor follows the live-updates flag) holds from construction under that assumption.
- The starting values of the name (empty) and of the live-updates flag (false) are assumptions. They are set in `deviceservice.h`, which is not part of this model. The constructor's notifications depend on them: a notification only for a non-empty name and for live updates on.
- The `Service` base class is not part of this model. `setState` and `setError` are modelled as plain assignments, with no notification. The initial state `StateUninitialized` and initial error `ErrorNone` are assumptions.
- `onRequestError` has an empty body and is not modelled. Asynchronous delivery is not modelled either: every completion is one call.
- JSON numbers are integers, because the service never reads one.
