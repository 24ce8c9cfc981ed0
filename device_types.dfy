/** The values the device service keeps: credentials, sensors, state and error enumerations,
    change notifications, and the protocol spoken with the secret vault. */
module DeviceTypes {
  import opened Json
  import opened Api

  /** The credential record held in memory and persisted, encoded, as one vault secret. */
  datatype Credentials = Credentials(
    webhookId: string,
    secret: string,
    cloudhookUrl: string,
    remoteUiUrl: string,
    token: string)

  /** The record a freshly constructed service starts with. */
  const EMPTY_CREDENTIALS := Credentials("", "", "", "", "")

  datatype ServiceState = StateUninitialized | StateInitializing | StateInitialized | StateError

  /** The sticky last-error field; `ErrorNone` until a vault step fails. */
  datatype DeviceError =
    | ErrorNone
    | ErrorCreatingCredentials
    | ErrorDeletingCredentials
    | ErrorStoringCredentials
    | ErrorLoadingCredentials

  /** The two sensors the service registers when it is constructed. */
  datatype SensorKind = BatterySensor | BatteryChargingSensor

  /** What a sensor serialises to: its registration description and its current state. */
  datatype SensorData = SensorData(description: JsonValue, reading: JsonValue)

  /** A sensor; `enabled` stands for both its enabled flag and the forwarding of its updates. */
  datatype Sensor = Sensor(kind: SensorKind, data: SensorData, enabled: bool)

  /** Change notifications, in emission order. */
  datatype Event =
    | DeviceNameChanged(name: string)
    | SensorLiveUpdatesChanged(enabled: bool)
    | TokenChanged(token: string)
    | CredentialsChanged(credentials: Credentials)

  /** The outcome of one vault request: its status code and its error code (0 means no error). */
  datatype ResultCode = Succeeded | Pending | Failed
  datatype VaultResult = VaultResult(code: ResultCode, errorCode: int)

  /** The test the delete, create and store steps apply to their outcome. */
  predicate ReportsError(r: VaultResult)
  {
    r.errorCode != 0
  }

  /** The outcomes of the three vault requests that storing the credentials performs, in order. */
  datatype StoreOutcome = StoreOutcome(deleted: VaultResult, created: VaultResult, stored: VaultResult)

  /** A request sent to the vault; a stored secret carries the record it encodes. */
  datatype VaultCall =
    | DeleteCollectionCall
    | CreateCollectionCall
    | StoreSecretCall(record: Credentials)
    | FetchSecretCall

  /** One thing the service does to the outside world; the service keeps them in one log, in the
      order it does them, so the order between requests, notifications and vault calls is observable. */
  datatype Effect =
    | Sent(request: Request)
    | Emitted(event: Event)
    | VaultRequest(call: VaultCall)

  /** Platform and application facts the service reads but never changes. */
  datatype Platform = Platform(
    deviceUid: string,
    manufacturer: string,
    model: string,
    softwareVersion: string,
    appName: string,
    appVersion: string)

  /** The persisted settings read at construction (defaults already applied). */
  datatype Settings = Settings(deviceName: string, sensorLiveUpdates: bool)

  const APP_ID := "org.nubecula.harbour.quartermaster"
  const SOFTWARE_NAME := "Sailfish OS"
}
