/** The outbound side of the service: request tags, requests and the payload keys of the hub's API. */
module Api {
  import opened Json

  /** The request-type tag carried by every outbound request and by every completion delivered back.
      `OtherRequest` stands for the tags of the other services' requests: its code is never the code
      of one of the four tags named here. */
  datatype RequestType =
    | RequestPostApiRegisterDevice
    | RequestWebhookRegisterSensor
    | RequestWebhookUpdateRegistration
    | RequestWebhookUpdateSensorStates
    | OtherRequest(code: nat)

  /** An outbound request: a REST API call (tag, path, body) or a webhook call (tag, body). */
  datatype Request =
    | ApiRequest(tag: RequestType, path: string, payload: JsonValue)
    | WebhookRequest(tag: RequestType, payload: JsonValue)

  const KEY_DEVICE_ID := "device_id"
  const KEY_APP_ID := "app_id"
  const KEY_APP_NAME := "app_name"
  const KEY_APP_VERSION := "app_version"
  const KEY_DEVICE_NAME := "device_name"
  const KEY_MANUFACTURER := "manufacturer"
  const KEY_MODEL := "model"
  const KEY_OS_NAME := "os_name"
  const KEY_OS_VERSION := "os_version"
  const KEY_SUPPORTS_ENCRYPTION := "supports_encryption"

  const KEY_CLOUDHOOK_URL := "cloudhook_url"
  const KEY_REMOTE_UI_URL := "remote_ui_url"
  const KEY_SECRET := "secret"
  const KEY_WEBHOOK_ID := "webhook_id"
}
