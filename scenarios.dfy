/** Properties that relate several members of the device service, stated on DeviceSpec. */
module DeviceScenarios {
  import opened Json
  import opened Api
  import opened DeviceTypes
  import opened DeviceSpec

  /** A hub response carrying the four registration fields. */
  function RegistrationResponse(cloudhook: string, remoteUi: string, secret: string, webhookId: string): JsonValue
  {
    JObj(map[KEY_CLOUDHOOK_URL := JStr(cloudhook), KEY_REMOTE_UI_URL := JStr(remoteUi),
             KEY_SECRET := JStr(secret), KEY_WEBHOOK_ID := JStr(webhookId)])
  }

  /** A registration round trip: the record is stored, observers are notified, then each sensor is
      registered; a failed store is reported but rolls nothing back. */
  lemma RegistrationRoundTrip(s: DeviceState, o: StoreOutcome)
    requires Valid(s)
    ensures var r := OnRequestFinished(s, RequestPostApiRegisterDevice,
                                       RegistrationResponse("https://x", "https://y", "s", "w1"), o);
      var c := Credentials("w1", "s", "https://x", "https://y", s.credentials.token);
      && IsRegistered(r.credentials)
      && r.credentials == c
      && r.effects == s.effects + [
           VaultRequest(DeleteCollectionCall), VaultRequest(CreateCollectionCall), VaultRequest(StoreSecretCall(c)),
           Emitted(CredentialsChanged(c)),
           Sent(WebhookRequest(RequestWebhookRegisterSensor, s.sensors[0].data.description)),
           Sent(WebhookRequest(RequestWebhookRegisterSensor, s.sensors[1].data.description))]
      && (ReportsError(o.stored) ==> r.error == ErrorStoringCredentials)
  {
  }

  /** The parsed record does not depend on what the vault answered: a failed store rolls nothing back. */
  lemma StoreFailureKeepsParsedRecord(s: DeviceState, data: map<string, JsonValue>, ok: StoreOutcome, failed: StoreOutcome)
    requires !ReportsError(ok.deleted) && !ReportsError(ok.created) && !ReportsError(ok.stored)
    requires ReportsError(failed.stored)
    ensures ParseDeviceRegistration(s, data, failed).credentials == ParseDeviceRegistration(s, data, ok).credentials
    ensures ParseDeviceRegistration(s, data, failed).error == ErrorStoringCredentials
    ensures ParseDeviceRegistration(s, data, ok).error == s.error
  {
  }

  /** After a reset the device still reports itself registered, and a registration response that
      arrives afterwards is applied as usual: no handler checks the state first. */
  lemma ResetKeepsRegistration(s: DeviceState, res: VaultResult, doc: JsonValue, o: StoreOutcome)
    requires IsRegistered(s.credentials)
    ensures IsRegistered(ResetRegistration(s, res).credentials)
    ensures OnRequestFinished(ResetRegistration(s, res), RequestPostApiRegisterDevice, doc, o).credentials.webhookId
            == StringValue(ObjectOf(doc), KEY_WEBHOOK_ID)
  {
  }

  /** Switching live updates off and on again (or on and off) restores every sensor. */
  lemma LiveUpdatesToggleRestoresSensors(s: DeviceState)
    requires Valid(s)
    ensures var r := SetSensorLiveUpdates(SetSensorLiveUpdates(s, !s.sensorLiveUpdates), s.sensorLiveUpdates);
      r.sensors == s.sensors && r.sensorLiveUpdates == s.sensorLiveUpdates
      && r.effects == s.effects + [Emitted(SensorLiveUpdatesChanged(!s.sensorLiveUpdates)),
                                   Emitted(SensorLiveUpdatesChanged(s.sensorLiveUpdates))]
  {
  }

  /** Setting the same name or token twice notifies once. */
  lemma SettersNotifyOnce(s: DeviceState, name: string, token: string)
    ensures SetDeviceName(SetDeviceName(s, name), name) == SetDeviceName(s, name)
    ensures SetToken(SetToken(s, token), token) == SetToken(s, token)
  {
  }
}
