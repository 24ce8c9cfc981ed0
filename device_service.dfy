/** The device service as the object it is: fields updated in place by its members, each member
    proved to move the state exactly as the matching transition of DeviceSpec says. */
module Device {
  import opened Json
  import opened Api
  import opened DeviceTypes
  import DeviceSpec

  class DeviceService {
    const platform: Platform
    var credentials: Credentials
    var deviceName: string
    var sensorLiveUpdates: bool
    var state: ServiceState
    var error: DeviceError
    var sensors: seq<Sensor>
    // what the service has done to the outside world so far, in order: requests, notifications, vault requests
    var effects: seq<Effect>

    ghost function State(): DeviceSpec.DeviceState
      reads this
    {
      DeviceSpec.DeviceState(credentials, deviceName, sensorLiveUpdates, state, error,
                             sensors, effects)
    }

    ghost predicate Valid()
      reads this
    {
      DeviceSpec.Valid(State())
    }

    /** Registers the battery and charging sensors, then applies the persisted settings. */
    constructor (platform: Platform, settings: Settings, battery: SensorData, charging: SensorData)
      ensures Valid()
      ensures this.platform == platform
      ensures credentials == EMPTY_CREDENTIALS && !IsRegistered()
      ensures deviceName == settings.deviceName && sensorLiveUpdates == settings.sensorLiveUpdates
      ensures state == StateUninitialized && error == ErrorNone
      ensures sensors == [Sensor(BatterySensor, battery, settings.sensorLiveUpdates),
                          Sensor(BatteryChargingSensor, charging, settings.sensorLiveUpdates)]
      ensures effects == (if settings.deviceName == "" then [] else [Emitted(DeviceNameChanged(settings.deviceName))])
                       + (if settings.sensorLiveUpdates then [Emitted(SensorLiveUpdatesChanged(true))] else [])
    {
      this.platform := platform;
      credentials := EMPTY_CREDENTIALS;
      deviceName := "";
      sensorLiveUpdates := false;
      state := StateUninitialized;
      error := ErrorNone;
      sensors := [Sensor(BatterySensor, battery, false), Sensor(BatteryChargingSensor, charging, false)];
      effects := [];
      new;
      SetDeviceName(settings.deviceName);
      SetSensorLiveUpdates(settings.sensorLiveUpdates);
    }

    function IsRegistered(): (r: bool)
      reads this
      ensures r <==> credentials.webhookId != ""
      ensures credentials == EMPTY_CREDENTIALS ==> !r
    {
      DeviceSpec.IsRegistered(credentials)
    }

    method RegisterDevice()
      requires Valid()
      modifies this
      ensures Valid()
      ensures State() == DeviceSpec.RegisterDevice(old(State()), platform)
    {
      var data := DeviceSpec.RegistrationPayload(platform, deviceName);
      effects := effects + [Sent(ApiRequest(RequestPostApiRegisterDevice, "", data))];
    }

    method RegisterSensors()
      requires Valid()
      modifies this
      ensures Valid()
      ensures State() == DeviceSpec.RegisterSensors(old(State()))
    {
      var i := 0;
      while i < |sensors|
        invariant 0 <= i <= |sensors|
        invariant effects == old(effects) + DeviceSpec.SensorRegistrations(sensors[..i])
        invariant State() == old(State()).(effects := effects)
      {
        assert sensors[..i + 1][..i] == sensors[..i];
        effects := effects + [Sent(WebhookRequest(RequestWebhookRegisterSensor, sensors[i].data.description))];
        i := i + 1;
      }
      assert sensors[..i] == sensors;
    }

    method ResetRegistration(res: VaultResult)
      requires Valid()
      modifies this
      ensures Valid()
      ensures State() == DeviceSpec.ResetRegistration(old(State()), res)
    {
      DeleteCollection(res);
    }

    method UpdateDeviceRegistration()
      requires Valid()
      modifies this
      ensures Valid()
      ensures State() == DeviceSpec.UpdateDeviceRegistration(old(State()), platform)
    {
      var data := DeviceSpec.UpdatePayload(platform, deviceName);
      effects := effects + [Sent(WebhookRequest(RequestWebhookUpdateRegistration, data))];
    }

    method SendSensorUpdate(data: JsonValue)
      requires Valid()
      modifies this
      ensures Valid()
      ensures State() == DeviceSpec.SendSensorUpdate(old(State()), data)
    {
      var arr := [data];
      effects := effects + [Sent(WebhookRequest(RequestWebhookUpdateSensorStates, JArr(arr)))];
    }

    method SendSensorUpdates()
      requires Valid()
      modifies this
      ensures Valid()
      ensures State() == DeviceSpec.SendSensorUpdates(old(State()))
    {
      var data: seq<JsonValue> := [];
      var i := 0;
      while i < |sensors|
        invariant 0 <= i <= |sensors|
        invariant data == DeviceSpec.SensorReadings(sensors[..i])
      {
        assert sensors[..i + 1][..i] == sensors[..i];
        data := data + [sensors[i].data.reading];
        i := i + 1;
      }
      assert sensors[..i] == sensors;
      effects := effects + [Sent(WebhookRequest(RequestWebhookUpdateSensorStates, JArr(data)))];
    }

    method SetDeviceName(name: string)
      requires Valid()
      modifies this
      ensures Valid()
      ensures State() == DeviceSpec.SetDeviceName(old(State()), name)
    {
      if deviceName == name {
        return;
      }
      deviceName := name;
      effects := effects + [Emitted(DeviceNameChanged(deviceName))];
    }

    /** With a new value: store it, notify, then switch every sensor to follow it. */
    method SetSensorLiveUpdates(enabled: bool)
      requires Valid()
      modifies this
      ensures Valid()
      ensures State() == DeviceSpec.SetSensorLiveUpdates(old(State()), enabled)
    {
      if sensorLiveUpdates == enabled {
        return;
      }
      sensorLiveUpdates := enabled;
      effects := effects + [Emitted(SensorLiveUpdatesChanged(sensorLiveUpdates))];
      var i := 0;
      while i < |sensors|
        invariant 0 <= i <= |sensors| == |old(sensors)|
        invariant forall k :: 0 <= k < i ==> sensors[k] == old(sensors)[k].(enabled := enabled)
        invariant forall k :: i <= k < |sensors| ==> sensors[k] == old(sensors)[k]
        invariant State() == old(State()).(sensorLiveUpdates := enabled, sensors := sensors,
                                             effects := old(effects) + [Emitted(SensorLiveUpdatesChanged(enabled))])
      {
        sensors := sensors[i := sensors[i].(enabled := sensorLiveUpdates)];
        i := i + 1;
      }
      assert sensors == DeviceSpec.SetAllEnabled(old(sensors), enabled);
    }

    method SetToken(token: string)
      requires Valid()
      modifies this
      ensures Valid()
      ensures State() == DeviceSpec.SetToken(old(State()), token)
    {
      if credentials.token == token {
        return;
      }
      credentials := credentials.(token := token);
      effects := effects + [Emitted(TokenChanged(credentials.token)), Emitted(CredentialsChanged(credentials))];
    }

    method CreateCollection(res: VaultResult)
      requires Valid()
      modifies this
      ensures Valid()
      ensures State() == DeviceSpec.CreateCollection(old(State()), res)
    {
      effects := effects + [VaultRequest(CreateCollectionCall)];
      if res.errorCode != 0 {
        error := ErrorCreatingCredentials;
      }
    }

    method DeleteCollection(res: VaultResult)
      requires Valid()
      modifies this
      ensures Valid()
      ensures State() == DeviceSpec.DeleteCollection(old(State()), res)
    {
      effects := effects + [VaultRequest(DeleteCollectionCall)];
      if res.errorCode != 0 {
        error := ErrorDeletingCredentials;
      }
    }

    /** `blob` is the record the fetched secret decodes to; it is read only when the fetch succeeded. */
    method LoadCredentials(fetch: VaultResult, blob: Credentials)
      requires Valid()
      modifies this
      ensures Valid()
      ensures State() == DeviceSpec.LoadCredentials(old(State()), fetch, blob)
    {
      effects := effects + [VaultRequest(FetchSecretCall)];
      if fetch.code != Succeeded {
        error := ErrorLoadingCredentials;
        return;
      }
      credentials := blob;
      effects := effects + [Emitted(CredentialsChanged(credentials))];
    }

    method StoreCredentials(o: StoreOutcome)
      requires Valid()
      modifies this
      ensures Valid()
      ensures State() == DeviceSpec.StoreCredentials(old(State()), o)
    {
      DeleteCollection(o.deleted);
      CreateCollection(o.created);
      effects := effects + [VaultRequest(StoreSecretCall(credentials))];
      if o.stored.errorCode != 0 {
        error := ErrorStoringCredentials;
      }
    }

    method ParseDeviceRegistration(data: map<string, JsonValue>, o: StoreOutcome)
      requires Valid()
      modifies this
      ensures Valid()
      ensures State() == DeviceSpec.ParseDeviceRegistration(old(State()), data, o)
    {
      credentials := credentials.(cloudhookUrl := StringValue(data, KEY_CLOUDHOOK_URL));
      credentials := credentials.(remoteUiUrl := StringValue(data, KEY_REMOTE_UI_URL));
      credentials := credentials.(secret := StringValue(data, KEY_SECRET));
      credentials := credentials.(webhookId := StringValue(data, KEY_WEBHOOK_ID));
      StoreCredentials(o);
      effects := effects + [Emitted(CredentialsChanged(credentials))];
    }

    method Initialize(fetch: VaultResult, blob: Credentials)
      requires Valid()
      modifies this
      ensures Valid()
      ensures State() == DeviceSpec.Initialize(old(State()), fetch, blob)
    {
      state := StateInitializing;
      LoadCredentials(fetch, blob);
      state := StateInitialized;
    }

    /** The vault outcomes `o` are consumed only when the completion is a device registration. */
    method OnRequestFinished(requestType: RequestType, data: JsonValue, o: StoreOutcome)
      requires Valid()
      modifies this
      ensures Valid()
      ensures State() == DeviceSpec.OnRequestFinished(old(State()), requestType, data, o)
    {
      match requestType {
        case RequestPostApiRegisterDevice =>
          ParseDeviceRegistration(ObjectOf(data), o);
          RegisterSensors();
        case _ =>
      }
    }
  }
}
