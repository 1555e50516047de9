/**
  The Tasmota MQTT handler as an object: the two device registries it updates
  in place and the log of the calls it makes into its collaborators.
 */
module Handler {
  import opened Wrappers
  import opened Topics
  import opened Dispatch

  class TasmotaHandler {
    /** The service id and the collaborators whose bodies are not modelled. */
    const env: Env
    /** Devices part-way through discovery, by external id. */
    var pendingMqttDevices: map<string, Device>
    /** Devices that finished discovery, by external id. */
    var mqttDevices: map<string, Device>
    /** Every publish, `featureStatus`, `subStatus` and `notifyNewDevice` call and `NEW_STATE` emission so far. */
    var outputs: seq<Effect>

    function Registries(): Registry
      reads this
    {
      Registry(pendingMqttDevices, mqttDevices)
    }

    constructor (env: Env)
      ensures this.env == env
      ensures pendingMqttDevices == map[] && mqttDevices == map[] && outputs == []
      ensures Disjoint(Registries())
    {
      this.env := env;
      pendingMqttDevices := map[];
      mqttDevices := map[];
      outputs := [];
    }

    /** Send `payload` (if any) to `topic` through the MQTT transport. */
    method Publish(topic: string, payload: Option<string>)
      modifies this`outputs
      ensures outputs == old(outputs) + [Effect.Publish(topic, payload)]
    {
      outputs := outputs + [Effect.Publish(topic, payload)];
    }

    /**
      Handle one message received on `topic`: the registries and the log move
      as `Step` says, and no id becomes both pending and known.
     */
    method HandleMqttMessage(topic: string, message: string)
      modifies this`pendingMqttDevices, this`mqttDevices, this`outputs
      ensures Registries() == Step(env, old(Registries()), topic, message).registry
      ensures outputs == old(outputs) + Step(env, old(Registries()), topic, message).effects
      ensures Disjoint(old(Registries())) ==> Disjoint(Registries())
    {
      var route := Classify(topic);
      var deviceExternalId := route.externalId;
      var events: seq<string> := [];

      match route.kind {
        case Sensor =>
          outputs := outputs + [FeatureStatus(deviceExternalId, message, SensorKey)];
        case Status =>
          mqttDevices := mqttDevices - {deviceExternalId};
          var device := env.status(deviceExternalId, message, env.serviceId);
          pendingMqttDevices := pendingMqttDevices[deviceExternalId := device];
          Publish(CommandTopic(deviceExternalId, "STATUS"), Some("11"));
        case Status8 =>
          if deviceExternalId in pendingMqttDevices {
            var device := pendingMqttDevices[deviceExternalId];
            outputs := outputs + [SubStatus(device, message)];
            device := env.subStatus(device, message);
            device := env.mergeWithExistingDevice(device);
            mqttDevices := mqttDevices[deviceExternalId := device];
            pendingMqttDevices := pendingMqttDevices - {deviceExternalId};
            outputs := outputs + [NotifyNewDevice(device)];
          }
        case Status11 =>
          if deviceExternalId in pendingMqttDevices {
            var device := pendingMqttDevices[deviceExternalId];
            outputs := outputs + [SubStatus(device, message)];
            pendingMqttDevices := pendingMqttDevices[deviceExternalId := env.subStatus(device, message)];
            Publish(CommandTopic(deviceExternalId, "STATUS"), Some("8"));
          }
        case Result =>
          outputs := outputs + [FeatureStatus(deviceExternalId, message, StateKey)];
        case State =>
          outputs := outputs + [FeatureStatus(deviceExternalId, message, StateKey)];
        case Lwt =>
          Publish(CommandTopic(deviceExternalId, "status"), None);
        case Unrecognized =>
      }

      EmitNewStates(events);
    }

    /** Emit one `NEW_STATE` event on the event bus per collected event, in order. */
    method EmitNewStates(events: seq<string>)
      modifies this`outputs
      ensures outputs == old(outputs) + NewStateEmits(events)
    {
      var i := 0;
      while i < |events|
        invariant 0 <= i <= |events|
        invariant outputs == old(outputs) + NewStateEmits(events[..i])
      {
        assert events[..i + 1][..i] == events[..i];
        outputs := outputs + [NewState(events[i])];
        i := i + 1;
      }
      assert events[..i] == events;
    }
  }
}
