/**
  The dispatcher of Tasmota MQTT messages as a transition on values: a pair of
  registries keyed by device external id and the log of calls the dispatcher
  makes into its collaborators for one message.
 */
module Dispatch {
  import opened Wrappers
  import opened Topics

  /** One capability of a device, identified by its key. */
  datatype Feature = Feature(key: string, state: Option<string>)

  /** A device as the payload parsers build it. */
  datatype Device = Device(externalId: string, features: seq<Feature>, params: map<string, string>)

  /**
    The collaborators whose bodies are not part of this model, as functions
    fixed for the lifetime of the handler: the payload parsers `status` and
    `subStatus`, and `mergeWithExistingDevice`. The calls to `subStatus` are
    logged (see `Effect`); what the parsers emit on the event bus is not modelled.
   */
  datatype Env = Env(
    serviceId: string,
    status: (string, string, string) -> Device,
    subStatus: (Device, string) -> Device,
    mergeWithExistingDevice: Device -> Device)

  /** A call the dispatcher makes with an effect outside the registries, in order; `status` and the merge only compute a device and are not logged. */
  datatype Effect =
    | Publish(topic: string, payload: Option<string>)
    | FeatureStatus(externalId: string, message: string, statusKey: string)
    | SubStatus(device: Device, message: string)
    | NotifyNewDevice(device: Device)
    | NewState(event: string)

  /** The devices part-way through discovery and the devices that finished it. */
  datatype Registry = Registry(pending: map<string, Device>, known: map<string, Device>)

  /** The registries after one message and the calls made while handling it. */
  datatype Outcome = Outcome(registry: Registry, effects: seq<Effect>)

  /** The status key `featureStatus` is given for a telemetry message. */
  const SensorKey := "StatusSNS"
  const StateKey := "StatusSTS"

  function Lookup(m: map<string, Device>, id: string): Option<Device>
  {
    if id in m then Some(m[id]) else None
  }

  /** No id is both pending and known. */
  predicate Disjoint(r: Registry)
  {
    forall id :: id in r.pending ==> id !in r.known
  }

  function Publishes(effects: seq<Effect>): nat
  {
    if effects == [] then 0 else (if effects[0].Publish? then 1 else 0) + Publishes(effects[1..])
  }

  function Notifications(effects: seq<Effect>): nat
  {
    if effects == [] then 0 else (if effects[0].NotifyNewDevice? then 1 else 0) + Notifications(effects[1..])
  }

  /** The `NEW_STATE` emissions of the final loop over the collected events. */
  function NewStateEmits(events: seq<string>): seq<Effect>
  {
    if events == [] then [] else NewStateEmits(events[..|events| - 1]) + [NewState(events[|events| - 1])]
  }

  /** How the dispatcher handles one message (topic, payload). */
  function Step(env: Env, r: Registry, topic: string, message: string): (o: Outcome)
    ensures forall other :: other != Classify(topic).externalId ==>
              && Lookup(o.registry.pending, other) == Lookup(r.pending, other)
              && Lookup(o.registry.known, other) == Lookup(r.known, other)
    ensures Disjoint(r) ==> Disjoint(o.registry)
  {
    var route := Classify(topic);
    var id := route.externalId;
    match route.kind
    case Sensor =>
      Outcome(r, [FeatureStatus(id, message, SensorKey)])
    case Status =>
      var device := env.status(id, message, env.serviceId);
      Outcome(Registry(r.pending[id := device], r.known - {id}),
              [Publish(CommandTopic(id, "STATUS"), Some("11"))])
    case Status8 =>
      if id in r.pending then
        var parsed := env.subStatus(r.pending[id], message);
        var device := env.mergeWithExistingDevice(parsed);
        Outcome(Registry(r.pending - {id}, r.known[id := device]),
                [SubStatus(r.pending[id], message), NotifyNewDevice(device)])
      else Outcome(r, [])
    case Status11 =>
      if id in r.pending then
        Outcome(Registry(r.pending[id := env.subStatus(r.pending[id], message)], r.known),
                [SubStatus(r.pending[id], message), Publish(CommandTopic(id, "STATUS"), Some("8"))])
      else Outcome(r, [])
    case Result =>
      Outcome(r, [FeatureStatus(id, message, StateKey)])
    case State =>
      Outcome(r, [FeatureStatus(id, message, StateKey)])
    case Lwt =>
      Outcome(r, [Publish(CommandTopic(id, "status"), None)])
    case Unrecognized =>
      Outcome(r, [])
  }

  /** A message of an unlisted kind, or on a topic too short to have a kind, changes nothing and calls nothing. */
  lemma UnrecognizedIsNoOp(env: Env, r: Registry, topic: string, message: string)
    requires Classify(topic).kind == Unrecognized
    ensures Step(env, r, topic, message) == Outcome(r, [])
  {
  }

  /** The handler's documented example `stat/tasmota/POWER` is ignored. */
  lemma PowerMessageIsNoOp(env: Env, r: Registry, message: string)
    ensures Step(env, r, "stat/tasmota/POWER", message) == Outcome(r, [])
  {
    PowerTopicUnrecognized();
    UnrecognizedIsNoOp(env, r, "stat/tasmota/POWER", message);
  }

  /** A topic with fewer than three segments is ignored. */
  lemma ShortTopicIsNoOp(env: Env, r: Registry, topic: string, message: string)
    requires Occurrences(topic, Slash) < 2
    ensures Step(env, r, topic, message) == Outcome(r, [])
  {
  }

  /**
    `STATUS` restarts discovery: the id leaves the known devices, the freshly
    parsed device is pending, and the first wave of sub-status is requested once.
   */
  lemma StatusRestartsDiscovery(env: Env, r: Registry, topic: string, message: string)
    requires Classify(topic).kind == Status
    ensures var id := Classify(topic).externalId;
            var o := Step(env, r, topic, message);
            && id !in o.registry.known
            && id in o.registry.pending
            && o.registry.pending[id] == env.status(id, message, env.serviceId)
            && o.effects == [Publish(CommandTopic(id, "STATUS"), Some("11"))]
  {
  }

  /**
    `STATUS11` with a pending device updates it by `subStatus`, keeps it pending
    and requests the second wave once; without one it changes and calls nothing.
   */
  lemma Status11Advances(env: Env, r: Registry, topic: string, message: string)
    requires Classify(topic).kind == Status11
    ensures var id := Classify(topic).externalId;
            var o := Step(env, r, topic, message);
            if id in r.pending then
              && o.registry.pending == r.pending[id := env.subStatus(r.pending[id], message)]
              && o.registry.known == r.known
              && o.effects == [SubStatus(r.pending[id], message), Publish(CommandTopic(id, "STATUS"), Some("8"))]
            else o == Outcome(r, [])
  {
  }

  /**
    `STATUS8` with a pending device completes discovery: the merged device is
    known, the id is no longer pending, and `notifyNewDevice` is called once
    with the merged device whether or not the id was known before. Without a
    pending device it changes and calls nothing.
   */
  lemma Status8Completes(env: Env, r: Registry, topic: string, message: string)
    requires Classify(topic).kind == Status8
    ensures var id := Classify(topic).externalId;
            var o := Step(env, r, topic, message);
            if id in r.pending then
              var device := env.mergeWithExistingDevice(env.subStatus(r.pending[id], message));
              && o.registry.pending == r.pending - {id}
              && o.registry.known == r.known[id := device]
              && o.effects == [SubStatus(r.pending[id], message), NotifyNewDevice(device)]
            else o == Outcome(r, [])
  {
  }

  /** `STATUS8` notifies exactly when a device was pending, never otherwise. */
  lemma Status8NotifiesIffPending(env: Env, r: Registry, topic: string, message: string)
    requires Classify(topic).kind == Status8
    ensures Notifications(Step(env, r, topic, message).effects) == if Classify(topic).externalId in r.pending then 1 else 0
    ensures Publishes(Step(env, r, topic, message).effects) == 0
  {
    var id := Classify(topic).externalId;
    var effects := Step(env, r, topic, message).effects;
    if id in r.pending {
      var device := env.mergeWithExistingDevice(env.subStatus(r.pending[id], message));
      assert effects == [SubStatus(r.pending[id], message), NotifyNewDevice(device)];
      assert effects[1..] == [NotifyNewDevice(device)];
      assert effects[1..][1..] == [];
      assert Notifications(effects[1..]) == 1 && Publishes(effects[1..]) == 0;
    } else {
      assert effects == [];
    }
  }

  /**
    Telemetry (`SENSOR`, `RESULT`, `STATE`) leaves both registries alone,
    publishes nothing and hands the payload to `featureStatus` with the status
    key of its kind, whatever the discovery state of the device.
   */
  lemma TelemetryPassesThrough(env: Env, r: Registry, topic: string, message: string)
    requires Classify(topic).kind in {Sensor, Result, State}
    ensures var route := Classify(topic);
            var key := if route.kind == Sensor then "StatusSNS" else "StatusSTS";
            Step(env, r, topic, message) == Outcome(r, [FeatureStatus(route.externalId, message, key)])
  {
  }

  /** `LWT` asks for a status re-check once, on the lower-case topic with no payload. */
  lemma LwtRequestsRecheck(env: Env, r: Registry, topic: string, message: string)
    requires Classify(topic).kind == Lwt
    ensures Step(env, r, topic, message) == Outcome(r, [Publish(CommandTopic(Classify(topic).externalId, "status"), None)])
  {
  }

  /**
    Every message reads only the entries of its own id: two registries that
    agree on it give the same calls and agree on it afterwards.
   */
  lemma StepLocal(env: Env, r1: Registry, r2: Registry, topic: string, message: string)
    requires var id := Classify(topic).externalId;
             Lookup(r1.pending, id) == Lookup(r2.pending, id) && Lookup(r1.known, id) == Lookup(r2.known, id)
    ensures var id := Classify(topic).externalId;
            var o1, o2 := Step(env, r1, topic, message), Step(env, r2, topic, message);
            && o1.effects == o2.effects
            && Lookup(o1.registry.pending, id) == Lookup(o2.registry.pending, id)
            && Lookup(o1.registry.known, id) == Lookup(o2.registry.known, id)
  {
    var id := Classify(topic).externalId;
    assert id in r1.pending <==> id in r2.pending;
    assert id in r1.pending ==> r1.pending[id] == r2.pending[id];
  }

  /** The one-message handler never emits a `NEW_STATE` event itself. */
  lemma StepEmitsNoNewState(env: Env, r: Registry, topic: string, message: string)
    ensures forall i :: 0 <= i < |Step(env, r, topic, message).effects| ==> !Step(env, r, topic, message).effects[i].NewState?
  {
  }

  /** Messages handled one after the other, each fully before the next. */
  function Run(env: Env, r: Registry, messages: seq<(string, string)>): (o: Outcome)
    decreases |messages|
  {
    if messages == [] then Outcome(r, [])
    else
      var first := Step(env, r, messages[0].0, messages[0].1);
      var rest := Run(env, first.registry, messages[1..]);
      Outcome(rest.registry, first.effects + rest.effects)
  }

  /** Handling a first message and then the rest is handling them all. */
  lemma RunCons(env: Env, r: Registry, m: (string, string), ms: seq<(string, string)>)
    ensures var first := Step(env, r, m.0, m.1);
            var rest := Run(env, first.registry, ms);
            Run(env, r, [m] + ms) == Outcome(rest.registry, first.effects + rest.effects)
  {
    assert ([m] + ms)[0] == m;
    assert ([m] + ms)[1..] == ms;
  }

  /** Three messages in a row: the registries thread through, the calls concatenate. */
  lemma RunThree(env: Env, r: Registry, a: (string, string), b: (string, string), c: (string, string))
    ensures var o1 := Step(env, r, a.0, a.1);
            var o2 := Step(env, o1.registry, b.0, b.1);
            var o3 := Step(env, o2.registry, c.0, c.1);
            Run(env, r, [a, b, c]) == Outcome(o3.registry, o1.effects + o2.effects + o3.effects)
  {
    var o1 := Step(env, r, a.0, a.1);
    var o2 := Step(env, o1.registry, b.0, b.1);
    var o3 := Step(env, o2.registry, c.0, c.1);
    assert [a, b, c] == [a] + [b, c] && [b, c] == [b] + [c] && [c] == [c] + [];
    RunCons(env, r, a, [b, c]);
    RunCons(env, o1.registry, b, [c]);
    RunCons(env, o2.registry, c, []);
    assert o1.effects + (o2.effects + (o3.effects + [])) == o1.effects + o2.effects + o3.effects;
  }

  /** Disjointness of the registries holds after any sequence of messages. */
  lemma {:induction false} RunPreservesDisjoint(env: Env, r: Registry, messages: seq<(string, string)>)
    requires Disjoint(r)
    ensures Disjoint(Run(env, r, messages).registry)
    decreases |messages|
  {
    if messages != [] {
      RunPreservesDisjoint(env, Step(env, r, messages[0].0, messages[0].1).registry, messages[1..]);
    }
  }

  /** True when the topic is a discovery message (`STATUS`, `STATUS11`, `STATUS8`) for device `id`. */
  predicate DrivesDiscovery(topic: string, id: string)
  {
    Classify(topic).kind in {Status, Status11, Status8} && Classify(topic).externalId == id
  }

  /**
    A device that receives no discovery message keeps its entries in both
    registries, however much telemetry and `LWT` traffic it sends: a stalled
    handshake stays pending.
   */
  lemma {:induction false} RunLeavesOthersAlone(env: Env, r: Registry, messages: seq<(string, string)>, id: string)
    requires forall i :: 0 <= i < |messages| ==> !DrivesDiscovery(messages[i].0, id)
    ensures Lookup(Run(env, r, messages).registry.pending, id) == Lookup(r.pending, id)
    ensures Lookup(Run(env, r, messages).registry.known, id) == Lookup(r.known, id)
    decreases |messages|
  {
    if messages != [] {
      var topic := messages[0].0;
      assert !DrivesDiscovery(topic, id);
      RunLeavesOthersAlone(env, Step(env, r, topic, messages[0].1).registry, messages[1..], id);
    }
  }

  /**
    The whole handshake `STATUS`, `STATUS11`, `STATUS8` for one device, from any
    state: that device ends up known as the merge of the device parsed by
    `status` and updated by both sub-status waves, it is no longer pending,
    the other ids are as before, and the calls are the two wave requests, the
    two sub-status parses and exactly one notification.
   */
  lemma {:induction false} Handshake(env: Env, r: Registry, id: string,
                                     t1: string, m1: string, t2: string, m2: string, t3: string, m3: string)
    requires Classify(t1) == Route(id, Status)
    requires Classify(t2) == Route(id, Status11)
    requires Classify(t3) == Route(id, Status8)
    ensures var first := env.status(id, m1, env.serviceId);
            var second := env.subStatus(first, m2);
            var device := env.mergeWithExistingDevice(env.subStatus(second, m3));
            var o := Run(env, r, [(t1, m1), (t2, m2), (t3, m3)]);
            && o.registry == Registry(r.pending - {id}, r.known[id := device])
            && o.effects == [Publish(CommandTopic(id, "STATUS"), Some("11")),
                             SubStatus(first, m2), Publish(CommandTopic(id, "STATUS"), Some("8")),
                             SubStatus(second, m3), NotifyNewDevice(device)]
            && Notifications(o.effects) == 1
  {
    var first := env.status(id, m1, env.serviceId);
    var second := env.subStatus(first, m2);
    var device := env.mergeWithExistingDevice(env.subStatus(second, m3));
    var o1 := Step(env, r, t1, m1);
    assert o1.registry == Registry(r.pending[id := first], r.known - {id});
    var o2 := Step(env, o1.registry, t2, m2);
    assert o2.registry == Registry(r.pending[id := second], r.known - {id});
    var o3 := Step(env, o2.registry, t3, m3);
    assert o3.registry.pending == r.pending - {id};
    assert o3.registry.known == r.known[id := device];
    RunThree(env, r, (t1, m1), (t2, m2), (t3, m3));
    var o := Run(env, r, [(t1, m1), (t2, m2), (t3, m3)]);
    var effects := [Publish(CommandTopic(id, "STATUS"), Some("11")),
                    SubStatus(first, m2), Publish(CommandTopic(id, "STATUS"), Some("8")),
                    SubStatus(second, m3), NotifyNewDevice(device)];
    assert o.effects == effects;
    assert effects[1..][1..][1..][1..] == [NotifyNewDevice(device)];
    assert effects[1..][1..][1..][1..][1..] == [];
    assert Notifications(effects[1..][1..][1..][1..]) == 1;
    assert Notifications(effects[1..][1..][1..]) == 1;
    assert Notifications(effects[1..][1..]) == 1;
  }

  /**
    The waves are not checked for order: a `STATUS8` right after `STATUS`
    completes discovery with a single sub-status parse, and the `STATUS11`
    that arrives afterwards finds nothing pending and is dropped.
   */
  lemma {:induction false} SecondWaveFirst(env: Env, r: Registry, id: string,
                                           t1: string, m1: string, t3: string, m3: string, t2: string, m2: string)
    requires Classify(t1) == Route(id, Status)
    requires Classify(t3) == Route(id, Status8)
    requires Classify(t2) == Route(id, Status11)
    ensures var first := env.status(id, m1, env.serviceId);
            var device := env.mergeWithExistingDevice(env.subStatus(first, m3));
            var o := Run(env, r, [(t1, m1), (t3, m3), (t2, m2)]);
            && o.registry == Registry(r.pending - {id}, r.known[id := device])
            && o.effects == [Publish(CommandTopic(id, "STATUS"), Some("11")),
                             SubStatus(first, m3), NotifyNewDevice(device)]
  {
    var first := env.status(id, m1, env.serviceId);
    var device := env.mergeWithExistingDevice(env.subStatus(first, m3));
    var o1 := Step(env, r, t1, m1);
    assert o1.registry == Registry(r.pending[id := first], r.known - {id});
    var o2 := Step(env, o1.registry, t3, m3);
    assert o2.registry.pending == r.pending - {id};
    assert o2.registry.known == r.known[id := device];
    var o3 := Step(env, o2.registry, t2, m2);
    assert o3 == Outcome(o2.registry, []);
    RunThree(env, r, (t1, m1), (t3, m3), (t2, m2));
  }
}
