# Tasmota MQTT message dispatcher

A Dafny model of `handleMqttMessage` in Gladys' Tasmota service. The handler
receives every MQTT message a Tasmota device sends. It classifies the message by
its topic and drives a short discovery handshake over two registries, both keyed
by the device's external id:

- `pendingMqttDevices`: devices part-way through discovery;
- `mqttDevices`: devices that finished discovery.

The handshake works like this:

- `STATUS` restarts discovery. It stores the parsed device as pending and asks
  for sub-status wave 11.
- `STATUS11` enriches the pending device and asks for wave 8.
- `STATUS8` enriches it again, merges it with any existing device, moves it
  from pending to known and announces it.

Telemetry (`SENSOR`, `RESULT`, `STATE`) is handed on to the payload parser.
`LWT` requests a status re-check. Any other topic is ignored.

Files:

- `topics.dfy` (module `Topics`): the topic split, with JavaScript
  `String.prototype.split` semantics, and its inverse `Join`. Also the closed
  `Kind` enumeration (with an explicit `Unrecognized`), `Classify` and the
  command topics.
- `dispatch.dfy` (module `Dispatch`): the handler as a pure transition. `Step`
  maps a `Registry` (both maps) and a message to the new `Registry` and to the
  ordered list of `Effect`s: publishes, `featureStatus`/`subStatus` calls and
  `notifyNewDevice` calls. `NEW_STATE` emissions come only from the final loop,
  `EmitNewStates` in `handler.dfy`. `Run` folds `Step` over a
  sequence of messages, which are handled one at a time. The lemmas state the
  behaviour of every branch, the frame on other ids, disjointness of the two
  registries and the full handshake.
- `handler.dfy` (module `Handler`): the class `TasmotaHandler`. Its two map
  fields are updated in place. Its `outputs` log gets one `Effect` appended per
  publish, per `featureStatus`, `subStatus` and `notifyNewDevice` call, and per
  `NEW_STATE` emission. The calls to `status` and `mergeWithExistingDevice` are
  not logged: they only compute a device. `HandleMqttMessage` is proved to move
  the fields and the log exactly as `Step` says.

The collaborators whose bodies are not part of this model are held in one `Env`
value, as fixed functions:

- `status` and `subStatus` from `./mqtt`;
- `mergeWithExistingDevice`.

Behaviour of the code worth noting:

- `STATUS` stores `status(id, message, serviceId)`, the device parsed from the
  payload, not an empty device (line 27).
- `STATUS8` passes only the pending device to `mergeWithExistingDevice`, not the
  previously known record (line 37).
- `STATUS8` calls `notifyNewDevice` on every completed `STATUS8`, not only for
  ids that were never seen (line 42).
- The order of the two waves is not checked (lines 35 and 49 only test for a
  pending device). A `STATUS8` right after `STATUS` completes discovery, and a
  later `STATUS11` is dropped (`SecondWaveFirst`).
- Telemetry is not turned into events by the handler itself. It is handed to
  `featureStatus` with the event bus (lines 21 and 58). The handler's own
  `events` list always stays empty (lines 16 and 71).

## Model

| member | source | states |
|---|---|---|
| `Topics.Split` | server/services/tasmota/lib/handleMqttMessage.js:13 | splitting a topic always gives at least one part, as JavaScript's split does |
| `Topics.SplitCount` | server/services/tasmota/lib/handleMqttMessage.js:13 | a topic splits into one more part than it has slashes |
| `Topics.SplitPartsFree` | server/services/tasmota/lib/handleMqttMessage.js:13 | no part of the split contains a slash |
| `Topics.JoinSplit` | server/services/tasmota/lib/handleMqttMessage.js:13 | joining the parts with slashes gives back the topic |
| `Topics.SplitJoin` | server/services/tasmota/lib/handleMqttMessage.js:13 | splitting the slash-join of slash-free levels gives back the levels |
| `Topics.KindOf` | server/services/tasmota/lib/handleMqttMessage.js:18-68 | a segment is a recognized kind exactly when it equals that kind's name; every other segment is `Unrecognized` |
| `Topics.KindRoundTrip` | server/services/tasmota/lib/handleMqttMessage.js:18-68 | reading back the name of each recognized kind gives that kind |
| `Topics.ClassifyLevels` | server/services/tasmota/lib/handleMqttMessage.js:13-15 | for a topic of three or more levels, segment 1 is the external id and segment 2 decides the kind, whatever the root and the trailing levels |
| `Topics.Classify` | server/services/tasmota/lib/handleMqttMessage.js:13-15 | a topic with fewer than two slashes has no kind segment and classifies as `Unrecognized`; the external id of a recognized topic is one whole level, with no slash in it |
| `Topics.CommandTopic` | server/services/tasmota/lib/handleMqttMessage.js:29 | the command topic built at lines 29, 52 and 63 is the slash-join of the levels `cmnd`, the id and the command, and splits back into exactly those three levels when neither contains a slash |
| `Topics.CommandTopicLevels` | server/services/tasmota/lib/handleMqttMessage.js:29 | classifying `cmnd/<id>/<command>` names the same device id, with the kind the command names |
| `Topics.PowerTopicUnrecognized` | server/services/tasmota/lib/handleMqttMessage.js:10 | the documented example topic `stat/tasmota/POWER` names device `tasmota` and an unrecognized kind |
| `Dispatch.Step` | server/services/tasmota/lib/handleMqttMessage.js:12-73 | every id other than the message's own keeps its pending and its known entry, present or absent; if no id is both pending and known before the message, none is after it. Each branch is stated by the lemmas below |
| `Dispatch.UnrecognizedIsNoOp` | server/services/tasmota/lib/handleMqttMessage.js:66-68 | an unrecognized kind changes neither registry and makes no call at all |
| `Dispatch.PowerMessageIsNoOp` | server/services/tasmota/lib/handleMqttMessage.js:9-10 | handling `stat/tasmota/POWER` changes nothing and makes no call |
| `Dispatch.ShortTopicIsNoOp` | server/services/tasmota/lib/handleMqttMessage.js:13-15 | a topic with fewer than three segments changes nothing and makes no call |
| `Dispatch.StatusRestartsDiscovery` | server/services/tasmota/lib/handleMqttMessage.js:25-31 | `STATUS` for X removes X from the known devices and sets pending X to `status(X, message, serviceId)`; the only call is one publish of `"11"` to `cmnd/X/STATUS` |
| `Dispatch.Status11Advances` | server/services/tasmota/lib/handleMqttMessage.js:47-55 | `STATUS11` with X pending replaces pending X by its `subStatus` update, leaves the known devices alone, parses once and publishes `"8"` once to `cmnd/X/STATUS`; without X pending nothing changes and nothing is called |
| `Dispatch.Status8Completes` | server/services/tasmota/lib/handleMqttMessage.js:33-45 | `STATUS8` with X pending makes known X the merged, sub-status-updated device and removes pending X; it parses once and notifies once with the merged device, whether or not X was known; without X pending nothing changes and nothing is called |
| `Dispatch.Status8NotifiesIffPending` | server/services/tasmota/lib/handleMqttMessage.js:35-42 | `STATUS8` makes one notification if X was pending and none otherwise, and it never publishes |
| `Dispatch.TelemetryPassesThrough` | server/services/tasmota/lib/handleMqttMessage.js:20-23 | `SENSOR`, `RESULT` and `STATE` leave both registries unchanged, whatever the discovery state; the only call is `featureStatus` with `StatusSNS` for `SENSOR` and `StatusSTS` otherwise (lines 56-59 too) |
| `Dispatch.LwtRequestsRecheck` | server/services/tasmota/lib/handleMqttMessage.js:62-65 | `LWT` for X changes neither registry; the only call is one publish to lower-case `cmnd/X/status` with no payload |
| `Dispatch.StepLocal` | server/services/tasmota/lib/handleMqttMessage.js:34-48 | only the message's own id is read: registries that agree on it give the same calls and agree on it afterwards |
| `Dispatch.StepEmitsNoNewState` | server/services/tasmota/lib/handleMqttMessage.js:16 | the handler itself emits no `NEW_STATE` event, because its `events` list stays empty (line 71 iterates it); what `featureStatus` and `subStatus` emit on the event bus is not modelled |
| `Dispatch.RunPreservesDisjoint` | server/services/tasmota/lib/handleMqttMessage.js:26-40 | over any sequence of messages, no id ever becomes both pending and known |
| `Dispatch.RunLeavesOthersAlone` | server/services/tasmota/lib/handleMqttMessage.js:25-55 | a device that receives no `STATUS`, `STATUS11` or `STATUS8` message keeps both of its registry entries through any sequence of messages, whatever telemetry and `LWT` traffic it sends, so a stalled handshake stays pending |
| `Dispatch.Handshake` | server/services/tasmota/lib/handleMqttMessage.js:25-55 | `STATUS`, then `STATUS11`, then `STATUS8` for X, from any state: known X is the merge of the status device after both sub-status waves, X is no longer pending, other ids are unchanged, and the calls are exactly the two wave requests, the two parses and one notification |
| `Dispatch.SecondWaveFirst` | server/services/tasmota/lib/handleMqttMessage.js:33-55 | `STATUS`, then `STATUS8`, then `STATUS11` for X: discovery completes after a single sub-status parse, and the late `STATUS11` is dropped |
| `Handler.TasmotaHandler.HandleMqttMessage` | server/services/tasmota/lib/handleMqttMessage.js:12-73 | updates the two map fields in place and appends to the output log exactly as `Step` says; it keeps the two registries disjoint |
| `Handler.TasmotaHandler.Publish` | server/services/tasmota/lib/handleMqttMessage.js:29 | a publish appends exactly one `(topic, payload)` record to the log and changes nothing else |
| `Handler.TasmotaHandler.EmitNewStates` | server/services/tasmota/lib/handleMqttMessage.js:71 | the final loop emits one `NEW_STATE` per collected event, in order |

## Left out

- MQTT transport: `this.mqttService.device.publish` is a foreign call. Each publish is recorded as a `Publish(topic, payload)` entry in the log.
- Logging: the `logger.debug` call of the default branch is not observable behaviour and is not modelled.
- The payload parsers `status`, `subStatus` and `featureStatus` of `./mqtt`, and `mergeWithExistingDevice` and `notifyNewDevice`, are not part of this model. `status`, `subStatus` and the merge are arbitrary functions in `Env`. `featureStatus` and `notifyNewDevice` are not functions of the model at all: only their calls are recorded in the log, as are the calls to `subStatus`. What they put in a device, and which events they emit on the event bus, is not specified.
- The merge policy is not stated: current state wins, merge is idempotent, and "new device" fires only when nothing was known before. The merge's body is not part of this model, and the handler notifies unconditionally.
- `mergeWithExistingDevice` may read state outside the handler, such as the devices stored by Gladys. It is modelled as one fixed function of the device. `this.mergeWithExistingDevice` (line 37) and `this.notifyNewDevice` (line 42) are methods of the handler object; the model assumes they neither read nor write the two registries, which the frame and disjointness clauses of `Step` and the lemma `StepLocal` rely on.
- `subStatus` mutates the pending device object in place. The model replaces the map entry with the updated value. This is equivalent only on the assumption that the device `status` returns is a fresh object that nothing else refers to, and that `subStatus` keeps no reference to it; their bodies are not part of this model.
- Exceptions from collaborators: every collaborator is assumed to return normally. In the code, `delete this.mqttDevices[X]` (line 26) runs before `status` (line 27), so a `status` that throws leaves X no longer known, and any earlier pending entry for X stays as it was; a `subStatus` that throws at line 36 or 50 leaves a partly updated device pending. `Step` has no such path.
- Truthiness of the stored device: lines 35 and 49 test `if (device)`, the model tests whether the id is a key of the pending map. The two agree only if `status` never returns a falsy value (`null`, `undefined`); `Env.status` always returns a `Device`.
- The event bus and the `EVENTS` constant: only the final `forEach` over the always-empty `events` list is modelled, as `EmitNewStates`.
- `HandleMqttMessage`: the JavaScript function always returns `null`. The method has no result.
- The registries are JavaScript plain objects, so a lookup of a key such as `constructor` would find an inherited property. The model treats them as dictionaries without inherited keys.
- JavaScript `this` binding and the module's export of `handleMqttMessage`.
