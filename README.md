# particle-hub core model in Dafny

This project models the core of particle-hub, found in `particlehub/models.py`. It has four parts:

- **The hub registry (`HubManager`).** It keeps the full dict of the account's Particle devices and the dict of managed devices. A refresh merges the cloud's device list into the full dict, and `add_device` / `remove_device` edit the managed dict.
- **The stream dispatcher (`StreamManager._handle_msg` and its three handlers).** It filters each server-sent event by managed device and event name, runs the one handler for that name, then notifies every observer callback.
- **The InfluxDB point builder (`_log_to_influx`).**
- **The device entity (`Device`).** This covers its constructor defaults, `from_dict`, and the variable refresh. It also covers the list-to-dict step of `ParticleCloud.get_devices`.

Parts of the program that affect the outside world become inputs or outputs of the model:

- **Cloud device list.** The cloud's answer to the device-list request is a `CloudResponse` input: a decoded list, a bad status, or a failed request.
- **Variable reads.** A single variable read is an oracle `string -> Option<Value>`.
- **Event envelopes.** A server-sent event arrives with its JSON envelope already decoded into a map of strings.
- **InfluxDB writes.** The sink's answer to each `write_points` call is an input function of the write's number.
- **Side effects.** What the dispatcher does is returned as a trace of effects: calls of the log function, with their data dict and tag map, and calls of the callbacks.

Python dicts of devices are objects of the class `Devices.DeviceDict` and `None` is `null`. This lets the statement `self.managed_devices = self.devices` (models.py:55) make the two attributes one object, as in the source. Python exceptions are values of `PyTypes.PyError`, returned as results: `KeyError`, `IndexError`, `TypeError`, `AttributeError`, `CloudCommunicationError`, and the uncaught `RequestException`. Dicts whose iteration order matters are lists of entries in insertion order (`OrderedDict`). These are the dicts passed to the log function.

Files and modules: `pytypes.dfy` (PyTypes), `ordered_dict.dfy` (OrderedDict), `pystr.dfy` (PyStr: `str.split` and `join`), `devices.dfy` (Devices), `cloud.dfy` (Cloud), `influx_log.dfy` (InfluxLog), `stream.dfy` (Stream), `hub.dfy` (Hub).

Behaviours of the code that are easy to miss, and that the model keeps as written:

- **A refresh keeps only `tags`.** A device rebuilt by a refresh is unmanaged again, because `from_dict` builds it with `is_managed = False` and only `tags` is copied over.
- **DATA payloads are not split on `=`.** The `_handle_data` docstring gives the payload schema as `"key1=val1,key2=val2"` (models.py:161), but the comprehension at models.py:164 does not split on `=`. Each comma-separated piece is keyed by its first character and valued by its second, so `"temp=21,hum=55"` gives `{"t": "e", "h": "u"}` plus the timestamp. A piece shorter than two characters raises `IndexError`, and the model returns that error.
- **The managed dict is the full dict after construction.** The assignment `self.managed_devices = self.devices` at models.py:55 is marked `FIXME` in the source. It makes the two attributes one dict, so every device's events are handled even though no `is_managed` flag is set, and `remove_device` also deletes the device from the full dict. The first refresh rebinds only the full dict. From then on the managed dict can hold devices the cloud no longer lists, so "managed ⊆ devices" does not hold.
- **`_handle_log` / `_handle_error` read the payload only when `db_logging` is on.** So a LOG event without `data` is harmless when logging is off. `_handle_data` always parses.

## Model

| member | source | states |
|---|---|---|
| `PyStr.Split` | particlehub/models.py:163 | `str.split(",")` always yields at least one piece |
| `PyStr.JoinSplit` | particlehub/models.py:163 | joining the pieces of `split(",")` with "," gives back the payload |
| `PyStr.SplitPiecesFree` | particlehub/models.py:163 | no piece of `split(",")` contains a comma |
| `PyStr.SplitJoin` | particlehub/models.py:163 | splitting comma-free pieces joined by "," gives back exactly those pieces |
| `OrderedDict.LookupPresent` | particlehub/models.py:164-165 | a key reads as present exactly when it is one of the dict's keys, and it reads as one of its entries |
| `OrderedDict.Insert` | particlehub/models.py:164-165 | `d[k] = v` adds at most one entry, and every entry afterwards is `(k, v)` or an entry of `d` |
| `OrderedDict.InsertLookup` | particlehub/models.py:164-165 | after `d[k] = v`, `k` reads `v` and every other key reads as before |
| `OrderedDict.InsertKeys` | particlehub/models.py:164-165 | after `d[k] = v`, the key order is unchanged if `k` was present, and otherwise `k` is appended at the end |
| `OrderedDict.InsertDistinct` | particlehub/models.py:164-165 | `d[k] = v` keeps the keys distinct |
| `Devices.Device.constructor` | particlehub/models.py:228-246 | every field is taken from its argument; missing `tags` / `variable_state` become empty maps; a new device is unmanaged |
| `Devices.Device.FromDict` | particlehub/models.py:251-255 | a fresh device whose fields are the record's, with no tags, no variable state, not managed and not log-managed |
| `Devices.Device.GetVariableData` | particlehub/models.py:283-294 | an unknown variable gives an empty dict; a known one gives the read's result, or `None` when the read failed |
| `Devices.Device.GetAllVariableData` | particlehub/models.py:257-267 | the set of tag keys is unchanged and every tag takes its name's read value; the variable state gains or updates an entry for each variable and keeps all other entries; `is_managed` is untouched |
| `Cloud.IndexById` | particlehub/models.py:27-31 | the dict's keys are exactly the ids in the device list |
| `Cloud.IndexByIdLast` | particlehub/models.py:29-31 | an id maps to the last record carrying it |
| `Cloud.ParticleCloud.constructor` | particlehub/models.py:20-21 | the client keeps the API token it is given |
| `Cloud.ParticleCloud.GetDevices` | particlehub/models.py:23-37 | a good response gives a fresh dict with one distinct fresh blank device per id, built from that id's last record; a bad status gives `CloudCommunicationError`; a failed request propagates |
| `InfluxLog.PointsFor` | particlehub/models.py:186 | one point per entry, in order, with measurement = key, value = value and the given tag map |
| `InfluxLog.UntilTagKey` | particlehub/models.py:183-185 | the entries the loop writes before its `break` form a prefix of the data with no tag-named key |
| `InfluxLog.UntilTagKeyLongest` | particlehub/models.py:183-185 | the written prefix stops only at the end of the data or at a tag-named key |
| `InfluxLog.UntilTagKeyUnique` | particlehub/models.py:183-185 | any tag-free prefix that ends at the end or at a tag-named key is exactly the written prefix |
| `InfluxLog.StoredPointsSound` | particlehub/models.py:187-195 | the stored points are attempted points whose write succeeded |
| `InfluxLog.LogToInflux` | particlehub/models.py:182-195 | the writes attempted are the points of the longest tag-free prefix, in order, whatever the sink answers; the points stored are those whose write succeeded |
| `Stream.EventHandlers` | particlehub/models.py:118 | exactly LOG, ERROR and DATA have a handler, each its own |
| `Stream.SelectLogFunction` | particlehub/models.py:121-126 | no `log_dest` means no log function; a name in the `log_functions` table (`influx` only, models.py:214, the constant `InfluxLog.LogFunctions`) selects that function; any other name raises `KeyError` |
| `Stream.DbLoggingIffLogDest` | particlehub/models.py:121-126 | selection succeeds exactly for no destination or "influx", and then a log function (`db_logging`) is present exactly when a destination was given |
| `Stream.PairsDict` | particlehub/models.py:164 | the comprehension has no more entries than pieces, and each entry is some piece's first character mapped to its second |
| `Stream.PairsDictLookup` | particlehub/models.py:164 | the comprehension has an entry exactly for each piece's first character, valued by the second character of the last piece with that first character |
| `Stream.PairsDictKeys` | particlehub/models.py:164 | the comprehension's keys are distinct one-character strings |
| `Stream.DataPayload` | particlehub/models.py:163-165 | errors come in source order: `KeyError('data')` before `IndexError` from a piece shorter than two characters, before `KeyError('published_at')`; the dict is built exactly when none of them arises |
| `Stream.DataPayloadTimestamp` | particlehub/models.py:163-165 | the DATA dict is the comprehension's dict followed by one `timestamp` entry holding `published_at` |
| `Stream.DataPayloadExample` | particlehub/models.py:161-164 | "temp=21,hum=55" is parsed to {"t": "e", "h": "u"}, not to the key=value pairs the docstring describes |
| `Stream.HandleDataEffects` | particlehub/models.py:152-168 | the handler succeeds exactly when the payload parses; it then calls the log function once, with the DATA dict and the device tags, if and only if `db_logging` |
| `Stream.WrapPayloadEffects` | particlehub/models.py:170-176 | with logging off nothing happens; with logging on, one log call with the single-key dict {key: data} and the device tags, or `KeyError` when `data` is missing |
| `Stream.RunHandler` | particlehub/models.py:147-148 | the selected handler makes at most one effect, a log call carrying the device's tags, and only when `db_logging`; LOG and ERROR handlers do nothing when logging is off |
| `Stream.Notifications` | particlehub/models.py:149-150 | the loop makes exactly one call per callback |
| `Stream.NotificationsInOrder` | particlehub/models.py:149-150 | every callback is called exactly once with the raw event, in list order |
| `Stream.Dispatch` | particlehub/models.py:143-150 | `KeyError('coreid')` without a `coreid`, then `AttributeError` without a managed dict; any effect at all means the device is managed and the name subscribed, and then the trace ends with every callback, in order, after at most one log call, which carries the device's tags |
| `Stream.DispatchFiltered` | particlehub/models.py:145 | an event of an unmanaged device or of an unsubscribed name makes no log call and no callback call |
| `Stream.DispatchAccepted` | particlehub/models.py:145-150 | an accepted event runs exactly the handler its name selects; if that returns, every callback follows once, in order, after at most one log call, which carries the device's tags |
| `Stream.DispatchData` | particlehub/models.py:145-168 | an accepted DATA event with logging on makes one log call, with the parsed pairs plus timestamp and the device's tags, then notifies the callbacks |
| `Stream.StreamManager.constructor` | particlehub/models.py:104-126 | callbacks and managed dict as given; subscribed events default to LOG, DATA, ERROR; `db_logging` holds exactly when `log_dest` was given |
| `Stream.StreamManager.HandleMsg` | particlehub/models.py:142-150 | the result is the dispatch of the event over the managed dict's tag maps: `KeyError` without `coreid`, `AttributeError` without a managed dict, nothing for a filtered event, otherwise the handler's effects followed by the callbacks |
| `Hub.RefreshedTags` | particlehub/models.py:64-67 | after a refresh the ids are the new list's; an id known before keeps its old tags, and a new id has none |
| `Hub.RefreshIdempotent` | particlehub/models.py:61-68 | refreshing twice with the same device list leaves every tag map as the first refresh left it |
| `Hub.HubManager.CarryOverTags` | particlehub/models.py:64-67 | each new device whose id is a key of the current dict takes over that device's tag map, and nothing else of any device changes |
| `Hub.HubManager.MergeDeviceList` | particlehub/models.py:62-68 | a good response gives a fresh dict keyed by the listed ids, with old tags carried over, unmanaged devices and the other fields from the new records; a bad status gives `None`; a failed request leaves the dict and raises |
| `Hub.HubManager.constructor` | particlehub/models.py:42-58 | the first refresh runs on the given devices and gives fresh, distinct devices, neither managed nor log-managed, built from each id's last record, with the old tags carried over and no variable state; the managed dict is then the same object as the full dict, and the stream manager holds it too |
| `Hub.HubManager.UpdateDeviceList` | particlehub/models.py:61-70 | a good response makes the device dict a fresh dict of fresh, distinct devices, neither managed nor log-managed, built from each id's last record, with old tags carried over and no variable state, none of them an object the managed dict holds; a bad status makes it `None` (unknown, not empty); a failed request raises and changes nothing; the managed dict is not touched |
| `Hub.HubManager.AddDevice` | particlehub/models.py:81-85 | a missing full dict or id raises with no change; otherwise only the device's `is_managed` field is written: the device is marked managed and stored under its id in the managed dict, the only entry that changes |
| `Hub.HubManager.RemoveDevice` | particlehub/models.py:87-91 | a missing full dict or id raises with no change; otherwise only the device's `is_managed` field is written: the device is marked unmanaged (even if deletion then fails) and its id alone is deleted from the managed dict, and from the full dict while the two are one object |
| `Hub.RemoveRightAfterConstruction` | particlehub/models.py:53-91 | right after construction, removing a device from management deletes it from the hub's device list |
| `Hub.RefreshAfterBadStatus` | particlehub/models.py:61-70 | a refresh that meets a bad status makes the device set `None`, so the next good refresh starts every device without tags |
| `Hub.RefreshKeepsDroppedDeviceManaged` | particlehub/models.py:53-68 | after a refresh that drops a device, the managed dict (and the stream manager's) still holds it |

## Left out

- **Stream transport.** The SSE client, the stream thread, `_start_stream`, `start_stream` and `stop_stream` (models.py:128-140) are network I/O and concurrency. So is the skipping of events with empty data (models.py:139).
- **Decoding and logging calls.** `json.loads` of the envelope is not modelled: an event carries its decoded envelope, so malformed JSON is not modelled. The `phlog` logging calls have no modelled effect.
- **HTTP plumbing.** This covers `send_get_request`, `send_post_request`, the URL templates, `full_device_data`, `_update_variable_names` and `_call_func`. Their results are the `CloudResponse` input and the variable-read oracle.
- **Database calls.** `_query_influx` and the construction of `InfluxDBClient(**log_credentials)` are foreign library calls. The credentials are not modelled, and neither are exceptions other than the client and server errors that `_log_to_influx` catches.
- **Persistence.** `save_managed_device_state` and `load_managed_device_state` are file I/O and pickle serialisation.
- **Other methods.** `HubManager.update_device_data` and `Device.__str__` are outside the modelled core. `Device.device_health` only raises `NotImplementedError`.
- **Non-default subscriptions.** A non-`None` `subscribed_events` leaves the attribute unassigned in the source, so only the default subscription is modelled.
- **The hub constructor's `managed_devices` argument.** It and the empty dict built at models.py:49-51 are overwritten at models.py:55 before any use, so the constructor has no such argument.
- **Uncaught observer exceptions.** In the source nothing in `_handle_msg` (models.py:149-150) shields the callback loop, so a raising callback stops it and the exception escapes. The model's callbacks never raise (see the `Stream.StreamManager.HandleMsg` line below).
- **Tag dict sharing.** A refresh makes the new and the old device share one tags dict object. The model copies the tag map as a value, so a later in-place edit through one device is not seen through the other.
- **Decoded record fields.** Device records are decoded values with every field present, so `from_dict`'s `KeyError` on a missing field is not modelled. `variables` is always a list, which leaves out the constructor's `variables=None` default.
- **Unreachable branches of `get_all_variable_data`.** `self.tags` is never `None`, and the `except RequestException` branch cannot fire because `send_get_request` already catches that exception.
- `Hub.HubManager.constructor`: requires that the first device-list request does not fail. In the source, the `requests.get` exception (models.py:25) raised by the refresh at models.py:53 is not caught at models.py:69 and escapes `__init__`, so no hub exists. A Dafny constructor cannot fail to produce its object, so that path is excluded rather than modelled. It also requires `SelectLogFunction(logDest).Ok?`. For an unknown `log_dest`, `log_functions[log_dest]` (models.py:122) raises `KeyError` inside the `StreamManager` construction at models.py:57. That happens after the first refresh at models.py:53 has run, and the exception escapes `__init__`. The constructor excludes that path for the same reason. That `KeyError` is modelled only by `Stream.SelectLogFunction` and `Stream.DbLoggingIffLogDest`.
- `Stream.StreamManager.constructor`: requires `SelectLogFunction(logDest).Ok?`, so it excludes an unknown `log_dest`. In the source, `log_functions[log_dest]` (models.py:122) raises `KeyError` and no stream manager is built. A Dafny constructor cannot fail to produce its object, so that `KeyError` is modelled only by `Stream.SelectLogFunction` and `Stream.DbLoggingIffLogDest`.
- `Devices.Device.GetVariableData`: the read oracle answers by variable name, independent of call order or timing, and the model does not record whether a request was issued. That an unknown variable makes no request is only visible in the definition.
- `Stream.StreamManager.HandleMsg`: callbacks are names in a list and never raise, so the loop always completes. The log function's own work is modelled separately, by `InfluxLog.LogToInflux`.
