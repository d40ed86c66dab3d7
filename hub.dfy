/** `HubManager` (models.py:40-91): the registry of the account's devices and
    of the managed ones, refreshed from the cloud and shared with the stream
    manager.  Device dicts are objects, so the assignment
    `self.managed_devices = self.devices` makes the two attributes one dict,
    as it does in the source, until a refresh rebinds `self.devices`. */
module Hub {
  import opened PyTypes
  import opened Devices
  import opened Cloud
  import opened Stream

  /** The tag maps a successful refresh leaves: each id of the new list keeps
      the tags it had under the same key before, and a new id has none. */
  function RefreshedTags(previous: Option<map<string, Tags>>, ids: set<string>): (r: map<string, Tags>)
    ensures r.Keys == ids
    ensures forall k :: k in r && previous.Some? && k in previous.value ==> r[k] == previous.value[k]
    ensures forall k :: k in r && !(previous.Some? && k in previous.value) ==> r[k] == map[]
  {
    map k | k in ids :: if previous.Some? && k in previous.value then previous.value[k] else map[]
  }

  /** Refreshing again with the same device list changes no tag map. */
  lemma RefreshIdempotent(previous: Option<map<string, Tags>>, ids: set<string>)
    ensures RefreshedTags(Some(RefreshedTags(previous, ids)), ids) == RefreshedTags(previous, ids)
  {
  }

  class HubManager {
    const eventCallbacks: seq<Callback>
    const cloud: ParticleCloud
    var devices: DeviceDict?
    var managedDevices: DeviceDict?
    const streamManager: StreamManager

    /** The stream manager always holds the hub's managed dict. */
    ghost predicate Valid()
      reads this, streamManager
    {
      streamManager.managedDevices == managedDevices
    }

    /** The `try` block of `update_device_list` as a function of the current
        dict: on a good response, the fresh dict `get_devices` built, each
        device whose id was already known taking over the old device's tags
        (and nothing else: a rebuilt device is unmanaged); on a bad status,
        `None`; a failed request escapes and leaves the dict as it was. */
    static method MergeDeviceList(cloud: ParticleCloud, current: DeviceDict?, response: CloudResponse)
      returns (next: DeviceDict?, raised: Option<PyError>)
      ensures response.RequestFailed? ==> raised == Some(RequestException) && next == current
      ensures response.BadStatus? ==> raised.None? && next == null
      ensures response.Listed? ==>
                && raised.None? && next != null && fresh(next)
                && next.entries.Keys == IndexById(response.records).Keys
                && next.DistinctDevices()
                && next.TagsView() == RefreshedTags(old(TagsOf(current)), next.entries.Keys)
                && forall k :: k in next.entries ==>
                     && fresh(next.entries[k])
                     && !next.entries[k].isManaged && !next.entries[k].logManaged && next.entries[k].variableState == map[]
                     && next.entries[k].Describes(IndexById(response.records)[k], cloud.cloudApiToken)
    {
      var fetched, err := cloud.GetDevices(response);
      if err == Some(RequestException) {
        return current, err;
      }
      if err.Some? {
        return null, None;
      }
      if current != null {
        CarryOverTags(current, fetched);
      }
      next, raised := fetched, None;
    }

    /** The loop of `update_device_list`: every device of the new dict whose
        id is a key of the current dict takes over that device's tag map. */
    static method CarryOverTags(current: DeviceDict, fetched: DeviceDict)
      requires fetched.DistinctDevices()
      requires forall k :: k in fetched.entries ==> fetched.entries[k].tags == map[]
      requires forall k, j :: k in current.entries && j in fetched.entries ==> current.entries[k] != fetched.entries[j]
      modifies fetched.entries.Values
      ensures fetched.TagsView() == RefreshedTags(old(TagsOf(current)), fetched.entries.Keys)
      ensures forall k :: k in fetched.entries ==>
                && fetched.entries[k].isManaged == old(fetched.entries[k].isManaged)
                && fetched.entries[k].variableState == old(fetched.entries[k].variableState)
    {
      ghost var previous := current.TagsView();
      var pending := current.entries.Keys;
      while pending != {}
        invariant pending <= current.entries.Keys
        invariant forall k :: k in current.entries ==> current.entries[k].tags == previous[k]
        invariant forall k :: k in fetched.entries ==>
                    && fetched.entries[k].isManaged == old(fetched.entries[k].isManaged)
                    && fetched.entries[k].variableState == old(fetched.entries[k].variableState)
                    && fetched.entries[k].tags ==
                         if k in previous && k !in pending then previous[k] else old(fetched.entries[k].tags)
        decreases pending
      {
        var k :| k in pending;
        if k in fetched.entries {
          fetched.entries[k].tags := current.entries[k].tags;
        }
        pending := pending - {k};
      }
      assert fetched.TagsView() == RefreshedTags(Some(previous), fetched.entries.Keys);
    }

    /** `HubManager.__init__` without starting the stream: the first refresh
        runs on the given devices, then the managed dict becomes the very
        dict the refresh produced (or `None`), and the stream manager is
        handed that same object. */
    constructor (cloud: ParticleCloud, response: CloudResponse, eventCallbacks: seq<Callback>,
                 logDest: Option<string>, devices: DeviceDict?)
      requires !response.RequestFailed?
      requires SelectLogFunction(logDest).Ok?
      ensures Valid()
      ensures this.cloud == cloud && this.eventCallbacks == eventCallbacks
      ensures managedDevices == this.devices
      ensures response.BadStatus? ==> this.devices == null
      ensures response.Listed? ==>
                && this.devices != null && fresh(this.devices)
                && this.devices.entries.Keys == IndexById(response.records).Keys
                && this.devices.DistinctDevices()
                && this.devices.TagsView() == RefreshedTags(old(TagsOf(devices)), this.devices.entries.Keys)
                && forall k :: k in this.devices.entries ==>
                     && fresh(this.devices.entries[k])
                     && !this.devices.entries[k].isManaged && !this.devices.entries[k].logManaged && this.devices.entries[k].variableState == map[]
                     && this.devices.entries[k].Describes(IndexById(response.records)[k], cloud.cloudApiToken)
      ensures fresh(streamManager) && streamManager.callbacks == eventCallbacks
      ensures streamManager.dbLogging <==> logDest.Some?
      ensures streamManager.subscribedEvents == DefaultSubscribedEvents
    {
      this.eventCallbacks := eventCallbacks;
      this.cloud := cloud;
      var next, _ := MergeDeviceList(cloud, devices, response);
      this.devices := next;
      managedDevices := next;
      streamManager := new StreamManager(eventCallbacks, logDest, next);
    }

    /** `update_device_list`: a good response replaces the dict (see
        MergeDeviceList), a bad status makes the device set unknown (`None`,
        not an empty dict), a failed request propagates; the managed dict is
        not touched. */
    method UpdateDeviceList(response: CloudResponse) returns (raised: Option<PyError>)
      requires Valid()
      modifies this
      ensures Valid()
      ensures managedDevices == old(managedDevices)
      ensures raised.Some? <==> response.RequestFailed?
      ensures response.RequestFailed? ==> raised == Some(RequestException) && devices == old(devices)
      ensures response.BadStatus? ==> devices == null
      ensures response.Listed? ==>
                && devices != null && fresh(devices)
                && devices.entries.Keys == IndexById(response.records).Keys
                && devices.DistinctDevices()
                && devices.TagsView() == RefreshedTags(old(TagsOf(devices)), devices.entries.Keys)
                && (forall k :: k in devices.entries ==>
                      && fresh(devices.entries[k])
                      && !devices.entries[k].isManaged && !devices.entries[k].logManaged && devices.entries[k].variableState == map[]
                      && devices.entries[k].Describes(IndexById(response.records)[k], cloud.cloudApiToken))
                && (managedDevices != null ==>
                      forall k, j :: k in devices.entries && j in managedDevices.entries ==>
                        devices.entries[k] != managedDevices.entries[j])
    {
      var next;
      next, raised := MergeDeviceList(cloud, devices, response);
      devices := next;
    }

    /** `add_device(device_id)`: the device is looked up in the full dict
        (`TypeError` when it is `None`, `KeyError` when the id is missing, no
        change either way), marked managed, and then stored under its id in
        the managed dict (`TypeError` when that is `None`, with the mark
        already set).  Only that one entry and that one device change. */
    method AddDevice(deviceId: string) returns (raised: Option<PyError>)
      requires Valid()
      modifies (if devices != null && deviceId in devices.entries then {devices.entries[deviceId]} else {})`isManaged
      modifies managedDevices, streamManager
      ensures Valid()
      ensures devices == old(devices) && managedDevices == old(managedDevices)
      ensures devices == null ==> raised == Some(TypeError) && (managedDevices != null ==> unchanged(managedDevices))
      ensures devices != null && deviceId !in old(devices.entries) ==>
                raised == Some(KeyError(deviceId)) && (managedDevices != null ==> unchanged(managedDevices))
      ensures devices != null && deviceId in old(devices.entries) ==>
                && old(devices.entries[deviceId]).isManaged
                && (managedDevices == null ==> raised == Some(TypeError))
                && (managedDevices != null ==>
                      raised.None? &&
                      managedDevices.entries == old(managedDevices.entries)[deviceId := old(devices.entries[deviceId])])
    {
      if devices == null {
        return Some(TypeError);
      }
      if deviceId !in devices.entries {
        return Some(KeyError(deviceId));
      }
      var device := devices.entries[deviceId];
      device.isManaged := true;
      if managedDevices == null {
        return Some(TypeError);
      }
      managedDevices.entries := managedDevices.entries[deviceId := device];
      streamManager.managedDevices := managedDevices;
      raised := None;
    }

    /** `remove_device(device_id)`: the device is looked up in the full dict
        (`TypeError` / `KeyError` with no change), marked unmanaged, and then
        deleted from the managed dict (`TypeError` when that is `None`,
        `KeyError` when the id is not managed, the mark already cleared in
        both cases).  While the managed dict is still the full dict, the
        device leaves the full dict too. */
    method RemoveDevice(deviceId: string) returns (raised: Option<PyError>)
      requires Valid()
      modifies (if devices != null && deviceId in devices.entries then {devices.entries[deviceId]} else {})`isManaged
      modifies managedDevices, streamManager
      ensures Valid()
      ensures devices == old(devices) && managedDevices == old(managedDevices)
      ensures devices == null ==> raised == Some(TypeError) && (managedDevices != null ==> unchanged(managedDevices))
      ensures devices != null && deviceId !in old(devices.entries) ==>
                raised == Some(KeyError(deviceId)) && (managedDevices != null ==> unchanged(managedDevices))
      ensures devices != null && deviceId in old(devices.entries) ==>
                && !old(devices.entries[deviceId]).isManaged
                && (managedDevices == null ==> raised == Some(TypeError))
                && (managedDevices != null && deviceId !in old(managedDevices.entries) ==>
                      raised == Some(KeyError(deviceId)) && managedDevices.entries == old(managedDevices.entries))
                && (managedDevices != null && deviceId in old(managedDevices.entries) ==>
                      raised.None? && managedDevices.entries == old(managedDevices.entries) - {deviceId})
      ensures raised.None? && devices == managedDevices ==> devices.entries == old(devices.entries) - {deviceId}
    {
      if devices == null {
        return Some(TypeError);
      }
      if deviceId !in devices.entries {
        return Some(KeyError(deviceId));
      }
      var device := devices.entries[deviceId];
      device.isManaged := false;
      if managedDevices == null {
        return Some(TypeError);
      }
      if deviceId !in managedDevices.entries {
        return Some(KeyError(deviceId));
      }
      managedDevices.entries := managedDevices.entries - {deviceId};
      streamManager.managedDevices := managedDevices;
      raised := None;
    }
  }

  /** Right after construction the managed dict is the full dict, so removing
      a device from management removes it from the hub's device list as well. */
  method RemoveRightAfterConstruction(cloud: ParticleCloud, records: seq<DeviceRecord>,
                                      eventCallbacks: seq<Callback>, deviceId: string)
    returns (hub: HubManager, raised: Option<PyError>)
    requires deviceId in IndexById(records)
    ensures raised.None?
    ensures hub.devices != null && hub.devices == hub.managedDevices
    ensures hub.devices.entries.Keys == IndexById(records).Keys - {deviceId}
  {
    hub := new HubManager(cloud, Listed(records), eventCallbacks, None, null);
    raised := hub.RemoveDevice(deviceId);
  }

  /** The first refresh after construction rebinds only the full dict: a
      device the cloud no longer lists stays in the managed dict, and so in
      the stream manager's, while it is gone from the device list. */
  method RefreshKeepsDroppedDeviceManaged(cloud: ParticleCloud, before: seq<DeviceRecord>,
                                          after: seq<DeviceRecord>, eventCallbacks: seq<Callback>,
                                          deviceId: string)
    returns (hub: HubManager)
    requires deviceId in IndexById(before) && deviceId !in IndexById(after)
    ensures hub.devices != null && deviceId !in hub.devices.entries
    ensures hub.managedDevices != null && deviceId in hub.managedDevices.entries
    ensures hub.streamManager.managedDevices == hub.managedDevices
  {
    hub := new HubManager(cloud, Listed(before), eventCallbacks, None, null);
    var _ := hub.UpdateDeviceList(Listed(after));
  }

  /** A bad status makes the device set unknown, so the refresh after it
      carries no tags over: every device of the new list starts without tags. */
  method RefreshAfterBadStatus(hub: HubManager, records: seq<DeviceRecord>)
    requires hub.Valid()
    modifies hub
    ensures hub.devices != null && hub.devices.entries.Keys == IndexById(records).Keys
    ensures forall k :: k in hub.devices.entries ==> hub.devices.entries[k].tags == map[]
  {
    var _ := hub.UpdateDeviceList(BadStatus);
    var _ := hub.UpdateDeviceList(Listed(records));
    assert hub.devices.TagsView() == RefreshedTags(None, hub.devices.entries.Keys);
  }
}
