/** `Device` (models.py:221-301): the in-memory state of one Particle device,
    and the dictionary of devices, keyed by id, that the hub and the stream
    manager share. */
module Devices {
  import opened PyTypes

  /** One entry of the cloud's device list, already decoded from JSON; the
      fields `Device.from_dict` reads.  `variables` lists the keys of the
      device's variable dictionary in iteration order. */
  datatype DeviceRecord = DeviceRecord(
    id: string,
    name: Option<string>,
    variables: seq<string>,
    notes: Option<string>,
    connected: Option<bool>,
    online: Option<bool>,
    status: Option<string>)

  class Device {
    const id: string
    const cloudApiToken: string
    const name: Option<string>
    const variables: seq<string>
    const notes: Option<string>
    const connected: Option<bool>
    const online: Option<bool>
    const status: Option<string>
    const logManaged: bool
    var tags: Tags
    var variableState: Tags
    var isManaged: bool

    /** `Device.__init__`: missing `tags` and `variable_state` become empty
        dicts, and a new device is never managed. */
    constructor (deviceId: string, cloudApiToken: string, name: Option<string>, tags: Option<Tags>,
                 variables: seq<string>, variableState: Option<Tags>, notes: Option<string>,
                 connected: Option<bool>, online: Option<bool>, status: Option<string>, logManaged: bool)
      ensures this.id == deviceId && this.cloudApiToken == cloudApiToken && this.name == name
      ensures this.variables == variables && this.notes == notes && this.connected == connected
      ensures this.online == online && this.status == status && this.logManaged == logManaged
      ensures this.tags == (if tags.Some? then tags.value else map[])
      ensures this.variableState == (if variableState.Some? then variableState.value else map[])
      ensures !isManaged
    {
      this.id := deviceId;
      this.logManaged := logManaged;
      this.cloudApiToken := cloudApiToken;
      this.name := name;
      this.variables := variables;
      this.notes := notes;
      this.connected := connected;
      this.online := online;
      this.status := status;
      this.isManaged := false;
      this.tags := if tags.Some? then tags.value else map[];
      this.variableState := if variableState.Some? then variableState.value else map[];
    }

    /** The constant fields carry the record's fields under the given token. */
    predicate Describes(record: DeviceRecord, token: string)
    {
      && id == record.id && cloudApiToken == token && name == record.name
      && variables == record.variables && notes == record.notes && connected == record.connected
      && online == record.online && status == record.status
    }

    /** No tags, no variable state, not managed: the state `from_dict` leaves behind. */
    predicate Blank()
      reads this
    {
      tags == map[] && variableState == map[] && !isManaged && !logManaged
    }

    /** `Device.from_dict`: a fresh device built from one cloud record, with
        every optional constructor argument left at its default. */
    static method FromDict(record: DeviceRecord, cloudApiToken: string) returns (d: Device)
      ensures fresh(d)
      ensures d.Describes(record, cloudApiToken) && d.Blank()
    {
      d := new Device(record.id, cloudApiToken, record.name, None, record.variables, None,
                      record.notes, record.connected, record.online, record.status, false);
    }

    /** `get_variable_data(var)`.  `read` stands for the HTTP read of one
        variable: `Some(v)` when the request succeeded with result `v`, `None`
        when it failed.  An unknown variable gives an empty dict without any
        read; a failed read gives `None`. */
    function GetVariableData(v: string, read: string -> Option<Value>): (r: Value)
      ensures v !in variables ==> r == EmptyDict
      ensures v in variables && read(v).Some? ==> r == read(v).value
      ensures v in variables && read(v).None? ==> r == Null
    {
      if v !in variables then EmptyDict
      else match read(v)
        case Some(result) => result
        case None => Null
    }

    /** `get_all_variable_data`: every tag takes the value read for its name
        (so a tag that is not a variable becomes an empty dict) without any
        tag being added or removed, then every variable's entry of the
        variable state is written, other entries staying as they were. */
    method GetAllVariableData(read: string -> Option<Value>)
      modifies this
      ensures tags.Keys == old(tags).Keys
      ensures forall t :: t in tags ==> tags[t] == GetVariableData(t, read)
      ensures variableState.Keys == old(variableState).Keys + (set v | v in variables)
      ensures forall v :: v in variableState ==>
                variableState[v] == if v in variables then GetVariableData(v, read) else old(variableState)[v]
      ensures isManaged == old(isManaged)
    {
      var pending := tags.Keys;
      while pending != {}
        invariant pending <= tags.Keys == old(tags).Keys
        invariant forall t :: t in tags && t !in pending ==> tags[t] == GetVariableData(t, read)
        invariant variableState == old(variableState) && isManaged == old(isManaged)
        decreases pending
      {
        var t :| t in pending;
        tags := tags[t := GetVariableData(t, read)];
        pending := pending - {t};
      }
      for i := 0 to |variables|
        invariant tags.Keys == old(tags).Keys
        invariant forall t :: t in tags ==> tags[t] == GetVariableData(t, read)
        invariant variableState.Keys == old(variableState).Keys + (set j | 0 <= j < i :: variables[j])
        invariant forall v :: v in variableState ==>
                    variableState[v] == if v in variables[..i] then GetVariableData(v, read) else old(variableState)[v]
        invariant isManaged == old(isManaged)
      {
        variableState := variableState[variables[i] := GetVariableData(variables[i], read)];
        assert variables[..i + 1] == variables[..i] + [variables[i]];
      }
      assert variables[..|variables|] == variables;
      assert (set j | 0 <= j < |variables| :: variables[j]) == (set v | v in variables);
    }
  }

  /** A Python dict of devices keyed by id.  It is an object so that two
      attributes can hold the same dict, as `HubManager` and `StreamManager` do. */
  class DeviceDict {
    var entries: map<string, Device>

    constructor ()
      ensures entries == map[]
    {
      entries := map[];
    }

    /** Each id maps to a device object of its own. */
    predicate DistinctDevices()
      reads this
    {
      forall a, b :: a in entries && b in entries && a != b ==> entries[a] != entries[b]
    }

    /** The tag map of every device in the dict. */
    function TagsView(): (view: map<string, Tags>)
      reads this, entries.Values
    {
      map k | k in entries :: entries[k].tags
    }
  }

  /** The tag map of every device of a dict, or `None` for no dict. */
  function TagsOf(d: DeviceDict?): (view: Option<map<string, Tags>>)
    reads d, if d == null then {} else d.entries.Values
  {
    if d == null then None else Some(d.TagsView())
  }
}
