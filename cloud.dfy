/** `ParticleCloud` (models.py:18-37): the cloud client.  The HTTP request
    itself is an input, `CloudResponse`; what is modelled is how the device
    list becomes a dict of fresh `Device` objects keyed by id, and how a bad
    response becomes `CloudCommunicationError`. */
module Cloud {
  import opened PyTypes
  import opened Devices

  /** What `requests.get` on the device-list URL produced. */
  datatype CloudResponse =
    | Listed(records: seq<DeviceRecord>)   // status 200, body decoded to a list of device dicts
    | BadStatus                            // any other status code
    | RequestFailed                        // `requests.get` raised

  /** `devices[device.id] = device` over the list, in order: each id maps to
      its last record. */
  function IndexById(records: seq<DeviceRecord>): (m: map<string, DeviceRecord>)
    ensures m.Keys == set i | 0 <= i < |records| :: records[i].id
  {
    if |records| == 0 then map[]
    else
      var last := records[|records| - 1];
      var earlier := records[..|records| - 1];
      assert forall i :: 0 <= i < |records| - 1 ==> records[i] == earlier[i];
      IndexById(earlier)[last.id := last]
  }

  /** The record an id maps to is the last record carrying that id. */
  lemma {:induction false} IndexByIdLast(records: seq<DeviceRecord>, i: int)
    requires 0 <= i < |records|
    requires forall j :: i < j < |records| ==> records[j].id != records[i].id
    ensures IndexById(records)[records[i].id] == records[i]
  {
    if i < |records| - 1 {
      var earlier := records[..|records| - 1];
      assert earlier[i] == records[i];
      IndexByIdLast(earlier, i);
    }
  }

  class ParticleCloud {
    const cloudApiToken: string

    constructor (cloudApiToken: string)
      ensures this.cloudApiToken == cloudApiToken
    {
      this.cloudApiToken := cloudApiToken;
    }

    /** `get_devices`: on a good response, a fresh dict holding one fresh,
        blank device per id, built from that id's last record; on a bad
        status, `CloudCommunicationError`; a failed request propagates. */
    method GetDevices(response: CloudResponse) returns (devices: DeviceDict?, err: Option<PyError>)
      ensures response.BadStatus? ==> devices == null && err == Some(CloudCommunicationError)
      ensures response.RequestFailed? ==> devices == null && err == Some(RequestException)
      ensures response.Listed? ==>
                && err.None? && devices != null && fresh(devices)
                && devices.entries.Keys == IndexById(response.records).Keys
                && devices.DistinctDevices()
                && forall k :: k in devices.entries ==>
                     && fresh(devices.entries[k])
                     && devices.entries[k].Blank()
                     && devices.entries[k].Describes(IndexById(response.records)[k], cloudApiToken)
    {
      match response
      case BadStatus =>
        devices, err := null, Some(CloudCommunicationError);
      case RequestFailed =>
        devices, err := null, Some(RequestException);
      case Listed(records) =>
        var result := new DeviceDict();
        for i := 0 to |records|
          invariant fresh(result)
          invariant result.entries.Keys == IndexById(records[..i]).Keys
          invariant result.DistinctDevices()
          invariant forall k :: k in result.entries ==>
                      && fresh(result.entries[k])
                      && result.entries[k].Blank()
                      && result.entries[k].Describes(IndexById(records[..i])[k], cloudApiToken)
        {
          var device := Device.FromDict(records[i], cloudApiToken);
          result.entries := result.entries[device.id := device];
          assert records[..i + 1][..i] == records[..i];
        }
        assert records[..|records|] == records;
        devices, err := result, None;
    }
  }
}
