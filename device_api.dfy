/*
 * The app's device API client: the server's response envelope, the
 * requests it sends, and the query cache updates around them, including
 * the optimistic music update and its rollback. The HTTP transport is
 * outside the model: each call's outcome is a parameter.
 */
module DeviceApi {
  import opened Common

  /** An HTTP request as the client sends it. */
  datatype Request = Request(verb: string, path: string, headers: map<string, string>, body: Value)

  /** The server's envelope around every payload: `{status, data}`. */
  function Envelope(status: int, data: Value): (body: Value)
    ensures body.Object? && "data" in body.fields
  {
    Object(map["status" := Int(status), "data" := data])
  }

  /** `response.data.data`: the envelope's payload, undefined (Null) when it has none. */
  function Unwrap(body: Value): (data: Value)
    ensures !body.Object? ==> data == Null
  {
    if body.Object? then Get(body.fields, "data") else Null
  }

  /** The getters hand back exactly the payload the server wrapped. */
  lemma UnwrapEnvelope(status: int, data: Value)
    ensures Unwrap(Envelope(status, data)) == data
  {
  }

  /** A device as the device endpoints return it. */
  datatype DeviceDetail = DeviceDetail(
    deviceId: int,
    deviceName: string,
    deviceUniqueId: string,
    powerStatus: bool,
    openStatus: bool,
    opacityStatus: bool,
    modeStatus: string,
    modeSettings: map<string, Value>,
    mediaId: Option<int>,
    musicId: Option<int>,
    createdAt: string)

  /** The cache keys the client uses. */
  datatype QueryKey = Devices | Device(id: int) | DeviceDetailKey(id: int)

  /** The query cache, with the device list (`['devices']`) held as typed data. */
  class QueryClient {
    /** The cached device list; None when not cached. */
    var devices: Option<seq<DeviceDetail>>
    /** Cached data under the other keys. */
    var others: map<QueryKey, Value>
    /** The invalidations requested, in order. */
    var invalidations: seq<QueryKey>

    constructor ()
      ensures devices.None? && others == map[] && invalidations == []
    {
      devices := None;
      others := map[];
      invalidations := [];
    }

    /** `queryClient.clear()`: every cached query is dropped. */
    method Clear()
      modifies this`devices, this`others
      ensures devices.None? && others == map[]
    {
      devices := None;
      others := map[];
    }

    /** `invalidateQueries`: the key is marked stale; the data stays until refetched. */
    method Invalidate(key: QueryKey)
      modifies this`invalidations
      ensures invalidations == old(invalidations) + [key]
    {
      invalidations := invalidations + [key];
    }
  }

  /** `{ ...device, musicId }` on the device with the given id; every other device as it was. */
  function WithMusic(list: seq<DeviceDetail>, deviceId: int, musicId: Option<int>): (r: seq<DeviceDetail>)
    ensures |r| == |list|
    ensures forall k :: 0 <= k < |list| ==>
      r[k] == if list[k].deviceId == deviceId then list[k].(musicId := musicId) else list[k]
  {
    if |list| == 0 then [] else
      [if list[0].deviceId == deviceId then list[0].(musicId := musicId) else list[0]] +
      WithMusic(list[1..], deviceId, musicId)
  }

  /** The optimistic update changes nothing but the music of the matching device. */
  lemma WithMusicOnlyMusic(list: seq<DeviceDetail>, deviceId: int, musicId: Option<int>, k: int)
    requires 0 <= k < |list|
    ensures var d := WithMusic(list, deviceId, musicId)[k];
      d.deviceId == list[k].deviceId && d.(musicId := list[k].musicId) == list[k] &&
      d.musicId == (if list[k].deviceId == deviceId then musicId else list[k].musicId)
  {
  }

  /** PATCH `/devices/{id}/music` with `{musicId}`. */
  function MusicRequest(deviceId: int, musicId: Option<int>): (req: Request)
    ensures req.verb == "PATCH" && req.path == "/devices/" + IntToString(deviceId) + "/music"
    ensures req.body == Object(map["musicId" := if musicId.Some? then Int(musicId.value) else Null])
  {
    Request("PATCH", "/devices/" + IntToString(deviceId) + "/music", map[],
      Object(map["musicId" := if musicId.Some? then Int(musicId.value) else Null]))
  }

  /**
   * `useUpdateDeviceMusic`: the cached list, when there is one, is updated
   * before the request; a failed request puts the previous list back; the
   * device list is invalidated after either outcome.
   */
  method UpdateDeviceMusic(client: QueryClient, deviceId: int, musicId: Option<int>, succeeded: bool)
    returns (req: Request)
    modifies client
    ensures req == MusicRequest(deviceId, musicId)
    ensures succeeded && old(client.devices).Some? ==>
      client.devices == Some(WithMusic(old(client.devices).value, deviceId, musicId))
    ensures !succeeded || old(client.devices).None? ==> client.devices == old(client.devices)
    ensures client.others == old(client.others)
    ensures client.invalidations == old(client.invalidations) + [Devices]
  {
    // onMutate
    var previous := client.devices;
    if previous.Some? {
      client.devices := Some(WithMusic(previous.value, deviceId, musicId));
    }
    req := MusicRequest(deviceId, musicId);
    // onError
    if !succeeded && previous.Some? {
      client.devices := previous;
    }
    // onSettled
    client.Invalidate(Devices);
  }

  /** PATCH `/devices/{id}/power` with `{status}`. */
  function PowerRequest(deviceId: int, powerStatus: bool): (req: Request)
    ensures req.verb == "PATCH" && req.path == "/devices/" + IntToString(deviceId) + "/power"
    ensures req.body == Object(map["status" := Bool(powerStatus)])
  {
    Request("PATCH", "/devices/" + IntToString(deviceId) + "/power", map[], Object(map["status" := Bool(powerStatus)]))
  }

  /** `useUpdatePowerStatus`: on success only that device's detail is invalidated. */
  method UpdatePowerStatus(client: QueryClient, deviceId: int, powerStatus: bool, succeeded: bool)
    returns (req: Request)
    modifies client`invalidations
    ensures req == PowerRequest(deviceId, powerStatus)
    ensures client.invalidations == old(client.invalidations) + (if succeeded then [Device(deviceId)] else [])
  {
    req := PowerRequest(deviceId, powerStatus);
    if succeeded {
      client.Invalidate(Device(deviceId));
    }
  }
}
