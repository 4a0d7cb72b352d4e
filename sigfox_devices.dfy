/**
  The "Sigfox Device Endpoint" section of the client (`sigfoxapiv2/__init__.py`, lines 113-253).
  Each operation is modelled by the request it hands to the transport; the Python method
  returns `Exchange(net, request)` of it.
 */
module SigfoxDevices {
  import opened PyValues
  import opened Helper
  import opened SigfoxClient
  import Wrappers

  /** `get_device_types()`: a GET of `/device-types`, with no arguments to the URL. */
  function GetDeviceTypes(client: Sigfox): (r: Request)
    ensures r.verb == GET && r.headers == AuthHeader(client) && r.body == None
    ensures r.url.template == "/device-types" && r.url.fargs == map[]
  {
    GetRequest(client, PlainUrl("/device-types"))
  }

  /** `get_device(device_id)`: a GET whose URL is built from the device id alone. */
  function GetDevice(client: Sigfox, deviceId: Value): (r: Request)
    ensures r.verb == GET && r.headers == AuthHeader(client) && r.body == None
    ensures r.url.template == "/devices/{deviceid}"
    ensures r.url.fargs.Keys == {"deviceid"} && r.url.fargs["deviceid"] == deviceId
  {
    GetRequest(client, SigfoxUrl("/devices/{deviceid}", map["deviceid" := deviceId]))
  }

  /** `get_devices(device_type_id)`: a GET whose URL is built from the device type id alone. */
  function GetDevices(client: Sigfox, deviceTypeId: Value): (r: Request)
    ensures r.verb == GET && r.headers == AuthHeader(client) && r.body == None
    ensures r.url.template == "/devices?deviceTypeId={sfid}"
    ensures r.url.fargs.Keys == {"sfid"} && r.url.fargs["sfid"] == deviceTypeId
  {
    GetRequest(client, SigfoxUrl("/devices?deviceTypeId={sfid}", map["sfid" := deviceTypeId]))
  }

  const MessagesTemplate: string := "/devices/{sfid}/messages"
  const MessagesSinceTemplate: string := "/devices/{sfid}/messages?since={timestamp}"

  /**
    `get_device_messages(device_id, since)`: the `?since=` form is used exactly when `since` is
    truthy (not merely present), and only then is a timestamp passed to the URL builder.
   */
  function GetDeviceMessages(client: Sigfox, deviceId: Value, since: Value := None): (r: Request)
    ensures r.verb == GET && r.headers == AuthHeader(client) && r.body == None
    ensures r.url.template == MessagesSinceTemplate <==> Truthy(since)
    ensures r.url.template == MessagesTemplate <==> !Truthy(since)
    ensures r.url.fargs.Keys == if Truthy(since) then {"sfid", "timestamp"} else {"sfid"}
    ensures r.url.fargs["sfid"] == deviceId
    ensures Truthy(since) ==> r.url.fargs["timestamp"] == since
  {
    if Truthy(since) then
      GetRequest(client, SigfoxUrl(MessagesSinceTemplate, map["sfid" := deviceId, "timestamp" := since]))
    else
      GetRequest(client, SigfoxUrl(MessagesTemplate, map["sfid" := deviceId]))
  }

  /** `create_device(id, name, device_type_id, pac_code)`: a POST of exactly four fields. */
  function CreateDevice(client: Sigfox, id: Value, name: Value, deviceTypeId: Value, pacCode: Value)
    : (r: Request)
    ensures r.body.Dict? && r == PostRequest(client, PlainUrl("/devices"), r.body.entries)
    ensures r.body.entries.Keys == {"id", "name", "deviceTypeId", "pac"}
    ensures r.body.entries["id"] == id && r.body.entries["name"] == name
    ensures r.body.entries["deviceTypeId"] == deviceTypeId && r.body.entries["pac"] == pacCode
  {
    var payload := map["id" := id, "name" := name, "deviceTypeId" := deviceTypeId, "pac" := pacCode];
    PostRequest(client, PlainUrl("/devices"), payload)
  }

  /**
    `bulk_create_devices(device_type_id, device_list)`: the list is sent as given under `data`.
    It is posted to `/devices`, the URL `create_device` uses, not to `/devices/bulk`.
   */
  function BulkCreateDevices(client: Sigfox, deviceTypeId: Value, deviceList: Value): (r: Request)
    ensures r.body.Dict? && r == PostRequest(client, PlainUrl("/devices"), r.body.entries)
    ensures r.body.entries.Keys == {"deviceTypeId", "data"}
    ensures r.body.entries["deviceTypeId"] == deviceTypeId && r.body.entries["data"] == deviceList
    ensures r.url == CreateDevice(client, deviceTypeId, None, None, None).url
  {
    PostRequest(client, PlainUrl("/devices"), map["deviceTypeId" := deviceTypeId, "data" := deviceList])
  }

  /**
    The dict `update_device` builds by successive insertions: each field appears exactly when
    its argument is not `None`, the certificate wrapped as `{"key": certificate}`, and nothing
    else appears. The source assigns the helper's result back to `payload` here, so the helper
    is taken to return the dict it updated.
   */
  method UpdateDevicePayload(name: Value, latitude: Value, longitude: Value, certificate: Value)
    returns (payload: Payload)
    ensures payload.Keys <= {"name", "lat", "lng", "productCertificate"}
    ensures HasOptional(payload, "name", name) && HasOptional(payload, "lat", latitude)
    ensures HasOptional(payload, "lng", longitude)
    ensures "productCertificate" in payload <==> certificate != None
    ensures "productCertificate" in payload ==>
              payload["productCertificate"] == Dict(map["key" := certificate])
  {
    payload := map[];
    payload := TryAddOptionalArg(payload, "name", name);
    payload := TryAddOptionalArg(payload, "lat", latitude);
    payload := TryAddOptionalArg(payload, "lng", longitude);
    if certificate != None {
      payload := payload["productCertificate" := Dict(map["key" := certificate])];
    }
  }

  /** `update_device(id, ...)`: a PUT of `UpdateDevicePayload` to the device. */
  method UpdateDevice(client: Sigfox, id: Value, name: Value := None, latitude: Value := None,
                      longitude: Value := None, certificate: Value := None)
    returns (r: Request)
    ensures r.verb == PUT && r.headers == JsonHeaders(client)
    ensures r.url == SigfoxUrl("/devices/{}", map["sfid" := id])
    ensures r.body.Dict?
    ensures var p := r.body.entries;
      && p.Keys <= {"name", "lat", "lng", "productCertificate"}
      && HasOptional(p, "name", name) && HasOptional(p, "lat", latitude) && HasOptional(p, "lng", longitude)
      && ("productCertificate" in p <==> certificate != None)
      && ("productCertificate" in p ==> p["productCertificate"] == Dict(map["key" := certificate]))
  {
    var payload := UpdateDevicePayload(name, latitude, longitude, certificate);
    r := PutRequest(client, SigfoxUrl("/devices/{}", map["sfid" := id]), payload);
  }

  /** `bulk_update_devices(device_list)`: the list is sent as given under `data`, and nothing else. */
  function BulkUpdateDevices(client: Sigfox, deviceList: Value): (r: Request)
    ensures r.verb == PUT && r.headers == JsonHeaders(client) && r.url == PlainUrl("/devices/bulk")
    ensures r.body.Dict? && r.body.entries.Keys == {"data"} && r.body.entries["data"] == deviceList
  {
    PutRequest(client, PlainUrl("/devices/bulk"), map["data" := deviceList])
  }

  /** A device dict the caller passes in a device list; the client updates it in place. */
  class DeviceMap {
    var entries: map<string, Value>

    constructor (entries: map<string, Value>)
      ensures this.entries == entries
    {
      this.entries := entries;
    }
  }

  /**
    An element of the device list a caller passes: a dict, which the loops update in place, or
    any other value, on which `device[key] = True` raises `TypeError`.
   */
  datatype Device = DictDevice(m: DeviceMap) | NotADict(v: NonDict)

  /** The exception item assignment raises on a value that is not a dict. */
  const ItemAssignmentError: Exception := Exception("TypeError: object does not support item assignment")

  /** The key `bulk_transfer_devices` writes for the history flag. */
  const KeepHistoryKey: string := "keep_history"

  /** The key the transfer API reads for it, as the docstring at line 241 shows it. */
  const ApiKeepHistoryKey: string := "keepHistory"

  /**
    One device dict after the two loops: the history key is set to `True` when `keepAll`, then
    `activable` is set to `True` when `actAll`. A flag that is off leaves its key as it was, and
    every other key keeps its value.
   */
  function Forced(entries: Payload, historyKey: string, keepAll: bool, actAll: bool): (r: Payload)
    ensures r.Keys == entries.Keys + (if keepAll then {historyKey} else {})
      + (if actAll then {"activable"} else {})
    ensures keepAll ==> r[historyKey] == Bool(true)
    ensures actAll ==> r["activable"] == Bool(true)
    ensures forall k :: k in entries && !(keepAll && k == historyKey) && !(actAll && k == "activable")
                    ==> r[k] == entries[k]
  {
    var afterHistory := if keepAll then entries[historyKey := Bool(true)] else entries;
    if actAll then afterHistory["activable" := Bool(true)] else afterHistory
  }

  /** The dicts of a device list: the objects the loops may change. */
  function Footprint(devices: seq<Device>): set<DeviceMap>
  {
    set i | 0 <= i < |devices| && devices[i].DictDevice? :: devices[i].m
  }

  /** The position of the first element that is not a dict, or the length when all are dicts. */
  function FirstNonDict(devices: seq<Device>): (n: nat)
    ensures n <= |devices|
    ensures forall i :: 0 <= i < n ==> devices[i].DictDevice?
    ensures n < |devices| ==> devices[n].NotADict?
  {
    if devices == [] || devices[0].NotADict? then 0 else 1 + FirstNonDict(devices[1..])
  }

  /** The list as `json.dumps` sees it: each dict with its current contents, other values as they are. */
  function ElementValues(devices: seq<Device>): (r: seq<Value>)
    reads Footprint(devices)
    ensures |r| == |devices|
    ensures forall i :: 0 <= i < |devices| ==>
      r[i] == match devices[i] case DictDevice(m) => Dict(m.entries) case NotADict(v) => v
  {
    seq(|devices|, i reads Footprint(devices) requires 0 <= i < |devices| =>
      match devices[i] case DictDevice(m) => Dict(m.entries) case NotADict(v) => v)
  }

  /** The explicit, non-mutating form of a successful transform: every dict forced, order kept. */
  function ForcedValues(items: seq<Value>, historyKey: string, keepAll: bool, actAll: bool)
    : (r: seq<Value>)
    ensures |r| == |items|
    ensures forall i :: 0 <= i < |items| ==>
      r[i] == if items[i].Dict? then Dict(Forced(items[i].entries, historyKey, keepAll, actAll)) else items[i]
  {
    if items == [] then []
    else
      var head := if items[0].Dict? then Dict(Forced(items[0].entries, historyKey, keepAll, actAll)) else items[0];
      [head] + ForcedValues(items[1..], historyKey, keepAll, actAll)
  }

  /** Under a flag, every dict of the forced list carries that key with `True`. */
  lemma ForcedValuesFlags(items: seq<Value>, historyKey: string, keepAll: bool, actAll: bool)
    ensures var r := ForcedValues(items, historyKey, keepAll, actAll);
      && (keepAll ==> forall i :: 0 <= i < |r| && r[i].Dict? ==>
            historyKey in r[i].entries && r[i].entries[historyKey] == Bool(true))
      && (actAll ==> forall i :: 0 <= i < |r| && r[i].Dict? ==>
            "activable" in r[i].entries && r[i].entries["activable"] == Bool(true))
  {
  }

  /** The payload of a transfer: the target type and the device list. */
  function TransferPayload(newDeviceTypeId: Value, items: seq<Value>): (p: Payload)
    ensures p.Keys == {"deviceTypeId", "data"} && p["deviceTypeId"] == newDeviceTypeId
    ensures p["data"] == List(items)
  {
    map["deviceTypeId" := newDeviceTypeId, "data" := List(items)]
  }

  /**
    `for device in device_list: device[key] = True`. The loop stops with `TypeError` at the
    first element that is not a dict; the dicts before it keep their update. A dict that occurs
    several times in the list is updated once per occurrence, which leaves it as a single update
    would.
   */
  method SetForAll(devices: seq<Device>, key: string) returns (ok: bool)
    modifies Footprint(devices)
    ensures ok <==> FirstNonDict(devices) == |devices|
    ensures forall d :: d in Footprint(devices[..FirstNonDict(devices)]) ==>
      d.entries == old(d.entries)[key := Bool(true)]
    ensures forall d :: d in Footprint(devices) && d !in Footprint(devices[..FirstNonDict(devices)]) ==>
      d.entries == old(d.entries)
  {
    var i := 0;
    while i < |devices| && devices[i].DictDevice?
      invariant i <= FirstNonDict(devices)
      invariant forall d :: d in Footprint(devices[..i]) ==> d.entries == old(d.entries)[key := Bool(true)]
      invariant forall d :: d in Footprint(devices) && d !in Footprint(devices[..i]) ==> d.entries == old(d.entries)
    {
      PrefixFootprint(devices, i);
      devices[i].m.entries := devices[i].m.entries[key := Bool(true)];
      i := i + 1;
    }
    ok := i == |devices|;
  }

  /** Extending a list prefix by a dict adds that dict to the footprint. */
  lemma PrefixFootprint(devices: seq<Device>, i: nat)
    requires i < |devices| && devices[i].DictDevice?
    ensures Footprint(devices[..i + 1]) == Footprint(devices[..i]) + {devices[i].m}
  {
    var p, q := devices[..i], devices[..i + 1];
    forall d | d in Footprint(q) ensures d in Footprint(p) + {devices[i].m} {
      var j :| 0 <= j < |q| && q[j].DictDevice? && q[j].m == d;
      if j < i {
        assert p[j] == q[j];
      }
    }
    forall d | d in Footprint(p) ensures d in Footprint(q) {
      var j :| 0 <= j < |p| && p[j].DictDevice? && p[j].m == d;
      assert q[j] == p[j];
    }
    assert q[i] == devices[i];
  }

  /**
    What the transfer does to a device list and what it returns. With no truthy flag the list is
    posted untouched. Under a truthy flag, a list whose elements are all dicts has every dict
    forced in place and is then posted; a list with another element raises `TypeError` in the
    first loop that runs, which leaves the dicts before that element updated by that loop alone
    and the rest as they were.
   */
  twostate predicate TransferOutcome(client: Sigfox, newDeviceTypeId: Value, devices: seq<Device>,
                                     historyKey: string, keepAll: bool, actAll: bool,
                                     new r: Wrappers.Result<Request, Exception>)
    reads Footprint(devices)
  {
    var n := FirstNonDict(devices);
    && (r.Failure? <==> (keepAll || actAll) && n < |devices|)
    && (r.Failure? ==> r.error == ItemAssignmentError)
    && (r.Failure? ==> forall d :: d in Footprint(devices[..n]) ==>
          d.entries == Forced(old(d.entries), historyKey, keepAll, !keepAll))
    && (r.Failure? ==> forall d :: d in Footprint(devices) && d !in Footprint(devices[..n]) ==>
          d.entries == old(d.entries))
    && (r.Success? ==> forall d :: d in Footprint(devices) ==>
          d.entries == Forced(old(d.entries), historyKey, keepAll, actAll))
    && (r.Success? ==> ElementValues(devices) == ForcedValues(old(ElementValues(devices)), historyKey, keepAll, actAll))
    && (r.Success? ==> r.value == PostRequest(client, PlainUrl("/devices/bulk/transfer"),
          TransferPayload(newDeviceTypeId, ElementValues(devices))))
  }

  /**
    The two loops of `bulk_transfer_devices`: `ok` is false when one of them raised. On success
    every dict of the list is forced; on failure the first loop that ran stopped at the first
    element that is not a dict, and the second loop did not run.
   */
  method ForceFlags(devices: seq<Device>, historyKey: string, keepAll: bool, actAll: bool)
    returns (ok: bool)
    modifies Footprint(devices)
    ensures ok <==> !(keepAll || actAll) || FirstNonDict(devices) == |devices|
    ensures ok ==> forall d :: d in Footprint(devices) ==>
      d.entries == Forced(old(d.entries), historyKey, keepAll, actAll)
    ensures ok ==> ElementValues(devices) == ForcedValues(old(ElementValues(devices)), historyKey, keepAll, actAll)
    ensures !ok ==> forall d :: d in Footprint(devices[..FirstNonDict(devices)]) ==>
      d.entries == Forced(old(d.entries), historyKey, keepAll, !keepAll)
    ensures !ok ==> forall d :: d in Footprint(devices) && d !in Footprint(devices[..FirstNonDict(devices)]) ==>
      d.entries == old(d.entries)
  {
    ghost var before := ElementValues(devices);
    AllDictsWhenForced(devices, FirstNonDict(devices) == |devices|);
    ok := true;
    if keepAll {
      ok := SetForAll(devices, historyKey);
    }
    label AfterHistory:
    if ok && actAll {
      ok := SetForAll(devices, "activable");
      if ok {
        assert forall d :: d in Footprint(devices) ==>
          d.entries == old@AfterHistory(d.entries)["activable" := Bool(true)];
      }
    }
    if ok {
      ghost var items := ElementValues(devices);
      forall i | 0 <= i < |devices|
        ensures items[i] == ForcedValues(before, historyKey, keepAll, actAll)[i]
      {
        if devices[i].DictDevice? {
          assert devices[i].m in Footprint(devices);
        }
      }
    }
  }

  /** The loops of `bulk_transfer_devices` and the request that follows, for a given key. */
  method TransferWithKey(client: Sigfox, newDeviceTypeId: Value, devices: seq<Device>,
                         historyKey: string, keepHistoryForAll: Value, activableForAll: Value)
    returns (r: Wrappers.Result<Request, Exception>)
    modifies Footprint(devices)
    ensures TransferOutcome(client, newDeviceTypeId, devices, historyKey,
                            Truthy(keepHistoryForAll), Truthy(activableForAll), r)
  {
    var keepAll, actAll := Truthy(keepHistoryForAll), Truthy(activableForAll);
    var ok := ForceFlags(devices, historyKey, keepAll, actAll);
    if !ok {
      return Wrappers.Failure(ItemAssignmentError);
    }
    var items := ElementValues(devices);
    r := Wrappers.Success(PostRequest(client, PlainUrl("/devices/bulk/transfer"),
      TransferPayload(newDeviceTypeId, items)));
  }

  /** A list that passed a loop has only dicts, so its footprint is the whole list's. */
  lemma AllDictsWhenForced(devices: seq<Device>, forced: bool)
    requires forced ==> FirstNonDict(devices) == |devices|
    ensures forced ==> devices[..FirstNonDict(devices)] == devices
  {
  }

  /**
    `bulk_transfer_devices(new_device_type_id, device_list, keep_history_for_all,
    activable_for_all)`: under a truthy flag every dict of the caller's list gets that key set
    to `True`, in place; the list keeps its length and order; then the list is posted. An
    element that is not a dict makes a loop raise.
   */
  method BulkTransferDevices(client: Sigfox, newDeviceTypeId: Value, devices: seq<Device>,
                             keepHistoryForAll: Value := Bool(true), activableForAll: Value := Bool(true))
    returns (r: Wrappers.Result<Request, Exception>)
    modifies Footprint(devices)
    ensures TransferOutcome(client, newDeviceTypeId, devices, KeepHistoryKey,
                            Truthy(keepHistoryForAll), Truthy(activableForAll), r)
  {
    r := TransferWithKey(client, newDeviceTypeId, devices, KeepHistoryKey, keepHistoryForAll, activableForAll);
  }

  /**
    `transfer_device(new_device_type_id, device, keep_history, activable)`: exactly
    `bulk_transfer_devices` on the one-element list `[device]`.
   */
  method TransferDevice(client: Sigfox, newDeviceTypeId: Value, device: Device,
                        keepHistory: Value := Bool(true), activable: Value := Bool(true))
    returns (r: Wrappers.Result<Request, Exception>)
    modifies Footprint([device])
    ensures TransferOutcome(client, newDeviceTypeId, [device], KeepHistoryKey,
                            Truthy(keepHistory), Truthy(activable), r)
  {
    r := BulkTransferDevices(client, newDeviceTypeId, [device], keepHistory, activable);
  }

  /**
    `transfer_device` called as its docstring says, with the device's id string: the loops see
    that string as the one element of the list, so the call raises exactly when a flag is truthy,
    and with both flags falsy the bare id is posted in `data`.
   */
  method TransferDeviceAsDocumented(client: Sigfox, newDeviceTypeId: Value, deviceId: string,
                                    keepHistory: Value := Bool(true), activable: Value := Bool(true))
    returns (r: Wrappers.Result<Request, Exception>)
    ensures r.Failure? <==> Truthy(keepHistory) || Truthy(activable)
    ensures r.Failure? ==> r.error == ItemAssignmentError
    ensures r.Success? ==> r.value == PostRequest(client, PlainUrl("/devices/bulk/transfer"),
      TransferPayload(newDeviceTypeId, [Str(deviceId)]))
  {
    var device := NotADict(Str(deviceId));
    assert Footprint([device]) == {};
    assert FirstNonDict([device]) == 0;
    r := TransferDevice(client, newDeviceTypeId, device, keepHistory, activable);
    assert ElementValues([device]) == [Str(deviceId)];
  }

  /**
    The same as `BulkTransferDevices` with the history flag written under the key the API
    reads, so that a caller's own `keepHistory: false` is overridden as intended.
   */
  method BulkTransferDevicesCorrected(client: Sigfox, newDeviceTypeId: Value, devices: seq<Device>,
                                      keepHistoryForAll: Value := Bool(true), activableForAll: Value := Bool(true))
    returns (r: Wrappers.Result<Request, Exception>)
    modifies Footprint(devices)
    ensures TransferOutcome(client, newDeviceTypeId, devices, ApiKeepHistoryKey,
                            Truthy(keepHistoryForAll), Truthy(activableForAll), r)
    ensures r.Success? && Truthy(keepHistoryForAll) ==> forall d :: d in Footprint(devices) ==>
      ApiKeepHistoryKey in d.entries && d.entries[ApiKeepHistoryKey] == Bool(true)
  {
    r := TransferWithKey(client, newDeviceTypeId, devices, ApiKeepHistoryKey, keepHistoryForAll, activableForAll);
  }

  /**
    `transfer_device` as evidently intended: the id is wrapped as the device dict
    `{"id": device_id}` the transfer API expects, so the flags apply to it. The request is then
    always sent, to the transfer URL, and carries one device: that dict with the flags forced.
   */
  method TransferDeviceById(client: Sigfox, newDeviceTypeId: Value, deviceId: string,
                            keepHistory: Value := Bool(true), activable: Value := Bool(true))
    returns (r: Wrappers.Result<Request, Exception>)
    ensures r.Success? && r.value.body.Dict?
    ensures r.value == PostRequest(client, PlainUrl("/devices/bulk/transfer"), r.value.body.entries)
    ensures r.value.body.entries == TransferPayload(newDeviceTypeId,
      [Dict(Forced(map["id" := Str(deviceId)], ApiKeepHistoryKey, Truthy(keepHistory), Truthy(activable)))])
  {
    var device := new DeviceMap(map["id" := Str(deviceId)]);
    var devices := [DictDevice(device)];
    assert devices[0].m == device && device in Footprint(devices);
    assert FirstNonDict(devices) == 1;
    r := BulkTransferDevicesCorrected(client, newDeviceTypeId, devices, keepHistory, activable);
    assert ElementValues(devices) == [Dict(device.entries)];
  }

  /**
    With the key as written, an entry in the docstring's format with `keepHistory: false` keeps
    it even though `keep_history_for_all` is on; only a stray `keep_history` is added.
   */
  lemma KeepHistoryNotOverridden()
    ensures var before := map["id" := Str("133FE31"), "activable" := Bool(false), ApiKeepHistoryKey := Bool(false)];
      var after := Forced(before, KeepHistoryKey, true, true);
      after[ApiKeepHistoryKey] == Bool(false) && after[KeepHistoryKey] == Bool(true)
  {
  }
}
