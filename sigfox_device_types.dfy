/**
  The "Sigfox Device Types Endpoint" section of the client (`sigfoxapiv2/__init__.py`, lines
  255-404) and the enumerations it takes (lines 9-34), plus the contract endpoint (lines
  406-417).
 */
module SigfoxDeviceTypes {
  import opened PyValues
  import opened Helper
  import opened SigfoxClient
  import opened SigfoxCallbacks

  /**
    `HTTPMethod`: a `str` enumeration, so each member is equal to its string, also the ones
    written as one-element tuples (`("GET",)`), which the `str` mixin unpacks.
   */
  datatype HttpMethod = Get | Put | Post

  function HttpMethodValue(m: HttpMethod): Value
  {
    match m
    case Get => Str("GET")
    case Put => Str("PUT")
    case Post => Str("POST")
  }

  /** `CallbackChannel`: a `str` enumeration like `HTTPMethod`. */
  datatype CallbackChannel = Url | BatchUrl | Email

  function CallbackChannelValue(c: CallbackChannel): Value
  {
    match c
    case Url => Str("URL")
    case BatchUrl => Str("BATCH_URL")
    case Email => Str("EMAIL")
  }

  /** Of the enumeration's members, exactly `Put` and `Post` pass the test. */
  lemma WantsBodyOfMember(m: HttpMethod)
    ensures WantsBody(HttpMethodValue(m)) <==> m != Get
  {
  }

  /** `create_device_type_callback(...)`: a POST of `CreateCallbackPayload` to the type's callbacks. */
  function CreateDeviceTypeCallback(client: Sigfox, id: Value, callbackChannel: Value,
                                    callbackType: Value, callbackSubtype: Value, isEnabled: Value,
                                    url: Value, httpMethod: Value, headers: Value := None,
                                    bodyTemplate: Value := None, contentType: Value := None)
    : (r: Request)
    ensures r.verb == POST && r.headers == JsonHeaders(client)
    ensures r.url == SigfoxUrl("/device_types/{}/callbacks", map["id" := id])
    ensures r.body.Dict?
    ensures IsCreateCallbackPayload(r.body.entries,
                                    [callbackChannel, callbackType, callbackSubtype, isEnabled, url, httpMethod],
                                    headers, httpMethod, bodyTemplate, contentType)
  {
    PostRequest(client, SigfoxUrl("/device_types/{}/callbacks", map["id" := id]),
                CreateCallbackPayload(callbackChannel, callbackType, callbackSubtype, isEnabled,
                                      url, httpMethod, headers, bodyTemplate, contentType))
  }

  /**
    A callback created with members of the two `str` enumerations, as the signature asks: the
    channel and the method are sent as the members' strings, and the body fields are sent
    exactly for a `Put` or `Post` callback given both of them.
   */
  lemma CreateWithMembers(client: Sigfox, id: Value, channel: CallbackChannel, callbackType: Value,
                          callbackSubtype: Value, isEnabled: Value, url: Value, m: HttpMethod,
                          headers: Value, bodyTemplate: Value, contentType: Value)
    ensures var p := CreateDeviceTypeCallback(client, id, CallbackChannelValue(channel), callbackType,
                                              callbackSubtype, isEnabled, url, HttpMethodValue(m),
                                              headers, bodyTemplate, contentType).body.entries;
      && "channel" in p && p["channel"] == CallbackChannelValue(channel)
      && "http_method" in p && p["http_method"] == HttpMethodValue(m)
      && ("bodyTemplate" in p <==> m != Get && bodyTemplate != None && contentType != None)
  {
    var fixed := [CallbackChannelValue(channel), callbackType, callbackSubtype, isEnabled, url, HttpMethodValue(m)];
    var r := CreateDeviceTypeCallback(client, id, fixed[0], callbackType, callbackSubtype, isEnabled, url,
                                      fixed[5], headers, bodyTemplate, contentType);
    CreatePayloadFields(r.body.entries, fixed, headers, fixed[5], bodyTemplate, contentType);
    WantsBodyOfMember(m);
  }

  /** `update_device_type_callback(...)`: a PUT of `UpdateCallbackPayload` to the one callback. */
  function UpdateDeviceTypeCallback(client: Sigfox, id: Value, callbackId: Value, callbackChannel: Value,
                                    callbackType: Value, callbackSubtype: Value, isEnabled: Value,
                                    url: Value, httpMethod: Value, headers: Value := None,
                                    bodyTemplate: Value := None, contentType: Value := None)
    : (r: Request)
    ensures r.verb == PUT && r.headers == JsonHeaders(client)
    ensures r.url == SigfoxUrl("/device_types/{id}/callbacks/{callbackId}",
                               map["id" := id, "callbackId" := callbackId])
    ensures r.body.Dict?
    ensures IsUpdateCallbackPayload(r.body.entries,
                                    [callbackChannel, callbackType, callbackSubtype, isEnabled, url,
                                     httpMethod, headers], httpMethod, bodyTemplate, contentType)
  {
    PutRequest(client, SigfoxUrl("/device_types/{id}/callbacks/{callbackId}",
                                 map["id" := id, "callbackId" := callbackId]),
               UpdateCallbackPayload(callbackChannel, callbackType, callbackSubtype, isEnabled,
                                     url, httpMethod, headers, bodyTemplate, contentType))
  }

  /**
    `get_device_type_callbacks(device_type_id)`: a GET whose URL is built from the type id alone,
    on `/device-types`, where the two callback writes use `/device_types`.
   */
  function GetDeviceTypeCallbacks(client: Sigfox, deviceTypeId: Value): (r: Request)
    ensures r.verb == GET && r.headers == AuthHeader(client) && r.body == None
    ensures r.url.template == "/device-types/{sfid}/callbacks"
    ensures r.url.fargs.Keys == {"sfid"} && r.url.fargs["sfid"] == deviceTypeId
  {
    GetRequest(client, SigfoxUrl("/device-types/{sfid}/callbacks", map["sfid" := deviceTypeId]))
  }

  const DeviceTypesTemplate: string := "/device-types"
  const DeviceTypesByNameTemplate: string := "/device-types?name={name}"

  /**
    `get_device_type_list(name)`: the `?name=` form is used exactly when `name is not None`,
    so an empty name still selects it.
   */
  function GetDeviceTypeList(client: Sigfox, name: Value := None): (r: Request)
    ensures r.verb == GET && r.headers == AuthHeader(client) && r.body == None
    ensures r.url.template == DeviceTypesByNameTemplate <==> name != None
    ensures r.url.template == DeviceTypesTemplate <==> name == None
    ensures r.url.fargs == if name != None then map["name" := name] else map[]
  {
    if name != None then GetRequest(client, SigfoxUrl(DeviceTypesByNameTemplate, map["name" := name]))
    else GetRequest(client, PlainUrl(DeviceTypesTemplate))
  }

  /** `get_contract_information()`: a GET of `/contract-infos`, with no arguments to the URL. */
  function GetContractInformation(client: Sigfox): (r: Request)
    ensures r.verb == GET && r.headers == AuthHeader(client) && r.body == None
    ensures r.url.template == "/contract-infos" && r.url.fargs == map[]
  {
    GetRequest(client, PlainUrl("/contract-infos"))
  }
}
