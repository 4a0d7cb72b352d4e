/**
  What the endpoints of the client have in common, across its sections: which of them send a
  body, and with which headers.
 */
module SigfoxEndpoints {
  import opened PyValues
  import opened Helper
  import opened SigfoxClient
  import opened SigfoxDevices
  import opened SigfoxDeviceTypes

  /** A request made by `_make_api_get`: credentials only, no data. */
  predicate IsBareGet(r: Request)
  {
    r.verb == GET && r.headers.Keys == {"Authorization"} && r.body == None
  }

  /**
    Every read operation is a GET that sends the credentials and nothing else: no body and no
    `Content-type` or `Accept` header.
   */
  lemma ReadOperationsSendNoBody(client: Sigfox, id: Value, since: Value, name: Value)
    ensures IsBareGet(GetDeviceTypes(client)) && IsBareGet(GetDevice(client, id))
    ensures IsBareGet(GetDevices(client, id)) && IsBareGet(GetDeviceMessages(client, id, since))
    ensures IsBareGet(GetDeviceTypeCallbacks(client, id)) && IsBareGet(GetDeviceTypeList(client, name))
    ensures IsBareGet(GetContractInformation(client))
  {
  }

  /** A request made by `_make_api_post` or `_make_api_put`: a JSON dict with JSON negotiation. */
  predicate IsJsonWrite(r: Request)
  {
    && r.verb != GET && r.body.Dict?
    && r.headers.Keys == {"Authorization", "Content-type", "Accept"}
    && r.headers["Content-type"] == "application/json" && r.headers["Accept"] == "application/json"
  }

  /**
    Every write operation sends a dict as JSON, declared as such. The bulk operations pass the
    caller's list through unchanged under `data`.
   */
  lemma WriteOperationsSendJson(client: Sigfox, id: Value, a: Value, b: Value, c: Value, devices: Value)
    ensures IsJsonWrite(CreateDevice(client, id, a, b, c))
    ensures IsJsonWrite(BulkCreateDevices(client, id, devices))
    ensures IsJsonWrite(BulkUpdateDevices(client, devices))
    ensures BulkUpdateDevices(client, devices).verb == PUT
    ensures BulkUpdateDevices(client, devices).body == Dict(map["data" := devices])
  {
  }
}
