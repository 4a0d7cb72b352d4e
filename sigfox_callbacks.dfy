/**
  The payloads the two callback endpoints of the client build (`sigfoxapiv2/__init__.py`,
  lines 288-305 and 339-358), on their own: which fields each dict holds and when.
 */
module SigfoxCallbacks {
  import opened PyValues
  import opened Helper

  /** `http_method == "POST" or http_method == "PUT"`. */
  predicate WantsBody(httpMethod: Value)
  {
    httpMethod == Str("POST") || httpMethod == Str("PUT")
  }

  /** The body template and content type are both sent, or neither. */
  predicate BodyFieldsAdded(httpMethod: Value, bodyTemplate: Value, contentType: Value)
  {
    WantsBody(httpMethod) && bodyTemplate != None && contentType != None
  }

  /** The six fields of the dict literal `create_device_type_callback` starts from, in order. */
  const CreateFixedFields: seq<string> :=
    ["channel", "callbackType", "callbackSubtype", "is_enabled", "url", "http_method"]

  /** The fields `update_device_type_callback` passes to `try_add_optional_arg`, in order. */
  const UpdateOptionalFields: seq<string> :=
    ["channel", "callbackType", "callback_subtype", "is_enabled", "url", "http_method", "headers"]

  /**
    The field names do not collide: each list is free of repeats, and `headers` and the two
    body fields are none of the fields before them.
   */
  lemma CallbackFieldNames()
    ensures DistinctKeys(CreateFixedFields) && DistinctKeys(UpdateOptionalFields)
    ensures "headers" !in CreateFixedFields && "bodyTemplate" !in CreateFixedFields
    ensures "contentType" !in CreateFixedFields
    ensures "bodyTemplate" !in UpdateOptionalFields && "contentType" !in UpdateOptionalFields
  {
  }

  /**
    The rule both callback endpoints apply to the body fields: `bodyTemplate` and `contentType`
    are present exactly when `BodyFieldsAdded`, and then hold the given values.
   */
  ghost predicate BodyFieldsRule(p: Payload, httpMethod: Value, bodyTemplate: Value, contentType: Value)
  {
    && ("bodyTemplate" in p <==> BodyFieldsAdded(httpMethod, bodyTemplate, contentType))
    && ("contentType" in p <==> BodyFieldsAdded(httpMethod, bodyTemplate, contentType))
    && ("bodyTemplate" in p ==> p["bodyTemplate"] == bodyTemplate && p["contentType"] == contentType)
  }

  /**
    The step both callback endpoints end with: for a POST or PUT callback the body template and
    the content type are added when both are given; when one is missing the source leaves a
    to-do (raise an error) and sends neither.
   */
  function AddBodyFields(payload: Payload, httpMethod: Value, bodyTemplate: Value, contentType: Value)
    : (r: Payload)
    ensures "bodyTemplate" !in payload && "contentType" !in payload ==>
              BodyFieldsRule(r, httpMethod, bodyTemplate, contentType)
    ensures forall k :: k in r ==> k in payload || k == "bodyTemplate" || k == "contentType"
    ensures forall k :: k in payload ==>
              k in r && (k != "bodyTemplate" && k != "contentType" ==> r[k] == payload[k])
  {
    if WantsBody(httpMethod) && bodyTemplate != None && contentType != None then
      TryAddOptionalArg(TryAddOptionalArg(payload, "bodyTemplate", bodyTemplate), "contentType", contentType)
    else
      payload
  }

  /**
    The payload `create_device_type_callback` sends, with `fixed` the values of
    `CreateFixedFields`: those six fields are always present, whatever their values (even
    `None`); `headers` appears exactly when not `None`; the body fields follow `BodyFieldsRule`;
    nothing else is sent.
   */
  ghost predicate IsCreateCallbackPayload(p: Payload, fixed: seq<Value>, headers: Value,
                                          httpMethod: Value, bodyTemplate: Value, contentType: Value)
    requires |fixed| == |CreateFixedFields|
  {
    && (forall k :: k in p ==> k in CreateFixedFields || k == "headers" || k == "bodyTemplate" || k == "contentType")
    && (forall i :: 0 <= i < |CreateFixedFields| ==>
          CreateFixedFields[i] in p && p[CreateFixedFields[i]] == fixed[i])
    && HasOptional(p, "headers", headers)
    && BodyFieldsRule(p, httpMethod, bodyTemplate, contentType)
  }

  /**
    The payload `update_device_type_callback` sends, with `optional` the values of
    `UpdateOptionalFields`: each of those seven fields appears exactly when its value is not
    `None` (so `is_enabled=False` is sent); the body fields follow `BodyFieldsRule`; nothing else
    is sent. The subtype is sent as `callback_subtype`, where creation writes `callbackSubtype`.
   */
  ghost predicate IsUpdateCallbackPayload(p: Payload, optional: seq<Value>, httpMethod: Value,
                                          bodyTemplate: Value, contentType: Value)
    requires |optional| == |UpdateOptionalFields|
  {
    && (forall k :: k in p ==> k in UpdateOptionalFields || k == "bodyTemplate" || k == "contentType")
    && (forall i :: 0 <= i < |UpdateOptionalFields| ==>
          HasOptional(p, UpdateOptionalFields[i], optional[i]))
    && BodyFieldsRule(p, httpMethod, bodyTemplate, contentType)
  }

  /** In a creation payload, the channel and the method are the first and last fixed fields. */
  lemma CreatePayloadFields(p: Payload, fixed: seq<Value>, headers: Value, httpMethod: Value,
                            bodyTemplate: Value, contentType: Value)
    requires |fixed| == |CreateFixedFields|
    requires IsCreateCallbackPayload(p, fixed, headers, httpMethod, bodyTemplate, contentType)
    ensures "channel" in p && p["channel"] == fixed[0]
    ensures "http_method" in p && p["http_method"] == fixed[5]
    ensures "bodyTemplate" in p <==> BodyFieldsAdded(httpMethod, bodyTemplate, contentType)
  {
    assert CreateFixedFields[0] == "channel" && CreateFixedFields[5] == "http_method";
  }

  /**
    A dict literal over distinct `keys`, then `headers` and the body fields, none of them among
    `keys`: every key holds its value, `headers` is there exactly when given, the body fields
    follow `BodyFieldsRule`, and no other key is present.
   */
  lemma {:induction false} FixedThenBody(keys: seq<string>, values: seq<Value>, headers: Value,
                                         httpMethod: Value, bodyTemplate: Value, contentType: Value)
    requires |keys| == |values| && DistinctKeys(keys)
    requires "headers" !in keys && "bodyTemplate" !in keys && "contentType" !in keys
    ensures var p := AddBodyFields(TryAddOptionalArg(SetFields(map[], keys, values), "headers", headers),
                                   httpMethod, bodyTemplate, contentType);
      && (forall k :: k in p ==> k in keys || k == "headers" || k == "bodyTemplate" || k == "contentType")
      && (forall i :: 0 <= i < |keys| ==> keys[i] in p && p[keys[i]] == values[i])
      && HasOptional(p, "headers", headers)
      && BodyFieldsRule(p, httpMethod, bodyTemplate, contentType)
  {
    SetFieldsSpec(map[], keys, values);
    var fixed := SetFields(map[], keys, values);
    var withHeaders := TryAddOptionalArg(fixed, "headers", headers);
    assert "headers" != "bodyTemplate" && "headers" != "contentType";
    assert "bodyTemplate" !in withHeaders && "contentType" !in withHeaders;
  }

  /**
    The dict `create_device_type_callback` builds: the literal, then `headers`, then the body
    fields. It is the payload `IsCreateCallbackPayload` describes.
   */
  function CreateCallbackPayload(callbackChannel: Value, callbackType: Value, callbackSubtype: Value,
                                 isEnabled: Value, url: Value, httpMethod: Value, headers: Value,
                                 bodyTemplate: Value, contentType: Value): (r: Payload)
    ensures IsCreateCallbackPayload(r, [callbackChannel, callbackType, callbackSubtype, isEnabled, url, httpMethod],
                                    headers, httpMethod, bodyTemplate, contentType)
  {
    var values := [callbackChannel, callbackType, callbackSubtype, isEnabled, url, httpMethod];
    CallbackFieldNames();
    FixedThenBody(CreateFixedFields, values, headers, httpMethod, bodyTemplate, contentType);
    AddBodyFields(TryAddOptionalArg(SetFields(map[], CreateFixedFields, values), "headers", headers),
                  httpMethod, bodyTemplate, contentType)
  }

  /**
    Optional arguments over distinct `keys`, then the body fields, neither of them among `keys`:
    each key is there exactly when its value is given, the body fields follow
    `BodyFieldsRule`, and no other key is present.
   */
  lemma {:induction false} OptionalThenBody(keys: seq<string>, values: seq<Value>, httpMethod: Value,
                                            bodyTemplate: Value, contentType: Value)
    requires |keys| == |values| && DistinctKeys(keys)
    requires "bodyTemplate" !in keys && "contentType" !in keys
    ensures var p := AddBodyFields(AddOptionalArgs(map[], keys, values), httpMethod, bodyTemplate, contentType);
      && (forall k :: k in p ==> k in keys || k == "bodyTemplate" || k == "contentType")
      && (forall i :: 0 <= i < |keys| ==> HasOptional(p, keys[i], values[i]))
      && BodyFieldsRule(p, httpMethod, bodyTemplate, contentType)
  {
    AddOptionalArgsSpec(map[], keys, values);
    var optional := AddOptionalArgs(map[], keys, values);
    assert "bodyTemplate" !in optional && "contentType" !in optional;
  }

  /**
    The dict `update_device_type_callback` builds: seven `try_add_optional_arg`, then the body
    fields. It is the payload `IsUpdateCallbackPayload` describes.
   */
  function UpdateCallbackPayload(callbackChannel: Value, callbackType: Value, callbackSubtype: Value,
                                 isEnabled: Value, url: Value, httpMethod: Value, headers: Value,
                                 bodyTemplate: Value, contentType: Value): (r: Payload)
    ensures IsUpdateCallbackPayload(r, [callbackChannel, callbackType, callbackSubtype, isEnabled, url,
                                        httpMethod, headers], httpMethod, bodyTemplate, contentType)
  {
    var values := [callbackChannel, callbackType, callbackSubtype, isEnabled, url, httpMethod, headers];
    CallbackFieldNames();
    OptionalThenBody(UpdateOptionalFields, values, httpMethod, bodyTemplate, contentType);
    AddBodyFields(AddOptionalArgs(map[], UpdateOptionalFields, values), httpMethod, bodyTemplate, contentType)
  }
}
