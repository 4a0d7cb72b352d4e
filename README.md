# sigfoxapiv2: the request layer of the Sigfox API v2 client

This project models the request layer of the `Sigfox` class of the `sigfoxapiv2` Python package. It covers everything the client computes before and after it calls the Sigfox backend:

- the Basic authorization header made from the user name and password;
- the JSON payloads of the write operations, and which optional field is sent when;
- the choice of URL template in the read operations;
- the in-place update of the caller's device dicts in a bulk transfer;
- the shaping of the `(status, data)` pair every operation returns.

Each operation is modelled by the `Request` it hands to `requests.get/post/put`: the verb, the URL, the headers and the body. What the Python method returns is `SigfoxClient.Exchange(net, request)`. The three transfer operations instead give a `Result`: a `Failure` is the `TypeError` the Python raises before sending, and a `Success(r)` is followed by `Exchange(net, r)`. The `Transport` `net` is a parameter that stands in for the network and for `json.loads`, and either may raise. UTF-8 (RFC 3629) and base 64 (section 4 of RFC 4648) are written out in full, each with a decoder, so the header can be proved to carry the credentials as section 2 of RFC 7617 requires.

Python's dynamic values are `PyValues.Value`. This keeps the two tests the source makes apart: `x is not None` and the truth test `if x:`.

Modules:

- `Wrappers`, `Bytes`: `Option`, `Result` and the octet type.
- `PyStr`: `str.split` on one character, and its inverse `Join`.
- `Utf8`, `Base64`: the two encodings, with their round trips.
- `PyValues`: the Python values, the truth test and a dict payload.
- `Helper`: `make_sigfox_url` (kept abstract) and `try_add_optional_arg`, with the two folds the payload builders make of them:
  - `AddOptionalArgs`: repeated `try_add_optional_arg`;
  - `SetFields`: a dict display.
- `SigfoxClient`: the client, the auth header, the three request makers and the response shaping.
- `SigfoxDevices`: the device endpoints. The caller's device dicts are objects of class `DeviceMap`, updated in place.
- `SigfoxCallbacks`: the payloads of the two callback endpoints.
- `SigfoxDeviceTypes`: the device-type endpoints and the `HTTPMethod` and `CallbackChannel` enumerations.
- `SigfoxEndpoints`: what the read operations share, and what the write operations share.

The endpoints that only fill in one fixed URL template each state their template and its arguments:

- `get_device_types`, `get_device`, `get_devices`;
- `bulk_update_devices`;
- `get_device_type_callbacks`;
- `get_contract_information`.

The two lemmas of `SigfoxEndpoints` state what all the read operations, and all the fixed write operations, send.

## Model

| member | source | states |
|---|---|---|
| Base64.Encode | sigfoxapiv2/__init__.py:59 | The output is four characters for every started group of three octets. Every character is of the alphabet or the pad `=`, and a pad can only sit in the last two positions. |
| Base64.NoColon | sigfoxapiv2/__init__.py:59-60 | No base 64 encoding contains a colon. |
| Base64.DecodeEncode | sigfoxapiv2/__init__.py:59 | Decoding the encoding of any octet string gives that octet string back. |
| Base64.EncodeDecode | sigfoxapiv2/__init__.py:59 | Every string the strict decoder accepts is the encoding of what it decodes to, so the encoding is canonical. |
| Utf8.Encode | sigfoxapiv2/__init__.py:58 | A string of n characters encodes to between n and 4n octets. |
| Utf8.DecodeEncode | sigfoxapiv2/__init__.py:58 | Decoding the UTF-8 encoding of any string gives that string back. |
| Utf8.EncodeConcat | sigfoxapiv2/__init__.py:58 | The encoding of a concatenation is the concatenation of the encodings. |
| PyStr.Split | sigfoxapiv2/__init__.py:60 | `split` gives at least one part, and no part holds the separator. Joining the parts with the separator gives back the string. |
| PyStr.SplitJoin | sigfoxapiv2/__init__.py:60 | Splitting the join of separator-free parts gives back those parts. |
| PyStr.SplitPair | sigfoxapiv2/__init__.py:60-61 | Two separator-free strings joined by one separator split into exactly those two strings. |
| SigfoxClient.Credentials | sigfoxapiv2/__init__.py:58 | The octets are the user name's UTF-8, the one octet 0x3A, then the password's UTF-8. They decode back to exactly `user:passwd`, one to four octets per character. |
| SigfoxClient.AuthLineSplits | sigfoxapiv2/__init__.py:60 | For any colon-free base 64 text, splitting `Authorization:Basic <b64>` on `:` gives exactly two parts: `Authorization` and `Basic <b64>`. |
| SigfoxClient.AuthHeader | sigfoxapiv2/__init__.py:53-61 | The header dict has exactly one key, `Authorization`. Its value is `Basic ` followed by the base 64 encoding of the UTF-8 encoding of `user:passwd`. |
| SigfoxClient.AuthHeaderRoundTrip | sigfoxapiv2/__init__.py:58-61 | A server parsing the header per section 2 of RFC 7617 recovers the user name and the password exactly, for any user name without a colon. |
| SigfoxClient.SameCredentialsSameHeader | sigfoxapiv2/__init__.py:58-61 | Two clients whose joined `user:passwd` texts are equal send the same header. |
| SigfoxClient.ColonInUserIsAmbiguous | sigfoxapiv2/__init__.py:58 | The user `a:b` with password `c` sends the same header as the user `a` with password `b:c`. |
| SigfoxClient.JsonHeaders | sigfoxapiv2/__init__.py:70-73 | POST and PUT send exactly three headers: the auth header's `Authorization`, and `Content-type` and `Accept` both set to `application/json`. |
| SigfoxClient.GetRequest | sigfoxapiv2/__init__.py:107 | A GET of the given URL with no data. Its only header is `Authorization`, holding `Basic ` and the encoded credentials. |
| SigfoxClient.PostRequest | sigfoxapiv2/__init__.py:70-76 | A POST of the given URL whose body is the payload. Its headers are `JsonHeaders`: exactly three, with `Content-type` and `Accept` set to `application/json`. |
| SigfoxClient.PutRequest | sigfoxapiv2/__init__.py:89-95 | A PUT of the given URL whose body is the payload, with the same headers as a POST. |
| SigfoxClient.Shape | sigfoxapiv2/__init__.py:77-80 | The status code is passed through. Empty content gives `data` `None`. Otherwise the result succeeds exactly when `json.loads` succeeds: on success `data` is its value, and on failure its exception propagates. |
| SigfoxClient.DataIsNone | sigfoxapiv2/__init__.py:77-80 | `data` is `None` exactly when the content is empty or decodes to JSON `null`. |
| SigfoxClient.Exchange | sigfoxapiv2/__init__.py:76-80 | A failed send propagates its exception. Otherwise the reply is the shaped response. |
| PyValues.TruthyIsNotNone | sigfoxapiv2/__init__.py:154 | A truthy value is never `None`. `""`, `0`, `False`, `[]` and `{}` are present values that are still not truthy. |
| Helper.TryAddOptionalArg | sigfoxapiv2/__init__.py:199-201 | A `None` value leaves the dict unchanged. Any other value gives the dict plus that key, holding that value. Every other key keeps its value. |
| Helper.TryAddAbsentTwice | sigfoxapiv2/__init__.py:296 | Adding `None` under an absent key, even twice, never introduces the key. |
| Helper.TryAddLastWins | sigfoxapiv2/__init__.py:354-355 | Of two present values added under one key, the second is kept. |
| Helper.AddOptionalArgsSpec | sigfoxapiv2/__init__.py:340-346 | Successive optional insertions under distinct new keys keep the dict's entries and add no key outside the list. Afterwards each key is present exactly when its value is not `None`, and then holds that value. |
| Helper.SetFieldsSpec | sigfoxapiv2/__init__.py:288-295 | A dict display over distinct keys holds exactly the old keys plus the listed ones. Each listed key holds its value, and unlisted old keys are unchanged. |
| SigfoxDevices.GetDeviceTypes | sigfoxapiv2/__init__.py:119-124 | A GET with the auth header and no body, of `/device-types` with no URL arguments. |
| SigfoxDevices.GetDevice | sigfoxapiv2/__init__.py:126-133 | A GET with the auth header and no body, of `/devices/{deviceid}`, with the device id as its one URL argument. |
| SigfoxDevices.GetDevices | sigfoxapiv2/__init__.py:135-143 | A GET with the auth header and no body, of `/devices?deviceTypeId={sfid}`, with the type id as its one URL argument. |
| SigfoxDevices.GetDeviceMessages | sigfoxapiv2/__init__.py:145-160 | The request is a GET with the auth header and no body. The `?since=` template, with `timestamp` among its arguments, is used exactly when `since` is truthy. Otherwise the plain template is used with `sfid` alone. |
| SigfoxDevices.CreateDevice | sigfoxapiv2/__init__.py:162-173 | A POST to `/devices` whose body has exactly `id`, `name`, `deviceTypeId` and `pac`, holding the arguments. |
| SigfoxDevices.BulkCreateDevices | sigfoxapiv2/__init__.py:175-184 | A POST whose body has exactly `deviceTypeId` and `data`, with the list unchanged. Its URL is the one `create_device` uses. |
| SigfoxDevices.UpdateDevicePayload | sigfoxapiv2/__init__.py:198-203 | `name`, `lat` and `lng` are each present exactly when their argument is not `None`, and then hold it. `productCertificate` is present exactly when `certificate` is not `None`, and then is `{"key": certificate}`. No other key is present. |
| SigfoxDevices.UpdateDevice | sigfoxapiv2/__init__.py:186-204 | A PUT with the JSON headers to the `/devices/{}` template with `sfid`, whose body is the payload described by `UpdateDevicePayload`. |
| SigfoxDevices.BulkUpdateDevices | sigfoxapiv2/__init__.py:206-214 | A PUT with the JSON headers to `/devices/bulk`, whose body is exactly `{"data": device_list}`. |
| SigfoxDevices.Forced | sigfoxapiv2/__init__.py:246-251 | Under a set flag its key is present and `True`. With the flag off the key is left as it was. Every other key keeps its value, and no other key is added. |
| SigfoxDevices.FirstNonDict | sigfoxapiv2/__init__.py:247-251 | The position the loops stop at: every element before it is a dict, and the element there, if any, is not. |
| SigfoxDevices.ElementValues | sigfoxapiv2/__init__.py:252 | The list as it is serialised: each dict with its current contents and every other element as it is, in list order. |
| SigfoxDevices.ForcedValues | sigfoxapiv2/__init__.py:246-252 | The forced list keeps the length and order of the input. Each dict is forced, and every other element is unchanged. |
| SigfoxDevices.ForcedValuesFlags | sigfoxapiv2/__init__.py:246-251 | Under a flag, every dict of the forced list holds that key with `True`. |
| SigfoxDevices.TransferPayload | sigfoxapiv2/__init__.py:252 | The body has exactly `deviceTypeId` and `data`, and `data` is the list as given. |
| SigfoxDevices.SetForAll | sigfoxapiv2/__init__.py:247-248 | The loop succeeds exactly when every element is a dict. The dicts before the first other element have the key set to `True`, in place, even when a dict occurs more than once. All other dicts are unchanged. |
| SigfoxDevices.ForceFlags | sigfoxapiv2/__init__.py:246-251 | Both loops succeed exactly when no flag is truthy or every element is a dict; every dict is then forced, and the list forced as a value. When they fail, the first loop that ran stopped at the first element that is not a dict, the dicts before it hold that loop's key alone, and the rest are unchanged. |
| SigfoxDevices.TransferWithKey | sigfoxapiv2/__init__.py:246-253 | `TransferOutcome`: the call raises `TypeError` exactly when a flag is truthy and some element is not a dict, leaving the dicts before it as the loop that ran left them. Otherwise every dict is forced in place, and the list as it then stands is posted to `/devices/bulk/transfer`. |
| SigfoxDevices.BulkTransferDevices | sigfoxapiv2/__init__.py:230-253 | `TransferOutcome` with the key `keep_history`, taking each flag by its truth value. Both flags default to `True`. |
| SigfoxDevices.TransferDevice | sigfoxapiv2/__init__.py:216-228 | `TransferOutcome` of `bulk_transfer_devices` on the one-element list `[device]`, for a dict and for any other value alike. |
| SigfoxDevices.TransferDeviceAsDocumented | sigfoxapiv2/__init__.py:216-228 | Called with the documented id (line 223; hinted `list` at line 217), `transfer_device` goes through the loop model with that string as the one element. So it raises `TypeError` exactly when a flag is truthy, which includes the defaults. With both flags falsy it posts the bare id. |
| SigfoxDevices.TransferDeviceById | sigfoxapiv2/__init__.py:216-228 | With the id wrapped as `{"id": device_id}`, the call always succeeds. It is a POST to `/devices/bulk/transfer` with the JSON headers, carrying exactly one device: that dict with `keepHistory` and `activable` forced under their flags. |
| SigfoxDevices.BulkTransferDevicesCorrected | sigfoxapiv2/__init__.py:246-253 | `TransferOutcome` with the key `keepHistory`. After a successful call with a truthy history flag, every dict holds `keepHistory: True`. |
| SigfoxDevices.KeepHistoryNotOverridden | sigfoxapiv2/__init__.py:241-248 | For an entry in the docstring's format with `keepHistory: false`, the source's loop keeps `keepHistory` false and only adds a `keep_history` key. |
| SigfoxCallbacks.CallbackFieldNames | sigfoxapiv2/__init__.py:288-295 | The field names of each callback payload are distinct. `headers`, `bodyTemplate` and `contentType` are none of the fields set before them. |
| SigfoxCallbacks.AddBodyFields | sigfoxapiv2/__init__.py:298-305 | `bodyTemplate` and `contentType` are added, with their values, exactly when the method is `POST` or `PUT` and both are given; if either is missing, neither is sent and nothing is raised. Nothing else is added and every other key is kept. |
| SigfoxCallbacks.CreatePayloadFields | sigfoxapiv2/__init__.py:288-305 | In a creation payload, `channel` and `http_method` hold the first and last fixed values, and `bodyTemplate` is present exactly when the POST/PUT rule adds the body fields. |
| SigfoxCallbacks.FixedThenBody | sigfoxapiv2/__init__.py:288-305 | A dict display, then `headers`, then the body fields: every displayed key holds its value, `headers` is present exactly when given, the body fields follow the POST/PUT rule, and no other key is present. |
| SigfoxCallbacks.CreateCallbackPayload | sigfoxapiv2/__init__.py:288-305 | The six fields `channel`, `callbackType`, `callbackSubtype`, `is_enabled`, `url` and `http_method` are always present, even when `None`. `headers` is present exactly when not `None`. The body fields follow the POST/PUT rule. No other key is present. |
| SigfoxCallbacks.OptionalThenBody | sigfoxapiv2/__init__.py:339-355 | Optional insertions, then the body fields: each key is present exactly when its value is given, the body fields follow the POST/PUT rule, and no other key is present. |
| SigfoxCallbacks.UpdateCallbackPayload | sigfoxapiv2/__init__.py:339-355 | Each of `channel`, `callbackType`, `callback_subtype`, `is_enabled`, `url`, `http_method` and `headers` is present exactly when its argument is not `None`, so `is_enabled=False` is sent. The body fields follow the POST/PUT rule. No other key is present. |
| SigfoxDeviceTypes.WantsBodyOfMember | sigfoxapiv2/__init__.py:15-18 | Of the `HTTPMethod` members, exactly `Put` and `Post` pass the POST/PUT test, since a `str` enumeration member equals its string. |
| SigfoxDeviceTypes.CreateDeviceTypeCallback | sigfoxapiv2/__init__.py:260-307 | A POST with the JSON headers to `/device_types/{}/callbacks` with `id`. Its body satisfies `IsCreateCallbackPayload` for the arguments. |
| SigfoxDeviceTypes.CreateWithMembers | sigfoxapiv2/__init__.py:9-18 | For a callback created with `CallbackChannel` and `HTTPMethod` members, the channel and method are sent as the members' strings. The body fields are sent exactly for `Put` or `Post` with both given. |
| SigfoxDeviceTypes.UpdateDeviceTypeCallback | sigfoxapiv2/__init__.py:309-360 | A PUT with the JSON headers to `/device_types/{id}/callbacks/{callbackId}` with both ids. Its body satisfies `IsUpdateCallbackPayload` for the arguments. |
| SigfoxDeviceTypes.GetDeviceTypeCallbacks | sigfoxapiv2/__init__.py:362-370 | A GET with the auth header and no body, of `/device-types/{sfid}/callbacks`, with the type id as its one URL argument. |
| SigfoxDeviceTypes.GetDeviceTypeList | sigfoxapiv2/__init__.py:372-381 | A GET with the auth header and no body. The `?name=` template, with `name` as its argument, is used exactly when `name is not None`, so an empty name selects it too. Otherwise `/device-types` is used with no arguments. |
| SigfoxDeviceTypes.GetContractInformation | sigfoxapiv2/__init__.py:412-417 | A GET with the auth header and no body, of `/contract-infos` with no URL arguments. |
| SigfoxEndpoints.ReadOperationsSendNoBody | sigfoxapiv2/__init__.py:101-111 | Every read operation is a GET with the `Authorization` header alone and no body. |
| SigfoxEndpoints.WriteOperationsSendJson | sigfoxapiv2/__init__.py:63-76 | Every fixed write operation is a POST or PUT of a dict, with the three JSON headers and their values. `bulk_update_devices` is a PUT of exactly `{"data": device_list}`. |

## Left out

- The HTTP transport (`requests.get/post/put`) and `json.loads` are foreign calls. They are the parameter `Transport`: a function from request to response or exception, and one from content to value or exception.
- `json.dumps` is not modelled. The body is the dict that would be serialised, so key order and the JSON text are not captured.
- `sigfoxapiv2/helper.py` is not part of this model. A URL is kept as its template and keyword arguments, so nothing is claimed about how `"/devices/{}"` at line 204 is filled from `sfid`.
- `try_add_optional_arg` is given the behaviour its call sites rely on: insert the key when the value is not `None`. The callback endpoints ignore its result, so it must update the dict in place, while `update_device` assigns its result back. The model has it return the updated dict, and the caller's local dict is reassigned.
- Payload dicts that are mutated locally are modelled as reassigned `map` values: the dict object is never visible outside the method, so no aliasing is lost.
- `create_device_type` (lines 383-404) is not modelled. Its payload's `"id"` is Python's builtin `id` function, not an argument, so it has no value to model; it also posts to `/devices`.
- The `CallbackType` and `CallbackSubtype` enumerations (lines 21-34) are not modelled. The payloads carry their members as opaque values. These are plain `Enum`s without a `str` mixin, so `json.dumps` at lines 76 and 95 raises `TypeError` for the members the signatures at lines 264-265 and 314-315 ask for; the model does not capture that exception.
- The `datetime` passed as `since` is an opaque truthy value, since its formatting into the URL is part of `make_sigfox_url`.
- SigfoxDevices.TransferDevice: the `TypeError` an element that is not a dict raises is modelled for every `Value` other than a dict (the type `NonDict`). This includes an opaque object, which in Python could define its own item assignment. The message is not the exact Python text.
- Insertion order inside a dict is not captured.
- The to-do at lines 300-302 and 350-352 raises nothing. The model follows the code: the body fields are silently left out.
- The URLs are modelled as written, without correction. `bulk_create_devices` posts to `/devices`. The callback endpoints write `/device_types` while `get_device_type_callbacks` writes `/device-types`. Creation sends `callbackSubtype` while update sends `callback_subtype`.
- `test.py` (live integration tests that only compare the status with 200) and `setup.py` (packaging) have no logic to model.
- Lone surrogate code points cannot occur in a Dafny `string`, so the UTF-8 encoder's error for them is not modelled.

## Findings

| source | as written | input that shows it | evidently intended | confidence | as-written member | corrected member |
|---|---|---|---|---|---|---|
| sigfoxapiv2/__init__.py:246-248 | The history flag is written under `keep_history`, while the docstring at line 241 and the transfer API use `keepHistory`. | `bulk_transfer_devices(t, [{"id": "133FE31", "activable": False, "keepHistory": False}])`: the entry is sent with `keepHistory: False` and an extra `keep_history: True`. | Write the flag under `keepHistory`, so that `keep_history_for_all` overrides each device's own setting. | medium, not executed | SigfoxDevices.KeepHistoryNotOverridden | SigfoxDevices.BulkTransferDevicesCorrected |
| sigfoxapiv2/__init__.py:217-228 | `transfer_device` wraps its argument as `[device_id]`; the argument is the documented id (line 223; hinted `list` at line 217). With the default flags the loop at line 248 then assigns an item of that string. | `transfer_device(t, "133FE31")` raises `TypeError: 'str' object does not support item assignment`. | Wrap the id as the device dict `[{"id": device_id}]` the transfer API expects. | medium, not executed | SigfoxDevices.TransferDeviceAsDocumented | SigfoxDevices.TransferDeviceById |
