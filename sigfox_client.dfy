/**
  The `Sigfox` client's helper layer (`sigfoxapiv2/__init__.py`, lines 37-111): the credentials,
  the Basic authorization header, the three request makers and the shaping of the response.
  The network is a `Transport` passed in: `send` performs a request and may raise, `loads`
  is `json.loads` and may raise too.
 */
module SigfoxClient {
  import opened Bytes
  import opened PyValues
  import opened Helper
  import Wrappers
  import Utf8
  import Base64
  import PyStr

  /** A client: the user name and password given to `Sigfox(user, password)`, never changed. */
  datatype Sigfox = Sigfox(user: string, passwd: string)

  datatype Verb = GET | POST | PUT

  /**
    What is handed to `requests.get/post/put`. `body` is the payload that `json.dumps`
    serialises, and `None` for a GET, which sends no data.
   */
  datatype Request = Request(verb: Verb, url: Url, headers: map<string, string>, body: Value)

  /** What `requests` returns: `response.status_code` and the raw `response.content`. */
  datatype Response = Response(statusCode: int, content: seq<byte>)

  /** An exception propagated to the caller, as raised by `requests` or `json.loads`. */
  datatype Exception = Exception(reason: string)

  datatype Transport = Transport(
    send: Request -> Wrappers.Result<Response, Exception>,
    loads: seq<byte> -> Wrappers.Result<Value, Exception>)

  /** The pair `(status, data)` every operation returns. */
  datatype Reply = Reply(status: int, data: Value)

  /**
    `"{}:{}".format(user, passwd).encode("utf-8")`: octets from which the joined text can be
    decoded back, one to four per character: the user name's octets, the single octet 0x3A of
    the colon, then the password's octets.
   */
  function Credentials(client: Sigfox): (octets: seq<byte>)
    ensures octets == Utf8.Encode(client.user) + [0x3A] + Utf8.Encode(client.passwd)
    ensures Utf8.Decode(octets) == Wrappers.Some(client.user + ":" + client.passwd)
    ensures |client.user| + 1 + |client.passwd| <= |octets| <= 4 * (|client.user| + 1 + |client.passwd|)
  {
    Utf8.DecodeEncode(client.user + ":" + client.passwd);
    Utf8.EncodeConcat(client.user + ":", client.passwd);
    Utf8.EncodeConcat(client.user, ":");
    assert Utf8.Encode(":") == [0x3A];
    Utf8.Encode(client.user + ":" + client.passwd)
  }

  /** `"Authorization:Basic {}".format(b64).split(":")` gives the name and the value. */
  lemma {:induction false} AuthLineSplits(b64: string)
    requires ':' !in b64
    ensures PyStr.Split("Authorization:Basic " + b64, ':') == ["Authorization", "Basic " + b64]
  {
    var name, value := "Authorization", "Basic " + b64;
    assert ':' !in name by {
      forall i | 0 <= i < |name| ensures name[i] != ':' {
      }
    }
    assert ':' !in value by {
      forall i | 0 <= i < |value| ensures value[i] != ':' {
        if i >= 6 {
          assert value[i] == b64[i - 6];
        }
      }
    }
    assert "Authorization:Basic " + b64 == name + [':'] + value;
    PyStr.SplitPair(name, value, ':');
  }

  /**
    `_make_auth_header`: the header line is split on `:` and its two parts become the dict's one
    entry. The split always yields exactly two parts because the base 64 alphabet has no `:`,
    so the header is `Authorization: Basic <base64(user:passwd)>` as section 2 of RFC 7617 has it.
   */
  function AuthHeader(client: Sigfox): (h: map<string, string>)
    ensures h.Keys == {"Authorization"}
    ensures h["Authorization"] == "Basic " + Base64.Encode(Credentials(client))
  {
    var userPass := Base64.Encode(Credentials(client));
    Base64.NoColon(Credentials(client));
    var authHeader := PyStr.Split("Authorization:Basic " + userPass, ':');
    AuthLineSplits(userPass);
    map[authHeader[0] := authHeader[1]]
  }

  /**
    How a server reads a Basic credential (section 2 of RFC 7617): strip `Basic `, decode the
    base 64, decode the UTF-8 and cut at the first colon.
   */
  function ParseBasicCredentials(value: string): Wrappers.Option<(string, string)>
  {
    if |value| < 6 || value[..6] != "Basic " then Wrappers.None
    else
      var octets := Base64.Decode(value[6..]);
      if octets.None? then Wrappers.None
      else
        var pass := Utf8.Decode(octets.value);
        if pass.None? || ':' !in pass.value then Wrappers.None
        else
          var i := PyStr.IndexOf(pass.value, ':');
          Wrappers.Some((pass.value[..i], pass.value[i + 1..]))
  }

  /**
    The header carries the credentials faithfully: a server recovers the user name and the
    password, provided the user name has no colon (RFC 7617 forbids one there; a password may
    hold any number).
   */
  lemma {:induction false} AuthHeaderRoundTrip(client: Sigfox)
    requires ':' !in client.user
    ensures ParseBasicCredentials(AuthHeader(client)["Authorization"])
      == Wrappers.Some((client.user, client.passwd))
  {
    var text := client.user + ":" + client.passwd;
    var octets := Credentials(client);
    var b64 := Base64.Encode(octets);
    Base64.DecodeEncode(octets);
    Utf8.DecodeEncode(text);
    assert text[|client.user|] == ':' && text[..|client.user|] == client.user;
    PyStr.FirstIndex(text, ':', |client.user|);
    assert text[|client.user| + 1..] == client.passwd;
    ParseSteps("Basic " + b64, b64, octets, text);
  }

  lemma ParseSteps(value: string, b64: string, octets: seq<byte>, text: string)
    requires value == "Basic " + b64
    requires Base64.Decode(b64) == Wrappers.Some(octets)
    requires Utf8.Decode(octets) == Wrappers.Some(text)
    requires ':' in text
    ensures var i := PyStr.IndexOf(text, ':');
      ParseBasicCredentials(value) == Wrappers.Some((text[..i], text[i + 1..]))
  {
    assert value[..6] == "Basic " && value[6..] == b64;
  }

  /** The source does not reject a user name with a colon; two different clients then send the
      same header, so the server cannot tell them apart. */
  lemma ColonInUserIsAmbiguous()
    ensures AuthHeader(Sigfox("a:b", "c")) == AuthHeader(Sigfox("a", "b:c"))
  {
    SameCredentialsSameHeader(Sigfox("a:b", "c"), Sigfox("a", "b:c"));
  }

  /** The header depends on the client through the joined `user:passwd` text only. */
  lemma SameCredentialsSameHeader(c1: Sigfox, c2: Sigfox)
    requires c1.user + ":" + c1.passwd == c2.user + ":" + c2.passwd
    ensures AuthHeader(c1) == AuthHeader(c2)
  {
    var h1, h2 := AuthHeader(c1), AuthHeader(c2);
    assert h1.Keys == h2.Keys && h1["Authorization"] == h2["Authorization"];
  }

  /** Headers of `_make_api_post` and `_make_api_put`: the auth header plus JSON negotiation. */
  function JsonHeaders(client: Sigfox): (h: map<string, string>)
    ensures h.Keys == {"Authorization", "Content-type", "Accept"}
    ensures h["Authorization"] == AuthHeader(client)["Authorization"]
    ensures h["Content-type"] == "application/json" && h["Accept"] == "application/json"
  {
    AuthHeader(client)["Content-type" := "application/json"]["Accept" := "application/json"]
  }

  /** The request `_make_api_get(url)` sends: the credentials alone, and no data. */
  function GetRequest(client: Sigfox, url: Url): (r: Request)
    ensures r.verb == GET && r.url == url && r.body == None
    ensures r.headers.Keys == {"Authorization"}
    ensures r.headers["Authorization"] == "Basic " + Base64.Encode(Credentials(client))
  {
    Request(GET, url, AuthHeader(client), None)
  }

  /** The request `_make_api_post(url, payload)` sends: the payload as JSON, declared as such. */
  function PostRequest(client: Sigfox, url: Url, payload: Payload): (r: Request)
    ensures r.verb == POST && r.url == url && r.body == Dict(payload)
    ensures r.headers == JsonHeaders(client)
    ensures r.headers.Keys == {"Authorization", "Content-type", "Accept"}
    ensures r.headers["Content-type"] == "application/json" && r.headers["Accept"] == "application/json"
  {
    Request(POST, url, JsonHeaders(client), Dict(payload))
  }

  /** The request `_make_api_put(url, payload)` sends: the same as a POST but for the verb. */
  function PutRequest(client: Sigfox, url: Url, payload: Payload): (r: Request)
    ensures r.verb == PUT && r.url == url && r.body == Dict(payload)
    ensures r.headers == PostRequest(client, url, payload).headers
  {
    Request(PUT, url, JsonHeaders(client), Dict(payload))
  }

  /**
    The tail of all three request makers: the status code is passed through, `data` stays
    `None` when the body is empty and is `json.loads(content)` otherwise, whose exception
    propagates.
   */
  function Shape(response: Response, loads: seq<byte> -> Wrappers.Result<Value, Exception>)
    : (r: Wrappers.Result<Reply, Exception>)
    ensures r.Success? ==> r.value.status == response.statusCode
    ensures response.content == [] ==> r == Wrappers.Success(Reply(response.statusCode, None))
    ensures response.content != [] ==> (r.Success? <==> loads(response.content).Success?)
    ensures response.content != [] && r.Success? ==> r.value.data == loads(response.content).value
    ensures r.Failure? ==> r.error == loads(response.content).error
  {
    var data := None;
    if response.content == [] then Wrappers.Success(Reply(response.statusCode, data))
    else
      var decoded := loads(response.content);
      if decoded.Failure? then Wrappers.Failure(decoded.error)
      else Wrappers.Success(Reply(response.statusCode, decoded.value))
  }

  /**
    `data` is `None` exactly when the body is empty or is the JSON text `null`: Python does not
    tell the two apart.
   */
  lemma DataIsNone(response: Response, loads: seq<byte> -> Wrappers.Result<Value, Exception>)
    requires Shape(response, loads).Success?
    ensures Shape(response, loads).value.data == None
      <==> response.content == [] || loads(response.content) == Wrappers.Success(None)
  {
  }

  /** One exchange: send the request, then shape the response; a transport failure propagates. */
  function Exchange(net: Transport, request: Request): (r: Wrappers.Result<Reply, Exception>)
    ensures net.send(request).Failure? ==> r == Wrappers.Failure(net.send(request).error)
    ensures net.send(request).Success? ==> r == Shape(net.send(request).value, net.loads)
  {
    var response := net.send(request);
    if response.Failure? then Wrappers.Failure(response.error) else Shape(response.value, net.loads)
  }
}
