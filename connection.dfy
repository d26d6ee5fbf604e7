/**
 * `SGDBConnectionManager`: the base URI and the API key every request
 * carries, the four request verbs, and what each returns for what the
 * network answers.
 *
 * The Java class keeps both settings in static fields; here they are the
 * fields of one `ConnectionManager` object. The network is a parameter: a
 * function from the request sent to what came back.
 */
module Connection {
  import opened Wrappers
  import opened Utf8
  import opened Numerals
  import opened Json
  import opened Multipart

  const DefaultApiUri: string := "https://www.steamgriddb.com/API/v2/"

  datatype Verb = GET | POST | DELETE

  datatype Request = Request(verb: Verb, uri: string, headers: seq<(string, string)>, body: seq<byte>)

  /**
   * What comes back for one request: a response whose body text parses as a
   * JSON object, a response whose body does not (`new JSONObject` throws),
   * or an IOException or InterruptedException from `HttpClient.send`.
   */
  datatype Exchange =
    | Delivered(status: int, body: JsonObject)
    | Unparsable(status: int)
    | TransportFailure

  /**
   * The object every verb returns after catching a transport exception:
   * `{ "success": "false", "status": <statusCode> }`, where `statusCode` is
   * still the 0 it was initialised to, since only `send` can throw.
   */
  function Fallback(): (r: JsonObject)
    ensures GetBoolean(r, "success") == Ok(false)
    ensures GetInt(r, "status") == Ok(0)
  {
    assert EqualsIgnoreCase("false", "false");
    map["success" := JString("false"), "status" := JInt(0)]
  }

  /**
   * The result of `getJSON`, `post` and `delete` for what the network
   * answered: only an unparsable body throws, and a transport failure reads
   * as an unsuccessful call.
   */
  function Receive(x: Exchange): (r: Result<JsonObject>)
    ensures r.Err? <==> x.Unparsable?
    ensures r.Err? ==> r.error == JsonError
    ensures x.Delivered? ==> r == Ok(x.body)
    ensures x.TransportFailure? ==> GetBoolean(r.value, "success") == Ok(false)
  {
    match x
    case Delivered(_, body) => Ok(body)
    case Unparsable(_) => Err(JsonError)
    case TransportFailure => Ok(Fallback())
  }

  /** The result of `postMultipart`: as `Receive`, but a status other than 200 makes it read the "errors" array. */
  function ReceiveMultipart(x: Exchange): (r: Result<JsonObject>)
    ensures r.Err? <==> x.Unparsable? || (x.Delivered? && x.status != 200 && GetArray(x.body, "errors").Err?)
    ensures r.Err? ==> r.error == JsonError
    ensures r.Ok? ==> r == Receive(x)
  {
    if x.Delivered? && x.status != 200 && GetArray(x.body, "errors").Err? then Err(JsonError)
    else Receive(x)
  }

  /** `postMultipart` differs from the other verbs exactly on an error status whose body has no "errors" array. */
  lemma ReceiveMultipartDiffers(x: Exchange)
    ensures ReceiveMultipart(x) != Receive(x)
        <==> x.Delivered? && x.status != 200 && !("errors" in x.body && x.body["errors"].JArray?)
  {
  }

  // ---------------------------------------------------------------------
  // The authorization header (section 2.1 of RFC 6750).
  // ---------------------------------------------------------------------

  function Authorization(key: string): (string, string) {
    ("Authorization", "Bearer " + key)
  }

  /** A character of b64token: ALPHA / DIGIT / "-" / "." / "_" / "~" / "+" / "/". */
  predicate IsTokenChar(c: char) {
    || 'a' <= c <= 'z' || 'A' <= c <= 'Z' || '0' <= c <= '9'
    || c == '-' || c == '.' || c == '_' || c == '~' || c == '+' || c == '/'
  }

  /** b64token = 1*( ALPHA / DIGIT / "-" / "." / "_" / "~" / "+" / "/" ) *"=" */
  predicate IsB64Token(s: string) {
    exists n :: 1 <= n <= |s| && AllTokenChars(s[..n]) && AllPadding(s[n..])
  }

  predicate AllTokenChars(s: string) {
    forall i :: 0 <= i < |s| ==> IsTokenChar(s[i])
  }

  predicate AllPadding(s: string) {
    forall i :: 0 <= i < |s| ==> s[i] == '='
  }

  /** credentials = "Bearer" 1*SP b64token, with the single space the client writes. */
  predicate IsBearerCredentials(v: string) {
    |v| > 7 && v[..7] == "Bearer " && IsB64Token(v[7..])
  }

  /**
   * With the single space the client writes after "Bearer", the header is
   * well-formed exactly when the key is a b64token, and the key can be read
   * back from it.
   */
  lemma AuthorizationWellFormed(key: string)
    ensures Authorization(key).0 == "Authorization"
    ensures IsBearerCredentials(Authorization(key).1) <==> IsB64Token(key)
    ensures Authorization(key).1[7..] == key
  {
    var v := Authorization(key).1;
    assert v[..7] == "Bearer ";
    assert v[7..] == key;
  }

  // ---------------------------------------------------------------------
  // The base URI.
  // ---------------------------------------------------------------------

  /** The base URI `initialize` stores: a '/' is appended unless the URI already ends with one. */
  function WithTrailingSlash(uri: string): string
    requires |uri| > 0
  {
    if uri[|uri| - 1] != '/' then uri + "/" else uri
  }

  /** The stored URI ends with '/', starts with the given one, adds at most that '/', and normalising again changes nothing. */
  lemma WithTrailingSlashSpec(uri: string)
    requires |uri| > 0
    ensures var u := WithTrailingSlash(uri);
      && u[|u| - 1] == '/'
      && uri <= u
      && (u == uri <==> uri[|uri| - 1] == '/')
      && (u != uri ==> u == uri + "/")
      && WithTrailingSlash(u) == u
  {
  }

  /** The SteamGridDB connection settings: what the static fields of the Java class hold. */
  class ConnectionManager {
    var apiUri: string
    var authKey: string

    /** The static initialisers of the two fields. */
    constructor()
      ensures apiUri == DefaultApiUri && authKey == ""
    {
      apiUri := DefaultApiUri;
      authKey := "";
    }

    /** `setApiUri`: stored as given, without adding a trailing '/'. */
    method SetApiUri(uri: string)
      modifies this
      ensures apiUri == uri && authKey == old(authKey)
    {
      apiUri := uri;
    }

    /** `setAuthKey`. */
    method SetAuthKey(key: string)
      modifies this
      ensures authKey == key && apiUri == old(apiUri)
    {
      authKey := key;
    }

    /**
     * `initialize`: `charAt(length() - 1)` throws on an empty URI before
     * anything is stored; otherwise both fields are set, the URI with a
     * trailing '/'.
     */
    method Initialize(uri: string, key: string) returns (outcome: Outcome)
      modifies this
      ensures uri == [] ==> outcome == Fail(IndexOutOfBounds) && apiUri == old(apiUri) && authKey == old(authKey)
      ensures uri != [] ==> outcome == Pass && apiUri == WithTrailingSlash(uri) && authKey == key
      ensures outcome.Pass? ==> apiUri[|apiUri| - 1] == '/'
    {
      if |uri| == 0 {
        return Fail(IndexOutOfBounds);
      }
      var stored := uri;
      if uri[|uri| - 1] != '/' {
        stored := uri + "/";
      }
      apiUri := stored;
      authKey := key;
      outcome := Pass;
    }

    /**
     * The request `getJSON`, `post` and `delete` build: `APIUri + path`, the
     * verb, and the bearer header; `post` sends an empty body.
     */
    function PlainRequest(verb: Verb, path: string): (req: Request)
      reads this
      ensures req.verb == verb
      ensures apiUri <= req.uri && req.uri[|apiUri|..] == path
      ensures req.headers == [Authorization(authKey)] && req.body == []
    {
      Request(verb, apiUri + path, [Authorization(authKey)], [])
    }

    /**
     * `getJSON`: the parsed body whatever the status (an error status is only
     * printed), the fallback after a transport exception, and the
     * JSONException of an unparsable body. Neither setting changes.
     */
    method GetJson(path: string, net: Request -> Exchange) returns (sent: Request, r: Result<JsonObject>)
      ensures sent == PlainRequest(GET, path)
      ensures net(sent).Delivered? ==> r == Ok(net(sent).body)
      ensures net(sent).Unparsable? ==> r == Err(JsonError)
      ensures net(sent).TransportFailure? ==> r == Ok(Fallback())
    {
      sent := PlainRequest(GET, path);
      r := Receive(net(sent));
    }

    /** `post`: as `getJSON`, with the POST verb and an empty body. */
    method Post(path: string, net: Request -> Exchange) returns (sent: Request, r: Result<JsonObject>)
      ensures sent == PlainRequest(POST, path)
      ensures net(sent).Delivered? ==> r == Ok(net(sent).body)
      ensures net(sent).Unparsable? ==> r == Err(JsonError)
      ensures net(sent).TransportFailure? ==> r == Ok(Fallback())
    {
      sent := PlainRequest(POST, path);
      r := Receive(net(sent));
    }

    /** `delete`: as `getJSON`, with the DELETE verb. */
    method Delete(path: string, net: Request -> Exchange) returns (sent: Request, r: Result<JsonObject>)
      ensures sent == PlainRequest(DELETE, path)
      ensures net(sent).Delivered? ==> r == Ok(net(sent).body)
      ensures net(sent).Unparsable? ==> r == Err(JsonError)
      ensures net(sent).TransportFailure? ==> r == Ok(Fallback())
    {
      sent := PlainRequest(DELETE, path);
      r := Receive(net(sent));
    }

    /**
     * `postMultipart`: the boundary is the decimal text of the random number
     * `seed`; the body is the encoder's. A file that cannot be read throws
     * an IOException before anything is sent, which is caught like a
     * transport exception.
     */
    method PostMultipart(path: string, params: Form, seed: nat, net: Request -> Exchange)
      returns (sent: Option<Request>, r: Result<JsonObject>)
      requires seed < TwoTo256
      ensures Body(params, RandomBoundary(seed)).Err? ==> sent == None && r == Ok(Fallback())
      ensures Body(params, RandomBoundary(seed)).Ok? ==>
        && sent.Some?
        && sent.value.verb == POST
        && sent.value.uri == apiUri + path
        && sent.value.headers == [("Content-Type", "multipart/form-data;boundary=" + RandomBoundary(seed)), Authorization(authKey)]
        && sent.value.body == Body(params, RandomBoundary(seed)).value
        && r == ReceiveMultipart(net(sent.value))
    {
      var boundary := Digits(seed);
      var body := OfMimeMultipartData(params, boundary);
      if body.Err? {
        return None, Ok(Fallback());
      }
      var req := Request(POST, apiUri + path,
                         [("Content-Type", "multipart/form-data;boundary=" + boundary), Authorization(authKey)],
                         body.value);
      sent := Some(req);
      r := ReceiveMultipart(net(req));
    }
  }
}
