/**
 * The Ooyala Backlot client of lib/client.js: argument checks and paths of
 * the getters, the credential fallback and signed query of `makeRequest`,
 * and the classification of a raw HTTP reply in `Client.request`.
 *
 * The clock (`Date.now()`), the digest (SHA-256 then base64), the transport
 * and `JSON.parse` are parameters.
 */
module Client {
  import opened Wrappers
  import opened Text
  import opened JsValue
  import opened Query
  import opened Signing
  import opened Outcomes

  const PathPrefix: string := "/v2"
  const Get: string := "GET"

  /** The fields a `Client` keeps from its constructor argument. */
  datatype Config = Config(baseUrl: Value, apiKey: Value, secretKey: Value)

  /** What a getter reads from its argument object: the identifier
      (`labelId` or `assetId`) and the optional per-call credentials. */
  datatype CallArgs = CallArgs(id: Value, apiKey: Value, secretKey: Value)

  /** The remote operations the client defines. */
  datatype Endpoint = Labels | Label | ChildLabels | AssetsByLabel | Asset | AssetStreams

  /** A request handed to the transport. */
  datatype Request = Request(verb: string, url: string, qs: Params)

  /** What the transport reports: a failure, or a status, the content-type
      header (when present) and the body. */
  datatype Reply =
    | TransportFailure(reason: string)
    | Reply(status: int, contentType: Option<string>, body: Value)

  /** `isAuthenticated()`. */
  predicate Authenticated(cfg: Config)
  {
    IsNonEmptyString(cfg.apiKey) && IsNonEmptyString(cfg.secretKey)
  }

  /** The request path of each getter. */
  function EndpointPath(e: Endpoint, id: string): string
  {
    match e
    case Labels => PathPrefix + "/labels"
    case Label => PathPrefix + "/labels/" + id
    case ChildLabels => PathPrefix + "/labels/" + id + "/children"
    case AssetsByLabel => PathPrefix + "/labels/" + id + "/assets"
    case Asset => PathPrefix + "/assets/" + id
    case AssetStreams => PathPrefix + "/assets/" + id + "/streams"
  }

  /** The message a getter throws when its identifier is missing. */
  function MissingIdMessage(e: Endpoint): string
  {
    match e
    case Labels => ""
    case Label => "getLabel() labelId is required"
    case ChildLabels => "getChildLabels() labelId is required"
    case AssetsByLabel => "getAssetsByLabel() labelId is required"
    case Asset => "getAsset() assetId is required"
    case AssetStreams => "getAssetStreams() assetId is required"
  }

  /** The getters whose promise resolves with `body.items`. */
  predicate ReturnsItems(e: Endpoint)
  {
    e == Labels || e == ChildLabels || e == AssetsByLabel
  }

  /** `60 + Math.floor(Date.now() / 1000)` as text. */
  function Expires(nowMs: nat): string
  {
    Decimal(60 + nowMs / 1000)
  }

  /** The query `makeRequest` signs: `{api_key, expires}`. */
  function BaseQuery(apiKey: string, nowMs: nat): Params
  {
    [Param("api_key", apiKey), Param("expires", Expires(nowMs))]
  }

  /** `makeRequest({path, apiKey, secretKey})`: each per-call key falls back
      to the client's own, both must then be non-empty strings, and the
      signature over `{api_key, expires}` is added to that query. */
  function MakeRequest(cfg: Config, path: string, apiKey: Value, secretKey: Value, nowMs: nat, digest: string -> string): (r: Result<Request, Error>)
    ensures r.Ok? <==> IsNonEmptyString(Or(apiKey, cfg.apiKey)) && IsNonEmptyString(Or(secretKey, cfg.secretKey))
    ensures !IsNonEmptyString(Or(apiKey, cfg.apiKey)) ==> r == Err(Invalid("An apiKey is required to makeRequest()"))
    ensures IsNonEmptyString(Or(apiKey, cfg.apiKey)) && !IsNonEmptyString(Or(secretKey, cfg.secretKey))
            ==> r == Err(Invalid("An secretKey is required to makeRequest()"))
    ensures r.Ok? ==> r.value.verb == Get && r.value.url == ToString(cfg.baseUrl) + path
    ensures r.Ok? ==>
              var query := BaseQuery(Or(apiKey, cfg.apiKey).s, nowMs);
              r.value.qs == query + [Param("signature", Signature(digest, Or(secretKey, cfg.secretKey).s, Get, path, query))]
  {
    var key := Or(apiKey, cfg.apiKey);
    var secret := Or(secretKey, cfg.secretKey);
    if !IsNonEmptyString(key) then Err(Invalid("An apiKey is required to makeRequest()"))
    else if !IsNonEmptyString(secret) then Err(Invalid("An secretKey is required to makeRequest()"))
    else
      var query := BaseQuery(key.s, nowMs);
      var signature := Signature(digest, secret.s, Get, path, query);
      Ok(Request(Get, ToString(cfg.baseUrl) + path, query + [Param("signature", signature)]))
  }

  /** A getter up to the moment the request is handed to the transport: the
      identifier check (every getter but `getLabels`), the path, and
      `makeRequest`. `getAssetStreams` passes only the path, so its
      per-call credentials are dropped. An `Err` is a synchronous throw. */
  function BuildRequest(cfg: Config, e: Endpoint, args: CallArgs, nowMs: nat, digest: string -> string): (r: Result<Request, Error>)
    ensures e != Labels && !IsNonEmptyString(args.id) ==> r == Err(Invalid(MissingIdMessage(e)))
    ensures e == Labels || IsNonEmptyString(args.id) ==>
              var path := EndpointPath(e, if e == Labels then "" else args.id.s);
              if e == AssetStreams then r == MakeRequest(cfg, path, Undefined, Undefined, nowMs, digest)
              else r == MakeRequest(cfg, path, args.apiKey, args.secretKey, nowMs, digest)
  {
    if e != Labels && !IsNonEmptyString(args.id) then Err(Invalid(MissingIdMessage(e)))
    else
      var path := EndpointPath(e, if e == Labels then "" else args.id.s);
      if e == AssetStreams then MakeRequest(cfg, path, Undefined, Undefined, nowMs, digest)
      else MakeRequest(cfg, path, args.apiKey, args.secretKey, nowMs, digest)
  }

  /** `/^application\/json/.test(contentType)`. */
  predicate IsJson(contentType: Option<string>)
  {
    contentType.Some? && "application/json" <= contentType.value
  }

  /** `Client.request`: how a raw reply settles the request's promise. A 404
      gives `null`; otherwise the content type must be JSON and the body a
      string that parses. The `resolve` with the parsed body runs before the
      status is looked at, so a parsable body settles the promise whatever
      the status, and the later rejection for a non-200 status is without
      effect. */
  function Respond(reply: Reply, parse: string -> Option<Value>): (r: Result<Value, Error>)
  {
    match reply
    case TransportFailure(reason) => Err(Network(reason))
    case Reply(status, contentType, body) =>
      if status == 404 then Ok(Null)
      else if IsJson(contentType) && body.Str? then
        match parse(body.s)
        case Some(v) => Ok(v)
        case None => Err(BadJson)
      else if IsJson(contentType) then Err(EmptyJsonBody)
      else Err(NotJson)
  }

  /** `.then(body => body.items)`: a `null` body (a 404) makes it throw. */
  function Items(body: Value): (r: Result<Value, Error>)
    ensures Dereferenceable(body) <==> r.Ok?
    ensures r.Ok? ==> r.value == JsValue.Get(body, "items")
    ensures r.Err? ==> r.error == TypeError
  {
    if Dereferenceable(body) then Ok(JsValue.Get(body, "items")) else Err(TypeError)
  }

  /** One getter call end to end: a failed check throws, a reply settles
      the promise as `Respond` says, and the list getters then read
      `items`. */
  function Call(cfg: Config, e: Endpoint, args: CallArgs, nowMs: nat, digest: string -> string,
                transport: Request -> Reply, parse: string -> Option<Value>): (s: Settled<Value>)
    ensures BuildRequest(cfg, e, args, nowMs, digest).Err? <==> s.Threw?
  {
    match BuildRequest(cfg, e, args, nowMs, digest)
    case Err(err) => Threw(err)
    case Ok(req) =>
      match Respond(transport(req), parse)
      case Err(err) => Rejected(err)
      case Ok(body) =>
        if !ReturnsItems(e) then Resolved(body)
        else
          match Items(body)
          case Err(err) => Rejected(err)
          case Ok(items) => Resolved(items)
  }

  // -------------------------------------------------------------- properties

  /** What a getter hands to the transport: it throws exactly when its
      identifier is missing or a key (per call, else the client's own; only
      the client's own for `getAssetStreams`) is not a non-empty string, and
      otherwise sends a GET to `<baseUrl>/v2/...` with the key, `expires`
      and the signature. */
  lemma GetterRequest(cfg: Config, e: Endpoint, args: CallArgs, nowMs: nat, digest: string -> string)
    ensures var r := BuildRequest(cfg, e, args, nowMs, digest);
            var key := if e == AssetStreams then cfg.apiKey else Or(args.apiKey, cfg.apiKey);
            var secret := if e == AssetStreams then cfg.secretKey else Or(args.secretKey, cfg.secretKey);
            && (r.Ok? <==> (e == Labels || IsNonEmptyString(args.id)) && IsNonEmptyString(key) && IsNonEmptyString(secret))
            && (r.Ok? ==>
                  && r.value.verb == Get
                  && r.value.url == ToString(cfg.baseUrl) + EndpointPath(e, if e == Labels then "" else args.id.s)
                  && |r.value.qs| == 3 && r.value.qs[0] == Param("api_key", key.s) && r.value.qs[2].key == "signature")
  {
    if e == Labels || IsNonEmptyString(args.id) {
      var path := EndpointPath(e, if e == Labels then "" else args.id.s);
      var apiKey := if e == AssetStreams then Undefined else args.apiKey;
      var secretKey := if e == AssetStreams then Undefined else args.secretKey;
      var m := MakeRequest(cfg, path, apiKey, secretKey, nowMs, digest);
      assert BuildRequest(cfg, e, args, nowMs, digest) == m;
      assert Or(apiKey, cfg.apiKey) == (if e == AssetStreams then cfg.apiKey else Or(args.apiKey, cfg.apiKey));
      assert Or(secretKey, cfg.secretKey) == (if e == AssetStreams then cfg.secretKey else Or(args.secretKey, cfg.secretKey));
      assert m.Ok? ==> |BaseQuery(Or(apiKey, cfg.apiKey).s, nowMs)| == 2;
    }
  }

  /** How a getter's promise settles once its request is sent. A 404 gives
      `null`: the list getters then fail to read `items` and reject with a
      `TypeError`, the others resolve with `null`. A reply that settles with
      an object gives a list getter its `items` and the others the object
      itself. Any other failure rejects as `Respond` says. */
  lemma GetterSettles(cfg: Config, e: Endpoint, args: CallArgs, nowMs: nat, digest: string -> string,
                      transport: Request -> Reply, parse: string -> Option<Value>)
    requires BuildRequest(cfg, e, args, nowMs, digest).Ok?
    ensures var reply := transport(BuildRequest(cfg, e, args, nowMs, digest).value);
            var s := Call(cfg, e, args, nowMs, digest, transport, parse);
            && (reply.Reply? && reply.status == 404 ==> s == (if ReturnsItems(e) then Rejected(TypeError) else Resolved(Null)))
            && (Respond(reply, parse).Err? ==> s == Rejected(Respond(reply, parse).error))
            && (Respond(reply, parse).Ok? && Dereferenceable(Respond(reply, parse).value) ==>
                  var body := Respond(reply, parse).value;
                  s == Resolved(if ReturnsItems(e) then JsValue.Get(body, "items") else body))
  {
  }

  /** The canonical form of the query `makeRequest` signs is
      `api_key=<apiKey>expires=<expires>`. */
  lemma CanonicalBaseQuery(apiKey: string, nowMs: nat)
    ensures Canonical(BaseQuery(apiKey, nowMs)) == "api_key=" + apiKey + "expires=" + Expires(nowMs)
  {
    var a := Param("api_key", apiKey);
    var x := Param("expires", Expires(nowMs));
    assert SortKey(x)[0] == 'e' && SortKey(a)[0] == 'a';
    assert !Before(x, a);
    assert BaseQuery(apiKey, nowMs)[..1] == [a];
    assert Sort([a]) == [a];
    assert Sort(BaseQuery(apiKey, nowMs)) == Insert(x, [a]) == [a, x];
    assert [a, x][..1] == [a];
    assert Concat([a, x]) == Concat([a]) + Render(x);
    assert Concat([a]) == Concat([]) + Render(a);
    assert Render(a) == "api_key=" + apiKey && Render(x) == "expires=" + Expires(nowMs);
  }

  /** `expires` is sixty seconds after the current whole second. */
  lemma ExpiresValue(nowMs: nat)
    ensures DecimalValue(Expires(nowMs)) == 60 + nowMs / 1000
  {
    DecimalRoundTrip(60 + nowMs / 1000);
  }

  /** A client built with both keys can sign any request without per-call
      credentials, and the one it builds carries its own key. */
  lemma AuthenticatedClientSigns(cfg: Config, path: string, nowMs: nat, digest: string -> string)
    requires Authenticated(cfg)
    ensures MakeRequest(cfg, path, Undefined, Undefined, nowMs, digest).Ok?
    ensures MakeRequest(cfg, path, Undefined, Undefined, nowMs, digest).value.qs[0] == Param("api_key", cfg.apiKey.s)
  {
  }

  /** Per-call keys, when present, take precedence; each falls back on its
      own. */
  lemma PerCallKeysWin(cfg: Config, path: string, apiKey: string, nowMs: nat, digest: string -> string)
    requires |apiKey| > 0 && IsNonEmptyString(cfg.secretKey)
    ensures var r := MakeRequest(cfg, path, Str(apiKey), Undefined, nowMs, digest);
            r.Ok? && r.value.qs[0] == Param("api_key", apiKey)
            && r.value.qs[2] == Param("signature", Signature(digest, cfg.secretKey.s, Get, path, BaseQuery(apiKey, nowMs)))
  {
    assert Or(Str(apiKey), cfg.apiKey) == Str(apiKey);
    assert Or(Undefined, cfg.secretKey) == cfg.secretKey;
    var query := BaseQuery(apiKey, nowMs);
    var r := MakeRequest(cfg, path, Str(apiKey), Undefined, nowMs, digest);
    assert r.value.qs == query + [Param("signature", Signature(digest, cfg.secretKey.s, Get, path, query))];
  }

  /** `getAssetStreams` ignores the credentials it is called with. */
  lemma AssetStreamsUsesClientKeys(cfg: Config, args: CallArgs, nowMs: nat, digest: string -> string)
    ensures BuildRequest(cfg, AssetStreams, args, nowMs, digest)
            == BuildRequest(cfg, AssetStreams, CallArgs(args.id, Undefined, Undefined), nowMs, digest)
  {
  }

  /** A getter with a valid identifier requests `<baseUrl>/v2/...` with that
      identifier in the path. */
  lemma GetterUrl(cfg: Config, e: Endpoint, id: string, nowMs: nat, digest: string -> string)
    requires e != Labels && |id| > 0 && Authenticated(cfg)
    ensures var r := BuildRequest(cfg, e, CallArgs(Str(id), Undefined, Undefined), nowMs, digest);
            r.Ok? && r.value.url == ToString(cfg.baseUrl) + EndpointPath(e, id)
  {
  }

  /** Exactly when a reply settles the promise with a value, and which. */
  lemma RespondResolves(reply: Reply, parse: string -> Option<Value>)
    ensures Respond(reply, parse).Ok? <==>
              reply.Reply? && (reply.status == 404 || (IsJson(reply.contentType) && reply.body.Str? && parse(reply.body.s).Some?))
    ensures reply.Reply? && reply.status == 404 ==> Respond(reply, parse) == Ok(Null)
    ensures reply.Reply? && reply.status != 404 && Respond(reply, parse).Ok? ==>
              Respond(reply, parse).value == parse(reply.body.s).value
  {
  }

  /** The failures, by cause. */
  lemma RespondRejects(reply: Reply, parse: string -> Option<Value>)
    requires reply.Reply? && reply.status != 404
    ensures !IsJson(reply.contentType) ==> Respond(reply, parse) == Err(NotJson)
    ensures IsJson(reply.contentType) && !reply.body.Str? ==> Respond(reply, parse) == Err(EmptyJsonBody)
    ensures IsJson(reply.contentType) && reply.body.Str? && parse(reply.body.s).None? ==> Respond(reply, parse) == Err(BadJson)
  {
  }

  /** A server error whose body is parsable JSON still resolves. */
  lemma ErrorStatusWithJsonResolves(parse: string -> Option<Value>, text: string, v: Value)
    requires parse(text) == Some(v)
    ensures Respond(Reply(500, Some("application/json; charset=utf-8"), Str(text)), parse) == Ok(v)
  {
    assert "application/json" <= "application/json; charset=utf-8";
  }
}
