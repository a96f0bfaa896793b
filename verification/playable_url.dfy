/**
 * `fetchPlayableUrl` (lib/fetch-playable-url.js): asks Ooyala's player
 * authorization API for an asset's streams and returns the first stream's
 * URL, base 64 decoded, with the iPhone player path swapped for the Apple TV
 * one. The HTTP exchange is a parameter.
 */
module PlayableUrl {
  import opened Wrappers
  import opened Text
  import opened JsValue
  import opened Outcomes
  import opened Base64
  import Client

  const BaseUrl: string := "http://player.ooyala.com/sas/player_api/v1/authorization/embed_code"
  const PlayerQuery: string := "device=roku&domain=www.ooyala.com&supportedFormats=m3u8"
  const IphonePath: string := "player/iphone"
  const AppleTvPath: string := "player/appletv"

  /** The request `makeRequest` is given: always a `GET`. */
  datatype Request = Request(verb: string, url: string)

  /** `${BASE_URL}/${apiKey}/${embedCode}?${QUERY}`. */
  function Url(apiKey: Value, embedCode: Value): string
  {
    Path(BaseUrl + "/", ToString(apiKey), ToString(embedCode), "?" + PlayerQuery)
  }

  /** Two path segments between a fixed prefix and a fixed suffix. */
  function Path(prefix: string, first: string, second: string, suffix: string): string
  {
    prefix + first + "/" + second + suffix
  }

  /** The two segments of `url` between `prefix` and `suffix`: the text up
      to the first `/`, and the rest. */
  function Segments(prefix: string, suffix: string, url: string): Option<(string, string)>
  {
    if |url| >= |prefix| + |suffix| && url[..|prefix|] == prefix && EndsWith(url, suffix) then
      var middle := url[|prefix|..|url| - |suffix|];
      var i := IndexOf(middle, '/');
      if i < |middle| then Some((middle[..i], middle[i + 1..])) else None
    else None
  }

  /** The key and embed code a player API URL names. */
  function SplitUrl(url: string): Option<(string, string)>
  {
    Segments(BaseUrl + "/", "?" + PlayerQuery, url)
  }

  /** `makeRequest(params)`: a transport error, a status other than 200 and
      a string body that is not JSON reject; a string body is parsed and any
      other body is passed through. The content type is not consulted. */
  function ReadBody(reply: Client.Reply, parse: string -> Option<Value>): (r: Result<Value, Error>)
    ensures r.Ok? <==> reply.Reply? && reply.status == 200 && (reply.body.Str? ==> parse(reply.body.s).Some?)
    ensures reply.TransportFailure? ==> r == Err(Network(reply.reason))
    ensures reply.Reply? && reply.status != 200 ==> r == Err(BadStatus(reply.status))
    ensures reply.Reply? && reply.status == 200 && reply.body.Str? && parse(reply.body.s).None? ==> r == Err(BadJson)
    ensures r.Ok? ==> r.value == (if reply.body.Str? then parse(reply.body.s).value else reply.body)
  {
    match reply
    case TransportFailure(reason) => Err(Network(reason))
    case Reply(status, _, body) =>
      if status != 200 then Err(BadStatus(status))
      else if body.Str? then
        match parse(body.s)
        case None => Err(BadJson)
        case Some(data) => Ok(data)
      else Ok(body)
  }

  /** `list[0]`: the first element of an array, the first character of a
      string, an object's `"0"` property, and `undefined` otherwise. */
  function First(list: Value): (r: Value)
    ensures list.Arr? ==> r == (if |list.items| > 0 then list.items[0] else Undefined)
  {
    match list
    case Arr(xs) => if |xs| > 0 then xs[0] else Undefined
    case Str(s) => if |s| > 0 then Str([s[0]]) else Undefined
    case Obj(_) => Get(list, "0")
    case _ => Undefined
  }

  /** `(((data.authorization_data || {})[embedCode] || {}).streams || [])[0]`. */
  function StreamOf(data: Value, embedCode: Value): Value
  {
    var authorization := Or(Get(data, "authorization_data"), EmptyObject);
    var entry := Or(Get(authorization, ToString(embedCode)), EmptyObject);
    First(Or(Get(entry, "streams"), Arr([])))
  }

  /** `x < 1` for the length read from the stream URL's data; `NaN`
      compares false. */
  predicate LessThanOne(v: Value)
  {
    match ToNumber(v) case Some(n) => n < 1 case None => false
  }

  /** The stream URL's base 64 text: `stream.url.data`. */
  function StreamData(stream: Value): Value
  {
    Get(Get(stream, "url"), "data")
  }

  /** `!stream || !stream.url || (stream.url.data || '').length < 1`. */
  predicate NoPlayableStream(stream: Value)
  {
    !Truthy(stream) || !Truthy(Get(stream, "url")) || LessThanOne(Length(Or(StreamData(stream), Str(""))))
  }

  predicate IsAscii(b: seq<byte>)
  {
    forall i :: 0 <= i < |b| ==> b[i] < 128
  }

  /** The text of ASCII bytes, one character per byte. */
  function AsciiText(b: seq<byte>): (t: string)
    requires IsAscii(b)
    ensures |t| == |b| && forall i :: 0 <= i < |b| ==> t[i] as int == b[i]
  {
    seq(|b|, i requires 0 <= i < |b| => b[i] as char)
  }

  /** The bytes of ASCII text. */
  function AsciiBytes(t: string): (b: seq<byte>)
    requires forall i :: 0 <= i < |t| ==> t[i] as int < 128
    ensures IsAscii(b) && AsciiText(b) == t
  {
    var b: seq<byte> := seq(|t|, i requires 0 <= i < |t| => t[i] as int);
    assert AsciiText(b) == t;
    b
  }

  /** What `new Buffer(data, 'base64')` accepts: a string, an array, an
      object with a `length` (read as array-like, or as empty when that
      length is not a number), or a serialized `{type: 'Buffer', data: [...]}`.
      A boolean, a number (an encoding is given, so no size is meant), or
      any other object makes it throw. */
  predicate BufferSource(data: Value)
  {
    || data.Str?
    || data.Arr?
    || (data.Obj? && (Get(data, "length") != Undefined
                      || (Get(data, "type") == Str("Buffer") && Get(data, "data").Arr?)))
  }

  /** `new Buffer(data, 'base64').toString()`. Data the constructor refuses
      throws a `TypeError`. A canonical encoding of ASCII text decodes to that
      text; Node's lenient decoding of other strings, UTF-8 decoding of other
      bytes and buffers built from arrays and array-like objects are the
      `lenient` parameter. */
  function BufferText(data: Value, lenient: Value -> string): (r: Result<string, Error>)
    ensures r.Ok? <==> BufferSource(data)
    ensures r.Err? ==> r.error == TypeError
    ensures data.Str? && Decode(data.s).Some? && IsAscii(Decode(data.s).value)
            ==> r == Ok(AsciiText(Decode(data.s).value))
  {
    if !BufferSource(data) then Err(TypeError)
    else if data.Str? && Decode(data.s).Some? && IsAscii(Decode(data.s).value) then Ok(AsciiText(Decode(data.s).value))
    else Ok(lenient(data))
  }

  /** `fetchPlayableUrl(args)`. */
  function Fetch(args: Value, transport: Request -> Client.Reply, parse: string -> Option<Value>,
                 lenient: Value -> string): (r: Settled<string>)
    ensures var a := Or(args, EmptyObject);
            && (!Truthy(Get(a, "apiKey")) ==> r == Threw(Invalid("args.apiKey is required")))
            && (Truthy(Get(a, "apiKey")) && !Truthy(Get(a, "embedCode")) ==> r == Threw(Invalid("args.embedCode is required")))
            && (r.Threw? <==> !Truthy(Get(a, "apiKey")) || !Truthy(Get(a, "embedCode")))
  {
    var a := Or(args, EmptyObject);
    var apiKey, embedCode := Get(a, "apiKey"), Get(a, "embedCode");
    if !Truthy(apiKey) then Threw(Invalid("args.apiKey is required"))
    else if !Truthy(embedCode) then Threw(Invalid("args.embedCode is required"))
    else match ReadBody(transport(Request("GET", Url(apiKey, embedCode))), parse)
      case Err(e) => Rejected(e)
      case Ok(data) => Playable(data, embedCode, lenient)
  }

  /** The last `.then` of the fetch: the first stream of the embed code's
      authorization, decoded and rewritten for the Apple TV player. A throw
      inside the callback rejects the promise. */
  function Playable(data: Value, embedCode: Value, lenient: Value -> string): (r: Settled<string>)
    ensures !r.Threw?
    ensures !Dereferenceable(data) ==> r == Rejected(TypeError)
    ensures Dereferenceable(data) ==>
              (r == Rejected(Coded(StreamUndefined)) <==> NoPlayableStream(StreamOf(data, embedCode)))
    ensures Dereferenceable(data) && !NoPlayableStream(StreamOf(data, embedCode)) ==>
              (r.Resolved? <==> BufferSource(StreamData(StreamOf(data, embedCode))))
    ensures Dereferenceable(data) && !NoPlayableStream(StreamOf(data, embedCode)) && !BufferSource(StreamData(StreamOf(data, embedCode)))
            ==> r == Rejected(TypeError)
  {
    if !Dereferenceable(data) then Rejected(TypeError)
    else
      var stream := StreamOf(data, embedCode);
      if NoPlayableStream(stream) then Rejected(Coded(StreamUndefined))
      else match BufferText(StreamData(stream), lenient)
        case Err(e) => Rejected(e)
        case Ok(text) => Resolved(ReplaceFirst(text, IphonePath, AppleTvPath))
  }

  // -------------------------------------------------------------- properties

  /** The segments come back out of a path whose first segment has no
      `/`. */
  lemma SegmentsRoundTrip(prefix: string, first: string, second: string, suffix: string)
    requires '/' !in first
    ensures Segments(prefix, suffix, Path(prefix, first, second, suffix)) == Some((first, second))
  {
    var url := Path(prefix, first, second, suffix);
    var middle := first + "/" + second;
    assert url == prefix + middle + suffix;
    assert url[..|prefix|] == prefix;
    assert url[|url| - |suffix|..] == suffix;
    assert url[|prefix|..|url| - |suffix|] == middle;
    IndexOfAfterPrefix(first, "/" + second, '/');
    assert middle == first + ("/" + second);
  }

  /** Whatever `Segments` accepts is the path of the segments it returns. */
  lemma SegmentsSound(prefix: string, suffix: string, url: string)
    requires Segments(prefix, suffix, url).Some?
    ensures var (first, second) := Segments(prefix, suffix, url).value;
            url == Path(prefix, first, second, suffix) && '/' !in first
  {
    var middle := url[|prefix|..|url| - |suffix|];
    var i := IndexOf(middle, '/');
    IndexOfFinds(middle, '/');
    assert middle == middle[..i] + "/" + middle[i + 1..];
    assert url == url[..|prefix|] + middle + url[|url| - |suffix|..];
  }

  /** The request URL names the key and the embed code as two path
      segments; they come back out when the key has no `/`. */
  lemma UrlRoundTrip(apiKey: string, embedCode: string)
    requires '/' !in apiKey
    ensures SplitUrl(Url(Str(apiKey), Str(embedCode))) == Some((apiKey, embedCode))
  {
    SegmentsRoundTrip(BaseUrl + "/", apiKey, embedCode, "?" + PlayerQuery);
  }

  /** Whatever `SplitUrl` accepts is the URL of the two segments it
      returns, so distinct requests have distinct URLs. */
  lemma SplitUrlSound(url: string)
    requires SplitUrl(url).Some?
    ensures var (k, e) := SplitUrl(url).value; url == Url(Str(k), Str(e)) && '/' !in k
  {
    SegmentsSound(BaseUrl + "/", "?" + PlayerQuery, url);
  }

  /** No entry for the embed code, or an entry without streams: the fetch
      rejects with `STREAM_UNDEFINED`. */
  lemma NoStream(args: Value, transport: Request -> Client.Reply, parse: string -> Option<Value>,
                 lenient: Value -> string, data: Value)
    requires var a := Or(args, EmptyObject);
             && Truthy(Get(a, "apiKey")) && Truthy(Get(a, "embedCode"))
             && ReadBody(transport(Request("GET", Url(Get(a, "apiKey"), Get(a, "embedCode")))), parse) == Ok(data)
    requires data.Obj?
    requires var entry := Get(Or(Get(data, "authorization_data"), EmptyObject), ToString(Get(Or(args, EmptyObject), "embedCode")));
             !Truthy(entry) || !Truthy(Get(entry, "streams")) || Get(entry, "streams") == Arr([])
    ensures Fetch(args, transport, parse, lenient) == Rejected(Coded(StreamUndefined))
  {
  }

  /** The authorization response the API sends for an embed code whose first
      stream URL is `text`, base 64 encoded. */
  function Authorization(embedCode: string, text: string): Value
    requires forall i :: 0 <= i < |text| ==> text[i] as int < 128
  {
    var url := Obj(map["data" := Str(Encode(AsciiBytes(text)))]);
    var streams := Arr([Obj(map["url" := url])]);
    Obj(map["authorization_data" := Obj(map[embedCode := Obj(map["streams" := streams])])])
  }

  /** The stream `StreamOf` finds in such a response. */
  lemma AuthorizedStream(embedCode: string, text: string)
    requires forall i :: 0 <= i < |text| ==> text[i] as int < 128
    ensures StreamOf(Authorization(embedCode, text), Str(embedCode))
            == Obj(map["url" := Obj(map["data" := Str(Encode(AsciiBytes(text)))])])
  {
  }

  /** Its data is a non-empty canonical encoding of `text`. */
  lemma StreamDecodes(text: string, lenient: Value -> string)
    requires |text| > 0 && forall i :: 0 <= i < |text| ==> text[i] as int < 128
    ensures var stream := Obj(map["url" := Obj(map["data" := Str(Encode(AsciiBytes(text)))])]);
            !NoPlayableStream(stream) && BufferText(StreamData(stream), lenient) == Ok(text)
  {
    var bytes := AsciiBytes(text);
    var stream := Obj(map["url" := Obj(map["data" := Str(Encode(bytes))])]);
    DecodeEncode(bytes);
    assert |Encode(bytes)| > 0;
    assert StreamData(stream) == Str(Encode(bytes));
    assert BufferSource(Str(Encode(bytes)));
  }

  /** The first stream's URL comes back decoded, with the first
      `player/iphone` replaced by `player/appletv` and nothing else
      changed. */
  lemma DecodesFirstStream(embedCode: string, text: string, lenient: Value -> string)
    requires |text| > 0 && forall i :: 0 <= i < |text| ==> text[i] as int < 128
    ensures Playable(Authorization(embedCode, text), Str(embedCode), lenient)
            == Resolved(ReplaceFirst(text, IphonePath, AppleTvPath))
  {
    var stream := StreamOf(Authorization(embedCode, text), Str(embedCode));
    AuthorizedStream(embedCode, text);
    StreamDecodes(text, lenient);
    assert !NoPlayableStream(stream) && BufferText(StreamData(stream), lenient) == Ok(text);
  }

  /** An authorization response whose first stream for the embed code has
      URL data `d`. */
  function StreamResponse(embedCode: string, d: Value): Value
  {
    var streams := Arr([Obj(map["url" := Obj(map["data" := d])])]);
    Obj(map["authorization_data" := Obj(map[embedCode := Obj(map["streams" := streams])])])
  }

  /** URL data that is truthy but neither a string nor array-like (`true`,
      a number, a plain object) passes the length test, since its `length`
      is `undefined`, and then makes the `Buffer` constructor throw: the
      fetch rejects with a `TypeError`. */
  lemma NonBufferDataRejects(embedCode: string, d: Value, lenient: Value -> string)
    requires Truthy(d) && !BufferSource(d)
    ensures Playable(StreamResponse(embedCode, d), Str(embedCode), lenient) == Rejected(TypeError)
  {
    var stream := Obj(map["url" := Obj(map["data" := d])]);
    assert StreamOf(StreamResponse(embedCode, d), Str(embedCode)) == stream;
    assert StreamData(stream) == d;
    assert Length(Or(d, Str(""))) == Undefined;
  }

  /** A successful authorization request for the keys resolves the fetch
      with the decoded, rewritten first stream URL. */
  lemma AuthorizedFetch(apiKey: string, embedCode: string, text: string,
                        transport: Request -> Client.Reply, parse: string -> Option<Value>, lenient: Value -> string)
    requires |apiKey| > 0 && |embedCode| > 0 && |text| > 0
    requires forall i :: 0 <= i < |text| ==> text[i] as int < 128
    requires transport(Request("GET", Url(Str(apiKey), Str(embedCode)))).Reply?
    requires transport(Request("GET", Url(Str(apiKey), Str(embedCode)))).status == 200
    requires transport(Request("GET", Url(Str(apiKey), Str(embedCode)))).body == Authorization(embedCode, text)
    ensures var args := Obj(map["apiKey" := Str(apiKey), "embedCode" := Str(embedCode)]);
            Fetch(args, transport, parse, lenient) == Resolved(ReplaceFirst(text, IphonePath, AppleTvPath))
  {
    KeysFetch(apiKey, embedCode, Authorization(embedCode, text), transport, parse, lenient);
    DecodesFirstStream(embedCode, text, lenient);
  }

  /** With both keys given, an object answered with status 200 is the data
      the fetch looks for the stream in. */
  lemma KeysFetch(apiKey: string, embedCode: string, data: Value,
                  transport: Request -> Client.Reply, parse: string -> Option<Value>, lenient: Value -> string)
    requires |apiKey| > 0 && |embedCode| > 0 && data.Obj?
    requires transport(Request("GET", Url(Str(apiKey), Str(embedCode)))).Reply?
    requires transport(Request("GET", Url(Str(apiKey), Str(embedCode)))).status == 200
    requires transport(Request("GET", Url(Str(apiKey), Str(embedCode)))).body == data
    ensures var args := Obj(map["apiKey" := Str(apiKey), "embedCode" := Str(embedCode)]);
            Fetch(args, transport, parse, lenient) == Playable(data, Str(embedCode), lenient)
  {
    var args := Obj(map["apiKey" := Str(apiKey), "embedCode" := Str(embedCode)]);
    assert Get(args, "apiKey") == Str(apiKey) && Get(args, "embedCode") == Str(embedCode);
    FetchReads(args, transport, parse, lenient, data);
  }

  /** Once both keys are present and the response body is read, what the
      fetch settles with depends on the body alone. */
  lemma FetchReads(args: Value, transport: Request -> Client.Reply, parse: string -> Option<Value>,
                   lenient: Value -> string, data: Value)
    requires var a := Or(args, EmptyObject);
             && Truthy(Get(a, "apiKey")) && Truthy(Get(a, "embedCode"))
             && ReadBody(transport(Request("GET", Url(Get(a, "apiKey"), Get(a, "embedCode")))), parse) == Ok(data)
    ensures Fetch(args, transport, parse, lenient) == Playable(data, Get(Or(args, EmptyObject), "embedCode"), lenient)
  {
  }

  /** Without `player/iphone` in the decoded URL, it is returned as is. */
  lemma OtherUrlsUnchanged(text: string)
    requires forall i :: !OccursAt(text, IphonePath, i)
    ensures ReplaceFirst(text, IphonePath, AppleTvPath) == text
  {
  }

  /** An authorization response whose streams for the embed code are
      `streams`. */
  function StreamsResponse(embedCode: string, streams: seq<Value>): Value
  {
    Obj(map["authorization_data" := Obj(map[embedCode := Obj(map["streams" := Arr(streams)])])])
  }

  /** Only `streams[0]` is looked at: later streams never change the
      outcome, and an empty list has no playable stream. */
  lemma OnlyFirstStreamCounts(embedCode: string, first: Value, rest: seq<Value>, lenient: Value -> string)
    ensures Playable(StreamsResponse(embedCode, [first] + rest), Str(embedCode), lenient)
            == Playable(StreamsResponse(embedCode, [first]), Str(embedCode), lenient)
    ensures Playable(StreamsResponse(embedCode, []), Str(embedCode), lenient) == Rejected(Coded(StreamUndefined))
  {
    var e := Str(embedCode);
    assert StreamOf(StreamsResponse(embedCode, [first] + rest), e) == first;
    assert StreamOf(StreamsResponse(embedCode, [first]), e) == first;
    SameStreamSameOutcome(StreamsResponse(embedCode, [first] + rest), StreamsResponse(embedCode, [first]), e, lenient);
    assert StreamOf(StreamsResponse(embedCode, []), e) == Undefined && NoPlayableStream(Undefined);
  }

  /** Past the null check, the outcome depends on the first stream alone. */
  lemma SameStreamSameOutcome(data: Value, other: Value, embedCode: Value, lenient: Value -> string)
    requires Dereferenceable(data) && Dereferenceable(other)
    requires StreamOf(data, embedCode) == StreamOf(other, embedCode)
    ensures Playable(data, embedCode, lenient) == Playable(other, embedCode, lenient)
  {
  }
}
