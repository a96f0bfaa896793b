/**
 * The three discovery handlers, `fetchSimilarCollection`,
 * `fetchTrendingCollection` and `fetchPopularCollection`
 * (lib/fetch-similar-collection.js, lib/fetch-trending-collection.js,
 * lib/fetch-popular-collection.js). They differ only in the client method,
 * the spec id, the default name and the not-found code, so one definition
 * takes the kind as a parameter.
 */
module Discovery {
  import opened Wrappers
  import opened Text
  import opened JsValue
  import opened Outcomes
  import opened Pipeline

  datatype Kind = Similar | Trending | Popular

  /** The handler's argument. `collection` is part of it but never read. */
  datatype Args = Args(spec: Value, channel: Value, collection: Value)

  function KindOp(k: Kind): Op
  {
    match k
    case Similar => GetSimilarRelated
    case Trending => GetTrendingRelated
    case Popular => GetPopularRelated
  }

  function KindCode(k: Kind): Code
  {
    match k
    case Similar => SimilarNotFound
    case Trending => TrendingNotFound
    case Popular => PopularNotFound
  }

  /** The collection name used when the spec has none. */
  function DefaultName(k: Kind): string
  {
    match k
    case Similar => "Similar Videos"
    case Trending => "Trending Videos"
    case Popular => "Popular Videos"
  }

  /** The id the handler gives the spec: one per origin asset for similar
      videos, a fixed one otherwise. */
  function SpecId(k: Kind, assetId: Value): string
  {
    match k
    case Similar => "spec-ooyala-discovery-similar-" + ToString(assetId)
    case Trending => "spec-ooyala-discovery-trending"
    case Popular => "spec-ooyala-discovery-popular"
  }

  /** `(channel.secrets || {}).ooyala || {}`. */
  function OoyalaSecrets(channel: Value): Value
  {
    Or(Get(ChannelSecrets(channel), "ooyala"), EmptyObject)
  }

  /** `Object.assign({assetId}, creds)` for similar videos, `creds` alone
      for the others. */
  function Params(k: Kind, a: Args): (args: Value)
    ensures args.Obj?
    ensures k == Similar ==> Get(args, "assetId") == SpecAssetId(a.spec)
    ensures k != Similar ==> args.fields.Keys <= {"apiKey", "secretKey"}
  {
    var creds := SelectCreds(OoyalaSecrets(a.channel));
    if k == Similar then WithCreds(map["assetId" := SpecAssetId(a.spec)], creds) else WithCreds(map[], creds)
  }

  /** The spec with the id the handler gives it. */
  function Named(k: Kind, spec: Value): (named: Value)
    requires spec.Obj?
    ensures named.Obj? && Get(named, "id") == Str(SpecId(k, SpecAssetId(spec)))
    ensures forall key :: key != "id" ==> Get(named, key) == Get(spec, key)
  {
    SetField(spec, "id", Str(SpecId(k, SpecAssetId(spec))))
  }

  /** `{name}` with `name = spec.name || <default>`. */
  function NameArg(k: Kind, spec: Value): (arg: Value)
    ensures Get(arg, "name") == (if Truthy(Get(spec, "name")) then Get(spec, "name") else Str(DefaultName(k)))
  {
    Obj(map["name" := Or(Get(spec, "name"), Str(DefaultName(k)))])
  }

  /** The transform always gets a name: `{name}` holds nothing else, and
      its name is never empty, whether it comes from the spec or is the
      kind's default. */
  lemma NameAlwaysGiven(k: Kind, spec: Value)
    ensures var arg := NameArg(k, spec);
            && arg.Obj? && arg.fields.Keys == {"name"} && Truthy(Get(arg, "name"))
            && (Get(arg, "name") == Get(spec, "name") || Get(arg, "name") == Str(DefaultName(k)))
  {
  }

  /** The fan-out of `found.results`. */
  function ResultsFanOut(found: Value, channelId: Value, ack: Ack): Run<seq<Value>>
  {
    var results := Get(found, "results");
    if HasEntries(results) then ListFanOut(results, Videos(channelId), ack) else Run([], Resolved([]))
  }

  /** The first `.then` once results exist, and the rest: the spec gets its
      id, the transform builds the collection from `{name}`, and the
      results are fanned out as video specs. The spec must be an object:
      `spec.name` throws on `null`/`undefined` and `spec.id = ...` throws on
      a primitive in strict mode. */
  function WithResults(k: Kind, spec: Value, channelId: Value, found: Value, transform: Transform, ack: Ack): (r: Run<Value>)
    ensures !spec.Obj? <==> r == Run([], Rejected(TypeError))
    ensures !r.outcome.Threw?
    ensures forall e :: e in r.log ==> e.Transformed? || e.SentSpec?
  {
    if !spec.Obj? then Run([], Rejected(TypeError))
    else
      var named := Named(k, spec);
      Finish([Transformed(named, NameArg(k, spec))], ResultsFanOut(found, channelId, ack), transform(named, NameArg(k, spec)))
  }

  /** `fetch<Kind>Collection(args)`. */
  function Fetch(k: Kind, a: Args, client: Client, ack: Ack, transform: Transform): (r: Run<Value>)
    ensures !Dereferenceable(a.channel) ==> r == Run([], Threw(TypeError))
    ensures forall i :: 0 <= i < |r.log| && r.log[i].Requested? ==> i == 0 && r.log[i].call == Call(KindOp(k), Params(k, a))
  {
    if !Dereferenceable(a.channel) then Run([], Threw(TypeError))
    else if k == Similar && !Dereferenceable(a.spec) then Run([], Threw(TypeError))
    else
      var first := Call(KindOp(k), Params(k, a));
      match client(first)
      case Threw(e) => Run([Requested(first)], Threw(e))
      case Rejected(e) => Run([Requested(first)], Rejected(e))
      case Resolved(found) =>
        if !Truthy(found) then Run([Requested(first), NotFound(a.spec, KindCode(k))], Rejected(Coded(KindCode(k))))
        else
          var rest := WithResults(k, a.spec, Get(a.channel, "id"), found, transform, ack);
          Run([Requested(first)] + rest.log, rest.outcome)
  }

  // -------------------------------------------------------------- properties

  /** Override credentials come from `channel.secrets.ooyala`, both or
      neither. */
  lemma CredentialsFromOoyalaSecrets(k: Kind, a: Args)
    ensures var args := Params(k, a);
            var secrets := OoyalaSecrets(a.channel);
            && ("apiKey" in args.fields <==> "secretKey" in args.fields)
            && ("apiKey" in args.fields <==> Truthy(Get(secrets, "backlotApiKey")) && Truthy(Get(secrets, "backlotSecretKey")))
            && ("apiKey" in args.fields ==> Get(args, "apiKey") == Get(secrets, "backlotApiKey"))
  {
    if k == Similar {
      CredsBothOrNothing(OoyalaSecrets(a.channel), map["assetId" := SpecAssetId(a.spec)]);
    } else {
      CredsBothOrNothing(OoyalaSecrets(a.channel), map[]);
    }
  }

  /** `args.collection` plays no part. */
  lemma CollectionIgnored(k: Kind, a: Args, other: Value, client: Client, ack: Ack, transform: Transform)
    ensures Fetch(k, a, client, ack, transform) == Fetch(k, a.(collection := other), client, ack, transform)
  {
    assert Params(k, a) == Params(k, a.(collection := other));
  }

  /** No results: one error broadcast with the spec and a rejection with the
      kind's code; the transform is not applied and nothing is sent. */
  lemma NotFoundPath(k: Kind, a: Args, client: Client, ack: Ack, transform: Transform)
    requires Dereferenceable(a.channel) && (k == Similar ==> Dereferenceable(a.spec))
    requires client(Call(KindOp(k), Params(k, a))).Resolved? && !Truthy(client(Call(KindOp(k), Params(k, a))).value)
    ensures Fetch(k, a, client, ack, transform)
            == Run([Requested(Call(KindOp(k), Params(k, a))), Broadcast(a.spec, KindCode(k), NotFoundMessage(KindCode(k)))],
                   Rejected(Coded(KindCode(k))))
  {
  }

  /** The broadcast messages. */
  lemma NotFoundMessages()
    ensures NotFoundMessage(KindCode(Similar)) == "similar not found"
    ensures NotFoundMessage(KindCode(Trending)) == "trending not found"
    ensures NotFoundMessage(KindCode(Popular)) == "popular not found"
    ensures CodeName(KindCode(Similar)) == "SIMILAR_NOT_FOUND"
    ensures CodeName(KindCode(Trending)) == "TRENDING_NOT_FOUND"
    ensures CodeName(KindCode(Popular)) == "POPULAR_NOT_FOUND"
  {
  }

  /** With results, the transform receives the spec with its id set and
      `{name}` with the spec's name or the kind's default (see `Named` and
      `NameArg`); entries of `results` are sent as video specs in order. */
  lemma FoundPath(k: Kind, a: Args, client: Client, ack: Ack, transform: Transform, found: Value)
    requires Dereferenceable(a.channel) && a.spec.Obj?
    requires client(Call(KindOp(k), Params(k, a))) == Resolved(found) && Truthy(found)
    ensures var named := Named(k, a.spec);
            Fetch(k, a, client, ack, transform)
            == Finish([Requested(Call(KindOp(k), Params(k, a))), Transformed(named, NameArg(k, a.spec))],
                      ResultsFanOut(found, Get(a.channel, "id"), ack), transform(named, NameArg(k, a.spec)))
  {
    var named := Named(k, a.spec);
    var first := Call(KindOp(k), Params(k, a));
    FetchFound(k, a, client, ack, transform, found);
    WithResultsObject(k, a.spec, Get(a.channel, "id"), found, transform, ack);
    FinishPrefix([Requested(first)], [Transformed(named, NameArg(k, a.spec))],
                 ResultsFanOut(found, Get(a.channel, "id"), ack), transform(named, NameArg(k, a.spec)));
    assert [Requested(first)] + [Transformed(named, NameArg(k, a.spec))] == [Requested(first), Transformed(named, NameArg(k, a.spec))];
  }

  /** Every result sent and acknowledged with a type: the collection gets
      one relationship per result, in order. */
  lemma HappyPath(k: Kind, a: Args, client: Client, ack: Ack, transform: Transform, found: Value, results: seq<Value>)
    requires Dereferenceable(a.channel) && a.spec.Obj?
    requires client(Call(KindOp(k), Params(k, a))) == Resolved(found) && Truthy(found)
    requires Get(found, "results") == Arr(results) && |results| > 0
    requires forall i :: 0 <= i < |results| ==> Dereferenceable(results[i])
    requires forall i :: 0 <= i < |results| ==>
               ack(VideoSpec(Get(a.channel, "id"), results[i]).value).Ok?
               && Get(ack(VideoSpec(Get(a.channel, "id"), results[i]).value).value, "type").Str?
    requires var c := transform(Named(k, a.spec), NameArg(k, a.spec));
             c.Obj? && Or(Get(c, "relationships"), EmptyObject).Obj?
    ensures var r := Fetch(k, a, client, ack, transform);
            var collection := transform(Named(k, a.spec), NameArg(k, a.spec));
            && r.outcome.Resolved?
            && (forall key :: key != "relationships" ==> Get(r.outcome.value, key) == Get(collection, key))
            && EntitiesInOrder(Get(Get(r.outcome.value, "relationships"), "entities"), results, Videos(Get(a.channel, "id")), ack)
  {
    FoundPath(k, a, client, ack, transform, found);
    assert HasEntries(Arr(results));
    FinishAcked([Requested(Call(KindOp(k), Params(k, a))), Transformed(Named(k, a.spec), NameArg(k, a.spec))],
                results, Videos(Get(a.channel, "id")), ack, transform(Named(k, a.spec), NameArg(k, a.spec)));
  }

  /** Missing or empty `results`: nothing is sent and the relationship list
      is empty. */
  lemma NoResults(k: Kind, a: Args, client: Client, ack: Ack, transform: Transform, found: Value)
    requires Dereferenceable(a.channel) && a.spec.Obj?
    requires client(Call(KindOp(k), Params(k, a))) == Resolved(found) && Truthy(found)
    requires !HasEntries(Get(found, "results"))
    requires var c := transform(Named(k, a.spec), NameArg(k, a.spec));
             c.Obj? && Or(Get(c, "relationships"), EmptyObject).Obj?
    ensures var r := Fetch(k, a, client, ack, transform);
            && |r.log| == 2 && r.outcome.Resolved?
            && Get(Get(r.outcome.value, "relationships"), "entities") == Entities([])
  {
    FoundPath(k, a, client, ack, transform, found);
    NothingSentNoRelationships([Requested(Call(KindOp(k), Params(k, a))), Transformed(Named(k, a.spec), NameArg(k, a.spec))],
                               transform(Named(k, a.spec), NameArg(k, a.spec)));
  }

  /** `results` that pass the length test without being an array (such as
      `{length: '2'}`) have no `map`: after the transform the handler
      rejects with a `TypeError` and sends nothing. */
  lemma NonArrayResultsReject(k: Kind, a: Args, client: Client, ack: Ack, transform: Transform, found: Value)
    requires Dereferenceable(a.channel) && a.spec.Obj?
    requires client(Call(KindOp(k), Params(k, a))) == Resolved(found) && Truthy(found)
    requires HasEntries(Get(found, "results")) && !Get(found, "results").Arr?
    ensures Fetch(k, a, client, ack, transform)
            == Run([Requested(Call(KindOp(k), Params(k, a))), Transformed(Named(k, a.spec), NameArg(k, a.spec))], Rejected(TypeError))
  {
    FoundPath(k, a, client, ack, transform, found);
    assert ResultsFanOut(found, Get(a.channel, "id"), ack) == Run([], Rejected(TypeError));
  }

  /** A truthy reply continues with `WithResults`, after the request. */
  lemma FetchFound(k: Kind, a: Args, client: Client, ack: Ack, transform: Transform, found: Value)
    requires Dereferenceable(a.channel) && a.spec.Obj?
    requires client(Call(KindOp(k), Params(k, a))) == Resolved(found) && Truthy(found)
    ensures var rest := WithResults(k, a.spec, Get(a.channel, "id"), found, transform, ack);
            Fetch(k, a, client, ack, transform) == Run([Requested(Call(KindOp(k), Params(k, a)))] + rest.log, rest.outcome)
  {
  }

  /** For an object spec, `WithResults` is the transform then the fan-out. */
  lemma WithResultsObject(k: Kind, spec: Value, channelId: Value, found: Value, transform: Transform, ack: Ack)
    requires spec.Obj?
    ensures WithResults(k, spec, channelId, found, transform, ack)
            == Finish([Transformed(Named(k, spec), NameArg(k, spec))], ResultsFanOut(found, channelId, ack), transform(Named(k, spec), NameArg(k, spec)))
  {
  }
}
