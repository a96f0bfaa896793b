/**
 * `fetchAsset` (lib/fetch-backlot-asset.js): resolves a video spec from a
 * Backlot asset. The asset, its metadata and its streams are requested
 * together (either of the last two can be skipped); a found asset gets the
 * metadata and streams attached and is transformed, a missing one is
 * reported on the bus.
 */
module BacklotAsset {
  import opened Wrappers
  import opened JsValue
  import opened Outcomes
  import opened Pipeline

  /** The handler's argument: `{spec, channel, assetId}`. */
  datatype Args = Args(spec: Value, channel: Value, assetId: Value)

  /** `Boolean(secrets[flag] || spec[flag])`. The spec is read only when the
      secret is falsy; reading it then throws if it is `null` or
      `undefined` (`None`). */
  function Skip(secrets: Value, spec: Value, flag: string): (r: Option<bool>)
    ensures r.None? <==> !Truthy(Get(secrets, flag)) && !Dereferenceable(spec)
    ensures r.Some? ==> (r.value <==> Truthy(Get(secrets, flag)) || Truthy(Get(spec, flag)))
  {
    if Truthy(Get(secrets, flag)) then Some(true)
    else if !Dereferenceable(spec) then None
    else Some(Truthy(Get(spec, flag)))
  }

  /** `Object.assign({assetId}, creds)`, the argument of every call made. */
  function Params(a: Args): Value
  {
    WithCreds(map["assetId" := a.assetId], SelectCreds(ChannelSecrets(a.channel)))
  }

  /** The three promises: the asset, then the metadata or `{}`, then the
      streams or `[]`. */
  function Steps(params: Value, skipMetadata: bool, skipStreams: bool): seq<Step>
  {
    [Invoke(Call(GetAsset, params)),
     if skipMetadata then Ready(EmptyObject) else Invoke(Call(GetAssetMetadata, params)),
     if skipStreams then Ready(Arr([])) else Invoke(Call(GetAssetStreams, params))]
  }

  /** `asset.meta = meta; asset.streams = streams || []`. Assigning a
      property of a truthy value that is not an object throws in strict
      mode. */
  function AttachExtras(asset: Value, meta: Value, streams: Value): (r: Result<Value, Error>)
    ensures r.Ok? <==> asset.Obj?
    ensures r.Err? ==> r.error == TypeError
    ensures r.Ok? ==>
              && r.value.Obj? && r.value.fields.Keys == asset.fields.Keys + {"meta", "streams"}
              && Get(r.value, "meta") == meta
              && Get(r.value, "streams") == (if Truthy(streams) then streams else Arr([]))
              && forall k :: k != "meta" && k != "streams" ==> Get(r.value, k) == Get(asset, k)
  {
    if !asset.Obj? then Err(TypeError)
    else Ok(SetField(SetField(asset, "meta", meta), "streams", Or(streams, Arr([]))))
  }

  /** What happens once all three promises are fulfilled. */
  function Settle(spec: Value, values: seq<Value>, transform: Transform): (r: Run<Value>)
    requires |values| == 3
    ensures !Truthy(values[0]) <==> r == Run([NotFound(spec, AssetNotFound)], Rejected(Coded(AssetNotFound)))
    ensures Truthy(values[0]) && AttachExtras(values[0], values[1], values[2]).Ok? ==>
              var asset := AttachExtras(values[0], values[1], values[2]).value;
              r == Run([Transformed(spec, asset)], Resolved(transform(spec, asset)))
    ensures Truthy(values[0]) && !values[0].Obj? ==> r == Run([], Rejected(TypeError))
  {
    var asset := values[0];
    if !Truthy(asset) then Run([NotFound(spec, AssetNotFound)], Rejected(Coded(AssetNotFound)))
    else match AttachExtras(asset, values[1], values[2])
      case Err(e) => Run([], Rejected(e))
      case Ok(x) => Run([Transformed(spec, x)], Resolved(transform(spec, x)))
  }

  /** `fetchAsset(args)`. The promise array is built before any `.then`, so
      a client method that throws makes `fetchAsset` itself throw. */
  function FetchAsset(a: Args, client: Client, transform: Transform): (r: Run<Value>)
    ensures forall e :: e in r.log && e.Requested? ==> e.call.args == Params(a)
    ensures !Dereferenceable(a.channel) ==> r == Run([], Threw(TypeError))
  {
    if !Dereferenceable(a.channel) then Run([], Threw(TypeError))
    else
      var secrets := ChannelSecrets(a.channel);
      match (Skip(secrets, a.spec, "skipMetadata"), Skip(secrets, a.spec, "skipStreams"))
      case (Some(skipMetadata), Some(skipStreams)) =>
        var fetched := CallAll(Steps(Params(a), skipMetadata, skipStreams), client);
        (match fetched.outcome
         case Threw(e) => Run(fetched.log, Threw(e))
         case Rejected(e) => Run(fetched.log, Rejected(e))
         case Resolved(values) =>
           var rest := Settle(a.spec, values, transform);
           Run(fetched.log + rest.log, rest.outcome))
      case _ => Run([], Threw(TypeError))
  }

  // -------------------------------------------------------------- properties

  /** The same argument object, with the channel's override credentials on
      a both-or-nothing basis, goes to every client call made. */
  lemma CredentialsOnEveryCall(a: Args, client: Client, transform: Transform)
    ensures forall e :: e in FetchAsset(a, client, transform).log && e.Requested? ==>
              var args := e.call.args;
              && args.Obj? && Get(args, "assetId") == a.assetId
              && ("apiKey" in args.fields <==> "secretKey" in args.fields)
              && ("apiKey" in args.fields <==>
                    Truthy(Get(ChannelSecrets(a.channel), "backlotApiKey")) && Truthy(Get(ChannelSecrets(a.channel), "backlotSecretKey")))
  {
    CredsBothOrNothing(ChannelSecrets(a.channel), map["assetId" := a.assetId]);
  }

  /** A skipped list is never requested. */
  lemma SkippedNeverRequested(a: Args, client: Client, transform: Transform)
    requires Dereferenceable(a.channel)
    ensures var secrets := ChannelSecrets(a.channel);
            forall e :: e in FetchAsset(a, client, transform).log && e.Requested? ==>
              && (Skip(secrets, a.spec, "skipMetadata") == Some(true) ==> e.call.op != GetAssetMetadata)
              && (Skip(secrets, a.spec, "skipStreams") == Some(true) ==> e.call.op != GetAssetStreams)
  {
    var secrets := ChannelSecrets(a.channel);
    var sm := Skip(secrets, a.spec, "skipMetadata");
    var ss := Skip(secrets, a.spec, "skipStreams");
    if sm.Some? && ss.Some? {
      var steps := Steps(Params(a), sm.value, ss.value);
      var fetched := CallAll(steps, client);
      forall e | e in fetched.log
        ensures e.Requested? && (sm.value ==> e.call.op != GetAssetMetadata) && (ss.value ==> e.call.op != GetAssetStreams)
      {
        assert Invoke(e.call) in steps;
      }
    }
  }

  /** The three results of a fetch whose calls all resolve. */
  lemma AllResolved(params: Value, skipMetadata: bool, skipStreams: bool, client: Client)
    requires client(Call(GetAsset, params)).Resolved?
    requires !skipMetadata ==> client(Call(GetAssetMetadata, params)).Resolved?
    requires !skipStreams ==> client(Call(GetAssetStreams, params)).Resolved?
    ensures var r := CallAll(Steps(params, skipMetadata, skipStreams), client);
            && r.outcome.Resolved?
            && r.outcome.value[0] == client(Call(GetAsset, params)).value
            && r.outcome.value[1] == (if skipMetadata then EmptyObject else client(Call(GetAssetMetadata, params)).value)
            && r.outcome.value[2] == (if skipStreams then Arr([]) else client(Call(GetAssetStreams, params)).value)
  {
    var steps := Steps(params, skipMetadata, skipStreams);
    assert StepOutcome(steps[0], client).Resolved?;
    assert StepOutcome(steps[1], client).Resolved?;
    assert StepOutcome(steps[2], client).Resolved?;
  }

  /** A found asset is transformed exactly once, with the spec and with the
      metadata (`{}` when skipped) and streams (`[]` when skipped or falsy)
      attached, and the handler resolves with the transform's result. */
  lemma FoundAsset(a: Args, client: Client, transform: Transform, skipMetadata: bool, skipStreams: bool)
    requires Dereferenceable(a.channel)
    requires Skip(ChannelSecrets(a.channel), a.spec, "skipMetadata") == Some(skipMetadata)
    requires Skip(ChannelSecrets(a.channel), a.spec, "skipStreams") == Some(skipStreams)
    requires client(Call(GetAsset, Params(a))).Resolved? && client(Call(GetAsset, Params(a))).value.Obj?
    requires !skipMetadata ==> client(Call(GetAssetMetadata, Params(a))).Resolved?
    requires !skipStreams ==> client(Call(GetAssetStreams, Params(a))).Resolved?
    ensures var params := Params(a);
            var meta := if skipMetadata then EmptyObject else client(Call(GetAssetMetadata, params)).value;
            var streams := if skipStreams then Arr([]) else client(Call(GetAssetStreams, params)).value;
            var attached := AttachExtras(client(Call(GetAsset, params)).value, meta, streams).value;
            FetchAsset(a, client, transform)
            == Run(Invocations(Steps(params, skipMetadata, skipStreams)) + [Transformed(a.spec, attached)],
                   Resolved(transform(a.spec, attached)))
  {
    AllResolved(Params(a), skipMetadata, skipStreams, client);
  }

  /** A missing asset: every requested call was made, then one error
      broadcast with the spec and an `ASSET_NOT_FOUND` rejection; the
      transform is not applied. */
  lemma MissingAsset(a: Args, client: Client, transform: Transform, skipMetadata: bool, skipStreams: bool)
    requires Dereferenceable(a.channel)
    requires Skip(ChannelSecrets(a.channel), a.spec, "skipMetadata") == Some(skipMetadata)
    requires Skip(ChannelSecrets(a.channel), a.spec, "skipStreams") == Some(skipStreams)
    requires client(Call(GetAsset, Params(a))).Resolved? && !Truthy(client(Call(GetAsset, Params(a))).value)
    requires !skipMetadata ==> client(Call(GetAssetMetadata, Params(a))).Resolved?
    requires !skipStreams ==> client(Call(GetAssetStreams, Params(a))).Resolved?
    ensures var r := FetchAsset(a, client, transform);
            var steps := Steps(Params(a), skipMetadata, skipStreams);
            && r.outcome == Rejected(Coded(AssetNotFound))
            && r.log == Invocations(steps) + [Broadcast(a.spec, AssetNotFound, "asset not found")]
            && forall e :: e in r.log ==> !e.Transformed?
  {
    AllResolved(Params(a), skipMetadata, skipStreams, client);
  }
}
