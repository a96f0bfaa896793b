/**
 * The package entry point, index.js: `initialize` and `createClient` check
 * their options and build a client; `createLabelHandler` and
 * `createAssetHandler` are the older bus handlers, which take no override
 * credentials and send item specs without ids.
 */
module Provider {
  import opened Wrappers
  import opened JsValue
  import opened Outcomes
  import opened Pipeline
  import Client
  import LabelCollection

  const DefaultBaseUrl: string := "http://api.ooyala.com"
  const ProviderName: string := "ooyala-provider"
  const LabelSource: string := "ooyala-label-provider"
  const AssetSource: string := "ooyala-asset-provider"

  /** `Object.assign({}, DEFAULTS, options || {})`, keeping the one default
      that is a plain value. */
  function Merged(options: Value): Value
  {
    Assign([Obj(map["baseUrl" := Str(DefaultBaseUrl)]), Or(options, EmptyObject)])
  }

  /** `!x || typeof x !== 'object'` fails for the bus. */
  predicate IsObject(v: Value)
  {
    v.Obj? || v.Arr?
  }

  /** The patterns `initialize` registers a handler for, in order. */
  function HandlerPattern(source: string): Value
  {
    Obj(map["role" := Str("provider"), "cmd" := Str("get"), "source" := Str(source)])
  }

  /** What `initialize` resolves with: the provider's name, its client, and
      the patterns registered on the bus. */
  datatype Provider = Provider(name: string, client: Client.Config, registered: seq<Value>)

  /** The key checks shared by `initialize` and `createClient`. */
  function CheckKeys(merged: Value): (r: Result<Client.Config, Error>)
    ensures r.Ok? <==> IsNonEmptyString(Get(merged, "apiKey")) && IsNonEmptyString(Get(merged, "secretKey"))
    ensures !IsNonEmptyString(Get(merged, "apiKey")) ==> r == Err(Invalid("oddworks-ooyala-provider requires an Ooyala apiKey key"))
    ensures IsNonEmptyString(Get(merged, "apiKey")) && !IsNonEmptyString(Get(merged, "secretKey"))
            ==> r == Err(Invalid("oddworks-ooyala-provider requires an Ooyala secretKey key"))
    ensures r.Ok? ==> Client.Authenticated(r.value)
                      && r.value == Client.Config(Get(merged, "baseUrl"), Get(merged, "apiKey"), Get(merged, "secretKey"))
  {
    if !IsNonEmptyString(Get(merged, "apiKey")) then Err(Invalid("oddworks-ooyala-provider requires an Ooyala apiKey key"))
    else if !IsNonEmptyString(Get(merged, "secretKey")) then Err(Invalid("oddworks-ooyala-provider requires an Ooyala secretKey key"))
    else Ok(Client.Config(Get(merged, "baseUrl"), Get(merged, "apiKey"), Get(merged, "secretKey")))
  }

  /** `createClient(options)`: throws (`Err`) on a missing key; the bus is
      optional. */
  function CreateClient(options: Value): (r: Result<Client.Config, Error>)
    ensures r.Ok? <==> IsNonEmptyString(Get(Merged(options), "apiKey")) && IsNonEmptyString(Get(Merged(options), "secretKey"))
    ensures r.Ok? ==> Client.Authenticated(r.value) && r.value.baseUrl == Get(Merged(options), "baseUrl")
    ensures r.Err? ==> r.error.Invalid?
  {
    CheckKeys(Merged(options))
  }

  /** What `bus.queryHandler(pattern, handler)` does for each pattern:
      returns (`None`) or throws (`Some(error)`). A bus object without a
      callable `queryHandler` throws a `TypeError` for every pattern. */
  type QueryHandler = Value -> Option<Error>

  /** `initialize(options)`: the bus is checked first, then the keys; then
      the label handler and the asset handler are registered, in that order,
      and the promise resolves. A registration that throws makes
      `initialize` throw. */
  function Initialize(options: Value, queryHandler: QueryHandler): (r: Settled<Provider>)
    ensures !IsObject(Get(Merged(options), "bus")) ==> r == Threw(Invalid("oddworks-ooyala-provider requires an Oddcast Bus"))
    ensures IsObject(Get(Merged(options), "bus")) && CheckKeys(Merged(options)).Err? ==> r == Threw(CheckKeys(Merged(options)).error)
    ensures IsObject(Get(Merged(options), "bus")) && CheckKeys(Merged(options)).Ok?
            && queryHandler(HandlerPattern(LabelSource)).Some?
            ==> r == Threw(queryHandler(HandlerPattern(LabelSource)).value)
    ensures IsObject(Get(Merged(options), "bus")) && CheckKeys(Merged(options)).Ok?
            && queryHandler(HandlerPattern(LabelSource)).None? && queryHandler(HandlerPattern(AssetSource)).Some?
            ==> r == Threw(queryHandler(HandlerPattern(AssetSource)).value)
    ensures r.Resolved? <==>
              && IsObject(Get(Merged(options), "bus")) && CheckKeys(Merged(options)).Ok?
              && queryHandler(HandlerPattern(LabelSource)).None? && queryHandler(HandlerPattern(AssetSource)).None?
    ensures r.Resolved? ==>
              && r.value.name == ProviderName
              && Client.Authenticated(r.value.client)
              && r.value.registered == [HandlerPattern(LabelSource), HandlerPattern(AssetSource)]
  {
    var merged := Merged(options);
    if !IsObject(Get(merged, "bus")) then Threw(Invalid("oddworks-ooyala-provider requires an Oddcast Bus"))
    else match CheckKeys(merged)
      case Err(e) => Threw(e)
      case Ok(config) =>
        match queryHandler(HandlerPattern(LabelSource))
        case Some(e) => Threw(e)
        case None =>
          match queryHandler(HandlerPattern(AssetSource))
          case Some(e) => Threw(e)
          case None => Resolved(Provider(ProviderName, config, [HandlerPattern(LabelSource), HandlerPattern(AssetSource)]))
  }

  /** With a bus, `initialize` fails exactly as `createClient` does on the
      keys; with valid keys it resolves, with the client `createClient`
      builds, exactly when the bus accepts both registrations. */
  lemma InitializeAgreesWithCreateClient(options: Value, queryHandler: QueryHandler)
    requires IsObject(Get(Merged(options), "bus"))
    ensures CreateClient(options).Err? ==> Initialize(options, queryHandler) == Threw(CreateClient(options).error)
    ensures Initialize(options, queryHandler).Resolved? <==>
              CreateClient(options).Ok?
              && queryHandler(HandlerPattern(LabelSource)).None? && queryHandler(HandlerPattern(AssetSource)).None?
    ensures Initialize(options, queryHandler).Resolved? ==>
              Initialize(options, queryHandler).value.client == CreateClient(options).value
  {
  }

  /** A bus object without a `queryHandler` method, such as `{}`, passes the
      bus check but makes `initialize` throw a `TypeError` at the first
      registration, even with valid keys. */
  lemma BusWithoutQueryHandler(apiKey: string, secretKey: string)
    requires |apiKey| > 0 && |secretKey| > 0
    ensures var options := Obj(map["bus" := EmptyObject, "apiKey" := Str(apiKey), "secretKey" := Str(secretKey)]);
            Initialize(options, pattern => Some(TypeError)) == Threw(TypeError)
  {
    var options := Obj(map["bus" := EmptyObject, "apiKey" := Str(apiKey), "secretKey" := Str(secretKey)]);
    OptionReachesChecks(options, "bus");
    OptionReachesChecks(options, "apiKey");
    OptionReachesChecks(options, "secretKey");
  }

  /** `createClient` needs no bus where `initialize` insists on one. */
  lemma CreateClientWithoutBus(apiKey: string, secretKey: string, queryHandler: QueryHandler)
    requires |apiKey| > 0 && |secretKey| > 0
    ensures var options := Obj(map["apiKey" := Str(apiKey), "secretKey" := Str(secretKey)]);
            && CreateClient(options) == Ok(Client.Config(Str(DefaultBaseUrl), Str(apiKey), Str(secretKey)))
            && Initialize(options, queryHandler) == Threw(Invalid("oddworks-ooyala-provider requires an Oddcast Bus"))
  {
    var options := Obj(map["apiKey" := Str(apiKey), "secretKey" := Str(secretKey)]);
    BaseUrlDefault(options);
    OptionReachesChecks(options, "apiKey");
    OptionReachesChecks(options, "secretKey");
    MergedHasNoBus(options);
  }

  /** Options without a `bus` leave the merged options without one. */
  lemma MergedHasNoBus(options: Value)
    requires options.Obj? && "bus" !in options.fields
    ensures Get(Merged(options), "bus") == Undefined
  {
    AssignMissing([Obj(map["baseUrl" := Str(DefaultBaseUrl)]), options], "bus");
  }

  /** Without a `baseUrl` option the client talks to the public Backlot
      API; a given one wins. */
  lemma BaseUrlDefault(options: Value)
    requires options.Obj?
    ensures "baseUrl" !in options.fields ==> Get(Merged(options), "baseUrl") == Str(DefaultBaseUrl)
    ensures "baseUrl" in options.fields ==> Get(Merged(options), "baseUrl") == options.fields["baseUrl"]
  {
    var sources := [Obj(map["baseUrl" := Str(DefaultBaseUrl)]), options];
    assert OwnProps(sources[0]) == map["baseUrl" := Str(DefaultBaseUrl)];
    if "baseUrl" in options.fields {
      AssignPicksLast(sources, "baseUrl", 1);
    } else {
      AssignPicksLast(sources, "baseUrl", 0);
    }
  }

  /** A property given in the options reaches the checks unchanged. */
  lemma OptionReachesChecks(options: Value, key: string)
    requires options.Obj? && key in options.fields
    ensures Get(Merged(options), key) == options.fields[key]
  {
    AssignPicksLast([Obj(map["baseUrl" := Str(DefaultBaseUrl)]), options], key, 1);
  }

  // ------------------------------------------------------- the label handler

  /** `(spec.label || {}).id`. */
  function LabelId(spec: Value): Value
  {
    Get(Or(Get(spec, "label"), EmptyObject), "id")
  }

  /** The handler registered for `ooyala-label-provider`. It reads
      `args.spec` and `args.object` (the collection). */
  function LabelHandler(spec: Value, target: Value, client: Pipeline.Client, ack: Ack, transform: Transform): (r: Run<Value>)
    ensures !Dereferenceable(spec) ==> r == Run([], Threw(TypeError))
    ensures Dereferenceable(spec) && !IsNonEmptyString(LabelId(spec))
            ==> r == Run([], Threw(Invalid("ooyala-label-provider spec.label.id String is required")))
    ensures forall e :: e in r.log && e.Requested? ==> e.call.args == Obj(map["labelId" := LabelId(spec)])
  {
    if !Dereferenceable(spec) then Run([], Threw(TypeError))
    else if !IsNonEmptyString(LabelId(spec)) then Run([], Threw(Invalid("ooyala-label-provider spec.label.id String is required")))
    else
      var params := Obj(map["labelId" := LabelId(spec)]);
      var first := Call(GetLabel, params);
      match client(first)
      case Threw(e) => Run([Requested(first)], Threw(e))
      case Rejected(e) => Run([Requested(first)], Rejected(e))
      case Resolved(found) =>
        if !Truthy(found) then Run([Requested(first), NotFound(spec, LabelNotFound)], Rejected(Coded(LabelNotFound)))
        else
          var collection := Assign([target, transform(spec, found)]);
          var rest := LabelCollection.AfterLabel(collection, Get(spec, "channel"), params, true, client, ack);
          Run([Requested(first), Transformed(spec, found)] + rest.log, rest.outcome)
  }

  /** The label handler throws before doing anything exactly when the spec
      has no string `label.id`. */
  lemma LabelHandlerValidates(spec: Value, target: Value, client: Pipeline.Client, ack: Ack, transform: Transform)
    requires Dereferenceable(spec)
    ensures var r := LabelHandler(spec, target, client, ack, transform);
            (r.outcome.Threw? && r.log == []) <==> !IsNonEmptyString(LabelId(spec))
  {
  }

  /** A missing label: one broadcast and a `LABEL_NOT_FOUND` rejection. */
  lemma LabelHandlerNotFound(spec: Value, target: Value, client: Pipeline.Client, ack: Ack, transform: Transform)
    requires Dereferenceable(spec) && IsNonEmptyString(LabelId(spec))
    requires var c := client(Call(GetLabel, Obj(map["labelId" := LabelId(spec)])));
             c.Resolved? && !Truthy(c.value)
    ensures LabelHandler(spec, target, client, ack, transform)
            == Run([Requested(Call(GetLabel, Obj(map["labelId" := LabelId(spec)]))), Broadcast(spec, LabelNotFound, "label not found")],
                   Rejected(Coded(LabelNotFound)))
  {
  }

  /** With assets (by `assets && assets.length`), one id-less `videoSpec`
      per asset is sent, carrying the spec's `channel`, and child labels are
      ignored. */
  lemma LabelHandlerSendsAssets(spec: Value, target: Value, client: Pipeline.Client, ack: Ack, transform: Transform, assets: seq<Value>)
    requires Dereferenceable(spec) && IsNonEmptyString(LabelId(spec))
    requires var params := Obj(map["labelId" := LabelId(spec)]);
             && client(Call(GetLabel, params)).Resolved? && Truthy(client(Call(GetLabel, params)).value)
             && client(Call(GetAssetsByLabel, params)) == Resolved(Arr(assets)) && |assets| > 0
             && client(Call(GetChildLabels, params)).Resolved?
    ensures var r := LabelHandler(spec, target, client, ack, transform);
            && |r.log| == 4 + |assets|
            && forall i :: 0 <= i < |assets| ==>
                 var sent := r.log[4 + i];
                 && sent.SentSpec? && sent.itemSpec.Obj? && "id" !in sent.itemSpec.fields
                 && Get(sent.itemSpec, "channel") == Get(spec, "channel")
                 && Get(sent.itemSpec, "type") == Str("videoSpec")
                 && Get(sent.itemSpec, "asset") == assets[i]
  {
    var params := Obj(map["labelId" := LabelId(spec)]);
    var found := client(Call(GetLabel, params)).value;
    var collection := Assign([target, transform(spec, found)]);
    var channel := Get(spec, "channel");
    LabelCollection.LegacyAssetsPreferred(collection, channel, params, client, ack, assets);
    var fan := FanOut(assets, LegacyVideos(channel), ack);
    LegacyVideosSent(assets, channel, ack);
    LabelHandlerFound(spec, target, client, ack, transform);
    var log := [Requested(Call(GetLabel, params)), Transformed(spec, found)] + (LabelCollection.ListsHead(params) + fan.log);
    assert LabelHandler(spec, target, client, ack, transform).log == log;
    assert forall i :: 0 <= i < |assets| ==> log[4 + i] == fan.log[i];
  }

  /** A label found: the handler continues with the transformed collection. */
  lemma LabelHandlerFound(spec: Value, target: Value, client: Pipeline.Client, ack: Ack, transform: Transform)
    requires Dereferenceable(spec) && IsNonEmptyString(LabelId(spec))
    requires var c := client(Call(GetLabel, Obj(map["labelId" := LabelId(spec)])));
             c.Resolved? && Truthy(c.value)
    ensures var params := Obj(map["labelId" := LabelId(spec)]);
            var found := client(Call(GetLabel, params)).value;
            var rest := LabelCollection.AfterLabel(Assign([target, transform(spec, found)]), Get(spec, "channel"), params, true, client, ack);
            LabelHandler(spec, target, client, ack, transform)
            == Run([Requested(Call(GetLabel, params)), Transformed(spec, found)] + rest.log, rest.outcome)
  {
  }

  // ------------------------------------------------------- the asset handler

  /** The handler registered for `ooyala-asset-provider`: `getAsset` with
      the spec's asset id, then the transform of the spec and the asset. */
  function AssetHandler(spec: Value, client: Pipeline.Client, transform: Transform): (r: Run<Value>)
    ensures !Dereferenceable(spec) ==> r == Run([], Threw(TypeError))
    ensures Dereferenceable(spec) && !IsNonEmptyString(SpecAssetId(spec))
            ==> r == Run([], Threw(Invalid("ooyala-asset-provider spec.asset.id String is not available")))
    ensures r.outcome.Resolved? ==>
              var found := client(Call(GetAsset, Obj(map["assetId" := SpecAssetId(spec)])));
              && found.Resolved? && Truthy(found.value)
              && r == Run([Requested(Call(GetAsset, Obj(map["assetId" := SpecAssetId(spec)]))), Transformed(spec, found.value)],
                          Resolved(transform(spec, found.value)))
    ensures r.outcome == Rejected(Coded(AssetNotFound)) ==>
              r.log == [Requested(Call(GetAsset, Obj(map["assetId" := SpecAssetId(spec)]))), Broadcast(spec, AssetNotFound, "asset not found")]
              || client(Call(GetAsset, Obj(map["assetId" := SpecAssetId(spec)]))) == Rejected(Coded(AssetNotFound))
    ensures Dereferenceable(spec) && IsNonEmptyString(SpecAssetId(spec)) ==>
              var first := Call(GetAsset, Obj(map["assetId" := SpecAssetId(spec)]));
              var found := client(first);
              && (found.Resolved? && Truthy(found.value) ==>
                    r == Run([Requested(first), Transformed(spec, found.value)], Resolved(transform(spec, found.value))))
              && (found.Threw? ==> r == Run([Requested(first)], Threw(found.error)))
              && (found.Rejected? ==> r == Run([Requested(first)], Rejected(found.error)))
  {
    if !Dereferenceable(spec) then Run([], Threw(TypeError))
    else if !IsNonEmptyString(SpecAssetId(spec)) then Run([], Threw(Invalid("ooyala-asset-provider spec.asset.id String is not available")))
    else
      var first := Call(GetAsset, Obj(map["assetId" := SpecAssetId(spec)]));
      match client(first)
      case Threw(e) => Run([Requested(first)], Threw(e))
      case Rejected(e) => Run([Requested(first)], Rejected(e))
      case Resolved(found) =>
        if Truthy(found) then Run([Requested(first), Transformed(spec, found)], Resolved(transform(spec, found)))
        else Run([Requested(first), NotFound(spec, AssetNotFound)], Rejected(Coded(AssetNotFound)))
  }

  /** A missing asset is reported once and rejects with `ASSET_NOT_FOUND`;
      the transform is not applied. */
  lemma AssetHandlerNotFound(spec: Value, client: Pipeline.Client, transform: Transform)
    requires Dereferenceable(spec) && IsNonEmptyString(SpecAssetId(spec))
    requires var c := client(Call(GetAsset, Obj(map["assetId" := SpecAssetId(spec)])));
             c.Resolved? && !Truthy(c.value)
    ensures var r := AssetHandler(spec, client, transform);
            && r.outcome == Rejected(Coded(AssetNotFound))
            && r.log == [Requested(Call(GetAsset, Obj(map["assetId" := SpecAssetId(spec)]))), Broadcast(spec, AssetNotFound, "asset not found")]
  {
  }
}
