# Ooyala provider for Oddworks, modelled in Dafny

This project models the Ooyala provider of the Oddworks content server. The
provider is a plug-in that answers Oddworks' bus queries for collections and
videos. It fetches labels, assets and discovery lists from Ooyala's Backlot
REST API and casts them into Oddworks entities. It covers:

- **`Provider`** (index.js): the entry points.
  - `initialize` checks the bus and the keys, then registers the label and
    asset handlers.
  - `createClient` checks only the keys.
  - The label handler fetches a label, its assets and its child labels. It
    sends one item spec per asset (or per child label) over the bus and
    attaches the resulting relationships to the collection.
  - The asset handler fetches one asset and transforms it.
- **`Client`, `Signing`, `Query`** (lib/client.js): the Backlot client.
  - Every getter builds a request path. `makeRequest` picks per-call or
    client credentials, signs the `{api_key, expires}` query, and hands the
    request to the transport.
  - `Client.request` settles the promise from the reply.
  - The signature is the SHA-256 digest of
    `secret + method + path + canonical query`, in base 64, cut to 43
    characters, without trailing `=`.
  - The canonical query is the query pairs, sorted by JavaScript's default
    `sort()` and joined.
- **`LabelCollection`** (lib/fetch-label-collection.js), **`BacklotAsset`**
  (lib/fetch-backlot-asset.js) and **`Discovery`**
  (lib/fetch-similar-collection.js, lib/fetch-trending-collection.js,
  lib/fetch-popular-collection.js): the newer handlers, which take
  per-channel credentials.
- **`Pipeline`**: the machinery these handlers share:
  - credential selection;
  - `Promise.all` over client calls;
  - the item specs sent over the bus;
  - the relationship list attached to a collection.
- **`PlayableUrl`** (lib/fetch-playable-url.js): asks the player
  authorization API for an embed code's streams. It base 64 decodes the
  first stream's URL (**`Base64`**) and swaps `player/iphone` for
  `player/appletv`.
- **`Transforms`** (lib/default-asset-transform.js,
  lib/default-collection-transform.js): the default casts from Backlot
  entities to Oddworks videos and collections.
- **`ChannelCache`** (lib/create-channel-cache.js): an in-memory cache of
  channels fetched from the store, with a time to live.

**Supporting modules**

- **`JsValue`** models JavaScript values and the parts of their semantics
  the code relies on:
  - truthiness and `||`;
  - property reads, which give `undefined` off primitives and arrays
    (index keys are not modelled) and throw on `null`/`undefined`;
  - `Object.assign`;
  - template-literal stringification.
- **`Outcomes`** models how a call ends:
  - it resolves, rejects, or throws synchronously;
  - errors carry Oddworks' `code`s.
- **`Text`** holds the string helpers: JavaScript's code-unit order, decimal
  rendering, suffix stripping and first-match replacement.

**Modelling approach**

- The outside world is a set of parameters:
  - the Backlot API (a `client` function from calls to outcomes);
  - the bus's command acknowledgements (`ack`);
  - the transforms;
  - the HTTP transport and `JSON.parse`;
  - the SHA-256 digest;
  - the store, and the clock.
- A handler is a pure function. It returns the log of observable events
  (client requests, transform applications, item specs sent, error
  broadcasts) and how its promise settles.

**Where the model follows the code rather than the documentation**

- Requests are not queued, and a 429 reply is not retried.
- The query is sorted by the text `key,value`, not by key alone.
- `fetchAsset` does not look up playable URLs.
- `Client.request` resolves with a parsable JSON body even when the status
  is not 200. Its `resolve` runs before the status is looked at, so the
  later rejection has no effect (`Client.ErrorStatusWithJsonResolves`).
- The channel cache's eviction timer is 30 seconds, not 300 (see
  "Findings").

## Model

| member | source | states |
|---|---|---|
| Provider.CheckKeys | index.js:33-38 | succeeds exactly when `apiKey` and `secretKey` are non-empty strings; otherwise fails with the apiKey message first, then the secretKey message; on success the client is authenticated and carries the merged base URL and keys |
| Provider.CreateClient | index.js:191-207 | `createClient` succeeds exactly when both merged keys are non-empty strings; the client it builds is authenticated and uses the merged `baseUrl`; every failure is a thrown validation error |
| Provider.Initialize | index.js:20-59 | throws the bus error when the merged `bus` is not an object, then the key errors in order, then whatever `bus.queryHandler` throws for the label pattern, then for the asset pattern; resolves exactly when all of these pass, with the name `ooyala-provider`, an authenticated client, and the label then asset handler registered |
| Provider.InitializeAgreesWithCreateClient | index.js:20-59 | given a bus, `initialize` throws the same error as `createClient` when the keys fail, resolves exactly when `createClient` succeeds and the bus accepts both registrations, and then resolves with the same client |
| Provider.BusWithoutQueryHandler | index.js:30-53 | a bus object without `queryHandler` passes the bus check, but `initialize` then throws a TypeError at the first registration |
| Provider.CreateClientWithoutBus | index.js:187-207 | the bus is optional for `createClient` (which then uses the default base URL) but required by `initialize` |
| Provider.BaseUrlDefault | index.js:8-24 | without a `baseUrl` option the client uses `http://api.ooyala.com`; a given one wins |
| Provider.OptionReachesChecks | index.js:21-26 | options given by the caller override the defaults in the merged options |
| Provider.MergedHasNoBus | index.js:21-23 | the defaults supply no bus |
| Provider.LabelHandler | index.js:61-150 | throws a TypeError for a nullish spec, throws the `spec.label.id` error before any request when the label id is not a non-empty string, and passes only `{labelId}` to every client call |
| Provider.LabelHandlerValidates | index.js:65-74 | the handler throws with an empty log exactly when the label id is missing or not a non-empty string |
| Provider.LabelHandlerNotFound | index.js:80-106 | a missing label is broadcast once with the spec and code `LABEL_NOT_FOUND`, and the promise rejects with that code |
| Provider.LabelHandlerFound | index.js:80-91 | a found label is transformed with the spec and merged over `args.object`, and the assets and child labels are fetched with the same `{labelId}` |
| Provider.LabelHandlerSendsAssets | index.js:108-120 | when the label has assets, one id-less `videoSpec` carrying the spec's `channel` is sent per asset, in order, after the four opening events |
| Provider.AssetHandler | index.js:152-185 | throws on a nullish spec or a missing `external_id \|\| embed_code`; after exactly one request, a truthy asset resolves with `transform(spec, asset)`, and it resolves only that way; a throw or rejection of `getAsset` is passed on; an `ASSET_NOT_FOUND` rejection comes from the not-found branch |
| Provider.AssetHandlerNotFound | index.js:167-183 | a missing asset is broadcast once and rejects with `ASSET_NOT_FOUND`; the transform is not applied |
| Client.MakeRequest | lib/client.js:107-132 | per-call keys fall back to the client's; the request succeeds exactly when both are non-empty strings, else throws the apiKey message, then the secretKey one; a `GET` of `baseUrl + path` whose query is `{api_key, expires}` followed by the signature of that query |
| Client.BuildRequest | lib/client.js:43-102 | every getter but `getLabels` throws its own message for a missing id, before any key check |
| Client.GetterRequest | lib/client.js:32-132 | a getter throws exactly when its id is missing or a key is not a non-empty string (per-call keys fall back to the client's own, and `getAssetStreams` uses only the client's own); otherwise it sends a GET to `<baseUrl>/v2/...` for that id, with the key first and the signature last |
| Client.GetterSettles | lib/client.js:32-77 | once the request is sent: a 404 makes the list getters reject with a TypeError (they read `items` of `null`) and the others resolve with `null`; an object reply gives the list getters its `items` and the others the object itself; other failures reject as the reply classification says |
| Client.Call | lib/client.js:43-132 | a getter throws synchronously exactly when its checks fail |
| Client.CanonicalBaseQuery | lib/client.js:121-126 | the signed query canonicalises to `api_key=<key>expires=<expires>` |
| Client.ExpiresValue | lib/client.js:123 | `expires` reads as 60 plus the current whole second |
| Client.AuthenticatedClientSigns | lib/client.js:107-138 | an authenticated client can sign without per-call keys and sends its own key |
| Client.PerCallKeysWin | lib/client.js:111-112 | a per-call key takes precedence and is the one signed; the other key falls back on its own |
| Client.AssetStreamsUsesClientKeys | lib/client.js:95-102 | `getAssetStreams` ignores the credentials it is called with |
| Client.GetterUrl | lib/client.js:43-102 | a getter with a valid id requests `<baseUrl>/v2/...` with that id in its path |
| Client.RespondResolves | lib/client.js:140-179 | a reply resolves exactly on a 404 (with `null`) or on a JSON content type with a parsable string body (with the parsed value) |
| Client.RespondRejects | lib/client.js:151-170 | the rejections by cause: not JSON, an empty JSON body, unparsable JSON |
| Client.ErrorStatusWithJsonResolves | lib/client.js:153-176 | a 500 with a parsable JSON body resolves with the body |
| Signing.Signature | lib/client.js:185-193 | the signature is a prefix of the digest text of at most 43 characters, does not end in `=`, and only `=` characters were cut from it |
| Signing.SignatureOfDigestText | lib/client.js:190-192 | for a 44-character base 64 SHA-256 digest, the signature is its first 43 characters |
| Signing.SignatureOrderIndependent | lib/client.js:185-204 | the same query parameters in any order sign the same, when no key contains a comma |
| Query.Insert | lib/client.js:200 | inserting keeps the list sorted and adds exactly the new element |
| Query.Sort | lib/client.js:200 | the default sort yields a sorted permutation of the pairs |
| Query.CanonicalEmpty | lib/client.js:195-196 | an absent or empty query canonicalises to the empty string |
| Query.SortedUnique | lib/client.js:200 | two sorted lists with the same elements and distinct sort keys are equal |
| Query.SortKeyInjective | lib/client.js:196-200 | pairs whose keys have no comma and compare equal are equal |
| Query.CanonicalOrderIndependent | lib/client.js:195-204 | the canonical string does not depend on insertion order when no key contains a comma |
| Query.SortTied | lib/client.js:200-203 | tied pairs keep their arrival order |
| Query.CommaKeysOrderDependent | lib/client.js:195-204 | with a comma in a key, two insertion orders canonicalise differently |
| Pipeline.SelectCreds | lib/fetch-label-collection.js:11-15 | override credentials are taken exactly when both secrets are truthy, and are those secrets |
| Pipeline.WithCreds | lib/fetch-label-collection.js:18 | the call argument has the base fields plus the credential fields |
| Pipeline.CredsBothOrNothing | lib/fetch-label-collection.js:11-18 | both keys reach the client or neither does, and the base fields are kept |
| Pipeline.Invocations | lib/fetch-backlot-asset.js:23-27 | every logged event is a request for one of the promise array's client steps |
| Pipeline.CallAll | lib/fetch-backlot-asset.js:23-29 | `Promise.all` throws exactly when a call throws; resolves exactly when every step resolves, with the values in order; otherwise rejects with the first rejection |
| Pipeline.VideoSpec | lib/fetch-label-collection.js:54-66 | a video item spec exists exactly for a non-nullish asset, carries the channel id, type, source and asset, and has id `spec-ooyala-<external_id \|\| embed_code>` exactly when that value is truthy |
| Pipeline.CollectionSpec | lib/fetch-label-collection.js:71-80 | a collection item spec carries the channel id, type, `spec-ooyala-label-<id>` and the label |
| Pipeline.LegacySpecsHaveNoId | index.js:115-129 | the index.js handler's item specs never fail to build, have no `id`, and carry the spec's own `channel` |
| Pipeline.BuildPrefix | lib/fetch-label-collection.js:54 | `map` builds specs up to the first element whose spec throws |
| Pipeline.Acknowledge | lib/fetch-label-collection.js:54-67 | the acknowledgements, in order, when all succeed; otherwise the first failure |
| Pipeline.FanOut | lib/fetch-label-collection.js:50-67 | every built spec is sent in list order; an unbuildable element rejects with a TypeError and nothing after it is sent; otherwise it resolves exactly when every acknowledgement succeeds, or rejects with the first failure; it never throws |
| Pipeline.LegacyVideosSent | index.js:112-120 | the index.js handler sends one id-less `videoSpec` per asset, in order, with the channel |
| Pipeline.ListFanOut | lib/fetch-label-collection.js:50-71 | something is sent only for an array, and never more than its items; it resolves only for an array, with one acknowledgement per item; a list that is not an array cannot be mapped, sends nothing and rejects with a TypeError; it never throws |
| Pipeline.HasEntriesConverts | lib/fetch-label-collection.js:50 | `list.length > 0` converts a `length` that is not a number: the text of a number passes exactly when the number is positive, `true` passes, and `false`, a plain object and other text fail |
| JsValue.NumberTextRoundTrip | lib/fetch-label-collection.js:50 | the text of any integer converts back to that integer when compared with a number |
| Pipeline.Relationship | lib/fetch-label-collection.js:91-96 | a relationship is `{type, id}`, with the type less a trailing `Spec` and the id taken from `resource`; an acknowledgement without a string type throws |
| Pipeline.RelationshipTypes | lib/fetch-label-collection.js:93 | `videoSpec` and `collectionSpec` acknowledgements give `video` and `collection` relationships |
| Pipeline.Relationships | lib/fetch-label-collection.js:91-96 | one relationship per acknowledgement, in order, when every acknowledgement has a string type |
| Pipeline.AttachRelationships | lib/fetch-label-collection.js:86-99 | succeeds exactly on an object collection whose relationships are an object or absent; sets `relationships.entities` and keeps every other property |
| Pipeline.Finish | lib/fetch-label-collection.js:86-100 | the handler resolves with the attached collection exactly when the fan-out resolves and attaching succeeds; otherwise it rejects with the fan-out's error |
| Pipeline.NothingSentNoRelationships | lib/fetch-label-collection.js:84-99 | nothing sent gives an empty `entities.data` |
| Pipeline.FinishAcked | lib/fetch-label-collection.js:50-100 | when every spec is built and acknowledged, every item is sent in order and the collection lists one relationship per item, in order, keeping its other properties |
| LabelCollection.ChooseFanOut | lib/fetch-label-collection.js:50-84 | only item specs are sent, and choosing a list never throws |
| LabelCollection.AfterLabel | lib/fetch-label-collection.js:26-100 | after a found label, the only events are list requests with the label's arguments and sent specs |
| LabelCollection.FetchLabelCollection | lib/fetch-label-collection.js:4-101 | throws with an empty log exactly for a nullish channel, and any other throw comes from `getLabel`; otherwise it first requests the label, and every call gets the same arguments |
| LabelCollection.CredentialsOnEveryCall | lib/fetch-label-collection.js:11-28 | every call gets the label id and the channel's override keys, both or neither |
| LabelCollection.NotFoundPath | lib/fetch-label-collection.js:31-44 | a missing label gives one broadcast and a `LABEL_NOT_FOUND` rejection, and nothing else is fetched or sent |
| LabelCollection.ListsFetched | lib/fetch-label-collection.js:26-29 | assets are requested before child labels |
| LabelCollection.BothFetched | lib/fetch-label-collection.js:26-29 | the two lists come back in call order |
| LabelCollection.AssetsPreferred | lib/fetch-label-collection.js:50-67 | with assets, one `videoSpec` per asset is sent and the children are ignored |
| LabelCollection.LegacyAssetsPreferred | index.js:108-120 | the index.js variant: with assets, one legacy `videoSpec` per asset |
| LabelCollection.ChildrenWhenNoAssets | lib/fetch-label-collection.js:68-81 | when the assets fail the length test (with the length converted as `>` converts it), one `collectionSpec` per child label |
| LabelCollection.NeitherAssetsNorChildren | lib/fetch-label-collection.js:84-99 | when both lists fail the length test, nothing is sent and the relationship list is empty |
| LabelCollection.NonArrayListRejects | lib/fetch-label-collection.js:46-83 | a list chosen by the length test that is not an array (such as `{length: '2'}`) rejects with a TypeError and nothing is sent |
| LabelCollection.FoundPath | lib/fetch-label-collection.js:19-29 | a found label is transformed with the spec and merged over `args.collection` before the rest |
| LabelCollection.FoundLog | lib/fetch-label-collection.js:18-29 | the log opens with the label request, the transform and both list requests |
| LabelCollection.HappyPath | lib/fetch-label-collection.js:18-100 | on full success the collection is `args.collection` overlaid with the transformed label, with one relationship per asset in order |
| BacklotAsset.Skip | lib/fetch-backlot-asset.js:12-13 | a skip flag is the secret's or else the spec's; reading the spec throws only when the secret is falsy and the spec nullish |
| BacklotAsset.AttachExtras | lib/fetch-backlot-asset.js:35-37 | an object asset gets `meta` and `streams` (`[]` when falsy), keeping its other properties; a truthy non-object asset throws |
| BacklotAsset.Settle | lib/fetch-backlot-asset.js:29-52 | a falsy asset gives one broadcast and `ASSET_NOT_FOUND`; a found asset is transformed once with its extras |
| BacklotAsset.FetchAsset | lib/fetch-backlot-asset.js:6-53 | a nullish channel throws; every call gets the same argument object |
| BacklotAsset.CredentialsOnEveryCall | lib/fetch-backlot-asset.js:15-21 | every call gets the asset id and the override keys, both or neither |
| BacklotAsset.SkippedNeverRequested | lib/fetch-backlot-asset.js:23-27 | skipped metadata or streams are never requested |
| BacklotAsset.AllResolved | lib/fetch-backlot-asset.js:23-33 | the three results are the asset, the metadata or `{}`, and the streams or `[]` |
| BacklotAsset.FoundAsset | lib/fetch-backlot-asset.js:29-39 | a found asset is transformed once, with its extras attached, and the handler resolves with the result |
| BacklotAsset.MissingAsset | lib/fetch-backlot-asset.js:41-51 | a missing asset is broadcast once and rejects with `ASSET_NOT_FOUND`, without a transform |
| Discovery.Params | lib/fetch-similar-collection.js:12-19 | similar videos are requested by the spec's asset id; trending and popular lists only with credentials |
| Discovery.Named | lib/fetch-similar-collection.js:25 | the spec gets the id `spec-ooyala-discovery-similar-<assetId>` (or a fixed one for trending and popular) and keeps its other properties |
| Discovery.NameAlwaysGiven | lib/fetch-similar-collection.js:23-26 | the transform's `{name}` holds only the name, which is never empty: the spec's name or the kind's default |
| Discovery.WithResults | lib/fetch-similar-collection.js:20-82 | a spec that is not an object rejects with a TypeError before anything happens; only transforms and specs are logged |
| Discovery.Fetch | lib/fetch-similar-collection.js:4-83 | throws on a nullish channel; the one request is the first event |
| Discovery.CredentialsFromOoyalaSecrets | lib/fetch-similar-collection.js:7-16 | override keys come from `channel.secrets.ooyala`, both or neither |
| Discovery.CollectionIgnored | lib/fetch-similar-collection.js:4-8 | `args.collection` plays no part |
| Discovery.NotFoundPath | lib/fetch-similar-collection.js:30-41 | no results gives one broadcast and a rejection with the kind's code, without a transform |
| Discovery.NotFoundMessages | lib/fetch-trending-collection.js:28-36 | the codes and broadcast messages of the three kinds |
| Discovery.FoundPath | lib/fetch-similar-collection.js:20-29 | the transform receives the named spec and `{name}`; the results are fanned out as video specs |
| Discovery.HappyPath | lib/fetch-similar-collection.js:43-82 | on full success, one relationship per result, in order |
| Discovery.NoResults | lib/fetch-similar-collection.js:44-66 | results that fail the length test (missing, empty, or with a `length` that converts to at most zero or to `NaN`): nothing is sent and the relationships are empty |
| Discovery.NonArrayResultsReject | lib/fetch-similar-collection.js:44-66 | results that pass the length test without being an array (such as `{length: '2'}`) reject with a TypeError after the transform, and nothing is sent |
| Transforms.AssetComputed | lib/default-asset-transform.js:69-80 | the computed part of a video has exactly title, description, images, player and meta |
| Transforms.AssetTransform | lib/default-asset-transform.js:69-80 | succeeds exactly for a non-nullish asset, with an object holding the computed keys |
| Transforms.AssetTransformDescribes | lib/default-asset-transform.js:70-74 | title, description and 16:9 image are the asset's name, description and preview image |
| Transforms.AssetTransformPlayer | lib/default-asset-transform.js:75-79 | an Ooyala player with `embed_code \|\| external_id`, and the asset's meta or `{}` |
| Transforms.AssetTransformKeeps | lib/default-asset-transform.js:69 | every other property is the asset's, else the spec's |
| Transforms.CollectionTransform | lib/default-collection-transform.js:22-24 | succeeds exactly for a non-nullish label, with a `title` |
| Transforms.CollectionTransformTitle | lib/default-collection-transform.js:22-24 | the collection's title is the label's name |
| Transforms.CollectionTransformKeeps | lib/default-collection-transform.js:22 | every other property is the label's, else the spec's |
| Transforms.AssignUnder | lib/default-asset-transform.js:69 | `Object.assign` gives a property not set by the last source from the later of the earlier two |
| JsValue.AssignPicksLast | lib/default-collection-transform.js:22 | `Object.assign` takes each property from the last source that has it |
| JsValue.AssignMissing | lib/default-collection-transform.js:22 | a property no source has is absent |
| JsValue.SetField | lib/fetch-label-collection.js:87-90 | assigning a property sets it and leaves the others |
| PlayableUrl.ReadBody | lib/fetch-playable-url.js:49-76 | resolves exactly on a 200 whose string body (if any) parses; otherwise rejects on a transport error, a bad status or bad JSON |
| PlayableUrl.OnlyFirstStreamCounts | lib/fetch-playable-url.js:32-43 | only `streams[0]` decides the outcome: later streams never change it, and an empty list rejects with `STREAM_UNDEFINED` |
| PlayableUrl.SameStreamSameOutcome | lib/fetch-playable-url.js:31-46 | past the null check, two replies with the same first stream for the embed code settle alike |
| PlayableUrl.BufferText | lib/fetch-playable-url.js:42-43 | `new Buffer(data, 'base64')` throws a TypeError exactly when the data is not a string, an array or an array-like or serialized-buffer object; well-formed base 64 of ASCII text decodes to that text |
| PlayableUrl.Fetch | lib/fetch-playable-url.js:14-47 | throws exactly when `apiKey` or `embedCode` is falsy, with the apiKey message first |
| PlayableUrl.Playable | lib/fetch-playable-url.js:31-46 | never throws; a nullish body rejects with a TypeError; otherwise it rejects with `STREAM_UNDEFINED` exactly when there is no first stream with a non-empty URL, and past that test it resolves exactly when the `Buffer` constructor accepts the URL data, rejecting with a TypeError otherwise |
| PlayableUrl.NonBufferDataRejects | lib/fetch-playable-url.js:34-42 | truthy URL data that is neither a string nor array-like (`true`, a number, a plain object) passes the length test and then rejects with a TypeError |
| PlayableUrl.UrlRoundTrip | lib/fetch-playable-url.js:26-29 | the request URL names the key and embed code, which can be read back out |
| PlayableUrl.SplitUrlSound | lib/fetch-playable-url.js:26-29 | whatever reads back is the URL of those segments |
| PlayableUrl.SegmentsRoundTrip | lib/fetch-playable-url.js:28 | two segments between a fixed prefix and suffix read back when the first has no `/` |
| PlayableUrl.SegmentsSound | lib/fetch-playable-url.js:28 | read-back segments rebuild the URL |
| PlayableUrl.NoStream | lib/fetch-playable-url.js:31-40 | no entry or no streams for the embed code rejects with `STREAM_UNDEFINED` |
| PlayableUrl.AuthorizedStream | lib/fetch-playable-url.js:32 | the first stream of an authorization reply is found under the embed code |
| PlayableUrl.StreamDecodes | lib/fetch-playable-url.js:34-43 | an encoded non-empty URL counts as playable and decodes back to the URL |
| PlayableUrl.DecodesFirstStream | lib/fetch-playable-url.js:31-46 | an authorization reply resolves with the first stream's URL, with `player/iphone` swapped for `player/appletv` |
| PlayableUrl.AuthorizedFetch | lib/fetch-playable-url.js:14-46 | end to end: given both keys and a 200 authorization reply, the fetch resolves with the rewritten URL |
| PlayableUrl.KeysFetch | lib/fetch-playable-url.js:15-31 | with both keys and a 200 reply, the fetch continues with the reply's data |
| PlayableUrl.OtherUrlsUnchanged | lib/fetch-playable-url.js:45 | a URL without `player/iphone` is returned unchanged |
| Base64.DecodeEncode | lib/fetch-playable-url.js:42 | decoding the base 64 encoding of any bytes gives them back |
| Base64.EncodeDecode | lib/fetch-playable-url.js:42 | whatever decodes is the encoding of what it decodes to |
| Base64.EncodeInjective | lib/fetch-playable-url.js:42 | distinct byte strings encode differently |
| Base64.Encode | lib/fetch-playable-url.js:42 | the encoding has four characters per started group of three bytes, all alphabet symbols or `=` |
| Base64.Decode | lib/fetch-playable-url.js:42 | only text whose length is a multiple of four decodes |
| Text.LessTotal | lib/client.js:200 | the default sort's order is total on distinct strings |
| Text.LessTransitive | lib/client.js:200 | the order is transitive |
| Text.LessAsymmetric | lib/client.js:200 | the order is asymmetric |
| Text.DecimalRoundTrip | lib/client.js:123 | `toString()` of a count reads back as the count |
| Text.DecimalInjective | lib/client.js:123 | distinct counts render differently |
| Text.StripSuffix | lib/fetch-label-collection.js:93 | `replace(/Spec$/, '')` removes a trailing suffix and otherwise leaves the text |
| Text.StripSuffixOfAppended | lib/fetch-label-collection.js:93 | stripping an appended suffix gives the text back |
| Text.TrimTrailing | lib/client.js:192 | `replace(/[=]+$/, '')` leaves a prefix not ending in `=` and removes only `=` characters |
| Text.ReplaceFirst | lib/fetch-playable-url.js:45 | a non-global `replace` rewrites the first occurrence and leaves text without one unchanged |
| Text.IndexOfFinds | lib/fetch-playable-url.js:28 | the index found holds the character and nothing before it does |
| ChannelCache.Empty | lib/create-channel-cache.js:8 | a fresh cache holds nothing |
| ChannelCache.LookupRemember | lib/create-channel-cache.js:12-19 | after a channel is remembered it is served under its own id when truthy, and every other id reads as before |
| ChannelCache.LookupAfterTick | lib/create-channel-cache.js:12-22 | eviction only removes: what a tick leaves is served as before, and nothing new appears |
| ChannelCache.Remember | lib/create-channel-cache.js:17-22 | stores the channel under its own id and schedules one deletion of that key |
| ChannelCache.GetWithDelay | lib/create-channel-cache.js:11-25 | a hit answers from memory without a query; a miss sends one `{id}` query; a failed query leaves the cache unchanged; a fetched channel is remembered |
| ChannelCache.GetChannel | lib/create-channel-cache.js:11-25 | as written: a hit changes nothing, a failed query caches nothing, every entry stays covered by a pending deletion, and a fetched channel's deletion is due `TTL_IN_SECONDS * 100` ms (30 seconds) after the fetch |
| ChannelCache.GetChannelIntended | lib/create-channel-cache.js:5-25 | the corrected variant (see "Findings"): the same, with the deletion due 300 seconds after the fetch |
| ChannelCache.Pending | lib/create-channel-cache.js:20-22 | exactly the timers not yet due stay pending |
| ChannelCache.Tick | lib/create-channel-cache.js:20-22 | due timers delete their keys; other entries keep their values |
| ChannelCache.TickValid | lib/create-channel-cache.js:17-22 | firing timers keeps every entry covered by a timer |
| ChannelCache.TickEvicts | lib/create-channel-cache.js:20-22 | a key is deleted exactly when one of its timers is due |
| ChannelCache.HitIsLocal | lib/create-channel-cache.js:12-14 | a truthy entry is served without a query and without changing the cache |
| ChannelCache.FetchThenHit | lib/create-channel-cache.js:12-17 | a fetched channel is served from memory when asked again |
| ChannelCache.StoredUnderOwnId | lib/create-channel-cache.js:16-17 | a channel is stored under the id it reports |
| ChannelCache.FailureCachesNothing | lib/create-channel-cache.js:16-25 | a failed query caches nothing and settles as the query did |
| ChannelCache.Lifetime | lib/create-channel-cache.js:16-22 | for any eviction delay, a fetched channel is served at every tick before the fetch time plus the delay and is gone from then on |
| ChannelCache.ServedForTtl | lib/create-channel-cache.js:5-22 | the corrected variant (see "Findings"): a fetched channel is served until 300000 ms after the fetch and is gone from then on |
| ChannelCache.EvictedAfterThirtySeconds | lib/create-channel-cache.js:5-22 | as written: a fetched channel is served until 30000 ms after the fetch, which is before the 300 seconds the constant names, and is gone from then on |

## Left out

- I/O and timing are left out. The HTTP transport, the bus, the store, the
  clock and SHA-256 are parameters. Promise callbacks are ordered as the code
  chains them. The sends of one `Promise.all` are logged in list order.
- Numbers are integers: floating point is not modelled. The only arithmetic
  is `expires` (a whole-second count) and `length` tests.
- Text.Less compares characters, not UTF-16 code units: strings outside the
  Basic Multilingual Plane are not modelled.
- BacklotAsset.AttachExtras and `JsValue.SetField` treat only plain
  objects as objects. Setting a property on an array, which JavaScript
  allows, is modelled as a TypeError.
- JsValue.ToNumber converts text to a number only when it is empty or
  holds decimal digits after an optional sign. JavaScript also trims
  white space and reads fractions, exponents, hexadecimal and `Infinity`.
  The model reads all of these as `NaN`. This affects the length tests
  `list.length > 0` and `(url.data || '').length < 1`. Objects are always
  `NaN`; a custom `valueOf` cannot occur in parsed JSON.
- PlayableUrl.BufferText: for a string, Node's `Buffer` skips malformed
  base 64 and decodes the bytes as UTF-8. Only well-formed base 64 of ASCII
  text is modelled exactly. Other strings, and arrays and array-like
  objects, go to a `lenient` parameter. Refused data is modelled as a
  TypeError; older Node versions throw a plain Error for a number.
- Mutations of the caller's objects are not modelled. These are:
  - `spec.id` in the discovery handlers;
  - `args.path` in the getters;
  - the caller's own `relationships` object. `Object.assign({}, collection,
    ...)` copies only the top level, so `collection.relationships.entities
    = ...` writes into `args.collection.relationships` (or
    `args.object.relationships` in index.js) unless the transform replaced
    it.
  The model returns new values instead.
- JsValue.Get reads no property of an array or a string, so index keys
  such as `"0"` give `undefined`. An `authorization_data` array indexed by
  an embed code such as `"0"` is therefore not modelled: the model rejects
  with `STREAM_UNDEFINED` where the code would find the entry.
- The transforms are total functions in the handlers. A transform that
  throws is not modelled.
- Requests are not queued, and there is no retry on 429: the code has
  neither.
- `getAssetMetadata` and the discovery client methods are called by the
  handlers but not defined in lib/client.js. They are part of the `client`
  parameter.
- cli.js and lib/index.js (command line and exports) are not part of this
  model.
- Error message texts are modelled only for synchronous validation errors.
  Coded errors carry their `code`. `Boom` wrapping is not modelled.

## Findings

| source | as written | input that shows it | evidently intended | confidence | as-written member | corrected member |
|---|---|---|---|---|---|---|
| lib/create-channel-cache.js:5-22 | the eviction timer waits `TTL_IN_SECONDS * 100` ms, i.e. 30 seconds | a channel fetched at time `t` is deleted by the timer firing at `t + 30000` ms | a time to live of `TTL_IN_SECONDS` = 300 seconds, i.e. `TTL_IN_SECONDS * 1000` ms | high; not executed | ChannelCache.EvictedAfterThirtySeconds | ChannelCache.ServedForTtl |
