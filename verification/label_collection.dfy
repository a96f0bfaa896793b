/**
 * `fetchLabelCollection` (lib/fetch-label-collection.js): resolves a
 * collection spec that names a Backlot label. The label is fetched; when it
 * exists it is transformed into a collection, and its assets (or, failing
 * those, its child labels) are sent as item specs whose acknowledgements
 * become the collection's relationships.
 */
module LabelCollection {
  import opened Wrappers
  import opened JsValue
  import opened Outcomes
  import opened Pipeline

  /** The handler's argument: `{spec, channel, collection, labelId}`. */
  datatype Args = Args(spec: Value, channel: Value, collection: Value, labelId: Value)

  /** `Object.assign({labelId}, creds)`, the argument of all three calls. */
  function Params(a: Args): Value
  {
    WithCreds(map["labelId" := a.labelId], SelectCreds(ChannelSecrets(a.channel)))
  }

  /** Which list is fanned out: the assets when they have entries, else the
      child labels when they have entries, else nothing. The index.js
      handler (`legacy`) tests `list && list.length` and builds id-less
      specs. */
  function ChooseFanOut(assets: Value, children: Value, channel: Value, legacy: bool, ack: Ack): (r: Run<seq<Value>>)
    ensures forall e :: e in r.log ==> e.SentSpec?
    ensures !r.outcome.Threw?
  {
    if (if legacy then HasTruthyLength(assets) else HasEntries(assets)) then
      ListFanOut(assets, if legacy then LegacyVideos(channel) else Videos(channel), ack)
    else if (if legacy then HasTruthyLength(children) else HasEntries(children)) then
      ListFanOut(children, if legacy then LegacyCollections(channel) else Collections(channel), ack)
    else Run([], Resolved([]))
  }

  /** The calls for a label's assets and child labels. */
  function ListCalls(params: Value): seq<Step>
  {
    [Invoke(Call(GetAssetsByLabel, params)), Invoke(Call(GetChildLabels, params))]
  }

  /** Everything after a label was found and transformed: fetch its assets
      and children together, fan one of them out, attach relationships. */
  function AfterLabel(collection: Value, channel: Value, params: Value, legacy: bool, client: Client, ack: Ack): (r: Run<Value>)
    ensures !r.outcome.Threw?
    ensures forall e :: e in r.log ==> e.SentSpec? || (e.Requested? && e.call.args == params)
  {
    var fetched := CallAll(ListCalls(params), client);
    match fetched.outcome
    case Resolved(lists) =>
      var fan := ChooseFanOut(lists[0], lists[1], channel, legacy, ack);
      Finish(fetched.log, fan, collection)
    case Rejected(e) => Run(fetched.log, Rejected(e))
    case Threw(e) => Run(fetched.log, Rejected(e))
  }

  /** `fetchLabelCollection(args)`. */
  function FetchLabelCollection(a: Args, client: Client, ack: Ack, transform: Transform): (r: Run<Value>)
    ensures !Dereferenceable(a.channel) <==> r == Run([], Threw(TypeError))
    ensures Dereferenceable(a.channel) ==> |r.log| > 0 && r.log[0] == Requested(Call(GetLabel, Params(a)))
    ensures forall e :: e in r.log && e.Requested? ==> e.call.args == Params(a)
    ensures r.outcome.Threw? ==> !Dereferenceable(a.channel) || client(Call(GetLabel, Params(a))).Threw?
  {
    if !Dereferenceable(a.channel) then Run([], Threw(TypeError))
    else
      var first := Call(GetLabel, Params(a));
      match client(first)
      case Threw(e) => Run([Requested(first)], Threw(e))
      case Rejected(e) => Run([Requested(first)], Rejected(e))
      case Resolved(found) =>
        if !Truthy(found) then
          Run([Requested(first), NotFound(a.spec, LabelNotFound)], Rejected(Coded(LabelNotFound)))
        else
          var collection := Assign([a.collection, transform(a.spec, found)]);
          var rest := AfterLabel(collection, Get(a.channel, "id"), Params(a), false, client, ack);
          Run([Requested(first), Transformed(a.spec, found)] + rest.log, rest.outcome)
  }

  // -------------------------------------------------------------- properties

  /** The same credentials reach every client call: the channel's override
      pair when both keys are set, none otherwise. */
  lemma CredentialsOnEveryCall(a: Args, client: Client, ack: Ack, transform: Transform)
    ensures forall e :: e in FetchLabelCollection(a, client, ack, transform).log && e.Requested? ==>
              var args := e.call.args;
              && args.Obj? && Get(args, "labelId") == a.labelId
              && ("apiKey" in args.fields <==> "secretKey" in args.fields)
              && ("apiKey" in args.fields <==>
                    Truthy(Get(ChannelSecrets(a.channel), "backlotApiKey")) && Truthy(Get(ChannelSecrets(a.channel), "backlotSecretKey")))
  {
    CredsBothOrNothing(ChannelSecrets(a.channel), map["labelId" := a.labelId]);
  }

  /** A missing label: one error broadcast with the original spec, a
      `LABEL_NOT_FOUND` rejection, and nothing else fetched or sent. */
  lemma NotFoundPath(a: Args, client: Client, ack: Ack, transform: Transform)
    requires Dereferenceable(a.channel)
    requires client(Call(GetLabel, Params(a))).Resolved? && !Truthy(client(Call(GetLabel, Params(a))).value)
    ensures FetchLabelCollection(a, client, ack, transform)
            == Run([Requested(Call(GetLabel, Params(a))), Broadcast(a.spec, LabelNotFound, "label not found")],
                   Rejected(Coded(LabelNotFound)))
  {
  }

  /** Both lists are fetched, assets before children. */
  lemma ListsFetched(collection: Value, channel: Value, params: Value, legacy: bool, client: Client, ack: Ack)
    requires !client(Call(GetAssetsByLabel, params)).Threw? && !client(Call(GetChildLabels, params)).Threw?
    ensures var r := AfterLabel(collection, channel, params, legacy, client, ack);
            |r.log| >= 2 && r.log[..2] == [Requested(Call(GetAssetsByLabel, params)), Requested(Call(GetChildLabels, params))]
  {
    var steps := ListCalls(params);
    assert StepOutcome(steps[0], client) == client(Call(GetAssetsByLabel, params));
    assert StepOutcome(steps[1], client) == client(Call(GetChildLabels, params));
    assert Invocations(steps) == [Requested(steps[0].call)] + Invocations(steps[1..]);
    assert Invocations(steps[1..]) == [Requested(steps[1].call)] + Invocations(steps[2..]);
  }

  /** Both list calls resolving, the pair of lists comes back in call
      order. */
  lemma BothFetched(params: Value, client: Client)
    requires client(Call(GetAssetsByLabel, params)).Resolved? && client(Call(GetChildLabels, params)).Resolved?
    ensures CallAll(ListCalls(params), client)
            == Run([Requested(Call(GetAssetsByLabel, params)), Requested(Call(GetChildLabels, params))],
                   Resolved([client(Call(GetAssetsByLabel, params)).value, client(Call(GetChildLabels, params)).value]))
  {
    var steps := ListCalls(params);
    var c := Call(GetChildLabels, params);
    var tail := steps[1..];
    assert tail == [Invoke(c)];
    assert tail[1..] == [];
    assert CallAll(tail[1..], client) == Run([], Resolved([]));
    assert StepOutcome(tail[0], client) == client(c);
    var last := CallAll(tail, client);
    assert [Requested(c)] + [] == [Requested(c)];
    assert [client(c).value] + [] == [client(c).value];
    assert last == Run([Requested(c)], Resolved([client(c).value]));
    var d := Call(GetAssetsByLabel, params);
    assert StepOutcome(steps[0], client) == client(d);
    assert CallAll(steps, client) == Run([Requested(d)] + last.log, Resolved([client(d).value] + last.outcome.value));
    assert [Requested(d)] + last.log == [Requested(d), Requested(c)];
    assert [client(d).value] + last.outcome.value == [client(d).value, client(c).value];
  }

  /** The two lists the label's collection is built from. */
  function ListsHead(params: Value): seq<Event>
  {
    [Requested(Call(GetAssetsByLabel, params)), Requested(Call(GetChildLabels, params))]
  }

  /** When the label has assets, one `videoSpec` per asset is sent, in list
      order, and the child labels are ignored, whatever they hold. */
  lemma AssetsPreferred(collection: Value, channel: Value, params: Value, client: Client, ack: Ack, assets: seq<Value>)
    requires client(Call(GetAssetsByLabel, params)) == Resolved(Arr(assets)) && |assets| > 0
    requires client(Call(GetChildLabels, params)).Resolved?
    ensures AfterLabel(collection, channel, params, false, client, ack)
            == Finish(ListsHead(params), FanOut(assets, Videos(channel), ack), collection)
  {
    BothFetched(params, client);
    assert HasEntries(Arr(assets));
  }

  /** The legacy handler's variant: with assets (by `assets &&
      assets.length`), one legacy `videoSpec` per asset. */
  lemma LegacyAssetsPreferred(collection: Value, channel: Value, params: Value, client: Client, ack: Ack, assets: seq<Value>)
    requires client(Call(GetAssetsByLabel, params)) == Resolved(Arr(assets)) && |assets| > 0
    requires client(Call(GetChildLabels, params)).Resolved?
    ensures AfterLabel(collection, channel, params, true, client, ack)
            == Finish(ListsHead(params), FanOut(assets, LegacyVideos(channel), ack), collection)
  {
    BothFetched(params, client);
    assert HasTruthyLength(Arr(assets));
  }

  /** With no assets, one `collectionSpec` per child label is sent, in order. */
  lemma ChildrenWhenNoAssets(collection: Value, channel: Value, params: Value, client: Client, ack: Ack, assets: Value, children: seq<Value>)
    requires client(Call(GetAssetsByLabel, params)) == Resolved(assets) && !HasEntries(assets)
    requires client(Call(GetChildLabels, params)) == Resolved(Arr(children)) && |children| > 0
    ensures AfterLabel(collection, channel, params, false, client, ack)
            == Finish(ListsHead(params), FanOut(children, Collections(channel), ack), collection)
  {
    BothFetched(params, client);
    assert HasEntries(Arr(children));
  }

  /** With neither, nothing is sent and the relationship list is empty. */
  lemma NeitherAssetsNorChildren(collection: Value, channel: Value, params: Value, client: Client, ack: Ack, assets: Value, children: Value)
    requires client(Call(GetAssetsByLabel, params)) == Resolved(assets) && !HasEntries(assets)
    requires client(Call(GetChildLabels, params)) == Resolved(children) && !HasEntries(children)
    requires collection.Obj? && Or(Get(collection, "relationships"), EmptyObject).Obj?
    ensures AfterLabel(collection, channel, params, false, client, ack)
            == Run(ListsHead(params), Resolved(AttachRelationships(collection, []).value))
    ensures Get(Get(AttachRelationships(collection, []).value, "relationships"), "entities") == Entities([])
  {
    BothFetched(params, client);
    NothingSentNoRelationships(ListsHead(params), collection);
  }

  /** Assets that pass the length test without being an array (such as
      `{length: '2'}` or `{length: true}`) have no `map`: the handler
      rejects with a `TypeError` and sends nothing. Likewise for such child
      labels when there are no assets. */
  lemma NonArrayListRejects(collection: Value, channel: Value, params: Value, client: Client, ack: Ack)
    requires client(Call(GetAssetsByLabel, params)).Resolved? && client(Call(GetChildLabels, params)).Resolved?
    requires var assets := client(Call(GetAssetsByLabel, params)).value;
             var children := client(Call(GetChildLabels, params)).value;
             (HasEntries(assets) && !assets.Arr?) || (!HasEntries(assets) && HasEntries(children) && !children.Arr?)
    ensures AfterLabel(collection, channel, params, false, client, ack) == Run(ListsHead(params), Rejected(TypeError))
  {
    BothFetched(params, client);
    assert ListsHead(params) + [] == ListsHead(params);
  }

  /** A label that is found is transformed first, and the rest follows
      with the merged collection. */
  lemma FoundPath(a: Args, client: Client, ack: Ack, transform: Transform, found: Value)
    requires Dereferenceable(a.channel)
    requires client(Call(GetLabel, Params(a))) == Resolved(found) && Truthy(found)
    ensures var rest := AfterLabel(Assign([a.collection, transform(a.spec, found)]), Get(a.channel, "id"), Params(a), false, client, ack);
            FetchLabelCollection(a, client, ack, transform)
            == Run([Requested(Call(GetLabel, Params(a))), Transformed(a.spec, found)] + rest.log, rest.outcome)
  {
  }

  /** After a found label, the log opens with the label request, the
      transform and both list requests. */
  lemma FoundLog(a: Args, client: Client, ack: Ack, transform: Transform, found: Value)
    requires Dereferenceable(a.channel)
    requires client(Call(GetLabel, Params(a))) == Resolved(found) && Truthy(found)
    requires !client(Call(GetAssetsByLabel, Params(a))).Threw? && !client(Call(GetChildLabels, Params(a))).Threw?
    ensures var r := FetchLabelCollection(a, client, ack, transform);
            |r.log| >= 4 && r.log[..4] == [Requested(Call(GetLabel, Params(a))), Transformed(a.spec, found)] + ListsHead(Params(a))
  {
    var collection := Assign([a.collection, transform(a.spec, found)]);
    var channel := Get(a.channel, "id");
    FoundPath(a, client, ack, transform, found);
    ListsFetched(collection, channel, Params(a), false, client, ack);
    var rest := AfterLabel(collection, channel, Params(a), false, client, ack);
    var head := [Requested(Call(GetLabel, Params(a))), Transformed(a.spec, found)];
    assert (head + rest.log)[..4] == head + rest.log[..2];
  }

  /** When everything succeeds, the collection is `args.collection` overlaid
      with the transformed label, and its relationships list one entry per
      sent asset, in order, typed from the acknowledgement. */
  lemma HappyPath(a: Args, client: Client, ack: Ack, transform: Transform, found: Value, assets: seq<Value>, collection: Value)
    requires Dereferenceable(a.channel)
    requires client(Call(GetLabel, Params(a))) == Resolved(found) && Truthy(found)
    requires client(Call(GetAssetsByLabel, Params(a))) == Resolved(Arr(assets)) && |assets| > 0
    requires client(Call(GetChildLabels, Params(a))).Resolved?
    requires forall i :: 0 <= i < |assets| ==> Dereferenceable(assets[i])
    requires forall i :: 0 <= i < |assets| ==>
               ack(VideoSpec(Get(a.channel, "id"), assets[i]).value).Ok?
               && Get(ack(VideoSpec(Get(a.channel, "id"), assets[i]).value).value, "type").Str?
    requires collection == Assign([a.collection, transform(a.spec, found)])
    requires Or(Get(collection, "relationships"), EmptyObject).Obj?
    ensures var r := FetchLabelCollection(a, client, ack, transform);
            && r.outcome.Resolved?
            && r.log[..4] == [Requested(Call(GetLabel, Params(a))), Transformed(a.spec, found)] + ListsHead(Params(a))
            && (forall k :: k != "relationships" ==> Get(r.outcome.value, k) == Get(collection, k))
            && EntitiesInOrder(Get(Get(r.outcome.value, "relationships"), "entities"), assets, Videos(Get(a.channel, "id")), ack)
  {
    var channel := Get(a.channel, "id");
    FoundPath(a, client, ack, transform, found);
    AssetsPreferred(collection, channel, Params(a), client, ack, assets);
    FinishAcked(ListsHead(Params(a)), assets, Videos(channel), ack, collection);
    FoundLog(a, client, ack, transform, found);
  }
}
