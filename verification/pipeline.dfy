/**
 * The pieces every resolution handler of the provider is made of: choosing
 * override credentials, issuing client calls, sending item specs over the
 * bus, and turning the bus's acknowledgements into relationships.
 *
 * The Backlot client and the bus are oracles. A client call ends as a
 * `Settled` value (a synchronous throw, a rejection or a value); a
 * `setItemSpec` command is acknowledged with the stored spec or an error.
 * A handler's effects are an ordered log of `Event`s; the promises of a
 * `Promise.all` are taken to settle in the order they were created.
 */
module Pipeline {
  import opened Wrappers
  import opened Text
  import opened JsValue
  import opened Outcomes

  /** The client methods the handlers call. */
  datatype Op =
    | GetLabel | GetChildLabels | GetAssetsByLabel
    | GetAsset | GetAssetMetadata | GetAssetStreams
    | GetSimilarRelated | GetTrendingRelated | GetPopularRelated

  /** One client method invoked with one argument object. */
  datatype Call = Call(op: Op, args: Value)

  /** What a handler does that can be observed from outside. */
  datatype Event =
    | Requested(call: Call)                              // a client method was invoked
    | Transformed(spec: Value, input: Value)             // the transform was applied
    | SentSpec(itemSpec: Value)                          // `setItemSpec` was sent on the bus
    | Broadcast(spec: Value, code: Code, message: string) // an error was broadcast

  /** The effects of a handler and how its returned promise settles. */
  datatype Run<+T> = Run(log: seq<Event>, outcome: Settled<T>)

  type Client = Call -> Settled<Value>
  type Ack = Value -> Result<Value, Error>
  type Transform = (Value, Value) -> Value

  /** The `message` of the error broadcast each not-found code comes with. */
  function NotFoundMessage(c: Code): string
  {
    match c
    case LabelNotFound => "label not found"
    case AssetNotFound => "asset not found"
    case SimilarNotFound => "similar not found"
    case TrendingNotFound => "trending not found"
    case PopularNotFound => "popular not found"
    case StreamUndefined => "stream undefined"
  }

  /** `bus.broadcast({level: 'error'}, {spec, error, code, message})`. */
  function NotFound(spec: Value, c: Code): Event
  {
    Broadcast(spec, c, NotFoundMessage(c))
  }

  /** `(spec.asset || {})`'s `external_id || embed_code`: the asset a spec
      refers to. */
  function SpecAssetId(spec: Value): Value
  {
    var asset := Or(Get(spec, "asset"), EmptyObject);
    Or(Get(asset, "external_id"), Get(asset, "embed_code"))
  }

  // ------------------------------------------------------------- credentials

  /** `channel.secrets || {}`. */
  function ChannelSecrets(channel: Value): Value
  {
    Or(Get(channel, "secrets"), EmptyObject)
  }

  /** The override credentials a handler passes to the client. */
  datatype Creds = NoCreds | Creds(apiKey: Value, secretKey: Value)

  /** `creds` is filled only when both `backlotApiKey` and
      `backlotSecretKey` are truthy. */
  function SelectCreds(secrets: Value): (c: Creds)
    ensures c.Creds? <==> Truthy(Get(secrets, "backlotApiKey")) && Truthy(Get(secrets, "backlotSecretKey"))
    ensures c.Creds? ==> c.apiKey == Get(secrets, "backlotApiKey") && c.secretKey == Get(secrets, "backlotSecretKey")
  {
    var k := Get(secrets, "backlotApiKey");
    var s := Get(secrets, "backlotSecretKey");
    if Truthy(k) && Truthy(s) then Creds(k, s) else NoCreds
  }

  function CredFields(c: Creds): map<string, Value>
  {
    match c
    case NoCreds => map[]
    case Creds(k, s) => map["apiKey" := k, "secretKey" := s]
  }

  /** `Object.assign(base, creds)`. */
  function WithCreds(base: map<string, Value>, c: Creds): (args: Value)
    ensures args.Obj? && args.fields.Keys == base.Keys + CredFields(c).Keys
  {
    Obj(base + CredFields(c))
  }

  /** Both keys reach the client or neither does, and the ones that do are
      the channel's. */
  lemma CredsBothOrNothing(secrets: Value, base: map<string, Value>)
    requires "apiKey" !in base && "secretKey" !in base
    ensures var args := WithCreds(base, SelectCreds(secrets));
            && ("apiKey" in args.fields <==> "secretKey" in args.fields)
            && ("apiKey" in args.fields <==> Truthy(Get(secrets, "backlotApiKey")) && Truthy(Get(secrets, "backlotSecretKey")))
            && ("apiKey" in args.fields ==>
                  args.fields["apiKey"] == Get(secrets, "backlotApiKey") && args.fields["secretKey"] == Get(secrets, "backlotSecretKey"))
            && (forall k :: k in base ==> k in args.fields && args.fields[k] == base[k])
  {
  }

  // ---------------------------------------------------------- client calls

  /** An element of the array given to `Promise.all`: a client call, or a
      value already in hand (`Promise.resolve(x)`). */
  datatype Step = Invoke(call: Call) | Ready(value: Value)

  function StepOutcome(s: Step, client: Client): Settled<Value>
  {
    match s
    case Invoke(c) => client(c)
    case Ready(v) => Resolved(v)
  }

  /** The client calls among `steps`, in order. */
  function Invocations(steps: seq<Step>): (log: seq<Event>)
    ensures forall e :: e in log ==> e.Requested? && Invoke(e.call) in steps
    decreases |steps|
  {
    if |steps| == 0 then []
    else (if steps[0].Invoke? then [Requested(steps[0].call)] else []) + Invocations(steps[1..])
  }

  /** `Promise.all([...])` over the steps. The array is built left to right,
      so a call that throws stops the ones after it from being made and the
      throw escapes; otherwise every call is made and the first rejection
      wins. */
  function CallAll(steps: seq<Step>, client: Client): (r: Run<seq<Value>>)
    ensures forall e :: e in r.log ==> e.Requested? && Invoke(e.call) in steps
    ensures r.outcome.Threw? <==> exists i :: 0 <= i < |steps| && StepOutcome(steps[i], client).Threw?
    ensures !r.outcome.Threw? ==> r.log == Invocations(steps)
    ensures r.outcome.Resolved? <==> forall i :: 0 <= i < |steps| ==> StepOutcome(steps[i], client).Resolved?
    ensures r.outcome.Resolved? ==>
              |r.outcome.value| == |steps|
              && forall i :: 0 <= i < |steps| ==> r.outcome.value[i] == StepOutcome(steps[i], client).value
    ensures r.outcome.Rejected? ==>
              exists i :: 0 <= i < |steps| && StepOutcome(steps[i], client) == Rejected(r.outcome.error)
                          && forall j :: 0 <= j < i ==> StepOutcome(steps[j], client).Resolved?
    decreases |steps|
  {
    if |steps| == 0 then Run([], Resolved([]))
    else
      var o := StepOutcome(steps[0], client);
      var issued := if steps[0].Invoke? then [Requested(steps[0].call)] else [];
      if o.Threw? then Run(issued, Threw(o.error))
      else
        var rest := CallAll(steps[1..], client);
        CallAllStep(steps, client, rest);
        var log := issued + rest.log;
        if rest.outcome.Threw? then Run(log, Threw(rest.outcome.error))
        else if o.Rejected? then Run(log, Rejected(o.error))
        else if rest.outcome.Rejected? then Run(log, Rejected(rest.outcome.error))
        else Run(log, Resolved([o.value] + rest.outcome.value))
  }

  /** How the outcomes of `steps[1..]` relate to those of `steps`. */
  lemma CallAllStep(steps: seq<Step>, client: Client, rest: Run<seq<Value>>)
    requires |steps| > 0
    ensures forall i :: 0 <= i < |steps| - 1 ==> StepOutcome(steps[1..][i], client) == StepOutcome(steps[i + 1], client)
    ensures forall s :: s in steps[1..] ==> s in steps
    ensures (exists i :: 0 <= i < |steps| && StepOutcome(steps[i], client).Threw?)
            <==> StepOutcome(steps[0], client).Threw?
                 || exists i :: 0 <= i < |steps| - 1 && StepOutcome(steps[1..][i], client).Threw?
  {
    if exists i :: 0 <= i < |steps| && StepOutcome(steps[i], client).Threw? {
      var i :| 0 <= i < |steps| && StepOutcome(steps[i], client).Threw?;
      if i > 0 {
        assert StepOutcome(steps[1..][i - 1], client).Threw?;
      }
    }
  }

  // ------------------------------------------------------------- item specs

  /** `list && list.length > 0`: arrays and strings by their length, other
      values by their `length` property, converted as `>` converts it. */
  predicate HasEntries(v: Value)
  {
    Truthy(v) && (match ToNumber(Length(v)) case Some(n) => n > 0 case None => false)
  }

  /** The length test reads a `length` that is not a number as `>` reads
      it: `true` and the text of a positive number pass, while `false`, a
      plain object and text that is not a number do not. */
  lemma HasEntriesConverts(n: int)
    ensures HasEntries(Obj(map["length" := Str(ToString(Num(n)))])) <==> n > 0
    ensures HasEntries(Obj(map["length" := Bool(true)]))
    ensures !HasEntries(Obj(map["length" := Bool(false)]))
    ensures !HasEntries(Obj(map["length" := EmptyObject]))
    ensures !HasEntries(Obj(map["length" := Str("two")]))
  {
    NumberTextRoundTrip(n);
    assert !IsDigit("two"[0]);
  }

  /** `list && list.length`, the older handlers' test. */
  predicate HasTruthyLength(v: Value)
  {
    Truthy(v) && Truthy(Length(v))
  }


  /** The item spec the label and discovery handlers send for an asset:
      it carries `id` `spec-ooyala-<external_id || embed_code>` when that
      value is truthy. Reading the asset's fields throws when the element is
      `null` or `undefined`, shown as `None`. */
  function VideoSpec(channelId: Value, asset: Value): (spec: Option<Value>)
    ensures spec.Some? <==> Dereferenceable(asset)
    ensures spec.Some? ==>
              var ref := Or(Get(asset, "external_id"), Get(asset, "embed_code"));
              && spec.value.Obj?
              && Get(spec.value, "channel") == channelId
              && Get(spec.value, "type") == Str("videoSpec")
              && Get(spec.value, "source") == Str("ooyala-asset-provider")
              && Get(spec.value, "asset") == asset
              && ("id" in spec.value.fields <==> Truthy(ref))
              && (Truthy(ref) ==> spec.value.fields["id"] == Str("spec-ooyala-" + ToString(ref)))
  {
    if !Dereferenceable(asset) then None
    else
      var ref := Or(Get(asset, "external_id"), Get(asset, "embed_code"));
      var base := map["channel" := channelId, "type" := Str("videoSpec"),
                      "source" := Str("ooyala-asset-provider"), "asset" := asset];
      Some(Obj(if Truthy(ref) then base["id" := Str("spec-ooyala-" + ToString(ref))] else base))
  }

  /** The item spec the label handler sends for a child label. */
  function CollectionSpec(channelId: Value, child: Value): (spec: Option<Value>)
    ensures spec.Some? <==> Dereferenceable(child)
    ensures spec.Some? ==>
              && spec.value.Obj?
              && Get(spec.value, "channel") == channelId
              && Get(spec.value, "type") == Str("collectionSpec")
              && Get(spec.value, "id") == Str("spec-ooyala-label-" + ToString(Get(child, "id")))
              && Get(spec.value, "source") == Str("ooyala-label-provider")
              && Get(spec.value, "label") == child
  {
    if !Dereferenceable(child) then None
    else
      Some(Obj(map["channel" := channelId, "type" := Str("collectionSpec"),
                   "id" := Str("spec-ooyala-label-" + ToString(Get(child, "id"))),
                   "source" := Str("ooyala-label-provider"), "label" := child]))
  }

  /** How the specs are built: one per element until an element's spec
      cannot be built. */
  datatype Builder =
    | Videos(channelId: Value)        // label and discovery handlers, assets
    | Collections(channelId: Value)   // label handler, child labels
    | LegacyVideos(channel: Value)    // index.js label handler, assets
    | LegacyCollections(channel: Value) // index.js label handler, child labels

  function Build(b: Builder, item: Value): Option<Value>
  {
    match b
    case Videos(c) => VideoSpec(c, item)
    case Collections(c) => CollectionSpec(c, item)
    case LegacyVideos(c) => Some(LegacySpec(c, "videoSpec", "ooyala-asset-provider", "asset", item))
    case LegacyCollections(c) => Some(LegacySpec(c, "collectionSpec", "ooyala-label-provider", "label", item))
  }

  /** The index.js handlers' item spec `{channel, type, source, <key>}`:
      it never has an `id` and never throws. */
  function LegacySpec(channel: Value, kind: string, source: string, key: string, item: Value): Value
  {
    Obj(map["channel" := channel, "type" := Str(kind), "source" := Str(source), key := item])
  }

  /** The older handlers send specs without an `id`, carrying the spec's own
      `channel` value. */
  lemma LegacySpecsHaveNoId(b: Builder, item: Value)
    requires b.LegacyVideos? || b.LegacyCollections?
    ensures Build(b, item).Some?
    ensures var spec := Build(b, item).value;
            && spec.Obj? && "id" !in spec.fields
            && Get(spec, "channel") == b.channel
            && Get(spec, "type") == Str(if b.LegacyVideos? then "videoSpec" else "collectionSpec")
            && Get(spec, if b.LegacyVideos? then "asset" else "label") == item
  {
  }

  /** The specs `list.map(...)` builds before the first element whose spec
      throws. */
  function BuildPrefix(items: seq<Value>, b: Builder): (built: seq<Value>)
    ensures |built| <= |items|
    ensures forall i :: 0 <= i < |built| ==> Build(b, items[i]) == Some(built[i])
    ensures |built| < |items| ==> Build(b, items[|built|]).None?
    decreases |items|
  {
    if |items| == 0 then []
    else match Build(b, items[0])
      case None => []
      case Some(s) => [s] + BuildPrefix(items[1..], b)
  }

  /** The acknowledgements of the sent specs, or the first failure. */
  function Acknowledge(specs: seq<Value>, ack: Ack): (r: Result<seq<Value>, Error>)
    ensures r.Ok? <==> forall i :: 0 <= i < |specs| ==> ack(specs[i]).Ok?
    ensures r.Ok? ==> |r.value| == |specs| && forall i :: 0 <= i < |specs| ==> r.value[i] == ack(specs[i]).value
    ensures r.Err? ==> exists i :: 0 <= i < |specs| && ack(specs[i]) == Err(r.error)
                                   && forall j :: 0 <= j < i ==> ack(specs[j]).Ok?
    decreases |specs|
  {
    if |specs| == 0 then Ok([])
    else match ack(specs[0])
      case Err(e) => Err(e)
      case Ok(a) =>
        var rest := Acknowledge(specs[1..], ack);
        if rest.Err? then
          assert forall j :: 1 <= j < |specs| ==> specs[1..][j - 1] == specs[j];
          Err(rest.error)
        else Ok([a] + rest.value)
  }

  function Sends(specs: seq<Value>): (log: seq<Event>)
  {
    seq(|specs|, i requires 0 <= i < |specs| => SentSpec(specs[i]))
  }

  /** `Promise.all(list.map(x => bus.sendCommand(setItemSpec, spec(x))))`.
      Every spec built is sent, in list order; an element whose spec cannot
      be built rejects with a `TypeError`, and the elements after it are not
      sent; otherwise the first failed acknowledgement rejects. */
  function FanOut(items: seq<Value>, b: Builder, ack: Ack): (r: Run<seq<Value>>)
    ensures |r.log| <= |items|
    ensures forall i :: 0 <= i < |r.log| ==> Build(b, items[i]).Some? && r.log[i] == SentSpec(Build(b, items[i]).value)
    ensures (exists i :: 0 <= i < |items| && Build(b, items[i]).None?) <==> |r.log| < |items|
    ensures |r.log| < |items| ==> r.outcome == Rejected(TypeError) && Build(b, items[|r.log|]).None?
    ensures |r.log| == |items| ==>
              (r.outcome.Resolved? <==> forall i :: 0 <= i < |items| ==> ack(Build(b, items[i]).value).Ok?)
    ensures r.outcome.Resolved? ==>
              |r.outcome.value| == |items|
              && forall i :: 0 <= i < |items| ==> r.outcome.value[i] == ack(Build(b, items[i]).value).value
    ensures |r.log| == |items| && r.outcome.Rejected? ==>
              exists i :: 0 <= i < |items| && ack(Build(b, items[i]).value) == Err(r.outcome.error)
                          && forall j :: 0 <= j < i ==> ack(Build(b, items[j]).value).Ok?
    ensures !r.outcome.Threw?
  {
    var built := BuildPrefix(items, b);
    if |built| < |items| then Run(Sends(built), Rejected(TypeError))
    else
      match Acknowledge(built, ack)
      case Ok(acks) => Run(Sends(built), Resolved(acks))
      case Err(e) => Run(Sends(built), Rejected(e))
  }

  /** A legacy fan-out over assets sends one id-less `videoSpec` per asset,
      in order, each carrying the channel. */
  lemma LegacyVideosSent(items: seq<Value>, channel: Value, ack: Ack)
    ensures var fan := FanOut(items, LegacyVideos(channel), ack);
            && |fan.log| == |items|
            && forall i :: 0 <= i < |items| ==>
                 var sent := fan.log[i];
                 && sent.SentSpec? && sent.itemSpec.Obj? && "id" !in sent.itemSpec.fields
                 && Get(sent.itemSpec, "channel") == channel
                 && Get(sent.itemSpec, "type") == Str("videoSpec")
                 && Get(sent.itemSpec, "asset") == items[i]
  {
    var fan := FanOut(items, LegacyVideos(channel), ack);
    forall i | 0 <= i < |items|
      ensures Build(LegacyVideos(channel), items[i]).Some?
    {
      LegacySpecsHaveNoId(LegacyVideos(channel), items[i]);
    }
    forall i | 0 <= i < |items|
      ensures var sent := fan.log[i];
              && sent.SentSpec? && sent.itemSpec.Obj? && "id" !in sent.itemSpec.fields
              && Get(sent.itemSpec, "channel") == channel
              && Get(sent.itemSpec, "type") == Str("videoSpec")
              && Get(sent.itemSpec, "asset") == items[i]
    {
      LegacySpecsHaveNoId(LegacyVideos(channel), items[i]);
    }
  }

  /** `list.map(...)` on the list found by the length test: only an array
      has `map`. */
  function ListFanOut(list: Value, b: Builder, ack: Ack): (r: Run<seq<Value>>)
    ensures !list.Arr? ==> r == Run([], Rejected(TypeError))
    ensures list.Arr? ==> r == FanOut(list.items, b, ack)
    ensures |r.log| > 0 ==> list.Arr? && |r.log| <= |list.items|
    ensures r.outcome.Resolved? ==> list.Arr? && |r.outcome.value| == |list.items|
    ensures !r.outcome.Threw?
  {
    if list.Arr? then FanOut(list.items, b, ack) else Run([], Rejected(TypeError))
  }

  // ---------------------------------------------------------- relationships

  /** `{type: spec.type.replace(/Spec$/, ''), id: spec.resource}` for one
      acknowledgement; without a string `type` the callback throws. */
  function Relationship(ack: Value): (r: Result<Value, Error>)
    ensures r.Ok? <==> Get(ack, "type").Str?
    ensures r.Err? ==> r.error == TypeError
    ensures r.Ok? ==>
              var t := Get(ack, "type").s;
              && r.value.Obj? && r.value.fields.Keys == {"type", "id"}
              && Get(r.value, "id") == Get(ack, "resource")
              && Get(r.value, "type").Str?
              && (EndsWith(t, "Spec") ==> Get(r.value, "type").s + "Spec" == t)
              && (!EndsWith(t, "Spec") ==> Get(r.value, "type").s == t)
  {
    match Get(ack, "type")
    case Str(t) => Ok(Obj(map["type" := Str(StripSuffix(t, "Spec")), "id" := Get(ack, "resource")]))
    case _ => Err(TypeError)
  }

  /** The acknowledgements of video and collection specs relate to `video`
      and `collection` entities. */
  lemma RelationshipTypes(ack: Value, kind: string)
    requires Get(ack, "type") == Str(kind + "Spec")
    ensures Relationship(ack).Ok? && Get(Relationship(ack).value, "type") == Str(kind)
  {
    StripSuffixOfAppended(kind, "Spec");
  }

  /** `specs.map(...)`: one relationship per acknowledgement, in order. */
  function Relationships(acks: seq<Value>): (r: Result<seq<Value>, Error>)
    ensures r.Ok? <==> forall i :: 0 <= i < |acks| ==> Get(acks[i], "type").Str?
    ensures r.Err? ==> r.error == TypeError
    ensures r.Ok? ==> |r.value| == |acks| && forall i :: 0 <= i < |acks| ==> r.value[i] == Relationship(acks[i]).value
    decreases |acks|
  {
    if |acks| == 0 then Ok([])
    else match Relationship(acks[0])
      case Err(e) => Err(e)
      case Ok(x) =>
        var rest := Relationships(acks[1..]);
        if rest.Err? then
          assert forall j :: 1 <= j < |acks| ==> acks[1..][j - 1] == acks[j];
          Err(rest.error)
        else Ok([x] + rest.value)
  }

  /** `{data: [...]}`. */
  function Entities(data: seq<Value>): Value
  {
    Obj(map["data" := Arr(data)])
  }

  /** `collection.relationships = collection.relationships || {}` followed by
      `collection.relationships.entities = {data: ...}`. Assigning a property
      of a value that is not an object throws in strict mode. */
  function AttachRelationships(collection: Value, acks: seq<Value>): (r: Result<Value, Error>)
    ensures r.Ok? <==>
              collection.Obj? && Or(Get(collection, "relationships"), EmptyObject).Obj?
              && forall i :: 0 <= i < |acks| ==> Get(acks[i], "type").Str?
    ensures r.Err? ==> r.error == TypeError
    ensures r.Ok? ==>
              var rel := Get(r.value, "relationships");
              && r.value.Obj? && r.value.fields.Keys == collection.fields.Keys + {"relationships"}
              && (forall k :: k != "relationships" ==> Get(r.value, k) == Get(collection, k))
              && rel.Obj?
              && Get(rel, "entities") == Entities(Relationships(acks).value)
              && (forall k :: k != "entities" ==> Get(rel, k) == Get(Get(collection, "relationships"), k))
  {
    if !collection.Obj? then Err(TypeError)
    else
      var rel := Or(Get(collection, "relationships"), EmptyObject);
      if !rel.Obj? then Err(TypeError)
      else match Relationships(acks)
        case Err(e) => Err(e)
        case Ok(data) => Ok(SetField(collection, "relationships", SetField(rel, "entities", Entities(data))))
  }

  /** The last `.then` of a collection handler: once the sent specs are
      acknowledged, the relationships are attached to the collection. A
      failure anywhere before rejects the handler's promise. */
  function Finish(head: seq<Event>, fan: Run<seq<Value>>, collection: Value): (r: Run<Value>)
    ensures r.log == head + fan.log
    ensures !r.outcome.Threw?
    ensures r.outcome.Resolved? <==> fan.outcome.Resolved? && AttachRelationships(collection, fan.outcome.value).Ok?
    ensures r.outcome.Resolved? ==> r.outcome.value == AttachRelationships(collection, fan.outcome.value).value
    ensures !fan.outcome.Resolved? ==> r.outcome == Rejected(fan.outcome.error)
  {
    var log := head + fan.log;
    match fan.outcome
    case Resolved(acks) =>
      (match AttachRelationships(collection, acks)
       case Ok(c) => Run(log, Resolved(c))
       case Err(e) => Run(log, Rejected(e)))
    case Rejected(e) => Run(log, Rejected(e))
    case Threw(e) => Run(log, Rejected(e))
  }

  /** Events logged before the last step stay in front of its log. */
  lemma FinishPrefix(pre: seq<Event>, head: seq<Event>, fan: Run<seq<Value>>, collection: Value)
    ensures var r := Finish(head, fan, collection);
            Run(pre + r.log, r.outcome) == Finish(pre + head, fan, collection)
  {
    assert pre + (head + fan.log) == (pre + head) + fan.log;
  }

  /** An acknowledgement list with no entries gives an empty `data`. */
  lemma NothingSentNoRelationships(head: seq<Event>, collection: Value)
    requires collection.Obj? && Or(Get(collection, "relationships"), EmptyObject).Obj?
    ensures var r := Finish(head, Run([], Resolved([])), collection);
            r.log == head && r.outcome.Resolved?
            && Get(Get(r.outcome.value, "relationships"), "entities") == Entities([])
  {
  }

  /** `entities` is `{data}` holding, in list order, the relationship of
      the acknowledgement of each item's spec. */
  predicate EntitiesInOrder(entities: Value, items: seq<Value>, b: Builder, ack: Ack)
  {
    && entities.Obj? && "data" in entities.fields && entities.fields["data"].Arr?
    && |entities.fields["data"].items| == |items|
    && forall i :: 0 <= i < |items| ==>
         && Build(b, items[i]).Some?
         && ack(Build(b, items[i]).value).Ok?
         && Relationship(ack(Build(b, items[i]).value).value) == Ok(entities.fields["data"].items[i])
  }

  /** Every spec built and acknowledged with a type: every item is sent in
      order and the collection gets one relationship per item, in order,
      keeping everything else it had. */
  lemma FinishAcked(head: seq<Event>, items: seq<Value>, b: Builder, ack: Ack, collection: Value)
    requires forall i :: 0 <= i < |items| ==> Build(b, items[i]).Some?
    requires forall i :: 0 <= i < |items| ==>
               ack(Build(b, items[i]).value).Ok? && Get(ack(Build(b, items[i]).value).value, "type").Str?
    requires collection.Obj? && Or(Get(collection, "relationships"), EmptyObject).Obj?
    ensures var r := Finish(head, FanOut(items, b, ack), collection);
            && |r.log| == |head| + |items| && r.log[..|head|] == head
            && (forall i :: 0 <= i < |items| ==> r.log[|head| + i] == SentSpec(Build(b, items[i]).value))
            && r.outcome.Resolved?
            && (forall k :: k != "relationships" ==> Get(r.outcome.value, k) == Get(collection, k))
            && EntitiesInOrder(Get(Get(r.outcome.value, "relationships"), "entities"), items, b, ack)
  {
    var fan := FanOut(items, b, ack);
    FanOutAcked(items, b, ack);
    AttachedInOrder(collection, fan.outcome.value, items, b, ack);
  }

  /** Relationships attached for the acknowledgements of the items' specs
      list those items in order. */
  lemma AttachedInOrder(collection: Value, acks: seq<Value>, items: seq<Value>, b: Builder, ack: Ack)
    requires AttachRelationships(collection, acks).Ok?
    requires |acks| == |items|
    requires forall i :: 0 <= i < |items| ==>
               Build(b, items[i]).Some? && ack(Build(b, items[i]).value) == Ok(acks[i])
    ensures EntitiesInOrder(Get(Get(AttachRelationships(collection, acks).value, "relationships"), "entities"), items, b, ack)
  {
  }

  /** Every spec built and acknowledged with a type: the fan-out sends them
      all and resolves with the acknowledgements in order. */
  lemma FanOutAcked(items: seq<Value>, b: Builder, ack: Ack)
    requires forall i :: 0 <= i < |items| ==> Build(b, items[i]).Some?
    requires forall i :: 0 <= i < |items| ==>
               ack(Build(b, items[i]).value).Ok? && Get(ack(Build(b, items[i]).value).value, "type").Str?
    ensures var fan := FanOut(items, b, ack);
            && |fan.log| == |items| && fan.outcome.Resolved?
            && forall i :: 0 <= i < |fan.outcome.value| ==> Get(fan.outcome.value[i], "type").Str?
  {
    var fan := FanOut(items, b, ack);
    assert |fan.log| == |items|;
  }
}
