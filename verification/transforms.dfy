/**
 * The default transforms (lib/default-asset-transform.js and
 * lib/default-collection-transform.js): a fresh object holding the spec's
 * properties, then the Backlot entity's, then a few computed ones.
 */
module Transforms {
  import opened Wrappers
  import opened JsValue
  import opened Outcomes

  /** The properties the asset transform computes, which win over the spec's
      and the asset's. */
  const AssetComputedKeys: set<string> := {"title", "description", "images", "player", "meta"}

  /** The computed part of a video: its title, description, 16:9 image, an
      Ooyala player reference and the metadata object. */
  function AssetComputed(asset: Value): (computed: Value)
    ensures computed.Obj? && computed.fields.Keys == AssetComputedKeys
  {
    Obj(map[
      "title" := Get(asset, "name"),
      "description" := Get(asset, "description"),
      "images" := Obj(map["aspect16x9" := Get(asset, "preview_image_url")]),
      "player" := Obj(map["type" := Str("ooyala"), "embedCode" := Or(Get(asset, "embed_code"), Get(asset, "external_id"))]),
      "meta" := Or(Get(asset, "meta"), EmptyObject)])
  }

  /** `defaultAssetTransform(spec, asset)`; reading `asset.name` throws when
      the asset is `null` or `undefined`. */
  function AssetTransform(spec: Value, asset: Value): (r: Result<Value, Error>)
    ensures r.Ok? <==> Dereferenceable(asset)
    ensures r.Err? ==> r.error == TypeError
    ensures r.Ok? ==> r.value.Obj? && AssetComputedKeys <= r.value.fields.Keys
  {
    if !Dereferenceable(asset) then Err(TypeError)
    else Ok(Assign([spec, asset, AssetComputed(asset)]))
  }

  /** `defaultCollectionTransform(spec, backlotLabel)`. */
  function CollectionTransform(spec: Value, backlotLabel: Value): (r: Result<Value, Error>)
    ensures r.Ok? <==> Dereferenceable(backlotLabel)
    ensures r.Err? ==> r.error == TypeError
    ensures r.Ok? ==> r.value.Obj? && "title" in r.value.fields
  {
    if !Dereferenceable(backlotLabel) then Err(TypeError)
    else Ok(Assign([spec, backlotLabel, Obj(map["title" := Get(backlotLabel, "name")])]))
  }

  /** The value `Object.assign({}, first, second)` gives property `k` when a
      later source does not set it: `second`'s own property if it has one,
      else `first`'s, else none. */
  function Underlying(first: Value, second: Value, k: string): Option<Value>
  {
    if k in OwnProps(second) then Some(OwnProps(second)[k])
    else if k in OwnProps(first) then Some(OwnProps(first)[k])
    else None
  }

  /** Two sources and a computed object on top: a property the computed
      object does not set comes from the later of the two that has it. */
  lemma AssignUnder(first: Value, second: Value, top: Value, k: string)
    requires top.Obj? && k !in top.fields
    ensures var r := Assign([first, second, top]);
            (k in r.fields <==> Underlying(first, second, k).Some?)
            && (k in r.fields ==> r.fields[k] == Underlying(first, second, k).value)
  {
    AssignThree(first, second, top);
  }

  /** A video's title, description and 16:9 image are the asset's name,
      description and preview image. */
  lemma AssetTransformDescribes(spec: Value, asset: Value)
    requires Dereferenceable(asset)
    ensures var r := AssetTransform(spec, asset).value;
            && Get(r, "title") == Get(asset, "name")
            && Get(r, "description") == Get(asset, "description")
            && Get(Get(r, "images"), "aspect16x9") == Get(asset, "preview_image_url")
  {
    var computed := AssetComputed(asset);
    AssignTop(spec, asset, computed, "title");
    AssignTop(spec, asset, computed, "description");
    AssignTop(spec, asset, computed, "images");
  }

  /** A video plays in the Ooyala player with the asset's embed code (its
      external id when it has none), and carries the asset's metadata or
      `{}`. */
  lemma AssetTransformPlayer(spec: Value, asset: Value)
    requires Dereferenceable(asset)
    ensures var r := AssetTransform(spec, asset).value;
            && Get(Get(r, "player"), "type") == Str("ooyala")
            && Get(Get(r, "player"), "embedCode") == Or(Get(asset, "embed_code"), Get(asset, "external_id"))
            && Get(r, "meta") == Or(Get(asset, "meta"), EmptyObject)
  {
    var computed := AssetComputed(asset);
    AssignTop(spec, asset, computed, "player");
    AssignTop(spec, asset, computed, "meta");
  }

  /** A property the last source has comes from it. */
  lemma AssignTop(first: Value, second: Value, top: Value, k: string)
    requires top.Obj? && k in top.fields
    ensures Get(Assign([first, second, top]), k) == top.fields[k]
  {
    AssignThree(first, second, top);
  }

  /** Every other property of a video is the asset's, or the spec's when
      the asset lacks it. */
  lemma AssetTransformKeeps(spec: Value, asset: Value, k: string)
    requires Dereferenceable(asset) && k !in AssetComputedKeys
    ensures var r := AssetTransform(spec, asset).value;
            (k in r.fields <==> Underlying(spec, asset, k).Some?)
            && (k in r.fields ==> r.fields[k] == Underlying(spec, asset, k).value)
  {
    AssignUnder(spec, asset, AssetComputed(asset), k);
  }

  /** A collection's title is the label's name. */
  lemma CollectionTransformTitle(spec: Value, backlotLabel: Value)
    requires Dereferenceable(backlotLabel)
    ensures Get(CollectionTransform(spec, backlotLabel).value, "title") == Get(backlotLabel, "name")
  {
    AssignTop(spec, backlotLabel, Obj(map["title" := Get(backlotLabel, "name")]), "title");
  }

  /** Every other property of a collection is the label's, or the spec's
      when the label lacks it; so a label's `id` replaces the spec's. */
  lemma CollectionTransformKeeps(spec: Value, backlotLabel: Value, k: string)
    requires Dereferenceable(backlotLabel) && k != "title"
    ensures var r := CollectionTransform(spec, backlotLabel).value;
            (k in r.fields <==> Underlying(spec, backlotLabel, k).Some?)
            && (k in r.fields ==> r.fields[k] == Underlying(spec, backlotLabel, k).value)
  {
    AssignUnder(spec, backlotLabel, Obj(map["title" := Get(backlotLabel, "name")]), k);
  }
}
