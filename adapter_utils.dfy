/**
 * lib/adapters/bookshelf/utils.ts: the relation sub-template with its link
 * closures, the unfiltered attribute list, and guards that are
 * `instanceof` tests (so a missing value is neither a model nor a
 * collection and nothing throws).
 */
module AdapterUtils {
  import opened JsValues
  import opened JsObjects
  import opened Foreign
  import opened BookshelfData

  /** What the relation link closures capture: the two pluralised types. */
  datatype RelationLinks = RelationLinks(baseUrl: string, relationPlural: string, modelPlural: string)

  /** The transform schema `buildRelation` returns. */
  datatype AdapterRelation = AdapterRelation(ref: string, attributes: Value, links: RelationLinks, included: bool)

  /** `baseRelationUrl + related.id`: the resource the relationship links hang off. */
  function RelatedResourceUrl(l: RelationLinks, related: Model): string {
    l.baseUrl + "/" + l.modelPlural + "/" + ToStr(related.id)
  }

  /**
   * `relationshipLinks.self(data, related)`: the `related` link with
   * `/relationships` inserted after the resource URL.
   */
  function RelationshipSelf(l: RelationLinks, related: Model): (r: string)
    ensures var u := RelatedResourceUrl(l, related);
      |u| <= |RelationshipRelated(l, related)| && r == u + "/relationships" + RelationshipRelated(l, related)[|u|..]
  {
    RelatedResourceUrl(l, related) + "/relationships/" + l.relationPlural
  }

  /**
   * `relationshipLinks.related(data, related)`: the related model's id under
   * the primary type's plural, then the relation type's plural; the data
   * argument plays no part.
   */
  function RelationshipRelated(l: RelationLinks, related: Model): (r: string)
    ensures var u := RelatedResourceUrl(l, related);
      |u| <= |r| && r[..|u|] == u && r[|u|..] == "/" + l.relationPlural
  {
    RelatedResourceUrl(l, related) + "/" + l.relationPlural
  }

  /**
   * `includedLinks.self(model, related)`: the related model's resource URL
   * with the two types swapped, that is under the relation type's plural.
   */
  function IncludedSelf(l: RelationLinks, related: Model): (r: string)
    ensures r == RelatedResourceUrl(RelationLinks(l.baseUrl, l.modelPlural, l.relationPlural), related)
  {
    l.baseUrl + "/" + l.relationPlural + "/" + ToStr(related.id)
  }

  /**
   * `buildRelation(baseUrl, relationType, relationKeys, modelType, included)`.
   * Both types are pluralised up front, so the call fails unless both are
   * strings; the keys are passed through whatever they are.
   */
  function BuildRelation(env: Env, baseUrl: string, relationType: Value, relationKeys: Value, modelType: Value, included: bool)
    : (r: Result<AdapterRelation>)
    ensures r.Ok? <==> Pluralize(env, relationType).Ok? && Pluralize(env, modelType).Ok?
    ensures r.Err? ==> r.error == NotAString
    ensures r.Ok? ==> r.value.ref == "id" && r.value.attributes == relationKeys && r.value.included == included
    ensures r.Ok? ==> forall related: Model ::
      && RelatedResourceUrl(r.value.links, related)
           == baseUrl + "/" + Pluralize(env, modelType).value + "/" + ToStr(related.id)
      && IncludedSelf(r.value.links, related)
           == baseUrl + "/" + Pluralize(env, relationType).value + "/" + ToStr(related.id)
      && r.value.links.relationPlural == Pluralize(env, relationType).value
  {
    var relationPlural :- Pluralize(env, relationType);
    var modelPlural :- Pluralize(env, modelType);
    Ok(AdapterRelation("id", relationKeys, RelationLinks(baseUrl, relationPlural, modelPlural), included))
  }

  /** `getDataAttributes(data)`: a model's attributes, a collection's first model's, or undefined. */
  function GetDataAttributes(d: Data): (r: Option<JsObject<Prim>>)
    ensures d.Single? ==> r == Some(d.model.attributes)
    ensures d.Many? ==> r == if d.models == [] then None else Some(d.models[0].attributes)
    ensures d.Nullish? ==> r == None
  {
    match d
    case Single(m) => Some(m.attributes)
    case Many(ms) => if ms == [] then None else Some(ms[0].attributes)
    case Nullish => None
  }

  /** `getDataAttributesList(data)`: every attribute key, `id` included; none for undefined. */
  function GetDataAttributesList(d: Data): (names: seq<string>)
    ensures GetDataAttributes(d).Some? ==> names == Keys(GetDataAttributes(d).value)
    ensures GetDataAttributes(d).None? ==> names == []
  {
    Keys(GetDataAttributes(d).GetOr([]))
  }

  /** `isDataEmpty(data)`: false for a model, `length === 0` for a collection, undefined otherwise. */
  function IsDataEmpty(d: Data): (r: Option<bool>)
    ensures r.None? <==> d.Nullish?
    ensures r.Some? ==> (r.value <==> d.Many? && |d.models| == 0)
  {
    match d
    case Single(_) => Some(false)
    case Many(ms) => Some(|ms| == 0)
    case Nullish => None
  }

  /** The attribute list is empty for an empty collection and for a missing value. */
  lemma AttributesOfEmptyData(d: Data)
    ensures IsDataEmpty(d) != Some(false) ==> GetDataAttributesList(d) == []
    ensures d.Single? ==> GetDataAttributesList(d) == Keys(d.model.attributes)
  {
  }

  /**
   * The relationship links of one relation differ only in their last
   * segment, and `self` is the `related` URL with `relationships/` inserted.
   */
  lemma RelationshipLinksShape(env: Env, baseUrl: string, relationType: string, keys: seq<string>, modelType: string, related: Model)
    ensures var r := BuildRelation(env, baseUrl, Atom(Str(relationType)), Strings(keys), Atom(Str(modelType)), true);
      && r.Ok?
      && var u := baseUrl + "/" + env.pluralize(modelType) + "/" + ToStr(related.id);
      && RelationshipSelf(r.value.links, related) == u + "/relationships/" + env.pluralize(relationType)
      && RelationshipRelated(r.value.links, related) == u + "/" + env.pluralize(relationType)
  {
    var r := BuildRelation(env, baseUrl, Atom(Str(relationType)), Strings(keys), Atom(Str(modelType)), true);
    assert RelatedResourceUrl(r.value.links, related) == baseUrl + "/" + env.pluralize(modelType) + "/" + ToStr(related.id);
  }
}
