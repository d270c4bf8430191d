/**
 * `src/bookshelf/utils.ts`: the relation sub-template, the attribute list
 * of a model or of a collection's first model (without `id`, `*_id` and
 * `*_type`), and the duck-typed guards that read `data.models` without a
 * null check.
 */
module SrcUtils {
  import opened JsValues
  import opened JsObjects
  import opened Foreign
  import opened BookshelfData
  import opened SrcLinks

  /** The transform schema of one relation. */
  datatype RelationTemplate = RelationTemplate(
    ref: string,
    attributes: seq<string>,
    relationshipLinks: RelationshipLinks,
    includedLinks: SelfLink,
    included: bool)

  /**
   * `buildRelation(baseUrl, modelType, relatedType, relatedKeys, included)`.
   * The relationship links hang off the primary resource; the included
   * resource's link is built for `modelType` too, not for the related type.
   */
  function BuildRelation(baseUrl: string, modelType: string, relatedType: string, relatedKeys: seq<string>, included: bool): (r: RelationTemplate)
    ensures r.ref == "id" && r.attributes == relatedKeys && r.included == included
    ensures forall env: Env, record: Model ::
      && RelationshipSelf(env, r.relationshipLinks, record) == ResourceUrl(env, r.relationshipLinks, record) + "/relationships/" + relatedType
      && RelationshipRelated(env, r.relationshipLinks, record) == ResourceUrl(env, r.relationshipLinks, record) + "/" + relatedType
      && ResourceUrl(env, r.relationshipLinks, record) == baseUrl + "/" + env.pluralize(modelType) + "/" + ToStr(IdVia(record, modelType))
    ensures forall env: Env, m: Model ::
      SelfHref(env, r.includedLinks, Single(m)) == Ok(Some(baseUrl + "/" + env.pluralize(modelType) + "/" + ToStr(m.id)))
  {
    var r := RelationTemplate("id", relatedKeys, BuildRelationship(baseUrl, modelType, relatedType), BuildSelf(baseUrl, modelType, Atom(Undefined)), included);
    forall env: Env, record: Model
      ensures RelationshipSelf(env, r.relationshipLinks, record) == ResourceUrl(env, r.relationshipLinks, record) + "/relationships/" + relatedType
      ensures RelationshipRelated(env, r.relationshipLinks, record) == ResourceUrl(env, r.relationshipLinks, record) + "/" + relatedType
    {
      RelationshipLinksShape(env, r.relationshipLinks, record);
    }
    r
  }

  /** `_.endsWith(name, suffix)` */
  predicate EndsWith(name: string, suffix: string) {
    |suffix| <= |name| && name[|name| - |suffix|..] == suffix
  }

  /** The attribute names the serializer is given: not `id`, `*_id` or `*_type`. */
  predicate KeepAttribute(name: string) {
    name != "id" && !EndsWith(name, "_id") && !EndsWith(name, "_type")
  }

  /** `a` is `b` with some elements left out, the rest in their order. */
  predicate IsSubsequence(a: seq<string>, b: seq<string>) {
    if a == [] then true
    else if b == [] then false
    else if a[0] == b[0] then IsSubsequence(a[1..], b[1..])
    else IsSubsequence(a, b[1..])
  }

  /**
   * `names.filter(...)` with the attribute test: the order-preserving
   * subsequence of exactly the names that pass.
   */
  function FilterAttributes(names: seq<string>): (r: seq<string>)
    ensures forall x :: x in r <==> x in names && KeepAttribute(x)
    ensures IsSubsequence(r, names)
  {
    if names == [] then []
    else if KeepAttribute(names[0]) then [names[0]] + FilterAttributes(names[1..])
    else FilterAttributes(names[1..])
  }

  /** `isModel(data)`: `data.models === undefined`, which throws on a missing value. */
  function IsModel(d: Data): (r: Result<bool>)
    ensures r.Err? <==> d.Nullish?
    ensures r.Ok? ==> (r.value <==> d.Single?)
  {
    match d
    case Nullish => Err(TypeError)
    case Single(_) => Ok(true)
    case Many(_) => Ok(false)
  }

  /** `isCollection(data)`: `data.models !== undefined`, which throws on a missing value. */
  function IsCollection(d: Data): (r: Result<bool>)
    ensures r.Err? <==> d.Nullish?
    ensures r.Ok? ==> (r.value <==> d.Many?)
  {
    match d
    case Nullish => Err(TypeError)
    case Single(_) => Ok(false)
    case Many(_) => Ok(true)
  }

  /**
   * `getDataAttributes(data)`: a model's attributes, a collection's first
   * model's attributes, `undefined` (here `None`) for an empty collection.
   */
  function GetDataAttributes(d: Data): (r: Result<Option<JsObject<Prim>>>)
    ensures r.Err? <==> d.Nullish?
    ensures d.Single? ==> r == Ok(Some(d.model.attributes))
    ensures d.Many? ==> r == Ok(if d.models == [] then None else Some(d.models[0].attributes))
  {
    var isModel :- IsModel(d);
    if isModel then Ok(Some(d.model.attributes))
    else if IsCollection(d) == Ok(true) then
      Ok(if d.models == [] then None else Some(d.models[0].attributes))
    else Ok(None)
  }

  /**
   * `getDataAttributesList(data)`: `_.keys` of the attributes (none for
   * `undefined`), filtered.  The list is that of the model or of a
   * collection's first model, empty for an empty collection, and reading it
   * off a missing value throws.
   */
  function GetDataAttributesList(d: Data): (r: Result<seq<string>>)
    ensures d.Nullish? ==> r == Err(TypeError)
    ensures d.Single? ==> r == Ok(FilterAttributes(Keys(d.model.attributes)))
    ensures d.Many? && d.models != [] ==> r == Ok(FilterAttributes(Keys(d.models[0].attributes)))
    ensures d == Many([]) ==> r == Ok([])
  {
    var attributes :- GetDataAttributes(d);
    Ok(FilterAttributes(Keys(attributes.GetOr([]))))
  }

  /** The two guards are complements on present data and both throw on a missing value. */
  lemma GuardsComplement(d: Data)
    ensures IsModel(d).Err? <==> d.Nullish?
    ensures IsCollection(d).Err? <==> d.Nullish?
    ensures !d.Nullish? ==> IsModel(d).value == !IsCollection(d).value
  {
  }

  /** The model of the test suite: `{id, attr, related_id, another_id, related_type}` keeps only `attr`. */
  lemma DropsIdsAndTypes()
    ensures FilterAttributes(["id", "attr", "related_id", "another_id", "related_type"]) == ["attr"]
  {
    assert EndsWith("related_id", "_id") && EndsWith("another_id", "_id") && EndsWith("related_type", "_type");
    assert !EndsWith("attr", "_id") && !EndsWith("attr", "_type");
  }
}
