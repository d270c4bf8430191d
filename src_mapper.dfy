/**
 * `Bookshelf` of src/bookshelf/mapper.ts: a mapper bound to a base URL and
 * the serializer options that override the computed template.  `Map` builds
 * the template step by step, overwriting the caller's `relations` option
 * with the deprecated `includeRelations` when that one is truthy.
 */
module SrcMapper {
  import opened JsValues
  import opened JsObjects
  import opened Foreign
  import opened BookshelfData
  import opened PageLinks
  import opened SrcLinks
  import opened SrcUtils
  import opened SrcTemplates

  /** The `bookshelfOptions` argument; only `relations` is ever written. */
  class BookshelfOptions {
    const includeRelations: Value
    const query: Option<Obj>
    const pagination: Option<Obj>
    var relations: Value

    constructor (includeRelations: Value, query: Option<Obj>, pagination: Option<Obj>, relations: Value)
      ensures this.includeRelations == includeRelations && this.query == query
      ensures this.pagination == pagination && this.relations == relations
    {
      this.includeRelations := includeRelations;
      this.query := query;
      this.pagination := pagination;
      this.relations := relations;
    }
  }

  /** `bookshelfOptions.query`, where an omitted argument stands for the default `{relations: true}`. */
  function QueryOf(options: BookshelfOptions?): Option<Obj> {
    if options == null then None else options.query
  }

  /** `bookshelfOptions.pagination`, likewise. */
  function PaginationOf(options: BookshelfOptions?): Option<Obj> {
    if options == null then None else options.pagination
  }

  /**
   * The `relations` option the loop reads: the caller's, replaced by a
   * truthy `includeRelations` when the data is a model.
   */
  function EffectiveRelations(includeRelations: Value, relations: Value, data: Data): (v: Value)
    ensures data.Single? && IsTruthy(includeRelations) ==> v == includeRelations
    ensures !(data.Single? && IsTruthy(includeRelations)) ==> v == relations
  {
    if data.Single? && IsTruthy(includeRelations) then includeRelations else relations
  }

  class Bookshelf {
    const baseUrl: string
    /** The serializer options; an omitted object is the empty one, which `_.assign` ignores. */
    const serializerOptions: Template

    constructor (baseUrl: string, serializerOptions: Template)
      ensures this.baseUrl == baseUrl && this.serializerOptions == serializerOptions
    {
      this.baseUrl := baseUrl;
      this.serializerOptions := serializerOptions;
    }

    /**
     * `map(data, type, bookshelfOptions)`, returning the template handed to
     * the serializer.  `null` options stand for the omitted argument.
     */
    method Map(env: Env, data: Data, typeName: string, options: BookshelfOptions?) returns (r: Result<Template>)
      modifies options
      ensures options != null ==>
        options.relations == EffectiveRelations(options.includeRelations, old(options.relations), data)
      ensures r == MapTemplate(baseUrl, typeName,
        BuildTop(env, baseUrl, typeName, PaginationOf(options), QueryOf(options)),
        BuildSelf(baseUrl, typeName, ObjectValue(QueryOf(options))),
        data, if options == null then Atom(Bool(true)) else options.relations, serializerOptions)
    {
      var relations := if options == null then Atom(Bool(true)) else options.relations;
      var query := QueryOf(options);
      var template := LinksTemplate(
        BuildTop(env, baseUrl, typeName, PaginationOf(options), query),
        BuildSelf(baseUrl, typeName, ObjectValue(query)));
      var isModel :- IsModel(data);
      if isModel {
        var names := GetDataAttributesList(data).value;
        template := Set(template, "attributes", Names(names));
        if options != null && IsTruthy(options.includeRelations) {
          options.relations := options.includeRelations;
          relations := options.relations;
        }
        if IsTruthy(relations) {
          template :- AddRelations(baseUrl, typeName, relations, data.model.relations, template);
        }
      } else {
        var names :- GetDataAttributesList(First(data.models));
        template := Set(template, "attributes", Names(names));
      }
      return Ok(Assign(template, serializerOptions));
    }
  }

  /** Every relation passes an allow-list that is neither `false` nor an array. */
  lemma {:induction false} AllPermitted(relations: Value, names: seq<string>)
    requires !relations.Strings? && relations != Atom(Bool(false))
    ensures PermittedNames(relations, names) == names
  {
    if names != [] {
      AllPermitted(relations, names[1..]);
    }
  }

  /**
   * Without options every relation of a model is added: the attribute list
   * is the filtered attribute names followed by all relation names.
   */
  lemma DefaultOptionsAddEveryRelation(env: Env, b: Bookshelf, m: Model, typeName: string)
    requires "attributes" !in Keys(m.relations) && "attributes" !in Keys(b.serializerOptions)
    requires ReadableRelations(Atom(Bool(true)), m.relations)
    ensures var r := MapTemplate(b.baseUrl, typeName,
        BuildTop(env, b.baseUrl, typeName, None, None), BuildSelf(b.baseUrl, typeName, Atom(Undefined)),
        Single(m), Atom(Bool(true)), b.serializerOptions);
      && r.Ok?
      && Get(r.value, "attributes") == Some(Names(FilterAttributes(Keys(m.attributes)) + Keys(m.relations)))
  {
    var top := BuildTop(env, b.baseUrl, typeName, None, None);
    var self := BuildSelf(b.baseUrl, typeName, Atom(Undefined));
    MapModelAttributes(b.baseUrl, typeName, top, self, m, Atom(Bool(true)), b.serializerOptions);
    AllPermitted(Atom(Bool(true)), Keys(m.relations));
  }

  /**
   * `map` hands its `query` option to `buildSelf` as the related type: with
   * a query the data link cannot be computed for any resource, and without
   * one it is the URL of the mapped type.
   */
  lemma QueryInDataLinks(env: Env, baseUrl: string, typeName: string, query: Option<Obj>, current: Data)
    ensures query.Some? ==> SelfHref(env, BuildSelf(baseUrl, typeName, ObjectValue(query)), current) == Err(NotAString)
    ensures query.None? && current.Single? ==>
      SelfHref(env, BuildSelf(baseUrl, typeName, ObjectValue(query)), current)
        == Ok(Some(baseUrl + "/" + env.pluralize(typeName) + "/" + ToStr(current.model.id)))
  {
  }
}
