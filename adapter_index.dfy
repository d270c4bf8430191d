/**
 * The `adapter` of lib/adapters/bookshelf/index.ts: every relation of a
 * model is added, with no allow-list.  Its call of `buildRelation` passes
 * `(baseUrl, type, relName, keys, true)` to the parameters
 * `(baseUrl, relationType, relationKeys, modelType, included)`, so the key
 * list lands in the `modelType` slot and is handed to `pluralize`.
 */
module AdapterIndex {
  import opened JsValues
  import opened JsObjects
  import opened Foreign
  import opened BookshelfData
  import opened AdapterLinks
  import opened AdapterUtils

  /** A value of the template object. */
  datatype Entry =
    | TopLinks(links: JsObject<TopLink>)
    | DataLinks(link: SelfLink)
    | Names(names: seq<string>)
    | Relation(rel: AdapterRelation)
    | Supplied(value: Value)

  type Template = JsObject<Entry>

  /** The `adapterOptions` argument; an omitted one defaults to `{}`. */
  datatype AdapterOptions = AdapterOptions(query: Option<Obj>, pagination: Option<Obj>)

  function OptionsOrDefault(options: Option<AdapterOptions>): (o: AdapterOptions)
    ensures options.None? ==> o.query.None? && o.pagination.None?
    ensures options.Some? ==> o == options.value
  {
    options.GetOr(AdapterOptions(None, None))
  }

  /** The sub-template of relation `relName`, built with the arguments in the order written. */
  function RelationEntry(env: Env, baseUrl: string, typeName: string, relName: string, relModel: Data): Result<Entry> {
    var rel :- BuildRelation(env, baseUrl, Atom(Str(typeName)), Atom(Str(relName)), Strings(GetDataAttributesList(relModel)), true);
    Ok(Relation(rel))
  }

  /** One call of the `_.forOwn` callback: push the name, then store the sub-template. */
  function AddOne(env: Env, baseUrl: string, typeName: string, t: Template, relName: string, relModel: Data): Result<Template> {
    var attributes: Option<Entry> := Get(t, "attributes");
    match attributes
    case Some(Names(names)) =>
      var t1 := Set(t, "attributes", Names(names + [relName]));
      var entry :- RelationEntry(env, baseUrl, typeName, relName, relModel);
      Ok(Set(t1, relName, entry))
    case _ => Err(TypeError)
  }

  /** The `_.forOwn(model.relations, ...)` loop from template `t`. */
  function AddAll(env: Env, baseUrl: string, typeName: string, rels: seq<(string, Data)>, t: Template): Result<Template>
    decreases |rels|
  {
    if rels == [] then Ok(t)
    else
      var t1 :- AddOne(env, baseUrl, typeName, t, rels[0].0, rels[0].1);
      AddAll(env, baseUrl, typeName, rels[1..], t1)
  }

  /** The template before the data is looked at: the two link objects. */
  function LinksTemplate(env: Env, baseUrl: string, typeName: string, o: AdapterOptions): (t: Template)
    ensures Keys(t) == ["topLevelLinks", "dataLinks"]
    ensures Get(t, "topLevelLinks") == Some(TopLinks(BuildTop(env, baseUrl, typeName, o.query, o.pagination)))
    ensures Get(t, "dataLinks") == Some(DataLinks(BuildSelf(baseUrl, typeName, o.query)))
  {
    var t: Template := [("topLevelLinks", TopLinks(BuildTop(env, baseUrl, typeName, o.query, o.pagination))),
                        ("dataLinks", DataLinks(BuildSelf(baseUrl, typeName, o.query)))];
    assert Keys(t) == ["topLevelLinks", "dataLinks"];
    t
  }

  /**
   * The template `adapter` hands to the serializer.  A missing value passes
   * both `instanceof` tests untouched and throws at `data.toJSON()`; a model
   * with any relation fails, because the key list handed to `pluralize` as
   * a type name is not a string.
   */
  function IndexTemplate(env: Env, data: Data, typeName: string, baseUrl: string, serializerOptions: Template,
                         adapterOptions: Option<AdapterOptions>): (r: Result<Template>)
    ensures r.Err? <==> data.Nullish? || (data.Single? && data.model.relations != [])
    ensures data.Nullish? ==> r == Err(TypeError)
    ensures data.Single? && data.model.relations != [] ==> r == Err(NotAString)
  {
    var t := LinksTemplate(env, baseUrl, typeName, OptionsOrDefault(adapterOptions));
    var t :- match data
      case Single(m) =>
        assert m.relations != [] ==> RelationEntry(env, baseUrl, typeName, m.relations[0].0, m.relations[0].1) == Err(NotAString);
        AddAll(env, baseUrl, typeName, m.relations, Set(t, "attributes", Names(GetDataAttributesList(data))))
      case Many(ms) => Ok(Set(t, "attributes", Names(GetDataAttributesList(First(ms)))))
      case Nullish => Ok(t);
    if data.Nullish? then Err(TypeError) else Ok(Assign(t, serializerOptions))
  }

  /**
   * `adapter(data, type, baseUrl, serializerOptions, adapterOptions)`,
   * returning the template handed to the serializer.
   */
  method Adapter(env: Env, data: Data, typeName: string, baseUrl: string, serializerOptions: Template,
                 adapterOptions: Option<AdapterOptions>) returns (r: Result<Template>)
    ensures r == IndexTemplate(env, data, typeName, baseUrl, serializerOptions, adapterOptions)
  {
    var options := OptionsOrDefault(adapterOptions);
    var template := LinksTemplate(env, baseUrl, typeName, options);
    if data.Single? {
      var model := data.model;
      template := Set(template, "attributes", Names(GetDataAttributesList(data)));
      ghost var start := template;
      var acc: Result<Template> := Ok(template);
      var i := 0;
      while i < |model.relations| && acc.Ok?
        invariant 0 <= i <= |model.relations|
        invariant acc.Ok? ==> AddAll(env, baseUrl, typeName, model.relations, start) == AddAll(env, baseUrl, typeName, model.relations[i..], acc.value)
        invariant acc.Err? ==> AddAll(env, baseUrl, typeName, model.relations, start) == acc
      {
        assert model.relations[i..][0] == model.relations[i] && model.relations[i..][1..] == model.relations[i + 1..];
        var (relName, relModel) := model.relations[i];
        acc := AddOne(env, baseUrl, typeName, acc.value, relName, relModel);
        i := i + 1;
      }
      if acc.Err? {
        return Err(acc.error);
      }
      template := acc.value;
    } else if data.Many? {
      template := Set(template, "attributes", Names(GetDataAttributesList(First(data.models))));
    }
    if data.Nullish? {
      return Err(TypeError);
    }
    return Ok(Assign(template, serializerOptions));
  }

  /**
   * A model without relations, or a collection (empty or not): the
   * attribute list is every attribute key of the model or of the first
   * model (none for an empty collection), the serializer options win, and
   * the links are built from the options (an omitted object counting as
   * `{}`).
   */
  lemma IndexWithoutRelations(env: Env, data: Data, typeName: string, baseUrl: string, serializerOptions: Template,
                              adapterOptions: Option<AdapterOptions>, k: string)
    requires data.Many? || (data.Single? && data.model.relations == [])
    ensures var r := IndexTemplate(env, data, typeName, baseUrl, serializerOptions, adapterOptions);
      var o := OptionsOrDefault(adapterOptions);
      && r.Ok?
      && Get(r.value, k) ==
        if k in Keys(serializerOptions) then Get(serializerOptions, k)
        else if k == "attributes" then
          Some(Names(if data.Single? then Keys(data.model.attributes)
                     else if data.models == [] then [] else Keys(data.models[0].attributes)))
        else if k == "topLevelLinks" then Some(TopLinks(BuildTop(env, baseUrl, typeName, o.query, o.pagination)))
        else if k == "dataLinks" then Some(DataLinks(BuildSelf(baseUrl, typeName, o.query)))
        else None
  {
    var o := OptionsOrDefault(adapterOptions);
    var l := LinksTemplate(env, baseUrl, typeName, o);
    var names := if data.Single? then Keys(data.model.attributes)
                 else if data.models == [] then [] else Keys(data.models[0].attributes);
    var t := Set(l, "attributes", Names(names));
    IndexWithoutRelationsBase(env, data, typeName, baseUrl, serializerOptions, adapterOptions);
    GetAssign(t, serializerOptions, k);
    if k !in Keys(serializerOptions) && k != "attributes" {
      assert Get(t, k) == Get(l, k);
      if k != "topLevelLinks" && k != "dataLinks" {
        assert k !in Keys(l);
      }
    }
  }

  /** Without relations to add, the result is the links, then the attribute list, then the serializer options. */
  lemma IndexWithoutRelationsBase(env: Env, data: Data, typeName: string, baseUrl: string, serializerOptions: Template,
                                  adapterOptions: Option<AdapterOptions>)
    requires data.Many? || (data.Single? && data.model.relations == [])
    ensures var names := if data.Single? then Keys(data.model.attributes)
                         else if data.models == [] then [] else Keys(data.models[0].attributes);
      var t := Set(LinksTemplate(env, baseUrl, typeName, OptionsOrDefault(adapterOptions)), "attributes", Names(names));
      IndexTemplate(env, data, typeName, baseUrl, serializerOptions, adapterOptions) == Ok(Assign(t, serializerOptions))
  {
    var l := LinksTemplate(env, baseUrl, typeName, OptionsOrDefault(adapterOptions));
    if data.Single? {
      var t := Set(l, "attributes", Names(GetDataAttributesList(data)));
      assert AddAll(env, baseUrl, typeName, data.model.relations, t) == Ok(t);
    }
  }
}
