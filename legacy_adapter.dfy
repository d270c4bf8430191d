/**
 * The first adapter, lib/adapters/bookshelf.js.  Links are plain strings
 * built once; every attribute key is kept (`id` included); a relation is
 * added unless it is empty, and its sub-templates are first collected in a
 * side object and then copied onto the options.
 */
module LegacyAdapter {
  import opened JsValues
  import opened JsObjects
  import opened Foreign
  import opened BookshelfData
  import SrcUtils

  /** The transform schema of one relation, with its links already computed. */
  datatype LegacyRelation = LegacyRelation(
    ref: string,
    attributes: seq<string>,
    relationshipSelf: string,
    relationshipRelated: string,
    includedSelf: string,
    included: bool)

  /** A value of the options object handed to the serializer. */
  datatype Entry =
    | Links(self: string)
    | Names(names: seq<string>)
    | Relation(rel: LegacyRelation)
    | Supplied(value: Value)

  type Template = JsObject<Entry>

  /**
   * `_isRelationshipEmpty(data)`: a model always has attributes, so only
   * an empty collection is empty; a missing value throws.
   */
  function IsRelationshipEmpty(d: Data): (r: Result<bool>)
    ensures r.Err? <==> d.Nullish?
    ensures r.Ok? ==> (r.value <==> d.Many? && d.models == [])
  {
    match d
    case Nullish => Err(TypeError)
    case Single(_) => Ok(false)
    case Many(ms) => Ok(|ms| == 0)
  }

  /**
   * `_getRelationAttributes(relation)`: the first model's attributes of a
   * non-empty collection, else a model's own attributes, else undefined;
   * reading `relation.models` off a missing value throws.
   */
  function RelationAttributes(d: Data): (r: Result<Option<JsObject<Prim>>>)
    ensures r.Err? <==> d.Nullish?
    ensures r.Ok? ==> (r.value.Some? <==> IsRelationshipEmpty(d) == Ok(false))
    ensures d.Single? ==> r == Ok(Some(d.model.attributes))
    ensures d.Many? && d.models != [] ==> r == Ok(Some(d.models[0].attributes))
  {
    match d
    case Many(ms) => Ok(if |ms| > 0 then Some(ms[0].attributes) else None)
    case Single(m) => Ok(Some(m.attributes))
    case Nullish => Err(TypeError)
  }

  /**
   * `_buildSelfLink(baseUrl, modelType, id).self`: the collection URL,
   * followed by `/id` when the id is truthy.
   */
  function BuildSelfLink(env: Env, baseUrl: string, modelType: string, id: Prim): (link: string)
    ensures !Truthy(id) ==> link == baseUrl + "/" + env.pluralize(modelType)
    ensures Truthy(id) ==> link == baseUrl + "/" + env.pluralize(modelType) + "/" + ToStr(id)
  {
    var link := baseUrl + "/" + env.pluralize(modelType);
    if Truthy(id) then link + "/" + ToStr(id) else link
  }

  /**
   * `_buildTopLevelLinks(baseUrl, type).self`: the collection URL, which is
   * also every resource link built for a falsy id.
   */
  function BuildTopLevelLinks(env: Env, baseUrl: string, modelType: string): (link: string)
    ensures link == baseUrl + "/" + env.pluralize(modelType)
    ensures forall id :: !Truthy(id) ==> BuildSelfLink(env, baseUrl, modelType, id) == link
  {
    BuildSelfLink(env, baseUrl, modelType, Undefined)
  }

  /**
   * `_buildRelation(baseUrl, relationType, modelType, id, relationKeys, included)`:
   * every link hangs off the related resource `baseUrl/plural(relationType)/id`
   * and names the primary type, pluralised.
   */
  function BuildRelation(env: Env, baseUrl: string, relationType: string, modelType: string, id: Prim,
                         relationKeys: seq<string>, included: bool): (r: LegacyRelation)
    ensures r.ref == "id" && r.attributes == relationKeys && r.included == included
    ensures r.includedSelf == baseUrl + "/" + env.pluralize(relationType) + "/" + ToStr(id)
    ensures r.relationshipSelf == r.includedSelf + "/relationships/" + env.pluralize(modelType)
    ensures r.relationshipRelated == r.includedSelf + "/" + env.pluralize(modelType)
  {
    var baseRelationUrl := baseUrl + "/" + env.pluralize(relationType) + "/" + ToStr(id);
    LegacyRelation("id", relationKeys, baseRelationUrl + "/relationships/" + env.pluralize(modelType),
      baseRelationUrl + "/" + env.pluralize(modelType), baseRelationUrl, included)
  }

  /** The sub-template stored for a non-empty relation `key` whose attributes are `attrs`. */
  function RelationFor(env: Env, baseUrl: string, typeName: string, key: string, attrs: JsObject<Prim>): LegacyRelation {
    BuildRelation(env, baseUrl, key, typeName, Prop(attrs, "id"), Keys(attrs), true)
  }

  /**
   * The first `_.forOwn` over the model's relations, from the attribute
   * list `names` and the side object `relations` built so far.
   */
  function CollectRelations(env: Env, baseUrl: string, typeName: string, rels: seq<(string, Data)>,
                            names: seq<string>, relations: Template): Result<(seq<string>, Template)>
    decreases |rels|
  {
    if rels == [] then Ok((names, relations))
    else
      var (key, rel) := rels[0];
      var empty :- IsRelationshipEmpty(rel);
      if empty then CollectRelations(env, baseUrl, typeName, rels[1..], names, relations)
      else
        var attrs := RelationAttributes(rel).value.value;
        CollectRelations(env, baseUrl, typeName, rels[1..], names + [key],
          Set(relations, key, Relation(RelationFor(env, baseUrl, typeName, key, attrs))))
  }

  /** A relation that holds something: a model, or a collection with a model in it. */
  predicate Occupied(d: Data) {
    d.Single? || (d.Many? && d.models != [])
  }

  /** Some relation named `x` is occupied. */
  predicate OccupiedIn(rels: seq<(string, Data)>, x: string) {
    exists i :: 0 <= i < |rels| && rels[i].0 == x && Occupied(rels[i].1)
  }

  /** The names of the occupied relations, in order: exactly the names lines 41-60 push. */
  function OccupiedNames(rels: seq<(string, Data)>): (r: seq<string>)
    ensures forall x :: x in r ==> x in Keys(rels)
    ensures forall x :: x in r <==> OccupiedIn(rels, x)
  {
    if rels == [] then []
    else
      assert Keys(rels) == [rels[0].0] + Keys(rels[1..]);
      OccupiedCons(rels);
      (if Occupied(rels[0].1) then [rels[0].0] else []) + OccupiedNames(rels[1..])
  }

  /** An occupied relation is either the first or among the rest. */
  lemma OccupiedCons(rels: seq<(string, Data)>)
    requires rels != []
    ensures forall x :: OccupiedIn(rels, x) <==> (rels[0].0 == x && Occupied(rels[0].1)) || OccupiedIn(rels[1..], x)
  {
    var tail := rels[1..];
    forall x ensures OccupiedIn(rels, x) <==> (rels[0].0 == x && Occupied(rels[0].1)) || OccupiedIn(tail, x) {
      if OccupiedIn(tail, x) {
        var i :| 0 <= i < |tail| && tail[i].0 == x && Occupied(tail[i].1);
        assert rels[i + 1] == tail[i];
      }
      if OccupiedIn(rels, x) {
        var i :| 0 <= i < |rels| && rels[i].0 == x && Occupied(rels[i].1);
        if i > 0 {
          assert tail[i - 1] == rels[i];
        }
      }
    }
  }

  /** Whether some relation is a missing value, which makes the emptiness test throw. */
  predicate HasMissing(rels: seq<(string, Data)>) {
    exists i :: 0 <= i < |rels| && rels[i].1.Nullish?
  }

  /** The model the options are built from: the data itself or a collection's first model. */
  function TemplateModel(d: Data): (r: Result<Model>)
    ensures r.Err? <==> d.Nullish? || d == Many([])
    ensures d.Single? ==> r == Ok(d.model)
    ensures d.Many? && d.models != [] ==> r == Ok(d.models[0])
  {
    var isCollection :- SrcUtils.IsCollection(d);
    if isCollection then
      if d.models == [] then Err(TypeError) else Ok(d.models[0])
    else Ok(d.model)
  }

  /**
   * The options object `BookshelfAdapter` hands to the serializer.  It
   * throws on a missing value, on an empty collection (it reads the id of
   * its first model) and exactly when a relation of the template model is a
   * missing value.
   */
  function LegacyTemplate(env: Env, data: Data, typeName: string, baseUrl: string, serializerOptions: Template): (r: Result<Template>)
    ensures data.Nullish? || data == Many([]) ==> r == Err(TypeError)
    ensures data.Single? ==> (r.Err? <==> HasMissing(data.model.relations))
    ensures data.Many? && data.models != [] ==> (r.Err? <==> HasMissing(data.models[0].relations))
  {
    var model :- TemplateModel(data);
    var links: Template := if data.Many? then Set([], "topLevelLinks", Links(BuildTopLevelLinks(env, baseUrl, typeName))) else [];
    var options := Set(links, "dataLinks", Links(BuildSelfLink(env, baseUrl, typeName, Attribute(model, "id"))));
    CollectNames(env, baseUrl, typeName, model.relations, Keys(model.attributes), []);
    var collected :- CollectRelations(env, baseUrl, typeName, model.relations, Keys(model.attributes), []);
    Ok(Assign(Assign(Set(options, "attributes", Names(collected.0)), collected.1), serializerOptions))
  }

  /**
   * The first loop of `BookshelfAdapter`: push the name of each non-empty
   * relation onto `names` and store its sub-template in the side object.
   */
  method CollectLoop(env: Env, baseUrl: string, typeName: string, rels: JsObject<Data>, names: seq<string>)
    returns (r: Result<(seq<string>, Template)>)
    ensures r == CollectRelations(env, baseUrl, typeName, rels, names, [])
  {
    var topLevelAttributes := names;
    var relations: Template := [];
    var i := 0;
    while i < |rels|
      invariant 0 <= i <= |rels|
      invariant CollectRelations(env, baseUrl, typeName, rels, names, [])
        == CollectRelations(env, baseUrl, typeName, rels[i..], topLevelAttributes, relations)
    {
      var (key, value) := rels[i];
      assert rels[i..][0] == rels[i] && rels[i..][1..] == rels[i + 1..];
      var empty :- IsRelationshipEmpty(value);
      if !empty {
        topLevelAttributes := topLevelAttributes + [key];
        var relationAttributes := RelationAttributes(value).value.value;
        relations := Set(relations, key, Relation(RelationFor(env, baseUrl, typeName, key, relationAttributes)));
      }
      i := i + 1;
    }
    return Ok((topLevelAttributes, relations));
  }

  /** The second loop of `BookshelfAdapter`: `options[key] = relations[key]` for every key. */
  method CopyLoop(options: Template, relations: Template) returns (r: Template)
    ensures r == Assign(options, relations)
  {
    r := options;
    var j := 0;
    while j < |relations|
      invariant 0 <= j <= |relations|
      invariant Assign(options, relations) == Assign(r, relations[j..])
    {
      assert relations[j..][0] == relations[j] && relations[j..][1..] == relations[j + 1..];
      r := Set(r, relations[j].0, relations[j].1);
      j := j + 1;
    }
  }

  /**
   * `BookshelfAdapter(data, type, baseUrl, serializerOptions)`, returning
   * the options handed to the serializer.
   */
  method BookshelfAdapter(env: Env, data: Data, typeName: string, baseUrl: string, serializerOptions: Template)
    returns (r: Result<Template>)
    ensures r == LegacyTemplate(env, data, typeName, baseUrl, serializerOptions)
  {
    var isCollection :- SrcUtils.IsCollection(data);
    var model: Model;
    if isCollection {
      if data.models == [] {
        return Err(TypeError);
      }
      model := data.models[0];
    } else {
      model := data.model;
    }
    var options: Template := [];
    if isCollection {
      options := Set(options, "topLevelLinks", Links(BuildTopLevelLinks(env, baseUrl, typeName)));
    }
    options := Set(options, "dataLinks", Links(BuildSelfLink(env, baseUrl, typeName, Attribute(model, "id"))));
    var collected :- CollectLoop(env, baseUrl, typeName, model.relations, Keys(model.attributes));
    options := Set(options, "attributes", Names(collected.0));
    options := CopyLoop(options, collected.1);
    return Ok(Assign(options, serializerOptions));
  }

  lemma HasMissingCons(rels: seq<(string, Data)>)
    requires rels != []
    ensures HasMissing(rels) <==> rels[0].1.Nullish? || HasMissing(rels[1..])
  {
    var tail := rels[1..];
    if HasMissing(tail) {
      var i :| 0 <= i < |tail| && tail[i].1.Nullish?;
      assert rels[i + 1] == tail[i];
    }
    if HasMissing(rels) && !rels[0].1.Nullish? {
      var i :| 0 <= i < |rels| && rels[i].1.Nullish?;
      assert tail[i - 1] == rels[i];
    }
  }

  /**
   * The first loop throws exactly when some relation is a missing value;
   * otherwise it appends the names of the non-empty relations, in order.
   */
  lemma {:induction false} CollectNames(env: Env, baseUrl: string, typeName: string, rels: JsObject<Data>,
                                        names: seq<string>, relations: Template)
    ensures var r := CollectRelations(env, baseUrl, typeName, rels, names, relations);
      && (r.Err? <==> HasMissing(rels))
      && (r.Ok? ==> r.value.0 == names + OccupiedNames(rels))
    decreases |rels|
  {
    if rels != [] {
      var tail: JsObject<Data> := rels[1..];
      var key, rel := rels[0].0, rels[0].1;
      HasMissingCons(rels);
      if !rel.Nullish? {
        assert OccupiedNames(rels) == (if Occupied(rel) then [key] else []) + OccupiedNames(tail);
        if Occupied(rel) {
          var relations' := Set(relations, key, Relation(RelationFor(env, baseUrl, typeName, key, RelationAttributes(rel).value.value)));
          assert CollectRelations(env, baseUrl, typeName, rels, names, relations)
              == CollectRelations(env, baseUrl, typeName, tail, names + [key], relations');
          CollectNames(env, baseUrl, typeName, tail, names + [key], relations');
          ConcatStrings(names, [key], OccupiedNames(tail));
        } else {
          assert CollectRelations(env, baseUrl, typeName, rels, names, relations)
              == CollectRelations(env, baseUrl, typeName, tail, names, relations);
          CollectNames(env, baseUrl, typeName, tail, names, relations);
          assert [] + OccupiedNames(tail) == OccupiedNames(tail);
        }
      }
    }
  }

  /** The sub-template the first loop stores for the non-empty relation `k` of `rels`. */
  function StoredRelation(env: Env, baseUrl: string, typeName: string, rels: JsObject<Data>, k: string): Entry
    requires k in Keys(rels)
  {
    var attrs := RelationAttributes(Get(rels, k).value);
    Relation(RelationFor(env, baseUrl, typeName, k, if attrs.Ok? then attrs.value.GetOr([]) else []))
  }

  /**
   * The side object the first loop builds holds one sub-template per
   * non-empty relation, under the relation's name, and keeps what it held.
   */
  lemma {:induction false} CollectEntries(env: Env, baseUrl: string, typeName: string, rels: JsObject<Data>,
                                          names: seq<string>, relations: Template)
    ensures var r := CollectRelations(env, baseUrl, typeName, rels, names, relations);
      r.Ok? ==>
        forall k :: Get(r.value.1, k) ==
          if k in OccupiedNames(rels) then Some(StoredRelation(env, baseUrl, typeName, rels, k)) else Get(relations, k)
    decreases |rels|
  {
    if rels != [] && !rels[0].1.Nullish? {
      var tail: JsObject<Data> := rels[1..];
      var (key, rel) := rels[0];
      assert Keys(rels) == [key] + Keys(tail);
      assert key !in Keys(tail);
      forall k | k != key ensures Get(rels, k) == Get(tail, k) {
        GetCons(rels, k);
      }
      GetCons(rels, key);
      var relations' := if Occupied(rel) then Set(relations, key, Relation(RelationFor(env, baseUrl, typeName, key, RelationAttributes(rel).value.value))) else relations;
      CollectEntries(env, baseUrl, typeName, tail, if Occupied(rel) then names + [key] else names, relations');
    }
  }

  /**
   * Every key of the options object: the serializer options win, then the
   * sub-templates of the non-empty relations, then the attribute list (all
   * attribute keys, then the non-empty relation names), the resource link
   * and, for a collection only, the top-level link; nothing else is set.
   */
  lemma LegacyEntries(env: Env, data: Data, typeName: string, baseUrl: string, serializerOptions: Template, k: string)
    requires TemplateModel(data).Ok? && !HasMissing(TemplateModel(data).value.relations)
    ensures var model := TemplateModel(data).value;
      var r := LegacyTemplate(env, data, typeName, baseUrl, serializerOptions);
      && r.Ok?
      && Get(r.value, k) ==
        if k in Keys(serializerOptions) then Get(serializerOptions, k)
        else if k in OccupiedNames(model.relations) then Some(StoredRelation(env, baseUrl, typeName, model.relations, k))
        else if k == "attributes" then Some(Names(Keys(model.attributes) + OccupiedNames(model.relations)))
        else if k == "dataLinks" then Some(Links(BuildSelfLink(env, baseUrl, typeName, Attribute(model, "id"))))
        else if k == "topLevelLinks" && data.Many? then Some(Links(BuildTopLevelLinks(env, baseUrl, typeName)))
        else None
  {
    var model := TemplateModel(data).value;
    CollectNames(env, baseUrl, typeName, model.relations, Keys(model.attributes), []);
    CollectEntries(env, baseUrl, typeName, model.relations, Keys(model.attributes), []);
    var collected := CollectRelations(env, baseUrl, typeName, model.relations, Keys(model.attributes), []).value;
    var links: Template := if data.Many? then Set([], "topLevelLinks", Links(BuildTopLevelLinks(env, baseUrl, typeName))) else [];
    var options := Set(Set(links, "dataLinks", Links(BuildSelfLink(env, baseUrl, typeName, Attribute(model, "id")))), "attributes", Names(collected.0));
    GetAssign(options, collected.1, k);
    GetAssign(Assign(options, collected.1), serializerOptions, k);
  }

  /** Resources with different non-zero integer ids get different links. */
  lemma SelfLinksDistinct(env: Env, baseUrl: string, modelType: string, m: int, n: int)
    requires m != 0 && n != 0 && m != n
    ensures BuildSelfLink(env, baseUrl, modelType, Num(m)) != BuildSelfLink(env, baseUrl, modelType, Num(n))
  {
    var prefix := baseUrl + "/" + env.pluralize(modelType) + "/";
    if BuildSelfLink(env, baseUrl, modelType, Num(m)) == BuildSelfLink(env, baseUrl, modelType, Num(n)) {
      assert (prefix + IntToString(m))[|prefix|..] == IntToString(m);
      assert (prefix + IntToString(n))[|prefix|..] == IntToString(n);
      IntToStringInjective(m, n);
    }
  }
}
