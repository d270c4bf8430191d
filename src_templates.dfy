/**
 * The serializer template that both mappers of `src/bookshelf` build: the
 * top-level and resource links, the attribute-name list, one sub-template
 * per permitted relation, and finally the caller's serializer options laid
 * over it.  `MapTemplate` is the template as a function of the inputs;
 * `AddRelations` is the `_.forOwn` loop that fills in the relations.
 */
module SrcTemplates {
  import opened JsValues
  import opened JsObjects
  import opened Foreign
  import opened BookshelfData
  import opened SrcLinks
  import opened SrcUtils

  /** A value of the template object. */
  datatype Entry =
    | TopLinks(links: JsObject<TopLink>)
    | DataLinks(link: SelfLink)
    | Names(names: seq<string>)
    | Relation(rel: RelationTemplate)
    | Supplied(value: Value)

  type Template = JsObject<Entry>

  /**
   * The allow-list test of the loop: a relation is skipped when
   * `relations === false`, or when `relations` is a string array that
   * does not name it.
   */
  predicate Permitted(relations: Value, name: string) {
    !(relations == Atom(Bool(false)) || (relations.Strings? && name !in relations.items))
  }

  /** The names in `names` that the allow-list lets through, in order. */
  function PermittedNames(relations: Value, names: seq<string>): (r: seq<string>)
    ensures forall x :: x in r <==> x in names && Permitted(relations, x)
  {
    if names == [] then []
    else if Permitted(relations, names[0]) then [names[0]] + PermittedNames(relations, names[1..])
    else PermittedNames(relations, names[1..])
  }

  /** `template.attributes.push(name)`: throws unless `attributes` holds an array. */
  function PushName(t: Template, name: string): (r: Result<Template>)
    ensures r.Ok? <==> Get(t, "attributes").Some? && Get(t, "attributes").value.Names?
    ensures r.Ok? ==> Keys(r.value) == Keys(t)
    ensures r.Ok? ==> Get(r.value, "attributes") == Some(Names(Get(t, "attributes").value.names + [name]))
    ensures r.Ok? ==> forall k :: k != "attributes" ==> Get(r.value, k) == Get(t, k)
  {
    var attributes: Option<Entry> := Get(t, "attributes");
    match attributes
    case Some(Names(names)) => Ok(Set(t, "attributes", Names(names + [name])))
    case _ => Err(TypeError)
  }

  /** The sub-template the loop stores under a relation's name. */
  function RelationEntry(baseUrl: string, typeName: string, relName: string, relModel: Data): Result<Entry> {
    var keys :- GetDataAttributesList(relModel);
    Ok(Relation(BuildRelation(baseUrl, typeName, relName, keys, true)))
  }

  /** One call of the `_.forOwn` callback. */
  function AddRelation(baseUrl: string, typeName: string, relations: Value, t: Template, relName: string, relModel: Data): Result<Template> {
    if !Permitted(relations, relName) then Ok(t)
    else
      var t1 :- PushName(t, relName);
      var entry :- RelationEntry(baseUrl, typeName, relName, relModel);
      Ok(Set(t1, relName, entry))
  }

  /** The whole `_.forOwn(model.relations, ...)`, starting from template `t`. */
  function WithRelations(baseUrl: string, typeName: string, relations: Value, rels: seq<(string, Data)>, t: Template): Result<Template>
    decreases |rels|
  {
    if rels == [] then Ok(t)
    else
      var t1 :- AddRelation(baseUrl, typeName, relations, t, rels[0].0, rels[0].1);
      WithRelations(baseUrl, typeName, relations, rels[1..], t1)
  }

  /**
   * The loop of `map` / `adapter` over the model's relations, in their own
   * order: push each permitted name onto `template.attributes` and store
   * its sub-template under the name.
   */
  method AddRelations(baseUrl: string, typeName: string, relations: Value, rels: JsObject<Data>, t0: Template) returns (r: Result<Template>)
    ensures r == WithRelations(baseUrl, typeName, relations, rels, t0)
  {
    var template := t0;
    var i := 0;
    while i < |rels|
      invariant 0 <= i <= |rels|
      invariant WithRelations(baseUrl, typeName, relations, rels, t0) == WithRelations(baseUrl, typeName, relations, rels[i..], template)
    {
      var (relName, relModel) := rels[i];
      assert rels[i..][0] == rels[i] && rels[i..][1..] == rels[i + 1..];
      if Permitted(relations, relName) {
        var attributes: Option<Entry> := Get(template, "attributes");
        match attributes {
          case Some(Names(names)) =>
            template := Set(template, "attributes", Names(names + [relName]));
          case _ =>
            return Err(TypeError);
        }
        var keys := GetDataAttributesList(relModel);
        if keys.Err? {
          return Err(keys.error);
        }
        template := Set(template, relName, Relation(BuildRelation(baseUrl, typeName, relName, keys.value, true)));
      }
      i := i + 1;
    }
    return Ok(template);
  }

  /** The template before the data is looked at: the two link objects. */
  function LinksTemplate(topLinks: JsObject<TopLink>, dataLinks: SelfLink): (t: Template)
    ensures Keys(t) == ["topLevelLinks", "dataLinks"]
    ensures Get(t, "topLevelLinks") == Some(TopLinks(topLinks)) && Get(t, "dataLinks") == Some(DataLinks(dataLinks))
  {
    var t: Template := [("topLevelLinks", TopLinks(topLinks)), ("dataLinks", DataLinks(dataLinks))];
    assert Keys(t) == ["topLevelLinks", "dataLinks"];
    t
  }

  /**
   * The template `map` / `adapter` hands to the serializer, given the link
   * objects it built, the data, the effective `relations` option and the
   * serializer options to lay over it.
   */
  function MapTemplate(baseUrl: string, typeName: string, topLinks: JsObject<TopLink>, dataLinks: SelfLink,
                       data: Data, relations: Value, overrides: Template): (r: Result<Template>)
    ensures r.Err? ==> r.error == TypeError
    ensures data.Nullish? ==> r.Err?
    ensures data.Many? ==> (r.Err? <==> data.models == [])
    ensures data.Single? ==> (r.Err? <==> IsTruthy(relations) && MapModelThrows(relations, data.model.relations))
  {
    var t := LinksTemplate(topLinks, dataLinks);
    var isModel :- IsModel(data);
    if isModel then
      var names := GetDataAttributesList(data).value;
      var t := Set(t, "attributes", Names(names));
      WithRelationsFails(baseUrl, typeName, relations, data.model.relations, t, names);
      var t :- if IsTruthy(relations) then WithRelations(baseUrl, typeName, relations, data.model.relations, t) else Ok(t);
      Ok(Assign(t, overrides))
    else
      var names :- GetDataAttributesList(First(data.models));
      Ok(Assign(Set(t, "attributes", Names(names)), overrides))
  }

  /** Some relation the allow-list lets through is a missing value, whose attribute list throws. */
  predicate MissingPermitted(relations: Value, rels: seq<(string, Data)>) {
    exists i :: 0 <= i < |rels| && Permitted(relations, rels[i].0) && rels[i].1.Nullish?
  }

  /**
   * A permitted relation comes after a permitted relation named
   * `attributes`, whose sub-template has by then replaced the attribute
   * list, so that the next push throws.
   */
  predicate PermittedAfterAttributes(relations: Value, rels: seq<(string, Data)>) {
    exists i, j :: 0 <= j < i < |rels| && rels[j].0 == "attributes" && Permitted(relations, rels[j].0) && Permitted(relations, rels[i].0)
  }

  /** The loop over a model's relations throws one way or the other. */
  predicate MapModelThrows(relations: Value, rels: seq<(string, Data)>) {
    MissingPermitted(relations, rels) || PermittedAfterAttributes(relations, rels)
  }

  /** A missing permitted relation is either the first relation or among the rest. */
  lemma MissingCons(relations: Value, rels: seq<(string, Data)>)
    requires rels != []
    ensures MissingPermitted(relations, rels) <==>
      (Permitted(relations, rels[0].0) && rels[0].1.Nullish?) || MissingPermitted(relations, rels[1..])
  {
    var tail := rels[1..];
    if MissingPermitted(relations, tail) {
      var i :| 0 <= i < |tail| && Permitted(relations, tail[i].0) && tail[i].1.Nullish?;
      assert rels[i + 1] == tail[i];
    }
    if MissingPermitted(relations, rels) && !(Permitted(relations, rels[0].0) && rels[0].1.Nullish?) {
      var i :| 0 <= i < |rels| && Permitted(relations, rels[i].0) && rels[i].1.Nullish?;
      assert tail[i - 1] == rels[i];
    }
  }

  /** When the first relation is not `attributes`, a permitted relation after `attributes` lies among the rest. */
  lemma AfterAttributesCons(relations: Value, rels: seq<(string, Data)>)
    requires rels != [] && rels[0].0 != "attributes"
    ensures PermittedAfterAttributes(relations, rels) <==> PermittedAfterAttributes(relations, rels[1..])
  {
    var tail := rels[1..];
    if PermittedAfterAttributes(relations, tail) {
      var i, j :| 0 <= j < i < |tail| && tail[j].0 == "attributes" && Permitted(relations, tail[j].0) && Permitted(relations, tail[i].0);
      assert rels[i + 1] == tail[i] && rels[j + 1] == tail[j];
    }
    if PermittedAfterAttributes(relations, rels) {
      var i, j :| 0 <= j < i < |rels| && rels[j].0 == "attributes" && Permitted(relations, rels[j].0) && Permitted(relations, rels[i].0);
      assert tail[i - 1] == rels[i] && tail[j - 1] == rels[j];
    }
  }

  /**
   * When the first relation is `attributes`, a permitted relation follows it
   * exactly when it is permitted and some later relation is.
   */
  lemma AfterAttributesHead(relations: Value, rels: JsObject<Data>)
    requires rels != [] && rels[0].0 == "attributes"
    ensures PermittedAfterAttributes(relations, rels) <==>
      Permitted(relations, "attributes") && PermittedNames(relations, Keys(rels[1..])) != []
  {
    var tail: JsObject<Data> := rels[1..];
    if PermittedAfterAttributes(relations, rels) {
      var i, j :| 0 <= j < i < |rels| && rels[j].0 == "attributes" && Permitted(relations, rels[j].0) && Permitted(relations, rels[i].0);
      assert j == 0;
      assert tail[i - 1] == rels[i] && Keys(tail)[i - 1] == rels[i].0;
    }
    if Permitted(relations, "attributes") && PermittedNames(relations, Keys(tail)) != [] {
      var x := PermittedNames(relations, Keys(tail))[0];
      assert x in PermittedNames(relations, Keys(tail));
      var i := IndexOf(tail, x);
      assert rels[i + 1] == tail[i];
    }
  }

  /** Once the attribute list is gone, the loop throws at the first permitted relation. */
  lemma {:induction false} WithRelationsStuck(baseUrl: string, typeName: string, relations: Value, rels: JsObject<Data>, t: Template)
    requires !(Get(t, "attributes").Some? && Get(t, "attributes").value.Names?)
    ensures WithRelations(baseUrl, typeName, relations, rels, t) ==
      if PermittedNames(relations, Keys(rels)) == [] then Ok(t) else Err(TypeError)
    decreases |rels|
  {
    if rels != [] {
      var tail: JsObject<Data> := rels[1..];
      KeysCons(rels);
      assert Keys(rels)[1..] == Keys(tail);
      WithRelationsStuck(baseUrl, typeName, relations, tail, t);
    }
  }

  /** What one callback does to a template that still holds its attribute list. */
  lemma AddRelationOutcome(baseUrl: string, typeName: string, relations: Value, t: Template, names: seq<string>, name: string, d: Data)
    requires Get(t, "attributes") == Some(Names(names))
    ensures var step := AddRelation(baseUrl, typeName, relations, t, name, d);
      && (!Permitted(relations, name) ==> step == Ok(t))
      && (Permitted(relations, name) && d.Nullish? ==> step == Err(TypeError))
      && (Permitted(relations, name) && !d.Nullish? && name == "attributes" ==>
            step.Ok? && !(Get(step.value, "attributes").Some? && Get(step.value, "attributes").value.Names?))
      && (Permitted(relations, name) && !d.Nullish? && name != "attributes" ==>
            step.Ok? && Get(step.value, "attributes") == Some(Names(names + [name])))
  {
  }

  /**
   * The loop over the relations throws (a `TypeError`) exactly when a
   * permitted relation is a missing value or a permitted relation follows
   * a permitted one named `attributes`.
   */
  lemma {:induction false} WithRelationsFails(baseUrl: string, typeName: string, relations: Value, rels: JsObject<Data>,
                                              t: Template, names: seq<string>)
    requires Get(t, "attributes") == Some(Names(names))
    ensures var r := WithRelations(baseUrl, typeName, relations, rels, t);
      && (r.Err? <==> MapModelThrows(relations, rels))
      && (r.Err? ==> r.error == TypeError)
    decreases |rels|
  {
    if rels != [] {
      var n0, d0 := rels[0].0, rels[0].1;
      var tail: JsObject<Data> := rels[1..];
      var step := AddRelation(baseUrl, typeName, relations, t, n0, d0);
      assert WithRelations(baseUrl, typeName, relations, rels, t) ==
        if step.Err? then Err(step.error) else WithRelations(baseUrl, typeName, relations, tail, step.value);
      AddRelationOutcome(baseUrl, typeName, relations, t, names, n0, d0);
      ThrowsCons(relations, rels);
      if !Permitted(relations, n0) {
        WithRelationsFails(baseUrl, typeName, relations, tail, t, names);
      } else if !d0.Nullish? {
        if n0 == "attributes" {
          WithRelationsStuck(baseUrl, typeName, relations, tail, step.value);
        } else {
          WithRelationsFails(baseUrl, typeName, relations, tail, step.value, names + [n0]);
        }
      }
    }
  }

  /** Whether the loop throws, split into the first relation and the rest. */
  lemma ThrowsCons(relations: Value, rels: JsObject<Data>)
    requires rels != []
    ensures var tail: JsObject<Data> := rels[1..];
      && (!Permitted(relations, rels[0].0) ==> (MapModelThrows(relations, rels) <==> MapModelThrows(relations, tail)))
      && (Permitted(relations, rels[0].0) && rels[0].1.Nullish? ==> MapModelThrows(relations, rels))
      && (Permitted(relations, rels[0].0) && !rels[0].1.Nullish? && rels[0].0 != "attributes" ==>
            (MapModelThrows(relations, rels) <==> MapModelThrows(relations, tail)))
      && (Permitted(relations, rels[0].0) && !rels[0].1.Nullish? && rels[0].0 == "attributes" ==>
            (MapModelThrows(relations, rels) <==> PermittedNames(relations, Keys(tail)) != []))
  {
    var tail: JsObject<Data> := rels[1..];
    MissingCons(relations, rels);
    if rels[0].0 == "attributes" {
      AfterAttributesHead(relations, rels);
      if !Permitted(relations, rels[0].0) {
        assert !PermittedAfterAttributes(relations, tail);
      } else if MissingPermitted(relations, tail) {
        var i :| 0 <= i < |tail| && Permitted(relations, tail[i].0) && tail[i].1.Nullish?;
        assert Keys(tail)[i] in PermittedNames(relations, Keys(tail));
      }
    } else {
      AfterAttributesCons(relations, rels);
    }
  }

  /** The relations the loop will add, and none of them unreadable. */
  predicate ReadableRelations(relations: Value, rels: JsObject<Data>) {
    forall k :: k in Keys(rels) && Permitted(relations, k) ==> Get(rels, k) != Some(Nullish)
  }

  /** One relation: its name is pushed and its sub-template stored when permitted; nothing else changes. */
  lemma AddRelationStep(baseUrl: string, typeName: string, relations: Value, t: Template, names: seq<string>, name: string, d: Data)
    requires Get(t, "attributes") == Some(Names(names))
    requires name != "attributes"
    requires Permitted(relations, name) ==> !d.Nullish?
    ensures var r := AddRelation(baseUrl, typeName, relations, t, name, d);
      && r.Ok?
      && Get(r.value, "attributes") == Some(Names(if Permitted(relations, name) then names + [name] else names))
      && (Permitted(relations, name) ==> RelationEntry(baseUrl, typeName, name, d) == Ok(Get(r.value, name).value))
      && (forall k :: k != "attributes" && (k != name || !Permitted(relations, name)) ==> Get(r.value, k) == Get(t, k))
  {
    if Permitted(relations, name) {
    }
  }

  /**
   * The loop appends the permitted relation names to the attribute list in
   * the relations' order; it cannot fail when no relation is called
   * `attributes` and no permitted relation is missing.
   */
  lemma {:induction false} WithRelationsNames(baseUrl: string, typeName: string, relations: Value, rels: JsObject<Data>,
                                              t: Template, names: seq<string>)
    requires Get(t, "attributes") == Some(Names(names))
    requires "attributes" !in Keys(rels)
    requires ReadableRelations(relations, rels)
    ensures var r := WithRelations(baseUrl, typeName, relations, rels, t);
      && r.Ok?
      && Get(r.value, "attributes") == Some(Names(names + PermittedNames(relations, Keys(rels))))
    decreases |rels|
  {
    if rels == [] {
      assert Keys(rels) == [];
      assert names + [] == names;
    } else {
      var (n0, d0) := rels[0];
      var tail: JsObject<Data> := rels[1..];
      RelationsCons(relations, rels);
      AddRelationStep(baseUrl, typeName, relations, t, names, n0, d0);
      var t1 := AddRelation(baseUrl, typeName, relations, t, n0, d0).value;
      var names1 := if Permitted(relations, n0) then names + [n0] else names;
      WithRelationsNames(baseUrl, typeName, relations, tail, t1, names1);
      var r := WithRelations(baseUrl, typeName, relations, tail, t1);
      assert WithRelations(baseUrl, typeName, relations, rels, t) == r;
      var rest := PermittedNames(relations, Keys(tail));
      var all := PermittedNames(relations, Keys(rels));
      assert Get(r.value, "attributes") == Some(Names(names1 + rest));
      assert all == (if Permitted(relations, n0) then [n0] else []) + rest;
      ConcatStrings(names, if Permitted(relations, n0) then [n0] else [], rest);
    }
  }

  /** Splitting the relations into the first one and the rest. */
  lemma RelationsCons(relations: Value, rels: JsObject<Data>)
    requires rels != []
    requires "attributes" !in Keys(rels)
    requires ReadableRelations(relations, rels)
    ensures var tail: JsObject<Data> := rels[1..];
      && Keys(rels) == [rels[0].0] + Keys(tail)
      && rels[0].0 !in Keys(tail) && rels[0].0 != "attributes" && "attributes" !in Keys(tail)
      && (Permitted(relations, rels[0].0) ==> !rels[0].1.Nullish?)
      && ReadableRelations(relations, tail)
      && PermittedNames(relations, Keys(rels)) ==
           (if Permitted(relations, rels[0].0) then [rels[0].0] else []) + PermittedNames(relations, Keys(tail))
  {
    var tail: JsObject<Data> := rels[1..];
    GetCons(rels, rels[0].0);
    assert Keys(rels) == [rels[0].0] + Keys(tail);
    assert Keys(rels)[1..] == Keys(tail);
    forall k | k in Keys(tail) && Permitted(relations, k) ensures Get(tail, k) != Some(Nullish) {
      GetCons(rels, k);
    }
  }

  /**
   * Every permitted relation's sub-template is stored under its name, and
   * every key that is neither `attributes` nor a permitted relation's name
   * keeps its value.
   */
  lemma {:induction false} WithRelationsEntries(baseUrl: string, typeName: string, relations: Value, rels: JsObject<Data>,
                                                t: Template, names: seq<string>)
    requires Get(t, "attributes") == Some(Names(names))
    requires "attributes" !in Keys(rels)
    requires ReadableRelations(relations, rels)
    ensures var r := WithRelations(baseUrl, typeName, relations, rels, t);
      && r.Ok?
      && (forall k :: k in Keys(rels) && Permitted(relations, k) ==>
            Get(r.value, k).Some? && RelationEntry(baseUrl, typeName, k, Get(rels, k).value) == Ok(Get(r.value, k).value))
      && (forall k :: k != "attributes" && k !in PermittedNames(relations, Keys(rels)) ==> Get(r.value, k) == Get(t, k))
    decreases |rels|
  {
    if rels != [] {
      var (n0, d0) := rels[0];
      var tail: JsObject<Data> := rels[1..];
      RelationsCons(relations, rels);
      AddRelationStep(baseUrl, typeName, relations, t, names, n0, d0);
      var t1 := AddRelation(baseUrl, typeName, relations, t, n0, d0).value;
      var names1 := if Permitted(relations, n0) then names + [n0] else names;
      WithRelationsEntries(baseUrl, typeName, relations, tail, t1, names1);
      var r := WithRelations(baseUrl, typeName, relations, tail, t1);
      assert WithRelations(baseUrl, typeName, relations, rels, t) == r;
      forall k | k in Keys(rels) && Permitted(relations, k)
        ensures Get(r.value, k).Some? && RelationEntry(baseUrl, typeName, k, Get(rels, k).value) == Ok(Get(r.value, k).value)
      {
        GetCons(rels, k);
      }
    }
  }

  /** The template of a model before the serializer options are laid over it. */
  function ModelBase(topLinks: JsObject<TopLink>, dataLinks: SelfLink, m: Model): (t: Template)
    ensures Get(t, "attributes") == Some(Names(FilterAttributes(Keys(m.attributes))))
    ensures forall k :: k != "attributes" ==> Get(t, k) == Get(LinksTemplate(topLinks, dataLinks), k)
  {
    Set(LinksTemplate(topLinks, dataLinks), "attributes", Names(FilterAttributes(Keys(m.attributes))))
  }

  /**
   * A collection: the attribute list is its first model's filtered
   * attribute names, no relation is looked at, and the serializer options
   * win; an empty collection has no first model and throws.
   */
  lemma MapCollection(baseUrl: string, typeName: string, topLinks: JsObject<TopLink>, dataLinks: SelfLink,
                      models: seq<Model>, relations: Value, overrides: Template)
    ensures var r := MapTemplate(baseUrl, typeName, topLinks, dataLinks, Many(models), relations, overrides);
      && r == MapTemplate(baseUrl, typeName, topLinks, dataLinks, Many(models), Atom(Undefined), overrides)
      && (models == [] <==> r == Err(TypeError))
      && (models != [] ==> r.Ok?)
      && (models != [] ==>
            forall k :: Get(r.value, k) ==
              if k in Keys(overrides) then Get(overrides, k)
              else if k == "attributes" then Some(Names(FilterAttributes(Keys(models[0].attributes))))
              else Get(LinksTemplate(topLinks, dataLinks), k))
  {
    if models != [] {
      var t := ModelBase(topLinks, dataLinks, models[0]);
      forall k ensures Get(Assign(t, overrides), k) == if k in Keys(overrides) then Get(overrides, k) else Get(t, k) {
        GetAssign(t, overrides, k);
      }
    }
  }

  /**
   * A model: the attribute list is its filtered attribute names followed,
   * when `relations` is truthy, by the permitted relation names in order;
   * the serializer options win over every computed key.
   */
  lemma MapModelAttributes(baseUrl: string, typeName: string, topLinks: JsObject<TopLink>, dataLinks: SelfLink,
                           m: Model, relations: Value, overrides: Template)
    requires IsTruthy(relations) ==> "attributes" !in Keys(m.relations) && ReadableRelations(relations, m.relations)
    ensures var r := MapTemplate(baseUrl, typeName, topLinks, dataLinks, Single(m), relations, overrides);
      && r.Ok?
      && (forall k :: k in Keys(overrides) ==> Get(r.value, k) == Get(overrides, k))
      && ("attributes" !in Keys(overrides) ==>
            Get(r.value, "attributes") == Some(Names(FilterAttributes(Keys(m.attributes)) +
              if IsTruthy(relations) then PermittedNames(relations, Keys(m.relations)) else [])))
  {
    var t := ModelBase(topLinks, dataLinks, m);
    var names := FilterAttributes(Keys(m.attributes));
    if IsTruthy(relations) {
      WithRelationsNames(baseUrl, typeName, relations, m.relations, t, names);
      var t2 := WithRelations(baseUrl, typeName, relations, m.relations, t).value;
      forall k ensures Get(Assign(t2, overrides), k) == if k in Keys(overrides) then Get(overrides, k) else Get(t2, k) {
        GetAssign(t2, overrides, k);
      }
    } else {
      assert names + [] == names;
      forall k ensures Get(Assign(t, overrides), k) == if k in Keys(overrides) then Get(overrides, k) else Get(t, k) {
        GetAssign(t, overrides, k);
      }
    }
  }

  /**
   * A model: each permitted relation's sub-template sits under its name
   * (unless a serializer option of that name replaces it); a relation the
   * allow-list skips, or every relation when `relations` is falsy, leaves
   * no key behind.
   */
  lemma MapModelRelations(baseUrl: string, typeName: string, topLinks: JsObject<TopLink>, dataLinks: SelfLink,
                          m: Model, relations: Value, overrides: Template)
    requires IsTruthy(relations) ==> "attributes" !in Keys(m.relations) && ReadableRelations(relations, m.relations)
    ensures var r := MapTemplate(baseUrl, typeName, topLinks, dataLinks, Single(m), relations, overrides);
      && r.Ok?
      && (forall k :: k in Keys(m.relations) && IsTruthy(relations) && Permitted(relations, k) && k !in Keys(overrides) ==>
            Get(r.value, k).Some? && RelationEntry(baseUrl, typeName, k, Get(m.relations, k).value) == Ok(Get(r.value, k).value))
      && (forall k :: k !in Keys(overrides) && k != "attributes" && !(IsTruthy(relations) && k in PermittedNames(relations, Keys(m.relations))) ==>
            Get(r.value, k) == Get(LinksTemplate(topLinks, dataLinks), k))
  {
    var t := ModelBase(topLinks, dataLinks, m);
    var names := FilterAttributes(Keys(m.attributes));
    if IsTruthy(relations) {
      WithRelationsEntries(baseUrl, typeName, relations, m.relations, t, names);
      var t2 := WithRelations(baseUrl, typeName, relations, m.relations, t).value;
      forall k ensures Get(Assign(t2, overrides), k) == if k in Keys(overrides) then Get(overrides, k) else Get(t2, k) {
        GetAssign(t2, overrides, k);
      }
    } else {
      forall k ensures Get(Assign(t, overrides), k) == if k in Keys(overrides) then Get(overrides, k) else Get(t, k) {
        GetAssign(t, overrides, k);
      }
    }
  }
}
