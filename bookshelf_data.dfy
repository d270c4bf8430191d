/**
 * Bookshelf data as the mapper sees it: a model (its id, its attribute
 * object and its loaded relations, keyed by relation name), a collection of
 * models, or a missing value (`null` / `undefined`).
 */
module BookshelfData {
  import opened JsValues
  import opened JsObjects

  datatype Model = Model(id: Prim, attributes: JsObject<Prim>, relations: JsObject<Data>)

  datatype Data =
    | Nullish
    | Single(model: Model)
    | Many(models: seq<Model>)

  /** `collection.first()`: the first model, `undefined` for an empty collection. */
  function First(models: seq<Model>): (d: Data)
    ensures d.Nullish? <==> models == []
    ensures d.Single? ==> d.model == models[0]
  {
    if models == [] then Nullish else Single(models[0])
  }

  /** `data.length`: a collection's size; a model has no such property. */
  function Length(d: Data): (r: Result<Prim>)
    ensures r.Err? <==> d.Nullish?
    ensures d.Many? ==> r == Ok(Num(|d.models|))
    ensures d.Single? ==> r == Ok(Undefined)
  {
    match d
    case Nullish => Err(TypeError)
    case Single(_) => Ok(Undefined)
    case Many(ms) => Ok(Num(|ms|))
  }

  /** `model.get(k)` */
  function Attribute(m: Model, k: string): (p: Prim)
    ensures k !in Keys(m.attributes) ==> p == Undefined
    ensures k in Keys(m.attributes) ==> Get(m.attributes, k) == Some(p)
  {
    Get(m.attributes, k).GetOr(Undefined)
  }

  /**
   * `(record[key] || record).id` on the record of a model, whose loaded
   * relations sit beside (and shadow) its attributes.  A truthy primitive
   * has no `id` property; neither has a collection.
   */
  function IdVia(m: Model, key: string): (id: Prim)
    ensures key !in Keys(m.relations) && key !in Keys(m.attributes) ==> id == m.id
  {
    var rel: Option<Data> := Get(m.relations, key);
    match rel
    case Some(Single(r)) => r.id
    case Some(Many(_)) => Undefined
    case Some(Nullish) => m.id
    case None =>
      var attr: Option<Prim> := Get(m.attributes, key);
      match attr
      case Some(p) => if Truthy(p) then Undefined else m.id
      case None => m.id
  }
}
