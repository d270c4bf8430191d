/**
 * lib/adapters/bookshelf/lib/utils.ts: a relation's attributes chosen by
 * `instanceof`, with no guard for an empty collection.  Its
 * `buildRelation` is the one of `AdapterUtils`, its `isDataEmpty` the one
 * of `LegacyAdapter` and its `isCollection` the one of `SrcUtils`.
 */
module LibUtils {
  import opened JsValues
  import opened JsObjects
  import opened BookshelfData
  import LegacyAdapter

  /**
   * `getRelationAttributes(data)`: a model's attributes, the first model's
   * attributes of a collection (an empty one throws), undefined otherwise.
   */
  function GetRelationAttributes(d: Data): (r: Result<Option<JsObject<Prim>>>)
    ensures r.Err? <==> d == Many([])
    ensures d.Single? ==> r == Ok(Some(d.model.attributes))
    ensures d.Many? && d.models != [] ==> r == Ok(Some(d.models[0].attributes))
    ensures d.Nullish? ==> r == Ok(None)
  {
    match d
    case Single(m) => Ok(Some(m.attributes))
    case Many(ms) => if ms == [] then Err(TypeError) else Ok(Some(ms[0].attributes))
    case Nullish => Ok(None)
  }

  /**
   * On a relation the emptiness test lets through, this agrees with the
   * first adapter's `_getRelationAttributes`; on an empty collection this
   * one throws where that one gives undefined, and on a missing value the
   * other way round.
   */
  lemma AgreesOnOccupied(d: Data)
    ensures LegacyAdapter.IsRelationshipEmpty(d) == Ok(false) ==> GetRelationAttributes(d) == LegacyAdapter.RelationAttributes(d)
    ensures d == Many([]) ==> GetRelationAttributes(d).Err? && LegacyAdapter.RelationAttributes(d) == Ok(None)
    ensures d.Nullish? ==> GetRelationAttributes(d) == Ok(None) && LegacyAdapter.RelationAttributes(d).Err?
  {
  }
}
