/**
 * The null-safe type guards of `src/bookshelf/extras.ts`: a missing value
 * is neither a model nor a collection; otherwise the presence of `models`
 * decides.
 */
module SrcExtras {
  import opened BookshelfData

  /** Whether `data.models` is defined, for data that is present. */
  predicate HasModels(d: Data)
    requires !d.Nullish?
  {
    d.Many?
  }

  /** `isCollection(data)` */
  predicate IsCollection(d: Data) {
    if d.Nullish? then false else HasModels(d)
  }

  /** `isModel(data)` */
  predicate IsModel(d: Data) {
    if d.Nullish? then false else !IsCollection(d)
  }

  /**
   * The guards never hold together, neither holds of a missing value, and
   * exactly one holds of present data.
   */
  lemma GuardsPartition(d: Data)
    ensures !(IsModel(d) && IsCollection(d))
    ensures d.Nullish? ==> !IsModel(d) && !IsCollection(d)
    ensures !d.Nullish? ==> (IsCollection(d) <==> HasModels(d)) && (IsModel(d) <==> !IsCollection(d))
    ensures IsModel(d) <==> d.Single?
  {
  }
}
