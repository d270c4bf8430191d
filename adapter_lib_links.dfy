/**
 * lib/adapters/bookshelf/lib/links.ts: the oldest links helpers.  The page
 * links are those of the other versions except that `last` leaves out the
 * query string; the resource link is only given for a model with an id or
 * when no model is passed at all.
 */
module LibLinks {
  import opened JsValues
  import opened JsObjects
  import opened Foreign
  import opened BookshelfData
  import opened PageLinks

  /** Calling one of the closures `pagination(baseUrl, type, pag, query)` returns. */
  function LibPageLink(page: Page, p: Pagination, model: Data): (r: Result<Option<string>>)
    ensures page != LastPage ==> r == PageLink(page, p, model)
    ensures page == LastPage ==> r == Ok(LastLinkWithoutQuery(p))
  {
    match page
    case LastPage => Ok(LastLinkWithoutQuery(p))
    case _ => PageLink(page, p, model)
  }

  /** The closure of `buildSelfLink(baseUrl, modelType, queryParams)`; the query is not used. */
  datatype SelfLink = SelfLink(baseUrl: string, modelType: string)

  function BuildSelfLink(baseUrl: string, modelType: string, queryParams: Option<Obj>): SelfLink {
    SelfLink(baseUrl, modelType)
  }

  /**
   * Calling `self(model, related)`: `url/id` for a model with a truthy id,
   * nothing for any other present value (a collection has no `id`), and
   * the collection URL when no model is given.
   */
  function SelfHref(env: Env, l: SelfLink, model: Data): (r: Option<string>)
    ensures model.Nullish? ==> r == Some(l.baseUrl + "/" + env.pluralize(l.modelType))
    ensures model.Single? && Truthy(model.model.id) ==>
      r == Some(l.baseUrl + "/" + env.pluralize(l.modelType) + "/" + ToStr(model.model.id))
    ensures r.None? <==> model.Many? || (model.Single? && !Truthy(model.model.id))
  {
    var link := l.baseUrl + "/" + env.pluralize(l.modelType);
    match model
    case Single(m) => if Truthy(m.id) then Some(link + "/" + ToStr(m.id)) else None
    case Many(_) => None
    case Nullish => Some(link)
  }

  /** The `last` link here is the usual one with the query string cut off. */
  lemma LastWithoutQuery(p: Pagination)
    ensures LastLink(p).Some? <==> LastLinkWithoutQuery(p).Some?
    ensures LastLink(p).Some? ==> LastLink(p).value == LastLinkWithoutQuery(p).value + p.queryStr
  {
  }
}
