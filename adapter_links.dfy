/**
 * lib/adapters/bookshelf/links.ts: the top-level links start from the
 * resource's own `self` closure, and the pagination links are merged in
 * whenever pagination parameters are given.  The guards are `instanceof`
 * tests, so a missing value yields no link instead of throwing.
 */
module AdapterLinks {
  import opened JsValues
  import opened JsObjects
  import opened Foreign
  import opened BookshelfData
  import opened PageLinks

  /** The closure of `buildSelf(baseUrl, modelType, queryParams)`; the query is not used. */
  datatype SelfLink = SelfLink(baseUrl: string, modelType: string)

  function BuildSelf(baseUrl: string, modelType: string, queryParams: Option<Obj>): SelfLink {
    SelfLink(baseUrl, modelType)
  }

  /** Calling `self(data)`: `url/id` for a model, `url` for a collection, nothing otherwise. */
  function SelfHref(env: Env, l: SelfLink, data: Data): (r: Option<string>)
    ensures r.None? <==> data.Nullish?
    ensures data.Single? ==> r == Some(l.baseUrl + "/" + env.pluralize(l.modelType) + "/" + ToStr(data.model.id))
    ensures data.Many? ==> r == Some(l.baseUrl + "/" + env.pluralize(l.modelType))
  {
    var link := l.baseUrl + "/" + env.pluralize(l.modelType);
    if data.Single? then Some(link + "/" + ToStr(data.model.id))
    else if data.Many? then Some(link)
    else None
  }

  /** A value of the top-level links object. */
  datatype TopLink = SelfOf(link: SelfLink) | Paged(page: Page, p: Pagination)

  /** Calling one top-level link on the serialized data. */
  function TopLinkValue(env: Env, link: TopLink, data: Data): Result<Option<string>> {
    match link
    case SelfOf(l) => Ok(SelfHref(env, l, data))
    case Paged(page, p) => PageLink(page, p, data)
  }

  /** `buildPagination(baseUrl, type, query, pag)`: the query comes before the parameters here. */
  function BuildPagination(env: Env, baseUrl: string, typeName: string, query: Option<Obj>, pag: Obj): (r: JsObject<TopLink>)
    ensures Keys(r) == ["first", "prev", "next", "last"]
    ensures var p := MakePagination(env, baseUrl, typeName, pag, query);
      && Get(r, "first") == Some(Paged(FirstPage, p)) && Get(r, "prev") == Some(Paged(PrevPage, p))
      && Get(r, "next") == Some(Paged(NextPage, p)) && Get(r, "last") == Some(Paged(LastPage, p))
  {
    var p := Pagination(baseUrl + "/" + env.pluralize(typeName), pag, QueryString(env, query));
    PageObject(Paged(FirstPage, p), Paged(PrevPage, p), Paged(NextPage, p), Paged(LastPage, p))
  }

  /**
   * `buildTop(baseUrl, type, queryParams, pag)`: the `self` closure, and
   * the four page links as soon as `pag` is given, whatever its total.
   */
  function BuildTop(env: Env, baseUrl: string, typeName: string, queryParams: Option<Obj>, pag: Option<Obj>): (r: JsObject<TopLink>)
    ensures Get(r, "self") == Some(SelfOf(BuildSelf(baseUrl, typeName, queryParams)))
    ensures Keys(r) == if pag.Some? then ["self", "first", "prev", "next", "last"] else ["self"]
    ensures pag.Some? ==> forall k :: k != "self" ==> Get(r, k) == Get(BuildPagination(env, baseUrl, typeName, queryParams, pag.value), k)
  {
    var obj: JsObject<TopLink> := [("self", SelfOf(BuildSelf(baseUrl, typeName, queryParams)))];
    assert Keys(obj) == ["self"];
    if pag.Some? then
      var pages := BuildPagination(env, baseUrl, typeName, queryParams, pag.value);
      TopLinkKeys();
      AssignOntoSingle(obj, pages, "self");
      Assign(obj, pages)
    else obj
  }

  /**
   * Unlike the guarded version, a single page of results still gets page
   * links: with `total <= limit` the `first` link is there and `next` is
   * null once the total is reached.
   */
  lemma SinglePageStillPaged(env: Env, baseUrl: string, typeName: string, query: Option<Obj>, limit: int, total: int, models: seq<Model>)
    requires 0 < total <= limit
    ensures var top := BuildTop(env, baseUrl, typeName, query, Some(PagObject(0, limit, Some(total))));
      && "first" in Keys(top)
      && TopLinkValue(env, Get(top, "next").value, Many(models)) == Ok(None)
  {
    var pag := PagObject(0, limit, Some(total));
    var p := MakePagination(env, baseUrl, typeName, pag, query);
    var top := BuildTop(env, baseUrl, typeName, query, Some(pag));
    assert NextLink(p, Many(models)) == Ok(None) by {
      assert p == Pagination(p.baseLink, pag, p.queryStr);
      NextArithmetic(p.baseLink, p.queryStr, 0, limit, Some(total), models);
    }
    assert Get(top, "next") == Some(Paged(NextPage, p));
    NextPageValue(env, p, Many(models));
  }

  lemma NextPageValue(env: Env, p: Pagination, d: Data)
    ensures TopLinkValue(env, Paged(NextPage, p), d) == NextLink(p, d)
  {
  }
}
