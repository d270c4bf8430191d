/**
 * The four pagination links (`first`, `prev`, `next`, `last`) that every
 * version of the links module builds in the same way: closures over a base
 * link, the pagination parameters and the stringified query.  A closure is
 * represented by the record of what it captures (`Pagination`) and the
 * function that gives its body.
 */
module PageLinks {
  import opened JsValues
  import opened JsObjects
  import opened Foreign
  import opened BookshelfData

  /** What the pagination closures capture. */
  datatype Pagination = Pagination(baseLink: string, pag: Obj, queryStr: string)

  datatype Page = FirstPage | PrevPage | NextPage | LastPage

  /**
   * `Qs.stringify(_.omit(query || {}, 'page'), {encode: false})`: an omitted
   * query gives the stringified empty object and a query without `page` is
   * stringified as it is; `QueryStringIgnoresPage` covers the `page` key.
   */
  function QueryString(env: Env, query: Option<Obj>): (r: string)
    ensures query.None? ==> r == env.stringify([])
    ensures query.Some? && "page" !in Keys(query.value) ==> r == env.stringify(query.value)
  {
    env.stringify(Omit(query.GetOr([]), "page"))
  }

  /**
   * The captured state of `buildPagination(baseUrl, type, pag, query)`: the
   * links hang off the collection URL, read the given parameters, and carry
   * a query string that no value of the query's `page` key can change.
   */
  function MakePagination(env: Env, baseUrl: string, typeName: string, pag: Obj, query: Option<Obj>): (p: Pagination)
    ensures p.baseLink == baseUrl + "/" + env.pluralize(typeName)
    ensures Limit(p) == Prop(pag, "limit") && Offset(p) == Prop(pag, "offset") && Total(p) == Prop(pag, "total")
    ensures query.None? ==> p.queryStr == env.stringify([])
    ensures query.Some? ==> forall v: Prim ::
      p.queryStr == QueryString(env, Some(Set(query.value, "page", v))) == QueryString(env, Some(Omit(query.value, "page")))
  {
    if query.Some? then
      QueryStringIgnoresPage(env, query.value);
      Pagination(baseUrl + "/" + env.pluralize(typeName), pag, QueryString(env, query))
    else
      Pagination(baseUrl + "/" + env.pluralize(typeName), pag, QueryString(env, query))
  }

  /** `base?page[limit]=L&page[offset]=O` followed, with no separator, by `tail`. */
  function PageHref(baseLink: string, limit: Prim, offset: Prim, tail: string): string {
    baseLink + "?page[limit]=" + ToStr(limit) + "&page[offset]=" + ToStr(offset) + tail
  }

  function Limit(p: Pagination): Prim {
    Prop(p.pag, "limit")
  }

  function Offset(p: Pagination): Prim {
    Prop(p.pag, "offset")
  }

  function Total(p: Pagination): Prim {
    Prop(p.pag, "total")
  }

  /** `first()`: offset 0 with the same limit. */
  function FirstLink(p: Pagination): (r: string)
    ensures r == PageHref(p.baseLink, Limit(p), Num(0), p.queryStr)
  {
    assert ToStr(Num(0)) == "0";
    p.baseLink + "?page[limit]=" + ToStr(Limit(p)) + "&page[offset]=0" + p.queryStr
  }

  /** `prev()`: none on the first page (`offset === 0`), else `offset - limit`. */
  function PrevLink(p: Pagination): (r: Option<string>)
    ensures r.None? <==> Offset(p) == Num(0)
    ensures r.Some? ==> r.value == PageHref(p.baseLink, Limit(p), Minus(Offset(p), Limit(p)), p.queryStr)
  {
    if Offset(p) == Num(0) then None
    else Some(p.baseLink + "?page[limit]=" + ToStr(Limit(p)) + "&page[offset]=" + ToStr(Minus(Offset(p), Limit(p))) + p.queryStr)
  }

  /** Whether `next(collection)` returns null, given `collection.length`. */
  predicate OnLastPage(p: Pagination, length: Prim) {
    Less(length, Limit(p)) || (Truthy(Total(p)) && GreaterOrEqual(Plus(Offset(p), Limit(p)), Total(p)))
  }

  /**
   * `next(collection)`: none when the collection is shorter than a page or
   * when a truthy total is reached, else `offset + limit`.  Reading
   * `length` off a missing collection throws.
   */
  function NextLink(p: Pagination, collection: Data): (r: Result<Option<string>>)
    ensures r.Err? <==> collection.Nullish?
    ensures r == Ok(None) <==> Length(collection).Ok? && OnLastPage(p, Length(collection).value)
    ensures r.Ok? && r.value.Some? ==> r.value.value == PageHref(p.baseLink, Limit(p), Plus(Offset(p), Limit(p)), p.queryStr)
  {
    var length :- Length(collection);
    if Less(length, Limit(p)) || (Truthy(Total(p)) && GreaterOrEqual(Plus(Offset(p), Limit(p)), Total(p))) then Ok(None)
    else Ok(Some(p.baseLink + "?page[limit]=" + ToStr(Limit(p)) + "&page[offset]=" + ToStr(Plus(Offset(p), Limit(p))) + p.queryStr))
  }

  /** `last()`: none without a truthy total, else `total - limit`. */
  function LastLink(p: Pagination): (r: Option<string>)
    ensures r.None? <==> !Truthy(Total(p))
    ensures r.Some? ==> r.value == PageHref(p.baseLink, Limit(p), Minus(Total(p), Limit(p)), p.queryStr)
  {
    if !Truthy(Total(p)) then None
    else Some(p.baseLink + "?page[limit]=" + ToStr(Limit(p)) + "&page[offset]=" + ToStr(Minus(Total(p), Limit(p))) + p.queryStr)
  }

  /** The oldest `last()`: built up piece by piece, and without the query string. */
  function LastLinkWithoutQuery(p: Pagination): (r: Option<string>)
    ensures r.None? <==> !Truthy(Total(p))
    ensures r.Some? ==> r.value == PageHref(p.baseLink, Limit(p), Minus(Total(p), Limit(p)), "")
  {
    if Truthy(Total(p)) then
      var link := p.baseLink;
      var link := link + "?page[limit]=" + ToStr(Limit(p));
      var link := link + "&page[offset]=" + ToStr(Minus(Total(p), Limit(p)));
      Some(link)
    else None
  }

  /** Calling the closure of one page link; `next` is the one given the collection. */
  function PageLink(page: Page, p: Pagination, collection: Data): Result<Option<string>> {
    match page
    case FirstPage => Ok(Some(FirstLink(p)))
    case PrevPage => Ok(PrevLink(p))
    case NextPage => NextLink(p, collection)
    case LastPage => Ok(LastLink(p))
  }

  /** Pagination parameters `{offset, limit, total?}` as the object the links read. */
  function PagObject(offset: int, limit: int, total: Option<int>): (o: Obj)
    ensures Prop(o, "offset") == Num(offset) && Prop(o, "limit") == Num(limit)
    ensures Prop(o, "total") == if total.Some? then Num(total.value) else Undefined
  {
    var o: Obj := [("offset", Num(offset)), ("limit", Num(limit))];
    assert Keys(o) == ["offset", "limit"];
    if total.Some? then
      var o': Obj := o + [("total", Num(total.value))];
      assert Keys(o') == ["offset", "limit", "total"];
      o'
    else o
  }

  /**
   * With numeric pagination parameters `first` sits at offset 0 and `prev`
   * at `offset - limit`, except on the first page.
   */
  lemma FirstPrevArithmetic(baseLink: string, queryStr: string, offset: int, limit: int, total: Option<int>)
    ensures var p := Pagination(baseLink, PagObject(offset, limit, total), queryStr);
      && FirstLink(p) == PageHref(baseLink, Num(limit), Num(0), queryStr)
      && PrevLink(p) == (if offset == 0 then None else Some(PageHref(baseLink, Num(limit), Num(offset - limit), queryStr)))
  {
    var p := Pagination(baseLink, PagObject(offset, limit, total), queryStr);
    assert Offset(p) == Num(offset) && Limit(p) == Num(limit);
  }

  /**
   * With numeric pagination parameters `next` sits at `offset + limit`,
   * unless the page came back short or a non-zero total is reached.
   */
  lemma NextArithmetic(baseLink: string, queryStr: string, offset: int, limit: int, total: Option<int>, models: seq<Model>)
    ensures var p := Pagination(baseLink, PagObject(offset, limit, total), queryStr);
      NextLink(p, Many(models)) ==
        if |models| < limit || (total.Some? && total.value != 0 && offset + limit >= total.value) then Ok(None)
        else Ok(Some(PageHref(baseLink, Num(limit), Num(offset + limit), queryStr)))
  {
    var p := Pagination(baseLink, PagObject(offset, limit, total), queryStr);
    var t := if total.Some? then Num(total.value) else Undefined;
    assert Offset(p) == Num(offset) && Limit(p) == Num(limit) && Total(p) == t;
    assert Plus(Offset(p), Limit(p)) == Num(offset + limit);
    assert Length(Many(models)) == Ok(Num(|models|));
    assert OnLastPage(p, Num(|models|)) <==>
      |models| < limit || (total.Some? && total.value != 0 && offset + limit >= total.value)
    by {
      assert Less(Num(|models|), Num(limit)) <==> |models| < limit;
      if total.Some? {
        assert GreaterOrEqual(Num(offset + limit), t) <==> offset + limit >= total.value;
      }
    }
  }

  /** With numeric pagination parameters `last` sits at `total - limit` when a non-zero total is known. */
  lemma LastArithmetic(baseLink: string, queryStr: string, offset: int, limit: int, total: Option<int>)
    ensures var p := Pagination(baseLink, PagObject(offset, limit, total), queryStr);
      LastLink(p) ==
        if total.None? || total.value == 0 then None
        else Some(PageHref(baseLink, Num(limit), Num(total.value - limit), queryStr))
  {
    var p := Pagination(baseLink, PagObject(offset, limit, total), queryStr);
    assert Limit(p) == Num(limit);
    if total.Some? {
      assert Total(p) == Num(total.value);
    } else {
      assert Total(p) == Undefined;
    }
  }

  /** Whatever the query says about `page`, the query string is the same. */
  lemma {:induction false} QueryStringIgnoresPage(env: Env, query: Obj)
    ensures forall page: Prim :: QueryString(env, Some(Set(query, "page", page))) == QueryString(env, Some(query))
    ensures QueryString(env, Some(Omit(query, "page"))) == QueryString(env, Some(query))
  {
    forall page: Prim ensures QueryString(env, Some(Set(query, "page", page))) == QueryString(env, Some(query)) {
      OmitSet(query, "page", page);
    }
    OmitOmit(query, "page");
  }

  /** The object `{first, prev, next, last}` that `buildPagination` returns. */
  function PageObject<T>(first: T, prev: T, next: T, last: T): (r: JsObject<T>)
    ensures Keys(r) == ["first", "prev", "next", "last"]
    ensures Get(r, "first") == Some(first) && Get(r, "prev") == Some(prev)
    ensures Get(r, "next") == Some(next) && Get(r, "last") == Some(last)
  {
    var r: JsObject<T> := [("first", first), ("prev", prev), ("next", next), ("last", last)];
    assert Keys(r) == ["first", "prev", "next", "last"];
    r
  }

  /** The top-level links object: `self`, then the four page links. */
  lemma TopLinkKeys()
    ensures "self" !in ["first", "prev", "next", "last"]
    ensures ["self"] + ["first", "prev", "next", "last"] == ["self", "first", "prev", "next", "last"]
  {
  }
}
