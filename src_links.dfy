/**
 * `src/bookshelf/links.ts`: the top-level links (self and, for a large
 * enough page, pagination), the resource `self` link and the relationship
 * `self`/`related` links.  Each link that the serializer calls later is a
 * closure; here it is the record of what the closure captures and a
 * function for its body.
 */
module SrcLinks {
  import opened JsValues
  import opened JsObjects
  import opened Foreign
  import opened BookshelfData
  import opened PageLinks
  import SrcExtras

  /** A member of a top-level links object: a plain URL, or a pagination closure. */
  datatype TopLink = Href(href: string) | Paged(page: Page, p: Pagination)

  /** Calling (or reading) a top-level link; `next` is given the collection. */
  function TopLinkValue(link: TopLink, collection: Data): Result<Option<string>> {
    match link
    case Href(s) => Ok(Some(s))
    case Paged(page, p) => PageLink(page, p, collection)
  }

  /** `buildPagination(baseUrl, type, pag, query)` */
  function BuildPagination(env: Env, baseUrl: string, typeName: string, pag: Obj, query: Option<Obj>): (r: JsObject<TopLink>)
    ensures Keys(r) == ["first", "prev", "next", "last"]
    ensures var p := MakePagination(env, baseUrl, typeName, pag, query);
      && Get(r, "first") == Some(Paged(FirstPage, p)) && Get(r, "prev") == Some(Paged(PrevPage, p))
      && Get(r, "next") == Some(Paged(NextPage, p)) && Get(r, "last") == Some(Paged(LastPage, p))
  {
    var baseLink := baseUrl + "/" + env.pluralize(typeName);
    var p := Pagination(baseLink, pag, QueryString(env, query));
    PageObject(Paged(FirstPage, p), Paged(PrevPage, p), Paged(NextPage, p), Paged(LastPage, p))
  }

  /** The guard of `buildTop`: `pag && pag.total > 0 && pag.total > pag.limit`. */
  predicate Paginated(pag: Option<Obj>) {
    pag.Some? && Greater(Prop(pag.value, "total"), Num(0)) && Greater(Prop(pag.value, "total"), Prop(pag.value, "limit"))
  }

  /**
   * `buildTop(baseUrl, type, pag, query)`: `self` is the collection URL;
   * the pagination links are merged in only when the guard holds.
   */
  function BuildTop(env: Env, baseUrl: string, typeName: string, pag: Option<Obj>, query: Option<Obj>): (r: JsObject<TopLink>)
    ensures Get(r, "self") == Some(Href(baseUrl + "/" + env.pluralize(typeName)))
    ensures Keys(r) == if Paginated(pag) then ["self", "first", "prev", "next", "last"] else ["self"]
    ensures Paginated(pag) ==> forall k :: k != "self" ==> Get(r, k) == Get(BuildPagination(env, baseUrl, typeName, pag.value, query), k)
  {
    var obj: JsObject<TopLink> := [("self", Href(baseUrl + "/" + env.pluralize(typeName)))];
    assert Keys(obj) == ["self"];
    if Paginated(pag) then
      var pages := BuildPagination(env, baseUrl, typeName, pag.value, query);
      TopLinkKeys();
      AssignOntoSingle(obj, pages, "self");
      Assign(obj, pages)
    else obj
  }

  /** With numeric pagination parameters the guard is `total > 0 && total > limit`. */
  lemma PaginatedNumbers(offset: int, limit: int, total: Option<int>)
    ensures Paginated(Some(PagObject(offset, limit, total))) <==> total.Some? && total.value > 0 && total.value > limit
  {
  }

  /** The closure of `buildSelf(baseUrl, modelType, relatedType)`. */
  datatype SelfLink = SelfLink(baseUrl: string, modelType: string, relatedType: Value)

  /** `buildSelf(baseUrl, modelType, relatedType)`: the link object `{self}`. */
  function BuildSelf(baseUrl: string, modelType: string, relatedType: Value): SelfLink {
    SelfLink(baseUrl, modelType, relatedType)
  }

  /** The type the self link is built for: `relatedType || modelType`. */
  function SelfType(l: SelfLink): (v: Value)
    ensures IsTruthy(l.relatedType) ==> v == l.relatedType
    ensures !IsTruthy(l.relatedType) ==> v == Atom(Str(l.modelType))
  {
    if IsTruthy(l.relatedType) then l.relatedType else Atom(Str(l.modelType))
  }

  /**
   * Calling `self(parent, current)`: `base/plural(type)/id` for a model,
   * `base/plural(type)` for a collection, nothing for a missing value.
   * The type is pluralised first, so a truthy non-string `relatedType`
   * makes every call fail.
   */
  function SelfHref(env: Env, l: SelfLink, current: Data): (r: Result<Option<string>>)
    ensures r.Err? <==> Pluralize(env, SelfType(l)).Err?
    ensures r.Ok? ==> (r.value.None? <==> current.Nullish?)
    ensures r.Ok? && current.Single? ==>
      r.value.value == l.baseUrl + "/" + Pluralize(env, SelfType(l)).value + "/" + ToStr(current.model.id)
    ensures r.Ok? && current.Many? ==> r.value.value == l.baseUrl + "/" + Pluralize(env, SelfType(l)).value
  {
    var plural :- Pluralize(env, SelfType(l));
    var link := l.baseUrl + "/" + plural;
    SrcExtras.GuardsPartition(current);
    if SrcExtras.IsModel(current) then Ok(Some(link + "/" + ToStr(current.model.id)))
    else if SrcExtras.IsCollection(current) then Ok(Some(link))
    else Ok(None)
  }

  /** The closures of `buildRelationship(baseUrl, modelType, relatedType)`. */
  datatype RelationshipLinks = RelationshipLinks(baseUrl: string, modelType: string, relatedType: string)

  /** `buildRelationship(baseUrl, modelType, relatedType)` */
  function BuildRelationship(baseUrl: string, modelType: string, relatedType: string): RelationshipLinks {
    RelationshipLinks(baseUrl, modelType, relatedType)
  }

  /** What both relationship links start with: the primary resource's URL. */
  function ResourceUrl(env: Env, l: RelationshipLinks, record: Model): string {
    l.baseUrl + "/" + env.pluralize(l.modelType) + "/" + ToStr(IdVia(record, l.modelType))
  }

  /**
   * Calling `self(record, related)`: the `related` link with
   * `/relationships` inserted after the primary resource's URL.
   */
  function RelationshipSelf(env: Env, l: RelationshipLinks, record: Model): (r: string)
    ensures var u := ResourceUrl(env, l, record);
      |u| <= |RelationshipRelated(env, l, record)| && r == u + "/relationships" + RelationshipRelated(env, l, record)[|u|..]
  {
    var data := IdVia(record, l.modelType);
    var link := l.baseUrl + "/" + env.pluralize(l.modelType);
    var link := link + "/" + ToStr(data);
    var link := link + "/relationships/" + l.relatedType;
    link
  }

  /**
   * Calling `related(record, related)`: the primary resource's URL (its
   * type pluralised, its id read through `record[modelType] || record`),
   * then the related type as given.
   */
  function RelationshipRelated(env: Env, l: RelationshipLinks, record: Model): (r: string)
    ensures var u := ResourceUrl(env, l, record);
      |u| <= |r| && r[..|u|] == u && r[|u|..] == "/" + l.relatedType
  {
    var data := IdVia(record, l.modelType);
    var link := l.baseUrl + "/" + env.pluralize(l.modelType);
    var link := link + "/" + ToStr(data);
    var link := link + "/" + l.relatedType;
    link
  }

  /**
   * Both relationship links hang off the primary resource's URL (its type
   * pluralised, its id read through `record[modelType] || record`); `self`
   * adds `/relationships`, and the related type is used as given.
   */
  lemma RelationshipLinksShape(env: Env, l: RelationshipLinks, record: Model)
    ensures RelationshipSelf(env, l, record) == ResourceUrl(env, l, record) + "/relationships/" + l.relatedType
    ensures RelationshipRelated(env, l, record) == ResourceUrl(env, l, record) + "/" + l.relatedType
    ensures l.modelType !in Keys(record.relations) && l.modelType !in Keys(record.attributes) ==>
      ResourceUrl(env, l, record) == l.baseUrl + "/" + env.pluralize(l.modelType) + "/" + ToStr(record.id)
  {
  }
}
