/**
 * The `adapter` function of src/bookshelf/bookshelf.ts, the earlier form of
 * `Bookshelf.map`: the same template, with the base URL and serializer
 * options passed in, no default for the options and no `includeRelations`.
 */
module SrcBookshelf {
  import opened JsValues
  import opened JsObjects
  import opened Foreign
  import opened BookshelfData
  import opened SrcLinks
  import opened SrcTemplates

  /** The `adapterOptions` argument. */
  datatype AdapterOptions = AdapterOptions(query: Option<Obj>, pagination: Option<Obj>, relations: Value)

  /**
   * `adapter(data, type, baseUrl, serializerOptions, adapterOptions)`,
   * returning the template handed to the serializer.  Omitted options
   * (`None`) make the first `adapterOptions.query` throw.  `buildTop` is
   * called with the query in its pagination slot and the pagination in its
   * query slot.
   */
  method Adapter(env: Env, data: Data, typeName: string, baseUrl: string, serializerOptions: Template,
                 adapterOptions: Option<AdapterOptions>) returns (r: Result<Template>)
    ensures adapterOptions.None? ==> r == Err(TypeError)
    ensures adapterOptions.Some? ==> var o := adapterOptions.value;
      r == MapTemplate(baseUrl, typeName,
        BuildTop(env, baseUrl, typeName, o.query, o.pagination),
        BuildSelf(baseUrl, typeName, ObjectValue(o.query)),
        data, o.relations, serializerOptions)
  {
    if adapterOptions.None? {
      return Err(TypeError);
    }
    var options := adapterOptions.value;
    var template := LinksTemplate(
      BuildTop(env, baseUrl, typeName, options.query, options.pagination),
      BuildSelf(baseUrl, typeName, ObjectValue(options.query)));
    var isModel :- SrcUtils.IsModel(data);
    if isModel {
      var names := SrcUtils.GetDataAttributesList(data).value;
      template := Set(template, "attributes", Names(names));
      if IsTruthy(options.relations) {
        template :- AddRelations(baseUrl, typeName, options.relations, data.model.relations, template);
      }
    } else {
      var names :- SrcUtils.GetDataAttributesList(First(data.models));
      template := Set(template, "attributes", Names(names));
    }
    return Ok(Assign(template, serializerOptions));
  }

  /**
   * Because of the swapped arguments the pagination guard reads `total`
   * and `limit` from the query: a query without a `total` yields only the
   * `self` link, and otherwise the page links carry the stringified
   * pagination object instead of the query.
   */
  lemma SwappedTopLinks(env: Env, baseUrl: string, typeName: string, query: Obj, pagination: Option<Obj>)
    ensures var top := BuildTop(env, baseUrl, typeName, Some(query), pagination);
      && ("total" !in Keys(query) ==> Keys(top) == ["self"])
      && (Paginated(Some(query)) ==>
            Get(top, "first") == Some(Paged(PageLinks.FirstPage, PageLinks.MakePagination(env, baseUrl, typeName, query, pagination))))
  {
    if "total" !in Keys(query) {
      assert Prop(query, "total") == Undefined;
    }
  }
}
