# jsonapi-mapper: the Bookshelf mapping core, in Dafny

jsonapi-mapper (published as `OhMyJSONAPI`) turns Bookshelf ORM data — a
model, a collection of models, or nothing — into the *template* that the
`jsonapi-serializer` package uses to build a JSON API document. The template
is an object with these parts:

- the top-level links: `self`, plus `first`/`prev`/`next`/`last` when the
  data is paginated;
- the per-resource `dataLinks`;
- the list of attribute names to serialise;
- one sub-template per relation, each with its relationship and included links;
- the caller's serializer options, laid over everything else.

The repository holds the same mapper in four generations, and the model
covers all four:

| generation | files | Dafny modules |
|---|---|---|
| legacy JavaScript adapter | `lib/adapters/bookshelf.js` | `LegacyAdapter` |
| first TypeScript adapter | `lib/adapters/bookshelf/{index,links,utils}.ts` | `AdapterIndex`, `AdapterLinks`, `AdapterUtils` |
| its library copy | `lib/adapters/bookshelf/lib/{links,utils}.ts` | `LibLinks`, `LibUtils` |
| current mapper | `src/bookshelf/{mapper,bookshelf,links,utils,extras}.ts` | `SrcMapper`, `SrcBookshelf`, `SrcTemplates`, `SrcLinks`, `SrcUtils`, `SrcExtras` |

The two entry points `index.js` and `index.ts` are modelled in `FacadeJs`
and `FacadeTs`, with the code they share in `FacadeCommon`.

Shared foundations:

- `JsValues`: the JavaScript values the code handles (primitives with
  their truthiness, string conversion, `+`, `-` and comparisons). It also
  defines the `Result` type, which stands for a thrown exception.
- `JsObjects`: insertion-ordered objects with lodash's `_.assign` and `_.omit`.
- `BookshelfData`: models and collections.
- `PageLinks`: the four pagination link closures.
- `Foreign`: the library calls (`inflection.pluralize`, `qs.stringify`,
  `validator.isURL`), passed in as an environment `Env`.

## How the source is modelled

- **Closures.** Each link closure becomes a datatype that records what the
  closure captured, plus a function that gives the closure's value on a call.
- **Templates.** A template is an ordered object of entries. Later writes
  overwrite earlier ones exactly as in JavaScript: a relation named
  `attributes`, or a serializer option named `topLevelLinks`, replaces that
  entry.
- **Imperative code stays imperative.** Methods with loops keep their loops:
  `LegacyAdapter.BookshelfAdapter` (with `CollectLoop` and `CopyLoop`),
  `AdapterIndex.Adapter`, `SrcTemplates.AddRelations`,
  `SrcMapper.Bookshelf.Map` and `SrcBookshelf.Adapter`.
  - Each such method is proved equal to a specification function.
  - Each specification function is then characterised, key by key, by lemmas.
- **Mutation.** `Bookshelf.map` writes `relations` back into the caller's
  options object, so the options are a class and `Map` states the new value
  of that field.
- **Arguments as written.** Several call sites pass arguments in a different
  order from the callee's parameters. The model passes them exactly as
  written and proves what follows:
  - `bookshelf.ts` swaps `query` and `pagination`.
  - `mapper.ts` passes the query as the self link's `relatedType`.
  - `lib/adapters/bookshelf/index.ts` passes the key list as a type name.

## Model

| member | source | states |
|---|---|---|
| BookshelfData.First | src/bookshelf/mapper.ts:81 | `collection.first()` is the first model, and nothing for an empty collection |
| BookshelfData.Length | src/bookshelf/links.ts:84 | `length` is the number of models of a collection, undefined on a model, and throws on a missing value |
| BookshelfData.Attribute | lib/adapters/bookshelf.js:32 | `model.get(k)` is the stored attribute, or undefined when the key is absent |
| BookshelfData.IdVia | src/bookshelf/links.ts:143 | `model[modelType] \|\| model` reads the model's own id when no property of that name exists |
| Foreign.Pluralize | src/bookshelf/links.ts:28 | pluralising succeeds exactly on strings and then gives the inflector's plural |
| JsObjects.GetAssign | src/bookshelf/mapper.ts:90 | after `_.assign(target, source)` a key reads the source's value when the source has it, else the target's |
| PageLinks.QueryString | src/bookshelf/links.ts:59-60 | an omitted query gives the stringified empty object, and a query without `page` is stringified unchanged; with QueryStringIgnoresPage this fixes the string as that of the query with `page` removed |
| PageLinks.MakePagination | src/bookshelf/links.ts:57-60 | the pagination closures hang off `baseUrl/plural(type)`, read `limit`, `offset` and `total` from the given parameters, and carry a query string that is the same whatever the query's `page` key holds or whether it is there at all; `pagination` in lib/adapters/bookshelf/lib/links.ts (lines 11-18) makes the same capture |
| PageLinks.FirstLink | src/bookshelf/links.ts:63-70 | `first` is offset 0 with the same limit, followed by the query string |
| PageLinks.PrevLink | src/bookshelf/links.ts:72-80 | `prev` is null exactly when the offset is 0; otherwise it is at `offset - limit` |
| PageLinks.NextLink | src/bookshelf/links.ts:82-91 | `next` is null exactly on a short page or when a truthy total is reached, is at `offset + limit` otherwise, and throws on a missing collection |
| PageLinks.LastLink | src/bookshelf/links.ts:93-101 | `last` is null exactly when the total is falsy; otherwise it is at `total - limit` |
| PageLinks.LastLinkWithoutQuery | lib/adapters/bookshelf/lib/links.ts:51-66 | the library copy's `last`: the same condition and offset, without the query string |
| PageLinks.PagObject | src/bookshelf/links.ts:23 | numeric parameters `{offset, limit, total?}` read back as given, and an absent total reads as undefined |
| PageLinks.FirstPrevArithmetic | src/bookshelf/links.ts:63-80 | with numeric parameters, `first` is at offset 0 and `prev` is at `offset - limit`, absent on the first page |
| PageLinks.NextArithmetic | src/bookshelf/links.ts:82-91 | with numeric parameters, `next` is absent when the page is short or a non-zero total is reached, and at `offset + limit` otherwise |
| PageLinks.LastArithmetic | src/bookshelf/links.ts:93-101 | with numeric parameters, `last` is at `total - limit` when a non-zero total is known, else absent |
| PageLinks.QueryStringIgnoresPage | src/bookshelf/links.ts:59-60 | setting `page` to any value, or removing it, never changes the query string of the links |
| SrcExtras.GuardsPartition | src/bookshelf/extras.ts:21-47 | the null-safe guards never both hold, neither holds of a missing value, exactly one holds of present data, and `isModel` holds exactly of a model |
| SrcUtils.IsModel | src/bookshelf/utils.ts:72-75 | the duck-typed `isModel` throws on a missing value and otherwise holds exactly of a model |
| SrcUtils.IsCollection | src/bookshelf/utils.ts:82-85 | the duck-typed `isCollection` throws on a missing value and otherwise holds exactly of a collection; the legacy `_isCollection` (lib/adapters/bookshelf.js, lines 166-172) and the library copy's `isCollection` (lib/adapters/bookshelf/lib/utils.ts, lines 86-88) are the same test |
| SrcUtils.GuardsComplement | src/bookshelf/utils.ts:67-85 | on present data the two guards are complements, and both throw on a missing value |
| SrcUtils.GetDataAttributes | src/bookshelf/utils.ts:54-65 | a model's attributes, a collection's first model's attributes, undefined for an empty collection, and a throw on a missing value |
| SrcUtils.FilterAttributes | src/bookshelf/utils.ts:40-46 | the kept names are exactly those that are not `id` and do not end in `_id` or `_type`, in their original order |
| SrcUtils.GetDataAttributesList | src/bookshelf/utils.ts:40-65 | the attribute list is the filtered keys of the model or of a collection's first model, empty for an empty collection, and throws on a missing value |
| SrcUtils.DropsIdsAndTypes | src/bookshelf/utils.ts:40-46 | of `id, attr, related_id, another_id, related_type` only `attr` is kept |
| SrcUtils.BuildRelation | src/bookshelf/utils.ts:18-32 | the relation schema references `id` and keeps the given keys. Both relationship links hang off the primary resource's URL and end in the related type; the included link is the parent type's URL plus the related model's id |
| SrcLinks.BuildPagination | src/bookshelf/links.ts:50-62 | the four page links, in order, share one pagination capture |
| SrcLinks.BuildTop | src/bookshelf/links.ts:20-40 | `self` is the plural collection URL; the page links are merged in exactly when the total is greater than 0 and greater than the limit |
| SrcLinks.PaginatedNumbers | src/bookshelf/links.ts:33-35 | with numeric parameters the pagination guard is `total > 0 && total > limit` |
| SrcLinks.SelfType | src/bookshelf/links.ts:116 | the self link's type is `relatedType` when truthy, else `modelType` |
| SrcLinks.SelfHref | src/bookshelf/links.ts:112-128 | the self link is `url/id` for a model, `url` for a collection and undefined for a missing value; it throws when the chosen type is not a string |
| SrcLinks.RelationshipRelated | src/bookshelf/links.ts:156-170 | the `related` link is the primary resource's URL (plural model type, id read through `model[modelType] \|\| model`) followed by `/` and the related type, not pluralised |
| SrcLinks.RelationshipSelf | src/bookshelf/links.ts:141-155 | the `self` link is the `related` link with `/relationships` inserted after the primary resource's URL |
| SrcLinks.RelationshipLinksShape | src/bookshelf/links.ts:139-172 | both relationship links hang off `baseUrl/plural(modelType)/id` (the id read through `model[modelType] \|\| model`); `self` adds `/relationships/` |
| SrcTemplates.PermittedNames | src/bookshelf/mapper.ts:63-67 | the names kept are exactly those allowed: not when `relations` is `false`, and only listed names when it is a string array |
| SrcTemplates.PushName | src/bookshelf/mapper.ts:71 | pushing onto `template.attributes` appends one name, changes no other key, and throws when there is no attribute list |
| SrcTemplates.LinksTemplate | src/bookshelf/mapper.ts:42-46 | the template starts with exactly `topLevelLinks` and `dataLinks` |
| SrcTemplates.AddRelations | src/bookshelf/mapper.ts:60-76 | the `_.forOwn` loop over the relations builds the same template as the relation-by-relation specification |
| SrcTemplates.AddRelationStep | src/bookshelf/mapper.ts:60-76 | one callback: a permitted relation's name is pushed and its sub-template stored; a forbidden one changes nothing |
| SrcTemplates.WithRelationsNames | src/bookshelf/mapper.ts:60-76 | after the loop the attribute list is the initial list followed by the permitted relation names, in order |
| SrcTemplates.WithRelationsEntries | src/bookshelf/mapper.ts:60-76 | after the loop every permitted relation holds its sub-template; every other key except `attributes` is unchanged |
| SrcTemplates.WithRelationsStuck | src/bookshelf/mapper.ts:62-71 | once the attribute list has been replaced, the loop returns the template unchanged when no later relation is permitted and otherwise throws at the first push |
| SrcTemplates.WithRelationsFails | src/bookshelf/mapper.ts:60-76 | the loop throws, with a `TypeError`, exactly when a permitted relation is a missing value (`getDataAttributesList(null)` fails in `isModel`) or a permitted relation comes after a permitted relation named `attributes` (whose sub-template has replaced the list it pushes onto) |
| SrcTemplates.ModelBase | src/bookshelf/mapper.ts:42-53 | before relations, a model's template lists its filtered attribute keys next to the two link entries |
| SrcTemplates.MapTemplate | src/bookshelf/mapper.ts:42-90 | the template `map` builds throws only with a `TypeError`: always for a missing value (in `isModel`); for a collection exactly when it is empty (`first()` is undefined); for a model exactly when `relations` is truthy and the loop throws as WithRelationsFails says. The same template is built by `adapter` in src/bookshelf/bookshelf.ts (lines 24-69) |
| SrcTemplates.MapCollection | src/bookshelf/mapper.ts:80-90 | for a collection the relations option is ignored, and an empty collection throws. Otherwise the overrides win, then the first model's filtered attributes, then the two links |
| SrcTemplates.MapModelAttributes | src/bookshelf/mapper.ts:49-90 | for a model whose permitted relations are all present and none named `attributes` (or when `relations` is falsy), the template exists and the overrides win; otherwise the attribute list is the filtered keys followed, when `relations` is truthy, by the permitted relation names. MapTemplate gives the cases that throw |
| SrcTemplates.MapModelRelations | src/bookshelf/mapper.ts:59-90 | under the same condition as MapModelAttributes, every permitted relation not overridden holds its sub-template; every other key apart from `attributes` is a link entry or absent |
| SrcMapper.BookshelfOptions.constructor | src/bookshelf/mapper.ts:37 | the options object carries the given `includeRelations`, query, pagination and relations |
| SrcMapper.Bookshelf.constructor | src/bookshelf/mapper.ts:25-28 | the mapper keeps the base URL and the serializer options |
| SrcMapper.EffectiveRelations | src/bookshelf/mapper.ts:56 | for a model a truthy `includeRelations` replaces `relations`; otherwise `relations` stays |
| SrcMapper.Bookshelf.Map | src/bookshelf/mapper.ts:37-95 | `map` writes the effective relations back into the caller's options. Its template is built with pagination and query in `buildTop`'s order, the query as the self link's related type, and `{relations: true}` for omitted options |
| SrcMapper.AllPermitted | src/bookshelf/mapper.ts:63-65 | a `relations` value that is neither `false` nor a string array lets every relation through |
| SrcMapper.DefaultOptionsAddEveryRelation | src/bookshelf/mapper.ts:37-76 | with the default options a model's attribute list is its filtered keys followed by every relation name |
| SrcMapper.QueryInDataLinks | src/bookshelf/mapper.ts:46 | a given query lands in the self link's type slot and makes the link throw; without one the link is `url/id` |
| SrcBookshelf.Adapter | src/bookshelf/bookshelf.ts:15-74 | the adapter throws when no options are given. Otherwise it builds the mapper's template from the options' relations, with query and pagination passed to `buildTop` in swapped order |
| SrcBookshelf.SwappedTopLinks | src/bookshelf/bookshelf.ts:27 | the query is read as the pagination parameters: no `total` in the query means no page links, and the page links are built from the query |
| LegacyAdapter.IsRelationshipEmpty | lib/adapters/bookshelf.js:179-185 | a relation is empty exactly when it is an empty collection, and the test throws on a missing value; the library copy's `isDataEmpty` (lib/adapters/bookshelf/lib/utils.ts, lines 76-79) is the same test |
| LegacyAdapter.RelationAttributes | lib/adapters/bookshelf.js:146-159 | reading a missing relation throws; otherwise a relation has attributes exactly when it is non-empty: a model's own, or the first model's of a collection, and undefined for an empty collection |
| LegacyAdapter.BuildSelfLink | lib/adapters/bookshelf.js:94-106 | the self link is `baseUrl/plural(type)`, with `/id` appended exactly when the id is truthy |
| LegacyAdapter.SelfLinksDistinct | lib/adapters/bookshelf.js:94-106 | two different non-zero numeric ids give two different self links |
| LegacyAdapter.BuildTopLevelLinks | lib/adapters/bookshelf.js:83-85 | the top-level link is the collection URL `baseUrl/plural(type)`, the same link `_buildSelfLink` gives for any falsy id |
| LegacyAdapter.BuildRelation | lib/adapters/bookshelf.js:118-138 | every relation link hangs off the related resource `baseUrl/plural(relationType)/id`, and the relationship links end in the plural primary type |
| LegacyAdapter.OccupiedNames | lib/adapters/bookshelf.js:41-60 | the names collected are exactly the names of the relations that hold a model or a non-empty collection |
| LegacyAdapter.TemplateModel | lib/adapters/bookshelf.js:15-21 | the template model is the data itself or a collection's first model, and reading it throws for a missing value or an empty collection |
| LegacyAdapter.CollectLoop | lib/adapters/bookshelf.js:41-60 | the first `_.forOwn` loop computes the relation-by-relation specification |
| LegacyAdapter.CopyLoop | lib/adapters/bookshelf.js:66-68 | the copy loop is `_.assign` of the collected relations onto the options |
| LegacyAdapter.BookshelfAdapter | lib/adapters/bookshelf.js:7-75 | the adapter builds exactly the legacy template specification |
| LegacyAdapter.HasMissingCons | lib/adapters/bookshelf.js:41-45 | a missing relation is either the first or among the rest |
| LegacyAdapter.CollectNames | lib/adapters/bookshelf.js:41-63 | the loop throws exactly when some relation is missing; otherwise the names are the attribute keys followed by the non-empty relation names, in order |
| LegacyAdapter.CollectEntries | lib/adapters/bookshelf.js:41-60 | after the loop each non-empty relation holds its schema and no other key changes |
| LegacyAdapter.LegacyTemplate | lib/adapters/bookshelf.js:10-71 | the options object throws on a missing value, on an empty collection, and exactly when the template model has a missing relation |
| LegacyAdapter.LegacyEntries | lib/adapters/bookshelf.js:25-71 | every key of the result is, in order of precedence: a serializer option, a non-empty relation's schema, the attribute list (all attribute keys then the relation names), `dataLinks`, or `topLevelLinks` for a collection |
| AdapterLinks.BuildPagination | lib/adapters/bookshelf/links.ts:36-87 | the four page links, in order, share one pagination capture |
| AdapterLinks.BuildTop | lib/adapters/bookshelf/links.ts:19-26 | `self` is the resource's self closure; the page links are merged in whenever pagination parameters are given |
| AdapterLinks.SelfHref | lib/adapters/bookshelf/links.ts:96-115 | the self link is `url/id` for a model, `url` for a collection, and undefined exactly for anything else |
| AdapterLinks.SinglePageStillPaged | lib/adapters/bookshelf/links.ts:19-26 | even a single page (`0 < total <= limit`) gets page links, and its `next` is null |
| AdapterUtils.BuildRelation | lib/adapters/bookshelf/utils.ts:15-48 | building succeeds exactly when both types pluralise. The links then hang off `baseUrl/plural(modelType)/related.id` and end in the plural relation type; the included link is `baseUrl/plural(relationType)/related.id`. The library copy (lib/adapters/bookshelf/lib/utils.ts, lines 15-48) is identical |
| AdapterUtils.RelationshipLinksShape | lib/adapters/bookshelf/utils.ts:26-40 | for string types both relationship links share the related resource's URL, and `self` inserts `relationships/` |
| AdapterUtils.RelationshipRelated | lib/adapters/bookshelf/utils.ts:36-39 | the `related` link is `baseUrl/plural(modelType)/related.id` followed by `/` and the plural relation type; the data argument plays no part |
| AdapterUtils.RelationshipSelf | lib/adapters/bookshelf/utils.ts:32-35 | the `self` link is the `related` link with `/relationships` inserted after the resource URL |
| AdapterUtils.IncludedSelf | lib/adapters/bookshelf/utils.ts:42-44 | the included link is the related model's resource URL with the two plural types swapped: `baseUrl/plural(relationType)/related.id` |
| AdapterUtils.GetDataAttributes | lib/adapters/bookshelf/utils.ts:65-76 | a model's attributes, a collection's first model's attributes, and undefined for an empty collection or anything else |
| AdapterUtils.GetDataAttributesList | lib/adapters/bookshelf/utils.ts:55-57 | the list is every attribute key, `id` included, and empty when there are no attributes |
| AdapterUtils.IsDataEmpty | lib/adapters/bookshelf/utils.ts:83-89 | undefined exactly for a missing value; otherwise true exactly for an empty collection |
| AdapterUtils.AttributesOfEmptyData | lib/adapters/bookshelf/utils.ts:55-89 | data that is not known to be non-empty has no attribute names, and a model's list is its keys |
| AdapterIndex.OptionsOrDefault | lib/adapters/bookshelf/index.ts:16 | omitted adapter options act as `{}` |
| AdapterIndex.LinksTemplate | lib/adapters/bookshelf/index.ts:20-24 | the template starts with exactly `topLevelLinks` and `dataLinks`, built from the options' query and pagination in the order `buildTop` expects |
| AdapterIndex.Adapter | lib/adapters/bookshelf/index.ts:11-60 | the adapter computes the relation-by-relation specification of its template |
| AdapterIndex.IndexTemplate | lib/adapters/bookshelf/index.ts:20-58 | the template fails exactly for a missing value (a `TypeError` at `toJSON`) and for a model with any relation (the key list passed as a type name does not pluralise) |
| AdapterIndex.IndexWithoutRelations | lib/adapters/bookshelf/index.ts:20-55 | without relations every key is a serializer option, then the unfiltered attribute list of the model or the first model, then the two links |
| LibLinks.LibPageLink | lib/adapters/bookshelf/lib/links.ts:20-67 | `first`, `prev` and `next` agree with the other pagination links; `last` leaves out the query string |
| LibLinks.LastWithoutQuery | lib/adapters/bookshelf/lib/links.ts:51-66 | the library's `last` link is the query-carrying `last` link with the query string cut off, and exists in the same cases |
| LibLinks.SelfHref | lib/adapters/bookshelf/lib/links.ts:76-98 | the self link is the collection URL when no model is given and `url/id` for a model with a truthy id; it is undefined exactly for a collection or a falsy id |
| LibUtils.GetRelationAttributes | lib/adapters/bookshelf/lib/utils.ts:57-69 | a model's attributes or a collection's first model's; it throws exactly on an empty collection and is undefined for a missing value |
| LibUtils.AgreesOnOccupied | lib/adapters/bookshelf/lib/utils.ts:57-79 | on a non-empty relation it agrees with the legacy `_getRelationAttributes`; on an empty collection it throws where the legacy code gives undefined, and on a missing value the legacy code throws where it gives undefined |
| FacadeCommon.LookupAdapter | index.js:50-56 | lookup succeeds exactly for a registered name and returns that adapter; otherwise it throws `Invalid adapter`. The TypeScript `_lookupAdapter` (index.ts, lines 72-78) behaves the same way |
| FacadeCommon.TrimRight | index.js:16 | the trimmed URL is a prefix of the input with no trailing `/`, and only `/` characters were removed |
| FacadeCommon.TrimRightIdempotent | index.js:16 | trimming twice is the same as trimming once |
| FacadeCommon.TrimRightStripsSlashes | index.js:16 | any number of trailing `/` added to a URL without one trims back to that URL |
| FacadeJs.TrimBaseUrl | index.js:16 | an omitted base URL becomes `""`; a given one is right-trimmed of `/` |
| FacadeJs.CheckAdapter | index.js:11-15 | a falsy adapter name throws `a valid adapter must be specified`; otherwise the name is looked up |
| FacadeJs.Create | index.js:11-18 | construction fails exactly when the adapter check fails, with its error; otherwise it stores the adapter, the trimmed URL and the options |
| FacadeJs.ConstructorCases | index.js:11-15 | a registered name gives its adapter, an unregistered one `Invalid adapter`, an undefined one the missing-adapter error |
| FacadeJs.OhMyJSONAPI.constructor | index.js:15-17 | the instance keeps the adapter, base URL and serializer options |
| FacadeJs.OhMyJSONAPI.ToJSONAPI | index.js:26-31 | a falsy type is reported first, then a falsy data value; otherwise the adapter is called with the stored URL and options and the third argument |
| FacadeTs.BaseUrl | index.ts:30 | a base URL that is not a URL becomes `""`; a URL is right-trimmed of `/` |
| FacadeTs.Create | index.ts:24-34 | construction fails exactly for an unregistered name; otherwise it stores the adapter, the checked URL and the options |
| FacadeTs.OhMyJSONAPI.constructor | index.ts:27-33 | the instance keeps the adapter, base URL and serializer options |
| FacadeTs.OhMyJSONAPI.ToJSONAPI | index.ts:54-64 | a falsy data value is reported first, then a falsy type; otherwise the adapter is called, with omitted options defaulting to `{}` |
| FacadeTs.CheckOrderDiffers | index.ts:54-56 | when data and type are both missing the two entry points report different errors; in every other case they agree |

## Left out

- The serialisation itself is not modelled: `jsonapi-serializer`, `toJSON()`
  and the Serializer construction at the end of each adapter. Each adapter
  returns the template it would hand to the serializer.
- Bookshelf internals are not modelled. A model is its id, attributes and
  relations; a collection is its list of models.
- `inflection.pluralize`, `qs.stringify` and `validator.isURL` are opaque
  functions in `Foreign.Env`. The model does not predict the plural of a
  non-string: that case is an error, `NotAString`.
- Numbers are integers (ids, offsets, limits, totals, lengths). Floating
  point, and string-to-number conversion beyond optional sign and digits,
  are not modelled.
- Strings compare by code unit. There is no locale or Unicode handling.
- Objects keep insertion order. JavaScript's rule that integer-like keys come
  first is not modelled.
- Query objects are flat maps from keys to primitive values. Nested query
  objects are handed to `qs.stringify` as they are.
- `null` and omitted options arguments are both modelled as "not given"
  (`Option.None` or a `null` options object).
- Adapter lookup reads own properties of the registry only. Inherited
  properties such as `toString` are not modelled. The registry's contents
  (`lib/adapters/index`) are not part of this model: each adapter is an
  opaque `AdapterRef`.
- `OhMyJSONAPI.serializer` (index.js:41-43, index.ts:43-45) is not modelled:
  it only constructs the serializer.
- index.ts lines 61-62, the raw-serializer branch of `toJSONAPI`, is not
  modelled: the constructor always sets an adapter or throws, so the branch
  cannot be reached.
- FacadeTs.BaseUrl: assumes the base URL is a string; `validator.isURL` on a
  non-string is not modelled.
- Option values are primitives, objects of primitives or arrays of strings.
  An array holding a non-string, such as `['a', 1]` as the `relations`
  option, cannot be written: `typeCheck('[String]', ...)` in
  src/bookshelf/mapper.ts (line 64) rejects it, so it would let every
  relation through, and the model has no such case.
- `lib/adapters/bookshelf/lib/links.ts` calls lodash's `_` without importing
  it. The model assumes lodash is available globally.
- The unused `queryParams`/`query` parameters of the self and relationship
  link builders are captured but never read, as in the source.
- `src/bookshelf/index.ts` re-exports the mapper and is not part of this model.
- The `meta` property marked as a to-do in every adapter does not exist in
  the source and is not modelled.
