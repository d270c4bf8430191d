/**
 * The `OhMyJSONAPI` entry point of index.js: a constructor that requires
 * an adapter name and trims the base URL, and `toJSONAPI`, which checks
 * its arguments (the type first) and delegates to the adapter.
 */
module FacadeJs {
  import opened JsValues
  import opened JsObjects
  import opened Foreign
  import opened FacadeCommon

  const NoAdapter: string := "OhMyJSONAPI(): a valid adapter must be specified."
  const TypeRequired: string := "toJSONAPI(): `type` is required."
  const DataRequired: string := "toJSONAPI(): `data` is required."

  /** `_.trimRight(baseUrl, '/')`, an omitted base URL reading as the empty string. */
  function TrimBaseUrl(baseUrl: Option<string>): (r: string)
    ensures baseUrl.None? ==> r == ""
    ensures baseUrl.Some? ==> r == TrimRight(baseUrl.value)
  {
    TrimRight(baseUrl.GetOr(""))
  }

  class OhMyJSONAPI {
    const adapter: AdapterRef
    const baseUrl: string
    const serializerOptions: Value

    constructor (adapter: AdapterRef, baseUrl: string, serializerOptions: Value)
      ensures this.adapter == adapter && this.baseUrl == baseUrl && this.serializerOptions == serializerOptions
    {
      this.adapter := adapter;
      this.baseUrl := baseUrl;
      this.serializerOptions := serializerOptions;
    }

    /**
     * `toJSONAPI(data, type, includeRelations)`: a falsy type is reported
     * before a falsy data value; otherwise the adapter is called.
     */
    function ToJSONAPI(data: Value, typeName: Value, includeRelations: Value): (r: Result<Call>)
      ensures !IsTruthy(typeName) ==> r == Err(Thrown(TypeRequired))
      ensures IsTruthy(typeName) && !IsTruthy(data) ==> r == Err(Thrown(DataRequired))
      ensures r.Ok? <==> IsTruthy(typeName) && IsTruthy(data)
      ensures r.Ok? ==> r.value == Call(adapter, data, typeName, baseUrl, serializerOptions, includeRelations)
    {
      if !IsTruthy(typeName) then Err(Thrown(TypeRequired))
      else if !IsTruthy(data) then Err(Thrown(DataRequired))
      else Ok(Call(adapter, data, typeName, baseUrl, serializerOptions, includeRelations))
    }
  }

  /** The checks of `new OhMyJSONAPI(adapter, ...)` before any field is set. */
  function CheckAdapter(registry: Registry, adapter: Prim): (r: Result<AdapterRef>)
    ensures !Truthy(adapter) ==> r == Err(Thrown(NoAdapter))
    ensures Truthy(adapter) ==> r == LookupAdapter(registry, adapter)
  {
    if !Truthy(adapter) then Err(Thrown(NoAdapter)) else LookupAdapter(registry, adapter)
  }

  /**
   * `new OhMyJSONAPI(adapter, baseUrl, serializerOptions)`: throws for a
   * missing or unknown adapter name, else stores the adapter, the trimmed
   * base URL and the options.
   */
  method Create(registry: Registry, adapter: Prim, baseUrl: Option<string>, serializerOptions: Value)
    returns (r: Result<OhMyJSONAPI>)
    ensures r.Err? <==> CheckAdapter(registry, adapter).Err?
    ensures r.Err? ==> r.error == CheckAdapter(registry, adapter).error
    ensures r.Ok? ==> fresh(r.value)
    ensures r.Ok? ==> r.value.adapter == CheckAdapter(registry, adapter).value
    ensures r.Ok? ==> r.value.baseUrl == TrimBaseUrl(baseUrl) && r.value.serializerOptions == serializerOptions
  {
    if !Truthy(adapter) {
      return Err(Thrown(NoAdapter));
    }
    var a :- LookupAdapter(registry, adapter);
    var o := new OhMyJSONAPI(a, TrimBaseUrl(baseUrl), serializerOptions);
    return Ok(o);
  }

  /**
   * The three constructor cases of the test suite: a registered name
   * works, an unknown name throws, and no name throws the other message.
   */
  lemma ConstructorCases(registry: Registry, name: string)
    requires name != ""
    ensures name in Keys(registry) ==> CheckAdapter(registry, Str(name)) == Ok(Get(registry, name).value)
    ensures name !in Keys(registry) ==> CheckAdapter(registry, Str(name)) == Err(Thrown(InvalidAdapter))
    ensures CheckAdapter(registry, Undefined) == Err(Thrown(NoAdapter))
  {
  }
}
