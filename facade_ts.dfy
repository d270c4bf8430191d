/**
 * The `OhMyJSONAPI` class of index.ts: the adapter is looked up in the
 * constructor, the base URL is kept (trimmed) only when it is a valid URL,
 * and `toJSONAPI` checks the data before the type and delegates to the
 * adapter with the options, `{}` when omitted.
 */
module FacadeTs {
  import opened JsValues
  import opened JsObjects
  import opened Foreign
  import opened FacadeCommon
  import FacadeJs

  const DataRequired: string := "toJSONAPI(): `data` is required."
  const TypeRequired: string := "toJSONAPI(): `type` is required."

  /** `validator.isURL(baseUrl) ? _.trimRight(baseUrl, '/') : ''` */
  function BaseUrl(env: Env, baseUrl: string): (r: string)
    ensures !env.isUrl(baseUrl) ==> r == ""
    ensures env.isUrl(baseUrl) ==> r == TrimRight(baseUrl)
  {
    if env.isUrl(baseUrl) then TrimRight(baseUrl) else ""
  }

  class OhMyJSONAPI {
    const adapter: AdapterRef
    const baseUrl: string
    const serializerOptions: Value

    constructor (adapter: AdapterRef, baseUrl: string, serializerOptions: Value)
      ensures this.adapter == adapter && this.baseUrl == baseUrl && this.serializerOptions == serializerOptions
    {
      this.adapter := adapter;
      this.baseUrl := baseUrl;
      this.serializerOptions := serializerOptions;
    }

    /**
     * `toJSONAPI(data, type, options = {})`: a falsy data value is reported
     * before a falsy type; otherwise the adapter is called, an omitted
     * options argument being the empty object.
     */
    function ToJSONAPI(data: Value, typeName: Value, options: Value): (r: Result<Call>)
      ensures !IsTruthy(data) ==> r == Err(Thrown(DataRequired))
      ensures IsTruthy(data) && !IsTruthy(typeName) ==> r == Err(Thrown(TypeRequired))
      ensures r.Ok? <==> IsTruthy(typeName) && IsTruthy(data)
      ensures r.Ok? ==> r.value == Call(adapter, data, typeName, baseUrl, serializerOptions,
        if options == Atom(Undefined) then Record([]) else options)
    {
      if !IsTruthy(data) then Err(Thrown(DataRequired))
      else if !IsTruthy(typeName) then Err(Thrown(TypeRequired))
      else Ok(Call(adapter, data, typeName, baseUrl, serializerOptions,
        if options == Atom(Undefined) then Record([]) else options))
    }
  }

  /**
   * `new OhMyJSONAPI(adapterName, baseUrl, serializerOptions)`: throws for
   * an unknown adapter name, else stores the adapter, the base URL and the
   * options.
   */
  method Create(env: Env, registry: Registry, adapterName: Prim, baseUrl: string, serializerOptions: Value)
    returns (r: Result<OhMyJSONAPI>)
    ensures r.Err? <==> LookupAdapter(registry, adapterName).Err?
    ensures r.Err? ==> r.error == Thrown(InvalidAdapter)
    ensures r.Ok? ==> fresh(r.value)
    ensures r.Ok? ==> r.value.adapter == LookupAdapter(registry, adapterName).value
    ensures r.Ok? ==> r.value.baseUrl == BaseUrl(env, baseUrl) && r.value.serializerOptions == serializerOptions
  {
    var a :- LookupAdapter(registry, adapterName);
    var o := new OhMyJSONAPI(a, BaseUrl(env, baseUrl), serializerOptions);
    return Ok(o);
  }

  /**
   * The two entry points differ only in the order of their checks: on an
   * input with both a falsy data value and a falsy type they report
   * different errors, and otherwise they agree.
   */
  lemma CheckOrderDiffers(js: FacadeJs.OhMyJSONAPI, ts: OhMyJSONAPI, data: Value, typeName: Value)
    requires js.adapter == ts.adapter && js.baseUrl == ts.baseUrl && js.serializerOptions == ts.serializerOptions
    ensures !IsTruthy(data) && !IsTruthy(typeName) ==>
      js.ToJSONAPI(data, typeName, Record([])) == Err(Thrown(FacadeJs.TypeRequired))
      && ts.ToJSONAPI(data, typeName, Record([])) == Err(Thrown(DataRequired))
    ensures IsTruthy(data) || IsTruthy(typeName) ==>
      js.ToJSONAPI(data, typeName, Record([])) == ts.ToJSONAPI(data, typeName, Record([]))
  {
  }
}
