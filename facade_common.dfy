/**
 * What the two `OhMyJSONAPI` entry points (index.js and index.ts) share:
 * the adapter registry and its lookup, lodash's `trimRight` on `/`, and
 * the call a successful `toJSONAPI` makes.
 */
module FacadeCommon {
  import opened JsValues
  import opened JsObjects
  import opened Foreign

  /** A registered adapter function, named by its registry key. */
  datatype AdapterRef = AdapterRef(name: string)

  /** The object of registered adapters, keyed by name. */
  type Registry = JsObject<AdapterRef>

  const InvalidAdapter: string := "Invalid adapter. Please choose from [bookshelf]"

  /**
   * `_lookupAdapter(name)`: the adapter registered under the name (a
   * primitive key is read as its string form), else an error.
   */
  function LookupAdapter(registry: Registry, name: Prim): (r: Result<AdapterRef>)
    ensures r.Ok? <==> ToStr(name) in Keys(registry)
    ensures r.Ok? ==> Get(registry, ToStr(name)) == Some(r.value)
    ensures r.Err? ==> r.error == Thrown(InvalidAdapter)
  {
    var adapter: Option<AdapterRef> := Get(registry, ToStr(name));
    match adapter
    case Some(a) => Ok(a)
    case None => Err(Thrown(InvalidAdapter))
  }

  /** `_.trimRight(s, '/')`: every trailing `/` removed. */
  function TrimRight(s: string): (r: string)
    ensures |r| <= |s| && r == s[..|r|]
    ensures r == [] || r[|r| - 1] != '/'
    ensures forall i :: |r| <= i < |s| ==> s[i] == '/'
  {
    if s != [] && s[|s| - 1] == '/' then TrimRight(s[..|s| - 1]) else s
  }

  /** Trimming twice is trimming once. */
  lemma TrimRightIdempotent(s: string)
    ensures TrimRight(TrimRight(s)) == TrimRight(s)
  {
  }

  /** A URL without a trailing `/` is left alone, and one with `/`s appended trims back to it. */
  lemma {:induction false} TrimRightStripsSlashes(s: string, n: nat)
    requires s == [] || s[|s| - 1] != '/'
    ensures TrimRight(s + seq(n, _ => '/')) == s
  {
    if n > 0 {
      var t := s + seq(n, _ => '/');
      assert t[..|t| - 1] == s + seq(n - 1, _ => '/');
      TrimRightStripsSlashes(s, n - 1);
    } else {
      assert s + seq(0, _ => '/') == s;
    }
  }

  /**
   * The delegation a successful `toJSONAPI` performs: the adapter called
   * with the data, the type, the stored base URL and serializer options,
   * and the caller's last argument.
   */
  datatype Call = Call(adapter: AdapterRef, data: Value, typeName: Value, baseUrl: string,
                       serializerOptions: Value, options: Value)
}
