/**
 * What the mapper receives from its callers and from the libraries it calls
 * but does not define: loosely typed argument values, and the three foreign
 * functions (inflection's `pluralize`, Qs's `stringify` with encoding off,
 * validator's `isURL`) as uninterpreted functions.
 */
module Foreign {
  import opened JsValues
  import opened JsObjects

  /** A flat object of primitives: query objects, pagination parameters. */
  type Obj = JsObject<Prim>

  /**
   * A value handed over through a loosely typed parameter: a primitive, an
   * array of strings, or a flat object.
   */
  datatype Value =
    | Atom(p: Prim)
    | Strings(items: seq<string>)
    | Record(props: Obj)

  /** The foreign functions the mapper calls. */
  datatype Env = Env(
    pluralize: string -> string,
    stringify: Obj -> string,
    isUrl: string -> bool)

  /** `!!v`: arrays and objects are always truthy. */
  predicate IsTruthy(v: Value) {
    match v
    case Atom(p) => Truthy(p)
    case Strings(_) => true
    case Record(_) => true
  }

  /** An optional object argument as a value: an omitted one is `undefined`. */
  function ObjectValue(o: Option<Obj>): (v: Value)
    ensures IsTruthy(v) <==> o.Some?
  {
    match o
    case None => Atom(Undefined)
    case Some(x) => Record(x)
  }

  /** `o.k` on a flat object: an absent key reads as `undefined`. */
  function Prop(o: Obj, k: string): (p: Prim)
    ensures k !in Keys(o) <==> Get(o, k).None?
    ensures k in Keys(o) ==> Some(p) == Get(o, k)
  {
    Get(o, k).GetOr(Undefined)
  }

  /**
   * `pluralize(v)`.  The library is only specified for strings; handing it
   * anything else is reported as `NotAString` rather than guessed at.
   */
  function Pluralize(env: Env, v: Value): (r: Result<string>)
    ensures r.Ok? <==> v.Atom? && v.p.Str?
    ensures r.Ok? ==> r.value == env.pluralize(v.p.s)
  {
    if v.Atom? && v.p.Str? then Ok(env.pluralize(v.p.s)) else Err(NotAString)
  }
}
