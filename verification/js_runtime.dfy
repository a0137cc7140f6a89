/**
 * The few JavaScript runtime notions the error classes and tool-result
 * markers rely on: values, `typeof`, `== null`, `instanceof` and
 * properties keyed by `Symbol.for(...)`, which are identified here by the
 * registry string they were created from.
 */
module JsRuntime {
  import opened Wrappers

  datatype JsValue =
    | Undefined
    | Null
    | Bool(b: bool)
    | Num(n: int)
    | Str(s: string)
    | Obj(o: JsObject)

  /**
   * An object: the classes on its prototype chain (for `instanceof`), its
   * own string-keyed properties and its own properties keyed by registered
   * symbols.
   */
  datatype JsObject = JsObject(classes: set<string>, props: map<string, JsValue>, symbols: map<string, JsValue>)

  /** `typeof v`; in particular `typeof null` is `"object"`. */
  function TypeOf(v: JsValue): (t: string)
    ensures t == "object" <==> v.Null? || v.Obj?
    ensures t == "boolean" <==> v.Bool?
    ensures t == "string" <==> v.Str?
    ensures t == "number" <==> v.Num?
    ensures t == "undefined" <==> v.Undefined?
  {
    match v
    case Undefined => "undefined"
    case Null => "object"
    case Bool(_) => "boolean"
    case Num(_) => "number"
    case Str(_) => "string"
    case Obj(_) => "object"
  }

  /** `v == null`, which also holds for `undefined`. */
  predicate IsNullish(v: JsValue) {
    v.Undefined? || v.Null?
  }

  /** `v instanceof C`. */
  predicate InstanceOf(v: JsValue, c: string) {
    v.Obj? && c in v.o.classes
  }

  /** `v.key` for a string key; reading a missing property gives `undefined`. */
  function Get(o: JsObject, key: string): JsValue {
    if key in o.props then o.props[key] else Undefined
  }

  /** The JavaScript value of an optional field: absent is `undefined`. */
  function OptStr(s: Option<string>): (v: JsValue)
    ensures s.None? <==> v == Undefined
  {
    match s
    case None => Undefined
    case Some(x) => Str(x)
  }

  function OptNum(n: Option<int>): (v: JsValue)
    ensures n.None? <==> v == Undefined
  {
    match n
    case None => Undefined
    case Some(x) => Num(x)
  }

  /** A `Record<string, string>` as a plain object. */
  function StringRecord(m: map<string, string>): (v: JsValue)
    ensures v.Obj? && v.o.props.Keys == m.Keys
    ensures forall k :: k in m ==> v.o.props[k] == Str(m[k])
  {
    Obj(JsObject({"Object"}, map k | k in m :: Str(m[k]), map[]))
  }
}
