/** The few JavaScript value semantics the source depends on: values of type `any`/`unknown` and truthiness. */
module Js {

  /** A JavaScript value, as far as the modelled code inspects it. Objects are opaque. */
  datatype Value = Undefined | Null | Bool(b: bool) | Number(n: real) | Str(s: string) | Obj(ref: nat)

  /** JavaScript truthiness (`if (v)`, `v || w`). */
  predicate Truthy(v: Value) {
    match v
    case Undefined => false
    case Null => false
    case Bool(b) => b
    case Number(n) => n != 0.0
    case Str(s) => s != ""
    case Obj(_) => true
  }

  /**
   * The property names every plain object literal inherits from `Object.prototype`;
   * reading one of them on such an object yields a function (or, for `__proto__`,
   * the prototype object), never `undefined`.
   */
  const ObjectPrototypeMembers: set<string> := {
    "constructor", "hasOwnProperty", "isPrototypeOf", "propertyIsEnumerable",
    "toLocaleString", "toString", "valueOf", "__proto__",
    "__defineGetter__", "__defineSetter__", "__lookupGetter__", "__lookupSetter__"
  }
}
