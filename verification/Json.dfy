/** JSON values; a field the program would read as `undefined` is a key that is not there. */
module Json {
  import opened Wrappers

  /** Keys every plain object answers to besides its own: a function each, and the shared prototype at `__proto__`. */
  const INHERITED: set<string> := {
    "constructor", "hasOwnProperty", "isPrototypeOf", "propertyIsEnumerable", "toLocaleString", "toString", "valueOf",
    "__proto__", "__defineGetter__", "__defineSetter__", "__lookupGetter__", "__lookupSetter__"
  }

  datatype Value =
    | Null | Bool(b: bool) | Number(n: real) | NegativeZero | Str(s: string)
    | Array(items: seq<Value>) | Object(fields: map<string, Value>)
  {
    /** The number meant, if any. */
    function Numeric(): Option<real> {
      if Number? then Some(n) else if NegativeZero? then Some(0.0) else None
    }

    /** The field, absent also on anything that is not a plain record. */
    function Get(name: string): Option<Value> {
      if Object? && name in fields then Some(fields[name]) else None
    }
  }
}
