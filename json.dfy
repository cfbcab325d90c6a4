/** The already-parsed JSON value tree that every decoder of the set-family
    hierarchy consumes (the `JsonVal` union of predim/common.py), together
    with the Python type facts the decoders test with `isinstance`. */
module Json {

  /** A value produced by a JSON parser: None, a bool, a string, a number,
      a list or a dict with string keys. The decoders never look inside a
      number, so a number carries no payload here. */
  datatype JsonVal =
    | JNull
    | JBool(b: bool)
    | JNumber
    | JString(s: string)
    | JArray(elems: seq<JsonVal>)
    | JObject(fields: map<string, JsonVal>)

  /** The Python type of a decoded value, as `type(value).__name__` names it
      in the decoders' error messages (`int` and `float` are one kind). */
  datatype Kind = NoneType | BoolType | NumberType | StrType | ListType | DictType

  function KindOf(v: JsonVal): Kind
  {
    match v
    case JNull => NoneType
    case JBool(_) => BoolType
    case JNumber => NumberType
    case JString(_) => StrType
    case JArray(_) => ListType
    case JObject(_) => DictType
  }

  /** `isinstance(v, Sequence)`: a list, and also a string. */
  predicate IsSequence(v: JsonVal)
  {
    v.JArray? || v.JString?
  }

  /** `isinstance(v, Mapping)`. */
  predicate IsMapping(v: JsonVal)
  {
    v.JObject?
  }

  /** What `for x in v` yields for a sequence: the elements of a list, and
      the one-character strings of a string. */
  function SeqItems(v: JsonVal): seq<JsonVal>
    requires IsSequence(v)
  {
    match v
    case JArray(xs) => xs
    case JString(s) => seq(|s|, i requires 0 <= i < |s| => JString([s[i]]))
  }

  /** `m.get(key)`: the value under `key`, or None when the key is absent. */
  function Get(m: map<string, JsonVal>, key: string): JsonVal
  {
    if key in m then m[key] else JNull
  }
}
