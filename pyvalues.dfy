/**
  Python values as the client handles them. Arguments are not type-checked by the source, so
  each is a `Value`; this keeps apart the two tests the source makes, `x is not None` and the
  truth test `if x:`.
 */
module PyValues {

  datatype Value =
    | None
    | Bool(b: bool)
    | Int(i: int)
    | Str(s: string)
    | List(items: seq<Value>)
    | Dict(entries: map<string, Value>)
      /** Any other object (a `datetime`, an enum member, a float), with its truth value. */
    | Other(kind: string, truthy: bool)

  /** A value that is not a dict: item assignment on it raises `TypeError`. */
  type NonDict = v: Value | !v.Dict? witness None

  /** Python's truth test: `None`, `False`, zero and empty containers are false. */
  predicate Truthy(v: Value)
  {
    match v
    case None => false
    case Bool(b) => b
    case Int(i) => i != 0
    case Str(s) => s != ""
    case List(items) => items != []
    case Dict(entries) => entries != map[]
    case Other(_, t) => t
  }

  /** A JSON request body under construction: a string-keyed dict. */
  type Payload = map<string, Value>

  /** Truthiness is strictly stronger than `is not None`: the two tests differ exactly on the
      present values that are false, among them `""`, `0`, `False`, `[]` and `{}`. */
  lemma TruthyIsNotNone(v: Value)
    ensures Truthy(v) ==> v != None
    ensures v == Str("") || v == Int(0) || v == Bool(false) || v == List([]) || v == Dict(map[])
      ==> v != None && !Truthy(v)
  {
  }
}
