/** The Ruby objects that travel through the client: payload fields, tag maps,
    parsed response bodies and the fields of a Result. */
module Values {

  datatype Option<+T> = None | Some(value: T)

  /** A JSON-like Ruby object. `Hash` keeps its entries in insertion order, as a
      Ruby Hash does; symbol and string keys are both written as strings. */
  datatype Value =
    | Str(s: string)
    | Bool(b: bool)
    | Num(n: int)
    | Hash(entries: seq<(string, Value)>)
    | Arr(items: seq<Value>)
    | Nil

  /** The entries of a Ruby Hash, in iteration order. */
  type Entries = seq<(string, Value)>

  /** Ruby truthiness: everything except `nil` and `false`. */
  predicate Truthy(v: Value) {
    !(v.Nil? || v == Bool(false))
  }

  /** `nil` for an unset optional string, the string otherwise. */
  function OptionalString(o: Option<string>): (v: Value)
    ensures o.None? <==> v.Nil?
    ensures o.Some? ==> v == Str(o.value)
  {
    match o
    case None => Nil
    case Some(s) => Str(s)
  }
}
