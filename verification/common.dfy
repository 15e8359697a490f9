/**
 Small shared vocabulary: optional values, JavaScript truthiness of an
 optional string, and the outcome of a call to some other service.
 */
module Common {

  /** A value that may be missing (`null` or `undefined` on the JavaScript side). */
  datatype Option<+T> = None | Some(value: T) {

    /** The value when present, otherwise `default`. */
    function GetOr(default: T): T {
      match this
      case Some(v) => v
      case None => default
    }
  }

  /** JavaScript truthiness of a value that is a string or absent: absent and `""` are falsy. */
  predicate Truthy(s: Option<string>) {
    s.Some? && s.value != ""
  }

  /** The first of two optional strings that is present and non-empty, else the second. */
  function Or(a: Option<string>, b: Option<string>): (r: Option<string>)
    ensures Truthy(a) ==> r == a
    ensures !Truthy(a) ==> r == b
    ensures Truthy(r) <==> Truthy(a) || Truthy(b)
  {
    if Truthy(a) then a else b
  }

  /** A lookup that yields nothing when the key is missing. */
  function Get<K, V>(m: map<K, V>, key: K): (r: Option<V>)
    ensures r.Some? <==> key in m
    ensures r.Some? ==> r.value == m[key]
  {
    if key in m then Some(m[key]) else None
  }

  /**
   What came back from a call into another service: the (parsed) answer, or a
   rejected promise (network failure, or a body that could not be read or parsed).
   */
  datatype Net<+T> = Answered(answer: T) | Failed
}
