/**
 Shared vocabulary of the ride-booking model: optional values, results, opaque record ids
 and the JavaScript truthiness of strings.
 */
module Common {

  /** A value that may be missing (`null`/`undefined` in the source). */
  datatype Option<+T> = None | Some(value: T)

  /** The outcome of an operation that may fail with an error of type E. */
  datatype Result<+R, +E> = Success(value: R) | Failure(error: E)

  /** The verdict of a form validator: success, or the one error message it shows. */
  datatype Check = Valid | Invalid(message: string)

  /** Opaque record identifiers (Mongo ObjectIds as strings). */
  type Id = string

  /** A string is truthy in JavaScript iff it is present and not empty. */
  predicate Truthy(s: Option<string>)
  {
    s.Some? && s.value != ""
  }

  /** `xs.slice(0, n)`: the first n elements, or all of them when there are fewer. */
  function Take<T>(xs: seq<T>, n: nat): (r: seq<T>)
    ensures |r| == if |xs| <= n then |xs| else n
    ensures r == xs[..|r|]
  {
    if |xs| <= n then xs else xs[..n]
  }

  /** No element occurs twice. */
  predicate Distinct<T(==)>(xs: seq<T>)
  {
    forall i, j :: 0 <= i < j < |xs| ==> xs[i] != xs[j]
  }
}
