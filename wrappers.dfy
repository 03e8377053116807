/** Failure-carrying values shared by every module of the model. */
module Wrappers {

  datatype Option<+T> = None | Some(value: T)

  datatype Result<+R, +E> = Ok(value: R) | Err(error: E)

  /** The Python exception classes the modelled code raises or lets escape. */
  datatype ErrorKind =
    | Exception          // bare `Exception`, raised by the public REST helper
    | RuntimeError
    | ValueError
    | TypeError
    | AttributeError
    | GraphQLError       // `SmartleadGraphQLError`, a subclass of RuntimeError

  /** A raised exception: its class and `str(e)`. */
  datatype PyError = PyError(kind: ErrorKind, message: string)

  /** Python truthiness of an optional string: `None` and `""` are both false. */
  predicate Truthy(s: Option<string>)
  {
    s.Some? && s.value != ""
  }

  /** Concatenation regrouped; the recursive list builders use it to keep their proofs short. */
  lemma AppendAssoc<T>(a: seq<T>, b: seq<T>, c: seq<T>)
    ensures (a + b) + c == a + (b + c)
  {
  }
}
