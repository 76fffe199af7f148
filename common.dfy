/** Failure-carrying wrappers shared by every module of the model. */
module Common {

  /** Python's `None` or a present value. */
  datatype Option<T> = None | Some(value: T)

  /** A value, or the exception the Python code raises instead of returning it. */
  datatype Result<T, E> = Ok(value: T) | Err(error: E)

  /** A call that returns nothing useful, or the exception it raises. */
  datatype Outcome<E> = Pass | Fail(error: E)

  /** Python truthiness of an optional string: `None` and `""` are false. */
  predicate Truthy(s: Option<string>)
  {
    s.Some? && s.value != ""
  }

  /** Concatenation regroups. */
  lemma AppendAssoc<T>(a: seq<T>, b: seq<T>, c: seq<T>)
    ensures a + b + c == a + (b + c)
  {
  }
}
