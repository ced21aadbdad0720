/** Option and Result, the two failure-carrying shapes the model uses for
    nullable columns, missing rows and thrown errors, and the one fact about
    sequence concatenation the proofs need by name. */
module Wrappers {

  datatype Option<+T> = None | Some(value: T)

  datatype Result<+R, +E> = Ok(value: R) | Err(error: E)

  lemma AppendAssoc<T>(a: seq<T>, b: seq<T>, c: seq<T>)
    ensures (a + b) + c == a + (b + c)
  {
  }
}
