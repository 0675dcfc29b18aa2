/** Failure-compatible wrappers used across the model. */
module Results {

  /** An optional value: the model's stand-in for a null pointer or a "not found" answer. */
  datatype Option<+T> = None | Some(value: T)

  /** The outcome of an operation that the source guards with an assertion. */
  datatype Result<+T, +E> = Success(value: T) | Failure(error: E)

  /** The present values of a sequence of options, in order: a loop that pushes only what it found. */
  function Somes<T>(os: seq<Option<T>>): (r: seq<T>)
    ensures |r| <= |os|
  {
    if os == [] then []
    else (match os[0] case Some(x) => [x] case None => []) + Somes(os[1..])
  }

  /** A value is kept exactly when it is present somewhere in the options. */
  lemma {:induction false} SomesIff<T>(os: seq<Option<T>>, x: T)
    ensures x in Somes(os) <==> Some(x) in os
  {
    if os != [] {
      SomesIff(os[1..], x);
      assert os == [os[0]] + os[1..];
    }
  }
}
