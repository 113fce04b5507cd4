/** Optional values and results, for Python's `None` and raised exceptions. */
module Basics {

  datatype Option<+T> = None | Some(value: T)

  datatype Result<+T, +E> = Ok(value: T) | Err(error: E)

  /** Concatenation is associative; stated once so that proofs about logs and texts need not rediscover it. */
  lemma AppendAssoc<T>(a: seq<T>, b: seq<T>, c: seq<T>)
    ensures a + b + c == a + (b + c)
  {
    assert forall k :: 0 <= k < |a + b + c| ==> (a + b + c)[k] == (a + (b + c))[k];
  }
}
