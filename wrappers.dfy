/**
 * Failure-carrying values shared by the whole model.
 *
 * The Java client reports most failures by throwing unchecked exceptions
 * out of the call that hit them; the model returns them as values instead.
 */
module Wrappers {

  datatype Option<+T> = None | Some(value: T)

  /** The exceptions that escape from the modelled operations to their caller. */
  datatype Exception =
    | JsonError          // org.json's JSONException: missing key, wrong type, index out of range, unparsable text
    | NullPointer        // a null style reaching the switch of the Grid constructor
    | IndexOutOfBounds   // charAt(length() - 1) on an empty base URI
    | IoError            // a file of a multipart upload that cannot be probed or read
    | Unmodelled         // an org.json coercion that lies outside this model (see README)

  datatype Result<+T> = Ok(value: T) | Err(error: Exception) {

    predicate IsFailure() {
      Err?
    }

    function PropagateFailure<U>(): Result<U>
      requires Err?
    {
      Err(error)
    }

    function Extract(): T
      requires Ok?
    {
      value
    }
  }

  /** The result of an operation that returns nothing (a Java `void` method) but may throw. */
  datatype Outcome = Pass | Fail(error: Exception)

  /** What a loop over `0..n` that appends `f(k)` collects: every value in order, or the first exception. */
  function CollectAll<T>(f: nat -> Result<T>, n: nat): (r: Result<seq<T>>)
    ensures r.Ok? <==> forall k :: 0 <= k < n ==> f(k).Ok?
    ensures r.Ok? ==> |r.value| == n && forall k :: 0 <= k < n ==> f(k) == Ok(r.value[k])
  {
    if n == 0 then Ok([])
    else
      var front :- CollectAll(f, n - 1);
      var last :- f(n - 1);
      Ok(front + [last])
  }

  /** The first index that throws decides the outcome of every longer loop. */
  lemma {:induction false} CollectFirstError<T>(f: nat -> Result<T>, i: nat, n: nat)
    requires i < n
    requires CollectAll(f, i).Ok? && f(i).Err?
    ensures CollectAll(f, n) == Err(f(i).error)
    decreases n
  {
    if n > i + 1 {
      CollectFirstError(f, i, n - 1);
    }
  }
}
