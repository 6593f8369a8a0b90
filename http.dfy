/**
  What the handlers see of a network call: it either succeeds with a value or
  fails, and a failure may carry the parsed body of the server's error
  response. The handlers turn a failure into a toast text by the chain
  `error.response?.data?.message || … || "<default text>"`.
 */
module Http {
  import opened Js

  /** The fields of `error.response?.data` the handlers read; both absent when there is no response. */
  datatype ErrorResponse = ErrorResponse(message: Option<string>, error: Option<string>)

  /** The outcome of one awaited request. */
  datatype Outcome<+T> = Ok(value: T) | Failed(reason: ErrorResponse)

  /** The user-visible notification a handler raises, if any. */
  datatype Toast = Quiet | Notice(text: string) | Alert(text: string)

  /** `c0 || c1 || … || fallback` over possibly absent strings. */
  function FirstTruthy(candidates: seq<Option<string>>, fallback: string): (r: string)
    ensures fallback != "" ==> r != ""
  {
    if candidates == [] then fallback
    else if Truthy(candidates[0]) then candidates[0].value
    else FirstTruthy(candidates[1..], fallback)
  }

  /** The chain yields the first truthy candidate, and the fallback exactly when there is none. */
  lemma {:induction false} FirstTruthyIsFirst(candidates: seq<Option<string>>, fallback: string, k: nat)
    requires k <= |candidates|
    requires forall i :: 0 <= i < k ==> !Truthy(candidates[i])
    ensures k == |candidates| ==> FirstTruthy(candidates, fallback) == fallback
    ensures k < |candidates| && Truthy(candidates[k]) ==> FirstTruthy(candidates, fallback) == candidates[k].value
  {
    if k > 0 {
      FirstTruthyIsFirst(candidates[1..], fallback, k - 1);
    }
  }

  /** The text of `error.response?.data?.message || fallback`. */
  function MessageOr(reason: ErrorResponse, fallback: string): (r: string)
    ensures Truthy(reason.message) ==> r == reason.message.value
    ensures !Truthy(reason.message) ==> r == fallback
  {
    FirstTruthyIsFirst([reason.message], fallback, if Truthy(reason.message) then 0 else 1);
    FirstTruthy([reason.message], fallback)
  }
}
