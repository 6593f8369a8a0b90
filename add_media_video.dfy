/**
  The video creation slider: the form is edited one field at a time and
  submitted only with a date; the response is turned into the created video
  or an error, and a successful create marks the video list stale, empties
  the form and calls the parent's close callback.
 */
module AddMediaVideo {
  import opened Js
  import opened Http
  import opened Query
  import opened Videos

  /** The default text of every failure. */
  const DefaultFailure := "Failed to add video"

  /** The parsed JSON body of the create response, with `response.ok`. */
  datatype CreateResponse<D> = CreateResponse(ok: bool, message: Option<string>, data: D)

  /** What the `fetch` can end in: a parsed response, or a thrown error carrying its `message`. */
  datatype FetchResult<D> = Responded(response: CreateResponse<D>) | Thrown(message: Option<string>)

  /**
    `message || "Failed to add video"`: both the message of the error thrown
    for a rejected response and the text `onError` shows for any error.
   */
  function FailureText(message: Option<string>): (r: string)
    ensures r != ""
    ensures Truthy(message) ==> r == message.value
    ensures !Truthy(message) ==> r == DefaultFailure
  {
    FirstTruthyIsFirst([message], DefaultFailure, if Truthy(message) then 0 else 1);
    FirstTruthy([message], DefaultFailure)
  }

  /** `mutationFn`: an ok response yields `result.data`, anything else an error with its message. */
  function MutationResult<D>(result: FetchResult<D>): (r: Result<D, Option<string>>)
    ensures r.Success? <==> result.Responded? && result.response.ok
    ensures r.Success? ==> r.value == result.response.data
    ensures result.Responded? && !result.response.ok ==> r == Failure(Some(FailureText(result.response.message)))
    ensures result.Thrown? ==> r == Failure(result.message)
  {
    match result
    case Responded(response) =>
      if response.ok then Success(response.data) else Failure(Some(FailureText(response.message)))
    case Thrown(message) => Failure(message)
  }

  /**
    A rejected response shows the server's message when it has one and the
    default otherwise: the default applied twice, once when throwing and once
    in `onError`, is the default applied once.
   */
  lemma RejectedResponseToast<D>(response: CreateResponse<D>)
    requires !response.ok
    ensures var r := MutationResult(Responded(response));
      r.Failure? && FailureText(r.error) == FailureText(response.message)
  {
  }

  class Form {
    var formData: VideoForm

    /** A fresh slider: the form is empty. */
    constructor ()
      ensures formData == EmptyForm
    {
      formData := EmptyForm;
    }

    /** `handleChange`: only the named field changes. */
    method HandleChange(field: VideoField, value: string)
      modifies this`formData
      ensures formData == WithField(old(formData), field, value)
    {
      formData := WithField(formData, field, value);
    }

    /**
      `handleSubmit` with what the `fetch` ended in: without a date nothing is
      sent; otherwise the form is posted as it is. On success the video list is
      marked stale, the form is emptied and `onSuccessClose` is called; on
      failure the form is kept.
     */
    method HandleSubmit<T, D>(client: QueryClient<T>, result: FetchResult<D>)
      returns (request: Option<VideoForm>, closeCalled: bool, toast: Toast)
      modifies this`formData, client`stale
      ensures !HasDate(old(formData)) ==>
                request == None && !closeCalled && toast == Alert(" date is required")
                && formData == old(formData) && client.stale == old(client.stale)
      ensures HasDate(old(formData)) ==> request == Some(old(formData))
      ensures HasDate(old(formData)) && MutationResult(result).Success? ==>
                client.stale == old(client.stale) + {VideosKey} && formData == EmptyForm
                && closeCalled && toast == Notice("Video added successfully")
      ensures HasDate(old(formData)) && MutationResult(result).Failure? ==>
                client.stale == old(client.stale) && formData == old(formData) && !closeCalled
                && toast == Alert(FailureText(MutationResult(result).error))
    {
      closeCalled := false;
      if !HasDate(formData) {
        request := None;
        toast := Alert(" date is required");
        return;
      }
      request := Some(formData);
      match MutationResult(result) {
        case Success(_) =>
          client.InvalidateQueries(VideosKey);
          toast := Notice("Video added successfully");
          formData := EmptyForm;
          closeCalled := true;
        case Failure(message) =>
          toast := Alert(FailureText(message));
      }
    }
  }
}
