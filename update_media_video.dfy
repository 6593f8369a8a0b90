/**
  The video update slider: the form is filled from the fetched video, edited
  one field at a time, and submitted only with a date; a successful update
  marks the video list stale and closes the slider.
 */
module UpdateMediaVideo {
  import opened Js
  import opened Http
  import opened Query
  import opened Videos

  /** The fetched video (`res.data.data`); any of its fields may be missing. */
  datatype FetchedVideo = FetchedVideo(videoUrl: Option<string>, title: Option<string>, date: Option<string>)

  /** The populate effect's form: each field copied, with "" for a missing one. */
  function PopulatedForm(v: FetchedVideo): (r: VideoForm)
    ensures r.videoUrl == v.videoUrl.GetOr("")
    ensures r.title == v.title.GetOr("")
    ensures r.date == v.date.GetOr("")
  {
    FirstTruthyIsFirst([v.videoUrl], "", if Truthy(v.videoUrl) then 0 else 1);
    FirstTruthyIsFirst([v.title], "", if Truthy(v.title) then 0 else 1);
    FirstTruthyIsFirst([v.date], "", if Truthy(v.date) then 0 else 1);
    VideoForm(FirstTruthy([v.videoUrl], ""), FirstTruthy([v.title], ""), FirstTruthy([v.date], ""))
  }

  /** A populated form may be submitted exactly when the fetched video had a non-empty date. */
  lemma PopulatedFormHasDate(v: FetchedVideo)
    ensures HasDate(PopulatedForm(v)) <==> Truthy(v.date)
  {
  }

  /** The request the mutation sends: `PUT /videos/:id` with the form. */
  datatype UpdateRequest = PutVideo(id: string, data: VideoForm)

  /** The toast text when the update fails: the response's message, else the default. */
  function UpdateFailureText(reason: ErrorResponse): (r: string)
    ensures r != ""
    ensures Truthy(reason.message) ==> r == reason.message.value
    ensures !Truthy(reason.message) ==> r == "Failed to update video"
  {
    MessageOr(reason, "Failed to update video")
  }

  class Slider {
    /** The video being edited. */
    const videoId: string
    var formData: VideoForm
    /** The parent's `openModalForUpdate` flag, cleared by `setOpenModalForUpdate(false)`. */
    var open: bool

    /** The state before the video has been fetched. */
    constructor (videoId: string)
      ensures this.videoId == videoId && formData == EmptyForm && open
    {
      this.videoId := videoId;
      formData := EmptyForm;
      open := true;
    }

    /** The populate effect: it runs only once a video has arrived. */
    method OnVideoLoaded(video: Option<FetchedVideo>)
      modifies this`formData
      ensures video.Some? ==> formData == PopulatedForm(video.value)
      ensures video.None? ==> formData == old(formData)
    {
      if video.Some? {
        formData := PopulatedForm(video.value);
      }
    }

    /** `handleChange`: only the named field changes. */
    method HandleChange(field: VideoField, value: string)
      modifies this`formData
      ensures formData == WithField(old(formData), field, value)
    {
      formData := WithField(formData, field, value);
    }

    /**
      `handleSubmit` with the mutation's outcome: without a date nothing is
      sent; otherwise the form goes out under the slider's video id, and on
      success the video list is marked stale and the slider closes.
     */
    method HandleSubmit<T>(client: QueryClient<T>, outcome: Outcome<()>) returns (request: Option<UpdateRequest>, toast: Toast)
      modifies this`open, client`stale
      ensures !HasDate(formData) ==>
                request == None && toast == Alert("Date is required")
                && open == old(open) && client.stale == old(client.stale)
      ensures HasDate(formData) ==> request == Some(PutVideo(videoId, formData))
      ensures HasDate(formData) && outcome.Ok? ==>
                client.stale == old(client.stale) + {VideosKey} && !open
                && toast == Notice("Video updated successfully")
      ensures HasDate(formData) && outcome.Failed? ==>
                client.stale == old(client.stale) && open == old(open)
                && toast == Alert(UpdateFailureText(outcome.reason))
    {
      if !HasDate(formData) {
        request := None;
        toast := Alert("Date is required");
        return;
      }
      request := Some(PutVideo(videoId, formData));
      match outcome {
        case Ok(_) =>
          client.InvalidateQueries(VideosKey);
          toast := Notice("Video updated successfully");
          open := false;
        case Failed(reason) =>
          toast := Alert(UpdateFailureText(reason));
      }
    }
  }
}
