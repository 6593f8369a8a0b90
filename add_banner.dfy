/**
  The banner creation slider: a form that starts empty and active, the image
  selection, two submit checks (an image, and a title that is not blank after
  `trim`), and a submit that prepends the server's banner to the cached list
  once the request has succeeded and only marks the list stale when it fails.
 */
module AddBanner {
  import opened Js
  import opened Http
  import opened Banners
  import opened Query

  /** The two checks of `handleSubmit`, in order: `None` when both pass, else the toast text. */
  function SubmitCheck(form: BannerForm): (r: Option<string>)
    ensures r.None? <==> form.text.thumbnailImage != "" && Trim(form.text.title) != ""
    ensures form.text.thumbnailImage == "" ==> r == Some("Please select or enter a banner image")
    ensures form.text.thumbnailImage != "" && Trim(form.text.title) == "" ==> r == Some("Main title is required")
  {
    if form.text.thumbnailImage == "" then Some("Please select or enter a banner image")
    else if Trim(form.text.title) == "" then Some("Main title is required")
    else None
  }

  /**
    A form passes exactly when it has an image and its title has a character
    other than white space; the top and bottom titles and the flag are not looked at.
   */
  lemma SubmitCheckPasses(form: BannerForm)
    ensures SubmitCheck(form).None? <==>
              form.text.thumbnailImage != "" && exists i :: 0 <= i < |form.text.title| && !IsJsSpace(form.text.title[i])
  {
  }

  /** Only the image and the title decide the check. */
  lemma SubmitCheckIgnoresOtherFields(a: BannerForm, b: BannerForm)
    requires a.text.thumbnailImage == b.text.thumbnailImage && a.text.title == b.text.title
    ensures SubmitCheck(a) == SubmitCheck(b)
  {
  }

  /** The updater `(old = []) => [newBanner, ...old]`. */
  function PrependBanner(newBanner: Banner, cached: Option<seq<Banner>>): (r: seq<Banner>)
    ensures |r| == |cached.GetOr([])| + 1
    ensures r[0] == newBanner
    ensures forall i :: 0 <= i < |cached.GetOr([])| ==> r[i + 1] == cached.GetOr([])[i]
    ensures cached.None? ==> r == [newBanner]
  {
    [newBanner] + cached.GetOr([])
  }

  /** A banner whose id is new appears in the updated list exactly once, at the front. */
  lemma PrependedOnce(newBanner: Banner, cached: Option<seq<Banner>>)
    requires forall b :: b in cached.GetOr([]) ==> b.id != newBanner.id
    ensures forall i :: 0 <= i < |PrependBanner(newBanner, cached)| && PrependBanner(newBanner, cached)[i].id == newBanner.id
              ==> i == 0
  {
  }

  /** `message || error || "Failed to add banner"` from the error response. */
  function AddFailureText(reason: ErrorResponse): (r: string)
    ensures r != ""
    ensures Truthy(reason.message) ==> r == reason.message.value
    ensures !Truthy(reason.message) && Truthy(reason.error) ==> r == reason.error.value
    ensures !Truthy(reason.message) && !Truthy(reason.error) ==> r == "Failed to add banner"
  {
    var chain := [reason.message, reason.error];
    FirstTruthyIsFirst(chain, "Failed to add banner",
      if Truthy(reason.message) then 0 else if Truthy(reason.error) then 1 else 2);
    FirstTruthy(chain, "Failed to add banner")
  }

  /** The request `handleSubmit` sends: `POST /banners` with the whole form. */
  datatype PostRequest = PostBanner(body: BannerForm)

  class Slider {
    var formData: BannerForm
    /** The preview image. */
    var imageUrl: string
    var loading: bool
    /** The parent's `openModalForAdd` flag, cleared by `setOpenModalForAdd(false)`. */
    var open: bool

    /** A fresh slider: the form is empty and active. */
    constructor ()
      ensures formData == InitialForm && imageUrl == "" && !loading && open
    {
      formData := InitialForm;
      imageUrl := "";
      loading := false;
      open := true;
    }

    /** `handleImageSelect`, the same rule as the update slider's. */
    method HandleImageSelect(photoId: string, lookup: PhotoLookup) returns (lookedUp: Option<string>, toast: Toast)
      modifies this`formData, this`imageUrl
      ensures lookedUp == if IsDirectUrl(photoId) then None else Some(photoId)
      ensures SelectedImage(photoId, lookup).Some? ==>
                var url := SelectedImage(photoId, lookup).value;
                imageUrl == url && formData == old(formData).(text := old(formData).text.(thumbnailImage := url))
      ensures SelectedImage(photoId, lookup).None? ==> imageUrl == old(imageUrl) && formData == old(formData)
      ensures toast == if !IsDirectUrl(photoId) && lookup.LookupFailed? then Alert("Failed to load selected image") else Quiet
    {
      toast := Quiet;
      lookedUp := if IsDirectUrl(photoId) then None else Some(photoId);
      if !IsDirectUrl(photoId) && lookup.LookupFailed? {
        toast := Alert("Failed to load selected image");
      }
      var selected := SelectedImage(photoId, lookup);
      if selected.Some? {
        imageUrl := selected.value;
        formData := formData.(text := formData.text.(thumbnailImage := selected.value));
      }
    }

    /** `handleInputChange`: only the named text field changes. */
    method HandleInputChange(field: TextField, value: string)
      modifies this`formData
      ensures formData == old(formData).(text := WithField(old(formData).text, field, value))
    {
      formData := formData.(text := WithField(formData.text, field, value));
    }

    /** `handleCheckboxChange`: only `isActive` changes. */
    method HandleCheckboxChange(checked: bool)
      modifies this`formData
      ensures formData == old(formData).(isActive := checked)
    {
      formData := formData.(isActive := checked);
    }

    /**
      `handleSubmit` with the POST's outcome (the `data.data` banner on success).
      A form failing the checks sends nothing. On success the returned banner is
      prepended to the cached list, the parent's `onSuccess` runs and the slider
      closes; on failure the list is only marked stale. The form is not reset.
     */
    method HandleSubmit(client: QueryClient<seq<Banner>>, outcome: Outcome<Banner>)
      returns (request: Option<PostRequest>, notifiedParent: bool, toast: Toast)
      modifies this`loading, this`open, client
      ensures SubmitCheck(formData).Some? ==>
                request == None && loading == old(loading) && !notifiedParent && open == old(open)
                && client.data == old(client.data) && client.stale == old(client.stale)
                && toast == Alert(SubmitCheck(formData).value)
      ensures SubmitCheck(formData).None? ==> request == Some(PostBanner(formData)) && !loading
      ensures SubmitCheck(formData).None? && outcome.Ok? ==>
                client.data == old(client.data)[BannersKey := PrependBanner(outcome.value, old(client.GetQueryData(BannersKey)))]
                && client.stale == old(client.stale) && notifiedParent && !open
                && toast == Notice("Banner added successfully \U{00E2}\U{0153}\U{2026}")
      ensures SubmitCheck(formData).None? && outcome.Failed? ==>
                client.data == old(client.data) && client.stale == old(client.stale) + {BannersKey}
                && !notifiedParent && open == old(open)
                && toast == Alert(AddFailureText(outcome.reason))
    {
      notifiedParent := false;
      var check := SubmitCheck(formData);
      if check.Some? {
        request := None;
        toast := Alert(check.value);
        return;
      }
      loading := true;
      request := Some(PostBanner(formData));
      match outcome {
        case Ok(newBanner) =>
          client.SetQueryData(BannersKey, PrependBanner(newBanner, client.GetQueryData(BannersKey)));
          toast := Notice("Banner added successfully \U{00E2}\U{0153}\U{2026}");
          notifiedParent := true;
          open := false;
        case Failed(reason) =>
          client.InvalidateQueries(BannersKey);
          toast := Alert(AddFailureText(reason));
      }
      loading := false;
    }
  }
}
