/**
  The banner update slider: a form initialised from the banner it edits, the
  image selection, the field and checkbox handlers, and a submit that writes
  the form into the cached banner list before the request (an optimistic
  update) and, when the request fails, only marks the list stale.
 */
module UpdateBanner {
  import opened Js
  import opened Http
  import opened Banners
  import opened Query

  /** The `banner` prop; at run time any of its form fields may be missing. */
  datatype BannerProp = BannerProp(
    id: string,
    thumbnailImage: Option<string>,
    title: Option<string>,
    toptitle: Option<string>,
    bottomtitle: Option<string>,
    isActive: Option<bool>)

  /** The form the initialisation effect builds: missing strings become "", a missing flag `true`. */
  function FormFromProp(b: BannerProp): (r: BannerForm)
    ensures r.text.thumbnailImage == b.thumbnailImage.GetOr("")
    ensures r.text.title == b.title.GetOr("")
    ensures r.text.toptitle == b.toptitle.GetOr("")
    ensures r.text.bottomtitle == b.bottomtitle.GetOr("")
    ensures r.isActive == b.isActive.GetOr(true)
  {
    var text := BannerText(
      FirstTruthy([b.thumbnailImage], ""),
      FirstTruthy([b.toptitle], ""),
      FirstTruthy([b.title], ""),
      FirstTruthy([b.bottomtitle], ""));
    FirstTruthyIsFirst([b.thumbnailImage], "", if Truthy(b.thumbnailImage) then 0 else 1);
    FirstTruthyIsFirst([b.toptitle], "", if Truthy(b.toptitle) then 0 else 1);
    FirstTruthyIsFirst([b.title], "", if Truthy(b.title) then 0 else 1);
    FirstTruthyIsFirst([b.bottomtitle], "", if Truthy(b.bottomtitle) then 0 else 1);
    BannerForm(text, if b.isActive.Some? then b.isActive.value else true)
  }

  /** `old.map(b => b._id === id ? { ...b, ...formData } : b)` */
  function MergeInto(banners: seq<Banner>, id: string, form: BannerForm): (r: seq<Banner>)
    ensures |r| == |banners|
    ensures forall i :: 0 <= i < |banners| && banners[i].id != id ==> r[i] == banners[i]
    ensures forall i :: 0 <= i < |banners| && banners[i].id == id ==>
              r[i].id == id && FormOf(r[i]) == form &&
              r[i].createdAt == banners[i].createdAt && r[i].updatedAt == banners[i].updatedAt
  {
    if banners == [] then []
    else [if banners[0].id == id then MergeForm(banners[0], form) else banners[0]]
         + MergeInto(banners[1..], id, form)
  }

  /** The updater passed to `setQueryData`: an absent list counts as `[]`. */
  function OptimisticList(cached: Option<seq<Banner>>, id: string, form: BannerForm): (r: seq<Banner>)
    ensures |r| == |cached.GetOr([])|
    ensures cached.None? ==> r == []
  {
    MergeInto(cached.GetOr([]), id, form)
  }

  /** Applying the same update twice gives what applying it once gives. */
  lemma MergeIntoIdempotent(banners: seq<Banner>, id: string, form: BannerForm)
    ensures MergeInto(MergeInto(banners, id, form), id, form) == MergeInto(banners, id, form)
  {
  }

  /** Submitting a form equal to what the matching banners already hold leaves the list as it was. */
  lemma MergeIntoUnchangedForm(banners: seq<Banner>, id: string, form: BannerForm)
    requires forall i :: 0 <= i < |banners| && banners[i].id == id ==> FormOf(banners[i]) == form
    ensures MergeInto(banners, id, form) == banners
  {
  }

  /** The request `handleSubmit` sends: `PATCH /banners/:id` with the whole form. */
  datatype PatchRequest = PatchBanner(id: string, body: BannerForm)

  /** The toast text when the update fails. */
  function UpdateFailureText(reason: ErrorResponse): (r: string)
    ensures r != ""
    ensures Truthy(reason.message) ==> r == reason.message.value
  {
    MessageOr(reason, "Failed to update banner")
  }

  class Slider {
    /** The banner being edited. */
    const banner: BannerProp
    var formData: BannerForm
    /** The preview image. */
    var imageUrl: string
    var loading: bool
    /** The parent's `openModalForUpdate` flag, cleared by `setOpenModalForUpdate(false)`. */
    var open: bool

    /** The state before the initialisation effect has run. */
    constructor (banner: BannerProp)
      ensures this.banner == banner
      ensures formData == InitialForm && imageUrl == "" && !loading && open
    {
      this.banner := banner;
      formData := InitialForm;
      imageUrl := "";
      loading := false;
      open := true;
    }

    /** The effect that copies the banner into the form and the preview. */
    method InitialiseFromBanner()
      modifies this`formData, this`imageUrl
      ensures formData == FormFromProp(banner)
      ensures imageUrl == banner.thumbnailImage.GetOr("")
    {
      formData := FormFromProp(banner);
      imageUrl := formData.text.thumbnailImage;
    }

    /**
      `handleImageSelect(photoId)`: a URL is stored as it is; an id is looked up
      (`lookup` is what the lookup returned) and its URL stored only when truthy.
      Returns the id looked up, if any, and the toast raised.
     */
    method HandleImageSelect(photoId: string, lookup: PhotoLookup) returns (lookedUp: Option<string>, toast: Toast)
      modifies this`formData, this`imageUrl
      ensures lookedUp == if IsDirectUrl(photoId) then None else Some(photoId)
      ensures SelectedImage(photoId, lookup).Some? ==>
                var url := SelectedImage(photoId, lookup).value;
                imageUrl == url && formData == old(formData).(text := old(formData).text.(thumbnailImage := url))
      ensures SelectedImage(photoId, lookup).None? ==> imageUrl == old(imageUrl) && formData == old(formData)
      ensures toast == if !IsDirectUrl(photoId) && lookup.LookupFailed? then Alert("Failed to load selected image") else Quiet
    {
      toast := Quiet;
      lookedUp := if IsDirectUrl(photoId) then None else Some(photoId);
      if !IsDirectUrl(photoId) && lookup.LookupFailed? {
        toast := Alert("Failed to load selected image");
      }
      var selected := SelectedImage(photoId, lookup);
      if selected.Some? {
        imageUrl := selected.value;
        formData := formData.(text := formData.text.(thumbnailImage := selected.value));
      }
    }

    /** The "Or enter image URL" input: the typed text becomes both the image and the preview. */
    method HandleUrlInput(value: string)
      modifies this`formData, this`imageUrl
      ensures formData == old(formData).(text := WithField(old(formData).text, ThumbnailImage, value))
      ensures imageUrl == value
    {
      formData := formData.(text := WithField(formData.text, ThumbnailImage, value));
      imageUrl := value;
    }

    /** `handleInputChange`: only the named text field changes. */
    method HandleInputChange(field: TextField, value: string)
      modifies this`formData
      ensures formData == old(formData).(text := WithField(old(formData).text, field, value))
    {
      formData := formData.(text := WithField(formData.text, field, value));
    }

    /** `handleCheckboxChange`: only `isActive` changes. */
    method HandleCheckboxChange(checked: bool)
      modifies this`formData
      ensures formData == old(formData).(isActive := checked)
    {
      formData := formData.(isActive := checked);
    }

    /**
      `handleSubmit` with the PATCH's outcome: no field is checked; the cached
      list is updated first, then the request is sent. On success the slider
      closes and the parent's `onSuccess` runs; on failure the list is only
      marked stale, with no restore of the earlier value.
     */
    method HandleSubmit(client: QueryClient<seq<Banner>>, outcome: Outcome<()>)
      returns (request: PatchRequest, notifiedParent: bool, toast: Toast)
      modifies this`loading, this`open, client
      ensures request == PatchBanner(banner.id, formData)
      ensures client.data == old(client.data)[BannersKey := OptimisticList(old(client.GetQueryData(BannersKey)), banner.id, formData)]
      ensures !loading
      ensures outcome.Ok? ==> !open && notifiedParent && client.stale == old(client.stale)
                              && toast == Notice("Banner updated successfully")
      ensures outcome.Failed? ==> open == old(open) && !notifiedParent
                                  && client.stale == old(client.stale) + {BannersKey}
                                  && toast == Alert(UpdateFailureText(outcome.reason))
    {
      loading := true;
      client.SetQueryData(BannersKey, OptimisticList(client.GetQueryData(BannersKey), banner.id, formData));
      request := PatchBanner(banner.id, formData);
      match outcome {
        case Ok(_) =>
          toast := Notice("Banner updated successfully");
          open := false;
          notifiedParent := true;
        case Failed(reason) =>
          client.InvalidateQueries(BannersKey);
          toast := Alert(UpdateFailureText(reason));
          notifiedParent := false;
      }
      loading := false;
    }
  }
}
