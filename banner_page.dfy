/**
  The banner list page: the fetched list, the add and edit dialogs over one
  shared text form, and the handlers that validate the form (all four fields
  non-empty, no trimming), upload a chosen file first, save, toggle a
  banner's status and delete a banner. Each request the handlers send is
  returned in order; the outcome of each awaited request is a parameter.
 */
module BannerPage {
  import opened Js
  import opened Http
  import opened Banners
  import opened Multipart

  /** The requests the page sends. */
  datatype Request =
    | ListBanners                                //  GET   /api/banners
    | UploadImage(file: File)                    //  POST  /api/upload, field "image"
    | CreateBanner(body: BannerText)             //  POST  /api/banners
    | UpdateBanner(id: string, body: BannerText) //  PATCH /api/banners/:id
    | SetStatus(id: string, isActive: bool)      //  PATCH /api/banners/:id
    | DeleteBanner(id: string)                   //  DELETE /api/banners/:id

  /**
    The JavaScript value `response.data` of the list request, as parsed from
    the body. An object is described by its `data` property alone, which is
    `BodyUndefined` when the object has none.
   */
  datatype Body =
    | BodyNull
    | BodyUndefined
    | BodyString(text: string)
    | BodyArray(items: seq<Banner>)
    | BodyObject(data: Body)

  /** JavaScript truthiness: every array and every object is truthy, even an empty one. */
  predicate IsTruthy(v: Body) {
    match v
    case BodyNull => false
    case BodyUndefined => false
    case BodyString(text) => text != ""
    case BodyArray(_) => true
    case BodyObject(_) => true
  }

  /** `v.data`, or None when reading a property of null or undefined throws a TypeError. */
  function DataProperty(v: Body): Option<Body> {
    match v
    case BodyNull => None
    case BodyUndefined => None
    case BodyString(_) => Some(BodyUndefined)
    case BodyArray(_) => Some(BodyUndefined)
    case BodyObject(data) => Some(data)
  }

  /** `a || b`. */
  function Or(a: Body, b: Body): Body {
    if IsTruthy(a) then a else b
  }

  /**
    The value `setBanners` receives from `response.data.data || response.data || []`,
    or None when evaluating that expression throws.
   */
  function BannersFromBody(body: Body): (r: Option<Body>)
    ensures r.None? <==> body.BodyNull? || body.BodyUndefined?
    ensures r.Some? ==> IsTruthy(r.value)
    ensures r.Some? ==> r.value == body || r.value == BodyArray([]) || (body.BodyObject? && r.value == body.data)
  {
    match DataProperty(body)
    case None => None
    case Some(inner) => Some(Or(Or(inner, body), BodyArray([])))
  }

  /** A list inside the `{ data: [...] }` envelope is taken out of it, even when it is empty. */
  lemma EnvelopedList(items: seq<Banner>)
    ensures BannersFromBody(BodyObject(BodyArray(items))) == Some(BodyArray(items))
  {
  }

  /** A bare list is taken as it is, even when it is empty. */
  lemma BareList(items: seq<Banner>)
    ensures BannersFromBody(BodyArray(items)) == Some(BodyArray(items))
  {
  }

  /** An empty body (the empty string) gives the empty list. */
  lemma EmptyBodyList()
    ensures BannersFromBody(BodyString("")) == Some(BodyArray([]))
  {
  }

  /** An object whose `data` is missing or falsy is itself stored as the "list". */
  lemma ObjectWithoutData(body: Body)
    requires body.BodyObject? && !IsTruthy(body.data)
    ensures BannersFromBody(body) == Some(body)
  {
  }

  /** The page ends up holding an array exactly for a bare list, an enveloped array or an empty body. */
  lemma BannersArrayIff(body: Body)
    ensures (BannersFromBody(body).Some? && BannersFromBody(body).value.BodyArray?)
            <==> (body.BodyArray? || body == BodyString("") || (body.BodyObject? && body.data.BodyArray?))
  {
  }

  /** The page's required-field check: no field may be "" (white space counts as filled). */
  predicate AllFilled(t: BannerText) {
    t.thumbnailImage != "" && t.toptitle != "" && t.title != "" && t.bottomtitle != ""
  }

  /** `{ ...formData, thumbnailImage: url }`, where `url` is the uploaded one when a file was chosen. */
  function Payload(form: BannerText, uploaded: Option<string>): (r: BannerText)
    ensures r.thumbnailImage == uploaded.GetOr(form.thumbnailImage)
    ensures forall f :: f != ThumbnailImage ==> Field(r, f) == Field(form, f)
    ensures uploaded.None? ==> r == form
  {
    WithField(form, ThumbnailImage, uploaded.GetOr(form.thumbnailImage))
  }

  /** Which dialog a submit comes from. */
  datatype Target = Create | Update(id: string)

  /** The request that saves the form for a target. */
  function SaveRequest(target: Target, body: BannerText): Request {
    match target
    case Create => CreateBanner(body)
    case Update(id) => UpdateBanner(id, body)
  }

  /** The upload request for the chosen file, if any. */
  function UploadRequests(file: Option<File>): (r: seq<Request>)
    ensures |r| <= 1
    ensures |r| == 1 <==> file.Some?
    ensures file.Some? ==> r[0] == UploadImage(file.value)
  {
    if file.Some? then [UploadImage(file.value)] else []
  }

  /** The default failure text of a submit. */
  function SaveFailureDefault(target: Target): string {
    if target.Create? then "Failed to add banner" else "Failed to update banner"
  }

  /** The success text of a submit. */
  function SaveSuccessText(target: Target): string {
    if target.Create? then "Banner added successfully" else "Banner updated successfully"
  }

  class Page {
    var banners: Body
    var loading: bool
    var openAddDialog: bool
    var openEditDialog: bool
    var editingBanner: Option<Banner>
    var formData: BannerText
    var imageFile: Option<File>
    var imagePreview: string

    /** The first render: nothing loaded yet, both dialogs closed, the form empty. */
    constructor ()
      ensures banners == BodyArray([]) && loading && !openAddDialog && !openEditDialog
      ensures editingBanner == None && formData == EmptyText && imageFile == None && imagePreview == ""
    {
      banners := BodyArray([]);
      loading := true;
      openAddDialog := false;
      openEditDialog := false;
      editingBanner := None;
      formData := EmptyText;
      imageFile := None;
      imagePreview := "";
    }

    /** `fetchBanners` up to its `await`: the spinner shows and the list is requested. */
    method FetchBanners() returns (request: Request)
      modifies this`loading
      ensures loading && request == ListBanners
    {
      loading := true;
      request := ListBanners;
    }

    /**
      The rest of `fetchBanners`, once the list request has settled. A body of
      null or undefined makes reading `.data` throw inside the `try`; that
      error has no `response`, so the catch shows the default text.
     */
    method OnBannersLoaded(response: Outcome<Body>) returns (toast: Toast)
      modifies this`banners, this`loading
      ensures !loading
      ensures response.Ok? && BannersFromBody(response.value).Some? ==>
                banners == BannersFromBody(response.value).value && toast == Quiet
      ensures response.Ok? && BannersFromBody(response.value).None? ==>
                banners == old(banners) && toast == Alert("Failed to fetch banners")
      ensures response.Failed? ==> banners == old(banners)
                                   && toast == Alert(MessageOr(response.reason, "Failed to fetch banners"))
    {
      match response {
        case Ok(body) =>
          var list := BannersFromBody(body);
          if list.Some? {
            banners := list.value;
            toast := Quiet;
          } else {
            toast := Alert(MessageOr(ErrorResponse(None, None), "Failed to fetch banners"));
          }
        case Failed(reason) =>
          toast := Alert(MessageOr(reason, "Failed to fetch banners"));
      }
      loading := false;
    }

    /** `handleImageChange` up to the file reader: a chosen file is kept; no choice changes nothing. */
    method HandleImageChange(file: Option<File>)
      modifies this`imageFile
      ensures imageFile == if file.Some? then file else old(imageFile)
    {
      if file.Some? {
        imageFile := file;
      }
    }

    /** The file reader's `onloadend`, given the data URL it produced. */
    method OnImageRead(dataUrl: string)
      modifies this`imagePreview, this`formData
      ensures imagePreview == dataUrl
      ensures formData == WithField(old(formData), ThumbnailImage, dataUrl)
    {
      imagePreview := dataUrl;
      formData := WithField(formData, ThumbnailImage, dataUrl);
    }

    /** `handleInputChange`: only the named field changes. */
    method HandleInputChange(field: TextField, value: string)
      modifies this`formData
      ensures formData == WithField(old(formData), field, value)
    {
      formData := WithField(formData, field, value);
    }

    /** `resetForm`: the state it leaves does not depend on the state before, so a second call changes nothing. */
    method ResetForm()
      modifies this`formData, this`imageFile, this`imagePreview
      ensures formData == EmptyText && imageFile == None && imagePreview == ""
    {
      formData := EmptyText;
      imageFile := None;
      imagePreview := "";
    }

    /** `handleEdit`: the banner's four display fields go into the form and its image into the preview. */
    method HandleEdit(banner: Banner)
      modifies this`editingBanner, this`formData, this`imagePreview, this`openEditDialog
      ensures editingBanner == Some(banner)
      ensures formData == TextOf(banner)
      ensures imagePreview == banner.thumbnailImage
      ensures openEditDialog
    {
      editingBanner := Some(banner);
      formData := TextOf(banner);
      imagePreview := banner.thumbnailImage;
      openEditDialog := true;
    }

    /** The add dialog's "Remove": no file, no preview, no image. */
    method RemoveAddImage()
      modifies this`imagePreview, this`imageFile, this`formData
      ensures imagePreview == "" && imageFile == None
      ensures formData == WithField(old(formData), ThumbnailImage, "")
    {
      imagePreview := "";
      imageFile := None;
      formData := WithField(formData, ThumbnailImage, "");
    }

    /** The edit dialog's "Remove": the image goes back to the edited banner's, or "" when there is none. */
    method RemoveEditImage()
      modifies this`imagePreview, this`imageFile, this`formData
      ensures imagePreview == "" && imageFile == None
      ensures formData == WithField(old(formData), ThumbnailImage,
                                    if editingBanner.Some? then editingBanner.value.thumbnailImage else "")
    {
      imagePreview := "";
      imageFile := None;
      var original := if editingBanner.Some? then editingBanner.value.thumbnailImage else "";
      formData := WithField(formData, ThumbnailImage, original);
    }

    /** "Add New Banner", the close icon and "Cancel" of the add dialog. */
    method SetAddDialogOpen(open: bool)
      modifies this`openAddDialog
      ensures openAddDialog == open
    {
      openAddDialog := open;
    }

    /** The close icon and "Cancel" of the edit dialog. */
    method SetEditDialogOpen(open: bool)
      modifies this`openEditDialog
      ensures openEditDialog == open
    {
      openEditDialog := open;
    }

    /**
      The body shared by `handleAddSubmit` and `handleUpdate`: check the four
      fields, upload the chosen file (`upload` is its outcome, carrying
      `data.url`), save the form with the image URL (`save` is its outcome),
      then close the dialog, reset the form and refetch the list.
     */
    method Submit(target: Target, upload: Outcome<string>, save: Outcome<()>) returns (requests: seq<Request>, toast: Toast)
      modifies this`formData, this`imageFile, this`imagePreview, this`openAddDialog, this`openEditDialog, this`loading
      ensures !AllFilled(old(formData)) ==>
                requests == [] && toast == Alert("Please fill all required fields") && unchanged(this)
      ensures AllFilled(old(formData)) && old(imageFile).Some? && upload.Failed? ==>
                requests == UploadRequests(old(imageFile)) && unchanged(this)
                && toast == Alert(MessageOr(upload.reason, SaveFailureDefault(target)))
      ensures AllFilled(old(formData)) && (old(imageFile).None? || upload.Ok?) ==>
                var uploaded := if old(imageFile).Some? then Some(upload.value) else None;
                var saved := SaveRequest(target, Payload(old(formData), uploaded));
                requests == UploadRequests(old(imageFile)) + [saved] + (if save.Ok? then [ListBanners] else [])
      ensures AllFilled(old(formData)) && (old(imageFile).None? || upload.Ok?) && save.Ok? ==>
                formData == EmptyText && imageFile == None && imagePreview == "" && loading
                && (if target.Create? then !openAddDialog && openEditDialog == old(openEditDialog)
                    else !openEditDialog && openAddDialog == old(openAddDialog))
                && toast == Notice(SaveSuccessText(target))
      ensures AllFilled(old(formData)) && (old(imageFile).None? || upload.Ok?) && save.Failed? ==>
                unchanged(this) && toast == Alert(MessageOr(save.reason, SaveFailureDefault(target)))
    {
      if !AllFilled(formData) {
        requests := [];
        toast := Alert("Please fill all required fields");
        return;
      }
      var thumbnailImageUrl := None;
      requests := UploadRequests(imageFile);
      if imageFile.Some? {
        if upload.Failed? {
          toast := Alert(MessageOr(upload.reason, SaveFailureDefault(target)));
          return;
        }
        thumbnailImageUrl := Some(upload.value);
      }
      requests := requests + [SaveRequest(target, Payload(formData, thumbnailImageUrl))];
      if save.Failed? {
        toast := Alert(MessageOr(save.reason, SaveFailureDefault(target)));
        return;
      }
      toast := Notice(SaveSuccessText(target));
      if target.Create? {
        openAddDialog := false;
      } else {
        openEditDialog := false;
      }
      ResetForm();
      var list := FetchBanners();
      requests := requests + [list];
    }

    /**
      `handleAddSubmit`: the shared body for a new banner, which is posted.
      Only the add dialog closes on success.
     */
    method HandleAddSubmit(upload: Outcome<string>, save: Outcome<()>) returns (requests: seq<Request>, toast: Toast)
      modifies this`formData, this`imageFile, this`imagePreview, this`openAddDialog, this`openEditDialog, this`loading
      ensures !AllFilled(old(formData)) ==>
                requests == [] && toast == Alert("Please fill all required fields") && unchanged(this)
      ensures AllFilled(old(formData)) && old(imageFile).Some? && upload.Failed? ==>
                requests == UploadRequests(old(imageFile)) && unchanged(this)
                && toast == Alert(MessageOr(upload.reason, "Failed to add banner"))
      ensures AllFilled(old(formData)) && (old(imageFile).None? || upload.Ok?) ==>
                var uploaded := if old(imageFile).Some? then Some(upload.value) else None;
                requests == UploadRequests(old(imageFile)) + [CreateBanner(Payload(old(formData), uploaded))]
                            + (if save.Ok? then [ListBanners] else [])
      ensures AllFilled(old(formData)) && (old(imageFile).None? || upload.Ok?) && save.Ok? ==>
                formData == EmptyText && imageFile == None && imagePreview == "" && loading && !openAddDialog
                && toast == Notice("Banner added successfully")
      ensures AllFilled(old(formData)) && (old(imageFile).None? || upload.Ok?) && save.Failed? ==>
                unchanged(this) && toast == Alert(MessageOr(save.reason, "Failed to add banner"))
      ensures openEditDialog == old(openEditDialog)
    {
      requests, toast := Submit(Create, upload, save);
    }

    /**
      `handleUpdate`: nothing happens while no banner is being edited;
      otherwise the shared body for the edited banner, which is patched.
      Only the edit dialog closes on success.
     */
    method HandleUpdate(upload: Outcome<string>, save: Outcome<()>) returns (requests: seq<Request>, toast: Toast)
      modifies this`formData, this`imageFile, this`imagePreview, this`openAddDialog, this`openEditDialog, this`loading
      ensures old(editingBanner).None? ==> requests == [] && toast == Quiet && unchanged(this)
      ensures old(editingBanner).Some? && !AllFilled(old(formData)) ==>
                requests == [] && toast == Alert("Please fill all required fields") && unchanged(this)
      ensures old(editingBanner).Some? && AllFilled(old(formData)) && old(imageFile).Some? && upload.Failed? ==>
                requests == UploadRequests(old(imageFile)) && unchanged(this)
                && toast == Alert(MessageOr(upload.reason, "Failed to update banner"))
      ensures old(editingBanner).Some? && AllFilled(old(formData)) && (old(imageFile).None? || upload.Ok?) ==>
                var uploaded := if old(imageFile).Some? then Some(upload.value) else None;
                requests == UploadRequests(old(imageFile))
                            + [UpdateBanner(old(editingBanner).value.id, Payload(old(formData), uploaded))]
                            + (if save.Ok? then [ListBanners] else [])
      ensures old(editingBanner).Some? && AllFilled(old(formData)) && (old(imageFile).None? || upload.Ok?) && save.Ok? ==>
                formData == EmptyText && imageFile == None && imagePreview == "" && loading && !openEditDialog
                && toast == Notice("Banner updated successfully")
      ensures old(editingBanner).Some? && AllFilled(old(formData)) && (old(imageFile).None? || upload.Ok?) && save.Failed? ==>
                unchanged(this) && toast == Alert(MessageOr(save.reason, "Failed to update banner"))
      ensures openAddDialog == old(openAddDialog)
    {
      if editingBanner.None? {
        requests := [];
        toast := Quiet;
        return;
      }
      requests, toast := Submit(Update(editingBanner.value.id), upload, save);
    }

    /** `handleStatusToggle`: the row's flag negated is sent; the list is refetched on success. */
    method HandleStatusToggle(id: string, currentStatus: bool, outcome: Outcome<()>) returns (requests: seq<Request>, toast: Toast)
      modifies this`loading
      ensures requests == [SetStatus(id, !currentStatus)] + (if outcome.Ok? then [ListBanners] else [])
      ensures loading == (outcome.Ok? || old(loading))
      ensures toast == if outcome.Ok? then Notice("Status updated successfully")
                       else Alert(MessageOr(outcome.reason, "Failed to update status"))
    {
      requests := [SetStatus(id, !currentStatus)];
      if outcome.Failed? {
        toast := Alert(MessageOr(outcome.reason, "Failed to update status"));
        return;
      }
      toast := Notice("Status updated successfully");
      var list := FetchBanners();
      requests := requests + [list];
    }

    /** `handleDelete`, given the answer to the confirmation prompt. */
    method HandleDelete(id: string, confirmed: bool, outcome: Outcome<()>) returns (requests: seq<Request>, toast: Toast)
      modifies this`loading
      ensures !confirmed ==> requests == [] && toast == Quiet && loading == old(loading)
      ensures confirmed ==> requests == [DeleteBanner(id)] + (if outcome.Ok? then [ListBanners] else [])
      ensures confirmed ==> loading == (outcome.Ok? || old(loading))
      ensures confirmed ==> toast == if outcome.Ok? then Notice("Banner deleted successfully")
                                     else Alert(MessageOr(outcome.reason, "Failed to delete banner"))
    {
      if !confirmed {
        requests := [];
        toast := Quiet;
        return;
      }
      requests := [DeleteBanner(id)];
      if outcome.Failed? {
        toast := Alert(MessageOr(outcome.reason, "Failed to delete banner"));
        return;
      }
      toast := Notice("Banner deleted successfully");
      var list := FetchBanners();
      requests := requests + [list];
    }
  }
}
