/**
  The banner record as the three banner components declare it, the text part
  of the banner forms, and the two rules the components share: editing one
  named field, and the "URL or photo id" image selection of the sliders.
 */
module Banners {
  import opened Js

  /** A banner as the API returns it. */
  datatype Banner = Banner(
    id: string,
    thumbnailImage: string,
    title: string,
    toptitle: string,
    bottomtitle: string,
    isActive: bool,
    createdAt: string,
    updatedAt: string)

  /** The query key the banner list is cached under. */
  const BannersKey := "banners"

  /** The four text inputs of a banner form, by their `name` attribute. */
  datatype TextField = ThumbnailImage | TopTitle | Title | BottomTitle

  /** The four text fields of a banner form. */
  datatype BannerText = BannerText(thumbnailImage: string, toptitle: string, title: string, bottomtitle: string)

  /** The empty text form. */
  const EmptyText := BannerText("", "", "", "")

  /** `form[name]` */
  function Field(t: BannerText, f: TextField): string {
    match f
    case ThumbnailImage => t.thumbnailImage
    case TopTitle => t.toptitle
    case Title => t.title
    case BottomTitle => t.bottomtitle
  }

  /** `{ ...form, [name]: value }`: the named field takes the value and no other field changes. */
  function WithField(t: BannerText, f: TextField, value: string): (r: BannerText)
    ensures Field(r, f) == value
    ensures forall g :: g != f ==> Field(r, g) == Field(t, g)
  {
    match f
    case ThumbnailImage => t.(thumbnailImage := value)
    case TopTitle => t.(toptitle := value)
    case Title => t.(title := value)
    case BottomTitle => t.(bottomtitle := value)
  }

  /** The slider form: the four text fields and the active checkbox. */
  datatype BannerForm = BannerForm(text: BannerText, isActive: bool)

  /** The slider forms' `useState` initial value: empty strings, active. */
  const InitialForm := BannerForm(EmptyText, true)

  /** The four display fields of a banner. */
  function TextOf(b: Banner): (t: BannerText)
    ensures t.thumbnailImage == b.thumbnailImage && t.toptitle == b.toptitle
    ensures t.title == b.title && t.bottomtitle == b.bottomtitle
  {
    BannerText(b.thumbnailImage, b.toptitle, b.title, b.bottomtitle)
  }

  /** The five form fields of a banner. */
  function FormOf(b: Banner): BannerForm {
    BannerForm(TextOf(b), b.isActive)
  }

  /** `{ ...b, ...formData }`: the form's five fields over the banner's own. */
  function MergeForm(b: Banner, form: BannerForm): (r: Banner)
    ensures FormOf(r) == form
    ensures r.id == b.id && r.createdAt == b.createdAt && r.updatedAt == b.updatedAt
  {
    b.(thumbnailImage := form.text.thumbnailImage, title := form.text.title,
       toptitle := form.text.toptitle, bottomtitle := form.text.bottomtitle,
       isActive := form.isActive)
  }

  /** Merging a banner's own form back into it changes nothing. */
  lemma MergeOwnForm(b: Banner)
    ensures MergeForm(b, FormOf(b)) == b
  {
  }

  // ---------------------------------------------------------------------------
  // Image selection in the sliders

  /** The outcome of `GET /photos/:id`: the `data.data.imageUrl` it carried, or a failed request. */
  datatype PhotoLookup = Found(imageUrl: Option<string>) | LookupFailed

  /** A selection that starts with "http" is a URL and needs no lookup. */
  predicate IsDirectUrl(photoId: string) {
    StartsWith(photoId, "http")
  }

  /** The image `handleImageSelect` stores, or `None` when it leaves the form as it was. */
  function SelectedImage(photoId: string, lookup: PhotoLookup): (r: Option<string>)
    ensures IsDirectUrl(photoId) ==> r == Some(photoId)
    ensures !IsDirectUrl(photoId) ==> (r.Some? <==> lookup.Found? && Truthy(lookup.imageUrl))
    ensures !IsDirectUrl(photoId) && r.Some? ==> r == lookup.imageUrl
    ensures r.Some? ==> r.value != ""
  {
    if IsDirectUrl(photoId) then Some(photoId)
    else if lookup.Found? && Truthy(lookup.imageUrl) then lookup.imageUrl
    else None
  }
}
