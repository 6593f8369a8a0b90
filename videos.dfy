/**
  The video record the two video sliders edit, the "set one named field"
  update they share, and their only submit check: a non-empty date.
 */
module Videos {
  /** The query key the video list is cached under. */
  const VideosKey := "videos"

  /** The three inputs of a video form, by their `name` attribute. */
  datatype VideoField = VideoUrl | Title | Date

  /** The form: a video link, a title and a date, all text. */
  datatype VideoForm = VideoForm(videoUrl: string, title: string, date: string)

  /** Both sliders' initial form, and the add slider's form after a successful create. */
  const EmptyForm := VideoForm("", "", "")

  /** `form[name]` */
  function Field(v: VideoForm, f: VideoField): string {
    match f
    case VideoUrl => v.videoUrl
    case Title => v.title
    case Date => v.date
  }

  /** `{ ...prev, [name]: value }`: the named field takes the value and no other field changes. */
  function WithField(v: VideoForm, f: VideoField, value: string): (r: VideoForm)
    ensures Field(r, f) == value
    ensures forall g :: g != f ==> Field(r, g) == Field(v, g)
  {
    match f
    case VideoUrl => v.(videoUrl := value)
    case Title => v.(title := value)
    case Date => v.(date := value)
  }

  /** The submit check `!formData.date` fails: the date is the one required field. */
  predicate HasDate(v: VideoForm) {
    v.date != ""
  }

  /** Editing the link or the title never changes whether a form may be submitted. */
  lemma HasDateAfterEdit(v: VideoForm, f: VideoField, value: string)
    ensures HasDate(WithField(v, f, value)) == if f == Date then value != "" else HasDate(v)
  {
  }
}
