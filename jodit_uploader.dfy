/**
  The rich-text editor's image uploader settings: the rewrite of the
  editor's multipart payload into the form the image host expects, the
  success test and the mapping of the host's answer, and the default
  handler that inserts the uploaded image at the selection.
 */
module JoditUploader {
  import opened Js
  import opened Multipart

  /** The unsigned upload preset added to every payload. */
  const UploadPreset := "millat"

  /** The width an inserted image gets (`imageDefaultWidth`, and the handler's literal). */
  const ImageDefaultWidth := 250

  /** The name the editor stores the chosen file under. */
  const EditorFileKey := "files[0]"

  /**
    The entries `prepareData` leaves when `files[0]` held `file`: no entry is
    under `files[0]` any more, every other entry survives, and the file and
    the preset come last in that order.
   */
  function Prepared(entries: seq<Entry>, file: FormValue): (r: seq<Entry>)
    ensures |r| >= 2 && r[|r| - 2] == Entry("file", file) && r[|r| - 1] == Entry("upload_preset", Text(UploadPreset))
    ensures forall e :: e in r ==> e.name != EditorFileKey
    ensures forall e :: e in entries && e.name != EditorFileKey ==> e in r
  {
    Without(entries, EditorFileKey) + [Entry("file", file), Entry("upload_preset", Text(UploadPreset))]
  }

  /** The values two entries hold under one name. */
  lemma GetAllPair(first: Entry, second: Entry, name: string)
    ensures GetAll([first, second], name)
            == (if first.name == name then [first.value] else []) + (if second.name == name then [second.value] else [])
  {
  }

  /** The values the rewrite leaves under one name. */
  lemma PreparedGetAll(entries: seq<Entry>, file: FormValue, name: string)
    ensures GetAll(Prepared(entries, file), name)
            == (if name == EditorFileKey then [] else GetAll(entries, name))
               + ((if name == "file" then [file] else []) + (if name == "upload_preset" then [Text(UploadPreset)] else []))
  {
    var rest := Without(entries, EditorFileKey);
    var added := [Entry("file", file), Entry("upload_preset", Text(UploadPreset))];
    GetAllPair(added[0], added[1], name);
    GetAllAppend(rest, added, name);
    GetAllWithout(entries, EditorFileKey, name);
  }

  /**
    After the rewrite nothing is stored under `files[0]`; the file is the last
    value under "file", "millat" the last under "upload_preset", and every
    other name keeps its values.
   */
  lemma PreparedEntries(entries: seq<Entry>, file: FormValue)
    ensures GetAll(Prepared(entries, file), EditorFileKey) == []
    ensures GetAll(Prepared(entries, file), "file") == GetAll(entries, "file") + [file]
    ensures GetAll(Prepared(entries, file), "upload_preset") == GetAll(entries, "upload_preset") + [Text(UploadPreset)]
    ensures forall name :: name !in {EditorFileKey, "file", "upload_preset"} ==>
              GetAll(Prepared(entries, file), name) == GetAll(entries, name)
  {
    PreparedGetAll(entries, file, EditorFileKey);
    PreparedGetAll(entries, file, "file");
    PreparedGetAll(entries, file, "upload_preset");
    forall name | name !in {EditorFileKey, "file", "upload_preset"}
      ensures GetAll(Prepared(entries, file), name) == GetAll(entries, name)
    {
      PreparedGetAll(entries, file, name);
    }
  }

  /**
    `prepareData`: without a truthy `files[0]` it throws "No file selected"
    and the payload is untouched; otherwise it rewrites the payload in place
    and returns it.
   */
  method PrepareData(formData: FormData) returns (r: Result<FormData, string>)
    modifies formData
    ensures !TruthyValue(GetFirst(old(formData.entries), EditorFileKey)) ==>
              r == Failure("No file selected") && formData.entries == old(formData.entries)
    ensures TruthyValue(GetFirst(old(formData.entries), EditorFileKey)) ==>
              r == Success(formData)
              && formData.entries == Prepared(old(formData.entries), GetFirst(old(formData.entries), EditorFileKey).value)
  {
    var file := formData.Get(EditorFileKey);
    if !TruthyValue(file) {
      return Failure("No file selected");
    }
    formData.Delete(EditorFileKey);
    formData.Append("file", file.value);
    formData.Append("upload_preset", Text(UploadPreset));
    r := Success(formData);
  }

  /** The host's answer: `secure_url`, `error` (passed on as it is) and `message`. */
  datatype UploadResponse<E> = UploadResponse(secureUrl: Option<string>, error: E, message: Option<string>)

  /** What `process` hands the editor. */
  datatype Processed<E> = Processed(files: seq<string>, path: Option<string>, error: E, msg: Option<string>)

  /** `isSuccess`: the upload succeeded exactly when `secure_url` is truthy. */
  predicate IsSuccess<E>(resp: UploadResponse<E>) {
    Truthy(resp.secureUrl)
  }

  /** `process`: at most one file, the secure URL, present exactly on success; the rest passed through. */
  function Process<E>(resp: UploadResponse<E>): (r: Processed<E>)
    ensures |r.files| <= 1
    ensures |r.files| == 1 <==> IsSuccess(resp)
    ensures IsSuccess(resp) ==> r.files == [resp.secureUrl.value]
    ensures r.path == resp.secureUrl && r.error == resp.error && r.msg == resp.message
  {
    Processed(if Truthy(resp.secureUrl) then [resp.secureUrl.value] else [], resp.secureUrl, resp.error, resp.message)
  }

  /** `response?.files?.[0]` */
  function FirstUrl<E>(response: Option<Processed<E>>): Option<string> {
    if response.Some? && |response.value.files| > 0 then Some(response.value.files[0]) else None
  }

  /** A processed answer has a usable first URL exactly when the upload succeeded, and that URL is the secure one. */
  lemma ProcessedUrlIffSuccess<E>(resp: UploadResponse<E>)
    ensures Truthy(FirstUrl(Some(Process(resp)))) <==> IsSuccess(resp)
    ensures IsSuccess(resp) ==> FirstUrl(Some(Process(resp))) == resp.secureUrl
  {
  }

  /** An image inserted at the selection: its URL and its width. */
  datatype InsertedImage = InsertedImage(url: string, width: nat)

  /** The editor as far as the handler sees it: whether it has a selection, and what has been inserted. */
  class Editor {
    var hasSelection: bool
    var inserted: seq<InsertedImage>

    constructor (hasSelection: bool)
      ensures this.hasSelection == hasSelection && inserted == []
    {
      this.hasSelection := hasSelection;
      inserted := [];
    }

    /** `selection.insertImage(url, null, width)` */
    method InsertImage(url: string, width: nat)
      modifies this`inserted
      ensures inserted == old(inserted) + [InsertedImage(url, width)]
    {
      inserted := inserted + [InsertedImage(url, width)];
    }
  }

  /** `defaultHandlerSuccess`: one image, 250 wide, only with a truthy first URL and a selection. */
  method DefaultHandlerSuccess<E>(response: Option<Processed<E>>, editor: Editor?)
    modifies if editor == null then {} else {editor}
    ensures editor != null && Truthy(FirstUrl(response)) && editor.hasSelection ==>
              editor.inserted == old(editor.inserted) + [InsertedImage(FirstUrl(response).value, ImageDefaultWidth)]
    ensures editor != null && !(Truthy(FirstUrl(response)) && editor.hasSelection) ==>
              editor.inserted == old(editor.inserted)
    ensures editor != null ==> editor.hasSelection == old(editor.hasSelection)
  {
    var url := FirstUrl(response);
    if Truthy(url) && editor != null && editor.hasSelection {
      editor.InsertImage(url.value, ImageDefaultWidth);
    }
  }
}
