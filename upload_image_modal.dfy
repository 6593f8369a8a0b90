/**
  The multi-image upload modal: a selection of at most ten files filtered to
  images, kept as two aligned lists (the files and their names), a folder,
  a multipart payload with one "file" entry per image and one "data" entry
  for the folder, and an integer progress percentage.
 */
module UploadImageModal {
  import opened Js
  import opened Http
  import opened Multipart
  import opened Query

  /** The largest selection accepted at once. */
  const MaxFiles := 10

  /** The query key the photo list is cached under. */
  const PhotosKey := "photos"

  /** `file.type.startsWith('image/')`: the "image" top-level media type of RFC 2046, section 4.2. */
  predicate IsImage(f: File) {
    StartsWith(f.mediaType, "image/")
  }

  /** `selectedFiles.filter(file => file.type.startsWith('image/'))` */
  function ImageFiles(files: seq<File>): (r: seq<File>)
    ensures |r| <= |files|
    ensures forall i :: 0 <= i < |r| ==> IsImage(r[i])
  {
    if files == [] then []
    else (if IsImage(files[0]) then [files[0]] else []) + ImageFiles(files[1..])
  }

  /** The filter keeps exactly the selected files that are images. */
  lemma {:induction false} ImageFilesMembers(files: seq<File>)
    ensures forall f :: f in ImageFiles(files) <==> f in files && IsImage(f)
  {
    if files != [] {
      ImageFilesMembers(files[1..]);
      assert files == [files[0]] + files[1..];
    }
  }

  /** The filter distributes over concatenation, so it keeps the selection's order. */
  lemma {:induction false} ImageFilesAppend(a: seq<File>, b: seq<File>)
    ensures ImageFiles(a + b) == ImageFiles(a) + ImageFiles(b)
  {
    if a == [] {
      assert a + b == b;
    } else {
      var head := if IsImage(a[0]) then [a[0]] else [];
      assert (a + b)[0] == a[0] && (a + b)[1..] == a[1..] + b;
      ImageFilesAppend(a[1..], b);
      calc {
        ImageFiles(a + b);
        head + ImageFiles(a[1..] + b);
        head + (ImageFiles(a[1..]) + ImageFiles(b));
        (head + ImageFiles(a[1..])) + ImageFiles(b);
      }
    }
  }

  /** Nothing is dropped exactly when every selected file is an image, and then the selection is kept as it is. */
  lemma {:induction false} ImageFilesAllIff(files: seq<File>)
    ensures |ImageFiles(files)| == |files| <==> forall i :: 0 <= i < |files| ==> IsImage(files[i])
    ensures (forall i :: 0 <= i < |files| ==> IsImage(files[i])) ==> ImageFiles(files) == files
  {
    if files != [] {
      ImageFilesAllIff(files[1..]);
      if IsImage(files[0]) {
        assert forall i :: 1 <= i < |files| ==> files[i] == files[1..][i - 1];
      } else {
        assert |ImageFiles(files)| < |files|;
      }
    }
  }

  /** `validFiles.map(file => file.name)` */
  function Names(files: seq<File>): (r: seq<string>)
    ensures |r| == |files|
    ensures forall i :: 0 <= i < |files| ==> r[i] == files[i].name
  {
    seq(|files|, i requires 0 <= i < |files| => files[i].name)
  }

  /** The two lists agree position by position: `fileNames[i]` is `images[i].name`. */
  predicate Aligned(images: seq<File>, names: seq<string>) {
    |images| == |names| && forall i :: 0 <= i < |images| ==> names[i] == images[i].name
  }

  /** Splicing the same index out of both aligned lists leaves them aligned. */
  lemma SpliceKeepsAligned(images: seq<File>, names: seq<string>, index: int)
    requires Aligned(images, names)
    ensures Aligned(SpliceOne(images, index), SpliceOne(names, index))
  {
  }

  /** `JSON.stringify({ folder })` */
  function FolderJson(folder: string): (r: string)
    ensures |r| >= |folder| + 12 && r[..11] == "{\"folder\":\"" && r[|r| - 2..] == "\"}"
    ensures (forall i :: 0 <= i < |folder| ==> !NeedsEscape(folder[i])) ==> r == "{\"folder\":\"" + folder + "\"}"
  {
    "{\"folder\":" + JsonString(folder) + "}"
  }

  /** The entries `images.forEach(image => formData.append("file", image))` adds. */
  function FileEntries(images: seq<File>): (r: seq<Entry>)
    ensures |r| == |images|
    ensures forall i :: 0 <= i < |images| ==> r[i] == Entry("file", FileValue(images[i]))
  {
    if images == [] then []
    else FileEntries(images[..|images| - 1]) + [Entry("file", FileValue(images[|images| - 1]))]
  }

  /** The whole upload payload: the file entries, then the folder as JSON under "data". */
  function UploadEntries(images: seq<File>, folder: string): (r: seq<Entry>)
    ensures |r| == |images| + 1
    ensures forall i :: 0 <= i < |images| ==> r[i] == Entry("file", FileValue(images[i]))
    ensures r[|images|] == Entry("data", Text(FolderJson(folder)))
  {
    FileEntries(images) + [Entry("data", Text(FolderJson(folder)))]
  }

  /** The file values of a list of images. */
  function FileValues(images: seq<File>): (r: seq<FormValue>)
    ensures |r| == |images|
    ensures forall i :: 0 <= i < |images| ==> r[i] == FileValue(images[i])
  {
    seq(|images|, i requires 0 <= i < |images| => FileValue(images[i]))
  }

  /** Under "file" the payload holds every image once, in order; nothing else is stored there, and no file is stored under "data". */
  lemma {:induction false} FileEntriesGetAll(images: seq<File>)
    ensures GetAll(FileEntries(images), "file") == FileValues(images)
    ensures GetAll(FileEntries(images), "data") == []
  {
    if images != [] {
      var init := images[..|images| - 1];
      var last := [Entry("file", FileValue(images[|images| - 1]))];
      FileEntriesGetAll(init);
      GetAllAppend(FileEntries(init), last, "file");
      GetAllAppend(FileEntries(init), last, "data");
      assert last[1..] == [];
      assert FileValues(images) == FileValues(init) + [FileValue(images[|images| - 1])];
    }
  }

  /** The payload has one "file" entry per image in order and exactly one "data" entry, the folder's JSON, at the end. */
  lemma UploadEntriesShape(images: seq<File>, folder: string)
    ensures GetAll(UploadEntries(images, folder), "file") == FileValues(images)
    ensures GetAll(UploadEntries(images, folder), "data") == [Text(FolderJson(folder))]
  {
    var tail := [Entry("data", Text(FolderJson(folder)))];
    FileEntriesGetAll(images);
    GetAllAppend(FileEntries(images), tail, "file");
    GetAllAppend(FileEntries(images), tail, "data");
    assert tail[1..] == [];
  }

  /** Euclidean division brackets its dividend. */
  lemma DivBrackets(n: nat, d: nat)
    requires d > 0
    ensures d * (n / d) <= n < d * (n / d) + d
  {
  }

  /** Multiplying by a non-negative number keeps the order. */
  lemma MulMonotonic(d: nat, a: nat, b: nat)
    requires a <= b
    ensures d * a <= d * b
  {
  }

  /** A dividend below d·(k + 1) has a quotient of at most k. */
  lemma QuotientAtMost(n: nat, d: nat, k: nat)
    requires d > 0 && n < d * (k + 1)
    ensures n / d <= k
  {
    DivBrackets(n, d);
    if n / d > k {
      MulMonotonic(d, k + 1, n / d);
    }
  }

  /** A dividend in [d·k, d·(k + 1)) has the quotient k. */
  lemma QuotientExact(n: nat, d: nat, k: nat)
    requires d > 0 && d * k <= n < d * (k + 1)
    ensures n / d == k
  {
    DivBrackets(n, d);
    QuotientAtMost(n, d, k);
    if n / d < k {
      MulMonotonic(d, n / d + 1, k);
    }
  }

  /**
    `Math.round(loaded * 100 / total)` on exact values: the percentage is the
    integer nearest to 100·loaded/total, halves rounded up.
   */
  function Percent(loaded: nat, total: nat): (r: nat)
    requires total > 0
    ensures 2 * total * r <= 200 * loaded + total < 2 * total * (r + 1)
    ensures loaded <= total ==> r <= 100
    ensures loaded == total ==> r == 100
    ensures loaded == 0 ==> r == 0
  {
    var n := 200 * loaded + total;
    var d := 2 * total;
    DivBrackets(n, d);
    if loaded <= total then
      MulMonotonic(200, loaded, total);
      QuotientAtMost(n, d, 100);
      if loaded == total then
        QuotientExact(n, d, 100);
        n / d
      else n / d
    else n / d
  }

  /** More bytes sent never shows a smaller percentage. */
  lemma PercentMonotonic(loaded1: nat, loaded2: nat, total: nat)
    requires total > 0 && loaded1 <= loaded2
    ensures Percent(loaded1, total) <= Percent(loaded2, total)
  {
  }

  class Modal {
    var images: seq<File>
    var folder: string
    var fileNames: seq<string>
    var uploadProgress: nat

    /** The two lists stay aligned. */
    predicate Valid()
      reads this
    {
      Aligned(images, fileNames)
    }

    /** The first render: nothing selected, no folder, no progress. */
    constructor ()
      ensures Valid()
      ensures images == [] && folder == "" && fileNames == [] && uploadProgress == 0
    {
      images := [];
      folder := "";
      fileNames := [];
      uploadProgress := 0;
    }

    /**
      `handleFileChange` with the input's file list. More than ten files are
      refused and nothing changes; otherwise the images among them are kept,
      with a warning when some were dropped; no files clears the selection.
     */
    method HandleFileChange(selection: Option<seq<File>>) returns (warning: Option<string>)
      requires Valid()
      modifies this`images, this`fileNames
      ensures Valid()
      ensures selection.None? || selection.value == [] ==> images == [] && fileNames == [] && warning == None
      ensures selection.Some? && |selection.value| > MaxFiles ==>
                images == old(images) && fileNames == old(fileNames)
                && warning == Some("You can upload maximum 10 images at once")
      ensures selection.Some? && 0 < |selection.value| <= MaxFiles ==>
                images == ImageFiles(selection.value) && fileNames == Names(images)
                && warning == if |images| != |selection.value| then Some("Some files are not valid images") else None
      ensures |images| <= MaxFiles || images == old(images)
    {
      if selection.Some? && |selection.value| > 0 {
        var selectedFiles := selection.value;
        if |selectedFiles| > MaxFiles {
          warning := Some("You can upload maximum 10 images at once");
          return;
        }
        var validFiles := ImageFiles(selectedFiles);
        warning := if |validFiles| != |selectedFiles| then Some("Some files are not valid images") else None;
        images := validFiles;
        fileNames := Names(validFiles);
      } else {
        images := [];
        fileNames := [];
        warning := None;
      }
    }

    /** The folder dropdown. */
    method SetFolder(value: string)
      modifies this`folder
      ensures folder == value
    {
      folder := value;
    }

    /** `removeImage(index)`: `splice(index, 1)` on copies of both lists. */
    method RemoveImage(index: int)
      requires Valid()
      modifies this`images, this`fileNames
      ensures Valid()
      ensures images == SpliceOne(old(images), index) && fileNames == SpliceOne(old(fileNames), index)
      ensures 0 <= index < |old(images)| ==>
                |images| == |old(images)| - 1 && images == old(images)[..index] + old(images)[index + 1..]
    {
      SpliceKeepsAligned(images, fileNames, index);
      var newImages := SpliceOne(images, index);
      var newFileNames := SpliceOne(fileNames, index);
      if 0 <= index < |images| {
        assert newImages == images[..index] + images[index + 1..];
      }
      images := newImages;
      fileNames := newFileNames;
    }

    /**
      `handleSubmit`: without images or a folder nothing is sent; otherwise
      the payload is built one append at a time and handed to the upload.
     */
    method HandleSubmit() returns (payload: Option<FormData>, warning: Option<string>)
      ensures images == [] || folder == "" ==>
                payload == None && warning == Some("Please select images and a folder")
      ensures images != [] && folder != "" ==>
                payload.Some? && fresh(payload.value) && warning == None
                && payload.value.entries == UploadEntries(images, folder)
    {
      if |images| == 0 || folder == "" {
        payload := None;
        warning := Some("Please select images and a folder");
        return;
      }
      var formData := new FormData();
      var i := 0;
      while i < |images|
        invariant 0 <= i <= |images|
        invariant formData.entries == FileEntries(images[..i])
      {
        assert images[..i + 1][..i] == images[..i];
        formData.Append("file", FileValue(images[i]));
        i := i + 1;
      }
      assert images[..i] == images;
      formData.Append("data", Text(FolderJson(folder)));
      payload := Some(formData);
      warning := None;
    }

    /** `onUploadProgress`: the percentage changes only when the event carries a non-zero total. */
    method OnUploadProgress(loaded: nat, total: Option<nat>)
      modifies this`uploadProgress
      ensures total.Some? && total.value > 0 ==> uploadProgress == Percent(loaded, total.value)
      ensures total.None? || total.value == 0 ==> uploadProgress == old(uploadProgress)
    {
      if total.Some? && total.value > 0 {
        uploadProgress := Percent(loaded, total.value);
      }
    }

    /**
      The mutation's `onSuccess`: the photo list is marked stale, everything is
      cleared and the modal asks its parent to close (`onClose`).
     */
    method OnUploadSuccess<T>(client: QueryClient<T>) returns (closeRequested: bool, toast: Toast)
      modifies this`images, this`fileNames, this`folder, this`uploadProgress, client`stale
      ensures Valid()
      ensures images == [] && fileNames == [] && folder == "" && uploadProgress == 0
      ensures client.stale == old(client.stale) + {PhotosKey}
      ensures closeRequested && toast == Notice("Images uploaded successfully!")
    {
      client.InvalidateQueries(PhotosKey);
      fileNames := [];
      images := [];
      folder := "";
      uploadProgress := 0;
      closeRequested := true;
      toast := Notice("Images uploaded successfully!");
    }

    /** The mutation's `onError`: only the progress goes back to 0; the selection stays. */
    method OnUploadError() returns (toast: Toast)
      modifies this`uploadProgress
      ensures uploadProgress == 0
      ensures toast == Alert("Failed to upload images")
    {
      uploadProgress := 0;
      toast := Alert("Failed to upload images");
    }
  }
}
