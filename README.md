# Banner and media admin: form and list state

This project models the form-state and list-state logic of an admin dashboard built from React components. The dashboard manages home-page banners, uploaded photos, media videos and a rich-text editor's image uploader. Each component becomes a Dafny module:

- a component whose handlers call state setters is a `class` whose fields are those state variables;
- each handler is a `method` whose `modifies` clause names the fields it may set, and whose `ensures` say which of them it sets and to what;
- the guards, payloads and cache updaters the handlers use are functions with contracts and lemmas.

A network request, a file read, a photo lookup or a confirmation prompt is never performed. Its outcome is a parameter of the handler, and the requests a handler would send are returned in the order it sends them. So are the toast it raises and the callbacks it would call, as flags.

Modules:

- `Js`: the JavaScript behaviour the handlers rely on:
  - truthiness of a possibly absent string;
  - `startsWith`;
  - `String.prototype.trim` over the ECMAScript white-space and line-terminator set;
  - `Array.prototype.splice(index, 1)`, including negative and out-of-range indexes;
  - `JSON.stringify` of a string.
- `Http`: request outcomes, the server's error body, toasts, and the `a || b || "default"` message chains.
- `Query`: the client-side query cache, with cached values by key and a set of keys marked stale.
- `Multipart`: browser files and the `FormData` multimap (`get`, `getAll`, `append`, `delete`).
- `Banners`: the banner record, the banner form, one-field edits, and the "URL or photo id" image selection shared by both banner sliders.
- `BannerPage`: the banner list page (`src/app/dashboard/Banner/page.tsx`).
- `UpdateBanner`, `AddBanner`: the two banner sliders.
- `BannerChecks`: how the list page's submit check and the add slider's differ.
- `UploadImageModal`: the multi-image upload modal.
- `Videos`, `UpdateMediaVideo`, `AddMediaVideo`: the video form and the two video sliders.
- `JoditUploader`: the uploader settings of the rich-text editor.

Three submit checks exist, and the model keeps them apart because the code does:

- the list page requires all four banner text fields to be non-empty, with no trimming;
- the add slider requires an image and a title that is not blank after `trim`;
- the update slider checks nothing.

On a failed slider save, the code marks the cached banner list stale (`invalidateQueries`). It takes no snapshot and restores nothing. The list page's toggle and delete write nothing to a cache at all: they refetch the list after a success. The page's submit check does not trim. A failed photo lookup leaves the form as it was.

## Model

| member | source | states |
|---|---|---|
| Js.Trim | src/app/dashboard/components/sliders/AddBanner.tsx:100 | `trim` never lengthens a string and leaves no white space at either end |
| Js.TrimEmptyIff | src/app/dashboard/components/sliders/AddBanner.tsx:100 | a string trims to "" exactly when every character is white space |
| Js.Truthy | src/app/dashboard/components/sliders/AddBanner.tsx:136-138 | a possibly absent string is truthy when it is present and non-empty |
| Js.StartsWith | src/app/dashboard/components/modals/uploadImageModal.tsx:70 | `s.startsWith(prefix)`: the prefix is no longer than `s` and equals its first characters |
| Js.SpliceStart | src/app/dashboard/components/modals/uploadImageModal.tsx:122-123 | `splice`'s start index: an index in range is kept, a negative one counts from the end, one past either end clamps to the length or to 0, and it never exceeds the length |
| Js.SpliceOne | src/app/dashboard/components/modals/uploadImageModal.tsx:122-123 | `splice(index, 1)` removes exactly the element at the start index when there is one; the elements before and after it keep their order |
| Js.JsonEscape | src/app/dashboard/components/modals/uploadImageModal.tsx:112 | the body of a JSON string literal is never shorter than the string, and is the string itself when nothing in it needs escaping |
| Js.JsonString | src/app/dashboard/components/modals/uploadImageModal.tsx:112 | `JSON.stringify` of a string is a literal between double quotes, and the string verbatim between them when it holds no quote, backslash or control character |
| Http.FirstTruthy | src/app/dashboard/components/sliders/AddBanner.tsx:136-138 | an `a \|\| b \|\| "default"` chain with a non-empty default never yields the empty string |
| Http.FirstTruthyIsFirst | src/app/dashboard/components/sliders/AddBanner.tsx:136-138 | the chain yields the first truthy candidate when there is one, and the default when no candidate is truthy |
| Http.MessageOr | src/app/dashboard/Banner/page.tsx:53 | `error.response?.data?.message \|\| fallback` is the server's message when it is non-empty and the fallback otherwise |
| Query.QueryClient.SetQueryData | src/app/dashboard/components/sliders/UpdateBanner.tsx:113-117 | writing a key replaces that key's cached value and no other key's |
| Query.QueryClient.InvalidateQueries | src/app/dashboard/components/sliders/UpdateBanner.tsx:129 | invalidation adds the key to the stale set and keeps every other key's state |
| Multipart.GetAll | src/config/joditEditor.config.ts:15 | the values under a name are at most as many as the entries |
| Multipart.GetFirst | src/config/joditEditor.config.ts:15 | `formData.get(name)` is the first of the values under the name, and `null` exactly when there is none |
| Multipart.Without | src/config/joditEditor.config.ts:17 | `delete(name)` keeps exactly the entries under other names |
| Multipart.TruthyValue | src/config/joditEditor.config.ts:16 | a value read from `FormData` is truthy when it is a file or a non-empty string, and falsy when it is absent |
| Multipart.GetAllAppend | src/config/joditEditor.config.ts:18-19 | appending entries appends their values to each name's values |
| Multipart.GetAllWithout | src/config/joditEditor.config.ts:17 | after `delete(name)` nothing is stored under the name, and every other name keeps its values |
| Multipart.FormData.constructor | src/app/dashboard/components/modals/uploadImageModal.tsx:104 | a new `FormData` holds no entries |
| Multipart.FormData.Append | src/app/dashboard/components/modals/uploadImageModal.tsx:108 | `append` adds one entry at the end and changes nothing else |
| Multipart.FormData.Delete | src/config/joditEditor.config.ts:17 | `delete` leaves the entries that `Without` keeps |
| Banners.WithField | src/app/dashboard/Banner/page.tsx:73-79 | `{ ...prev, [name]: value }` sets the named field and leaves the other three unchanged |
| Banners.TextOf | src/app/dashboard/Banner/page.tsx:133-138 | the form copied from a banner holds exactly its four display fields |
| Banners.MergeForm | src/app/dashboard/components/sliders/UpdateBanner.tsx:115 | `{ ...b, ...formData }` takes the form's five fields and keeps the banner's id and timestamps |
| Banners.MergeOwnForm | src/app/dashboard/components/sliders/UpdateBanner.tsx:115 | merging a banner's own form back into it changes nothing |
| Banners.IsDirectUrl | src/app/dashboard/components/sliders/UpdateBanner.tsx:66 | an entered image counts as a URL when it starts with "http" |
| Banners.SelectedImage | src/app/dashboard/components/sliders/UpdateBanner.tsx:63-90 | a selection starting with "http" is used as it is. For an id, an image is chosen exactly when the lookup succeeded with a truthy URL. A chosen image is never empty |
| BannerPage.IsTruthy | src/app/dashboard/Banner/page.tsx:51 | JavaScript truthiness of the body: null, undefined and the empty string are falsy; every array and object is truthy |
| BannerPage.DataProperty | src/app/dashboard/Banner/page.tsx:51 | `v.data`: reading it from null or undefined throws, a string or array has none, an object gives its `data` |
| BannerPage.Or | src/app/dashboard/Banner/page.tsx:51 | `a \|\| b`: the left operand when truthy, else the right |
| BannerPage.BannersFromBody | src/app/dashboard/Banner/page.tsx:51 | `response.data.data \|\| response.data \|\| []` throws exactly when the body is null or undefined; otherwise the page stores a truthy value: the body, its `data`, or `[]` |
| BannerPage.EnvelopedList | src/app/dashboard/Banner/page.tsx:51 | a list in the `{ data: [...] }` envelope is taken out of it, also when it is empty |
| BannerPage.BareList | src/app/dashboard/Banner/page.tsx:51 | a bare list is stored as it is, also when it is empty |
| BannerPage.EmptyBodyList | src/app/dashboard/Banner/page.tsx:51 | an empty body (the empty string) gives the empty list |
| BannerPage.ObjectWithoutData | src/app/dashboard/Banner/page.tsx:51 | an object whose `data` is missing or falsy is itself stored as the list |
| BannerPage.BannersArrayIff | src/app/dashboard/Banner/page.tsx:51 | the page holds an array exactly when the body is an array, the empty string, or an object whose `data` is an array |
| BannerPage.AllFilled | src/app/dashboard/Banner/page.tsx:96-99 | the page's submit check: all four text fields are non-empty, with no trimming |
| BannerPage.Payload | src/app/dashboard/Banner/page.tsx:102-119 | the saved image is the uploaded URL when a file was uploaded, else the form's; the other three fields are the form's unchanged |
| BannerPage.UploadRequests | src/app/dashboard/Banner/page.tsx:105-111 | at most one upload is sent, exactly when a file is chosen |
| BannerPage.SaveRequest | src/app/dashboard/Banner/page.tsx:116-119 | a new banner is posted, an edited one is patched under its id; both carry the same body |
| BannerPage.SaveFailureDefault | src/app/dashboard/Banner/page.tsx:126 | the default failure text: "Failed to add banner" for a new banner, "Failed to update banner" for an edited one |
| BannerPage.SaveSuccessText | src/app/dashboard/Banner/page.tsx:121 | the success text: "Banner added successfully" or "Banner updated successfully" |
| BannerPage.Page.constructor | src/app/dashboard/Banner/page.tsx:28-40 | the page starts loading, with no banners, both dialogs closed, nothing edited and an empty form |
| BannerPage.Page.FetchBanners | src/app/dashboard/Banner/page.tsx:46-49 | fetching shows the spinner and requests the list |
| BannerPage.Page.OnBannersLoaded | src/app/dashboard/Banner/page.tsx:46-58 | on success the list becomes what `BannersFromBody` gives. A null or undefined body throws inside the `try`, so the list is kept and "Failed to fetch banners" is shown. On a failed request the list is kept and the server's message, or the same default, is shown. The spinner always stops |
| BannerPage.Page.HandleImageChange | src/app/dashboard/Banner/page.tsx:60-63 | a chosen file is kept; no file changes nothing |
| BannerPage.Page.OnImageRead | src/app/dashboard/Banner/page.tsx:65-68 | the read data URL becomes both the preview and the form's image, and nothing else in the form changes |
| BannerPage.Page.HandleInputChange | src/app/dashboard/Banner/page.tsx:73-79 | only the named field of the form changes |
| BannerPage.Page.ResetForm | src/app/dashboard/Banner/page.tsx:81-90 | afterwards the form is empty and there is neither a file nor a preview, whatever the state before, so a second reset changes nothing |
| BannerPage.Page.HandleEdit | src/app/dashboard/Banner/page.tsx:131-141 | the edited banner is remembered, its four display fields fill the form, its image is the preview and the edit dialog opens |
| BannerPage.Page.RemoveAddImage | src/app/dashboard/Banner/page.tsx:323-327 | the add dialog's "Remove" clears the preview, the file and the form's image, and only those |
| BannerPage.Page.RemoveEditImage | src/app/dashboard/Banner/page.tsx:439-445 | the edit dialog's "Remove" restores the edited banner's image, or "" when no banner is edited, and clears preview and file |
| BannerPage.Page.SetAddDialogOpen | src/app/dashboard/Banner/page.tsx:220 | the add dialog's open flag takes the given value |
| BannerPage.Page.SetEditDialogOpen | src/app/dashboard/Banner/page.tsx:413-416 | the edit dialog's open flag takes the given value |
| BannerPage.Page.Submit | src/app/dashboard/Banner/page.tsx:92-181 | a form with an empty field sends nothing, changes nothing and shows "Please fill all required fields". A failed upload stops before the save and changes nothing. Otherwise the upload, if any, is followed by the save of `Payload`. A failed save changes nothing and shows the server's message or the default. A successful save closes its dialog, resets the form and refetches the list |
| BannerPage.Page.HandleAddSubmit | src/app/dashboard/Banner/page.tsx:92-129 | an incomplete form gets "Please fill all required fields" and changes nothing. A failed upload or save changes nothing and shows the server's message or "Failed to add banner". Otherwise the optional upload is followed by a POST of `Payload`; on success the form, file and preview are cleared, the add dialog closes, the list is refetched and "Banner added successfully" is shown. The edit dialog is never touched |
| BannerPage.Page.HandleUpdate | src/app/dashboard/Banner/page.tsx:143-181 | with no banner being edited nothing is checked, sent or changed. Otherwise it is the add handler's contract with a PATCH of the edited banner's id, "Failed to update banner", "Banner updated successfully" and the edit dialog closing; the add dialog is never touched |
| BannerPage.Page.HandleStatusToggle | src/app/dashboard/Banner/page.tsx:183-191 | the row's status negated is sent; a success refetches the list. The toast is "Status updated successfully", or the server's message or "Failed to update status" |
| BannerPage.Page.HandleDelete | src/app/dashboard/Banner/page.tsx:193-203 | an unconfirmed delete sends nothing. A confirmed one deletes the id and refetches on success. The toast is "Banner deleted successfully", or the server's message or "Failed to delete banner" |
| UpdateBanner.FormFromProp | src/app/dashboard/components/sliders/UpdateBanner.tsx:50-56 | each missing or empty text field of the banner becomes "", and a missing active flag becomes `true` |
| UpdateBanner.MergeInto | src/app/dashboard/components/sliders/UpdateBanner.tsx:114-116 | the map keeps the list's length and order and leaves each banner with another id unchanged. Each banner with the id takes the form's five fields and keeps its id and timestamps |
| UpdateBanner.OptimisticList | src/app/dashboard/components/sliders/UpdateBanner.tsx:113-117 | an absent cached list counts as empty, so it stays empty; the result is as long as the cached list |
| UpdateBanner.MergeIntoIdempotent | src/app/dashboard/components/sliders/UpdateBanner.tsx:113-117 | applying the optimistic update twice gives what applying it once gives |
| UpdateBanner.MergeIntoUnchangedForm | src/app/dashboard/components/sliders/UpdateBanner.tsx:113-117 | submitting the form the matching banners already hold leaves the list unchanged |
| UpdateBanner.UpdateFailureText | src/app/dashboard/components/sliders/UpdateBanner.tsx:130 | the failure toast is never empty and is the server's message when there is one |
| UpdateBanner.Slider.constructor | src/app/dashboard/components/sliders/UpdateBanner.tsx:37-45 | before the effect runs, the form is empty and active, there is no preview and nothing is loading |
| UpdateBanner.Slider.InitialiseFromBanner | src/app/dashboard/components/sliders/UpdateBanner.tsx:48-59 | the effect fills the form from the banner and shows the banner's image, or "" |
| UpdateBanner.Slider.HandleImageSelect | src/app/dashboard/components/sliders/UpdateBanner.tsx:63-90 | no lookup is made for a URL. The preview and the form's image change together, to `SelectedImage`, and only when it chose one. A failed lookup shows "Failed to load selected image" and changes nothing |
| UpdateBanner.Slider.HandleUrlInput | src/app/dashboard/components/sliders/UpdateBanner.tsx:215-218 | the typed URL becomes both the form's image and the preview |
| UpdateBanner.Slider.HandleInputChange | src/app/dashboard/components/sliders/UpdateBanner.tsx:92-98 | only the named text field changes; the flag is kept |
| UpdateBanner.Slider.HandleCheckboxChange | src/app/dashboard/components/sliders/UpdateBanner.tsx:100-105 | only the active flag changes |
| UpdateBanner.Slider.HandleSubmit | src/app/dashboard/components/sliders/UpdateBanner.tsx:107-134 | with no check, the cached list takes the optimistic update before the PATCH of the whole form. Success closes the slider and notifies the parent. Failure only marks the list stale and keeps the optimistic value. Loading ends false |
| BannerChecks.PageOnlyIff | src/app/dashboard/Banner/page.tsx:96-99 | the page accepts a form that the add slider rejects exactly when all four fields are non-empty and the title is only white space |
| BannerChecks.BlankTitleMessage | src/app/dashboard/components/sliders/AddBanner.tsx:100-103 | such a form is rejected by the slider with "Main title is required" |
| BannerChecks.SliderOnlyIff | src/app/dashboard/components/sliders/AddBanner.tsx:94-103 | the add slider accepts a form that the page rejects exactly when it has an image, a title that is not blank after `trim`, and an empty top or bottom title |
| BannerChecks.ChecksDiffer | src/app/dashboard/Banner/page.tsx:96-99 | a concrete form of each kind exists: a blank title passes only the page, an empty top title only the slider |
| AddBanner.SubmitCheck | src/app/dashboard/components/sliders/AddBanner.tsx:94-103 | the form passes exactly when it has an image and a title that is not blank after `trim`; the image check comes first, with its own message |
| AddBanner.SubmitCheckPasses | src/app/dashboard/components/sliders/AddBanner.tsx:94-103 | the form passes exactly when the image is non-empty and the title holds a character other than white space |
| AddBanner.SubmitCheckIgnoresOtherFields | src/app/dashboard/components/sliders/AddBanner.tsx:94-103 | the top and bottom titles and the flag never decide the check |
| AddBanner.PrependBanner | src/app/dashboard/components/sliders/AddBanner.tsx:113-115 | the new banner comes first and the cached list follows in its order, one longer. An absent list gives the one-element list |
| AddBanner.PrependedOnce | src/app/dashboard/components/sliders/AddBanner.tsx:113-115 | a banner with a new id appears once in the updated list, at the front |
| AddBanner.AddFailureText | src/app/dashboard/components/sliders/AddBanner.tsx:136-138 | the failure text is the response's `message`, else its `error`, else "Failed to add banner", and never empty |
| AddBanner.Slider.constructor | src/app/dashboard/components/sliders/AddBanner.tsx:35-43 | the slider starts with an empty, active form, no preview and nothing loading |
| AddBanner.Slider.HandleImageSelect | src/app/dashboard/components/sliders/AddBanner.tsx:47-74 | the same URL-or-id rule as the update slider; a failed or empty lookup leaves the form as it was |
| AddBanner.Slider.HandleInputChange | src/app/dashboard/components/sliders/AddBanner.tsx:76-82 | only the named text field changes |
| AddBanner.Slider.HandleCheckboxChange | src/app/dashboard/components/sliders/AddBanner.tsx:84-89 | only the active flag changes |
| AddBanner.Slider.HandleSubmit | src/app/dashboard/components/sliders/AddBanner.tsx:91-144 | a form failing the check sends nothing, changes nothing and shows the check's message. Otherwise the form is posted. Success prepends the returned banner to the cached list, notifies the parent and closes. Failure only marks the list stale and shows `AddFailureText` |
| UploadImageModal.IsImage | src/app/dashboard/components/modals/uploadImageModal.tsx:69-70 | a file counts as an image when its media type starts with "image/" |
| UploadImageModal.ImageFiles | src/app/dashboard/components/modals/uploadImageModal.tsx:69-71 | the filter keeps only images, and no more files than were selected |
| UploadImageModal.ImageFilesMembers | src/app/dashboard/components/modals/uploadImageModal.tsx:69-71 | the filter keeps exactly the selected files whose media type starts with "image/" |
| UploadImageModal.ImageFilesAppend | src/app/dashboard/components/modals/uploadImageModal.tsx:69-71 | the filter distributes over concatenation, so the kept files stay in their selected order |
| UploadImageModal.ImageFilesAllIff | src/app/dashboard/components/modals/uploadImageModal.tsx:69-81 | no file is dropped, and so no warning is shown, exactly when every selected file is an image; then the selection is kept as it is |
| UploadImageModal.Names | src/app/dashboard/components/modals/uploadImageModal.tsx:84 | the name list has one entry per file, its name, at the same position |
| UploadImageModal.SpliceKeepsAligned | src/app/dashboard/components/modals/uploadImageModal.tsx:118-126 | splicing the same index out of the aligned file and name lists leaves them aligned |
| UploadImageModal.FileEntries | src/app/dashboard/components/modals/uploadImageModal.tsx:107-109 | the loop adds one "file" entry per image, at the image's position |
| UploadImageModal.FileEntriesGetAll | src/app/dashboard/components/modals/uploadImageModal.tsx:107-109 | under "file" the payload holds every image once, in order, and only images; nothing is under "data" |
| UploadImageModal.FolderJson | src/app/dashboard/components/modals/uploadImageModal.tsx:112 | the "data" entry is `{"folder":"…"}` around the folder's JSON string, and holds the folder name verbatim when it needs no escaping |
| UploadImageModal.UploadEntries | src/app/dashboard/components/modals/uploadImageModal.tsx:104-112 | the payload is one "file" entry per image, in order, followed by one "data" entry with the folder's JSON |
| UploadImageModal.UploadEntriesShape | src/app/dashboard/components/modals/uploadImageModal.tsx:104-112 | under "file" the payload holds every image once, in order, and under "data" only the folder's JSON |
| UploadImageModal.Percent | src/app/dashboard/components/modals/uploadImageModal.tsx:27-29 | the percentage is the integer nearest to 100·loaded/total, with halves rounded up. It is at most 100 when loaded ≤ total, 100 when the upload is complete and 0 at the start |
| UploadImageModal.PercentMonotonic | src/app/dashboard/components/modals/uploadImageModal.tsx:27-29 | more bytes sent never shows a smaller percentage |
| UploadImageModal.Modal.constructor | src/app/dashboard/components/modals/uploadImageModal.tsx:16-19 | the modal starts with no images, no names, no folder and no progress |
| UploadImageModal.Modal.HandleFileChange | src/app/dashboard/components/modals/uploadImageModal.tsx:52-89 | more than ten files are refused with a warning and change nothing. Otherwise the images among them are kept, with their names aligned, and a warning is shown when some were dropped. No selection clears both lists. Alignment is preserved |
| UploadImageModal.Modal.SetFolder | src/app/dashboard/components/modals/uploadImageModal.tsx:234 | the folder takes the chosen value |
| UploadImageModal.Modal.RemoveImage | src/app/dashboard/components/modals/uploadImageModal.tsx:118-127 | both lists lose the same position, with `splice`'s rules for the index, and stay aligned. For an index in range, exactly that image is removed and the rest keep their order |
| UploadImageModal.Modal.HandleSubmit | src/app/dashboard/components/modals/uploadImageModal.tsx:91-115 | with no images or no folder nothing is sent and a warning is shown. Otherwise a new payload is built, a "file" entry per image in order and then the folder's JSON under "data" |
| UploadImageModal.Modal.OnUploadProgress | src/app/dashboard/components/modals/uploadImageModal.tsx:25-31 | the percentage changes only for an event with a non-zero total, and then becomes `Percent` |
| UploadImageModal.Modal.OnUploadSuccess | src/app/dashboard/components/modals/uploadImageModal.tsx:36-44 | success marks the photo list stale, clears images, names, folder and progress, asks the parent to close and shows "Images uploaded successfully!" |
| UploadImageModal.Modal.OnUploadError | src/app/dashboard/components/modals/uploadImageModal.tsx:45-49 | an error resets only the progress to 0 and shows "Failed to upload images" |
| Videos.WithField | src/app/dashboard/components/sliders/UpdateMediaVideo.tsx:74-79 | `{ ...prev, [name]: value }` sets the named field and leaves the other two unchanged |
| Videos.HasDate | src/app/dashboard/components/sliders/UpdateMediaVideo.tsx:85 | the video submit check: the date must be non-empty |
| Videos.HasDateAfterEdit | src/app/dashboard/components/sliders/AddMediaVideo.tsx:60-73 | editing the link or the title never changes whether the form may be submitted; editing the date decides it |
| UpdateMediaVideo.PopulatedForm | src/app/dashboard/components/sliders/UpdateMediaVideo.tsx:41-48 | each field of the fetched video is copied, with "" for a missing one |
| UpdateMediaVideo.PopulatedFormHasDate | src/app/dashboard/components/sliders/UpdateMediaVideo.tsx:41-48 | a populated form may be submitted exactly when the fetched video had a non-empty date |
| UpdateMediaVideo.UpdateFailureText | src/app/dashboard/components/sliders/UpdateMediaVideo.tsx:69 | the failure toast is the server's message, else "Failed to update video", and never empty |
| UpdateMediaVideo.Slider.constructor | src/app/dashboard/components/sliders/UpdateMediaVideo.tsx:24-28 | the form starts with three empty strings |
| UpdateMediaVideo.Slider.OnVideoLoaded | src/app/dashboard/components/sliders/UpdateMediaVideo.tsx:41-49 | the form is replaced by the populated form only once a video has arrived |
| UpdateMediaVideo.Slider.HandleChange | src/app/dashboard/components/sliders/UpdateMediaVideo.tsx:74-79 | only the named field changes |
| UpdateMediaVideo.Slider.HandleSubmit | src/app/dashboard/components/sliders/UpdateMediaVideo.tsx:52-94 | with an empty date nothing is sent and "Date is required" is shown. Otherwise the form is sent under the slider's video id. Success marks the video list stale and closes the slider. Failure shows `UpdateFailureText` |
| AddMediaVideo.FailureText | src/app/dashboard/components/sliders/AddMediaVideo.tsx:37 | `message \|\| "Failed to add video"` is never empty and is the message when there is one |
| AddMediaVideo.MutationResult | src/app/dashboard/components/sliders/AddMediaVideo.tsx:22-41 | the mutation yields `result.data` exactly for an ok response. A rejected response gives an error with the body's message or the default. A thrown error passes its message on |
| AddMediaVideo.RejectedResponseToast | src/app/dashboard/components/sliders/AddMediaVideo.tsx:36-57 | for a rejected response the toast is the body's message or the default: the default added when throwing and again in `onError` is the default added once |
| AddMediaVideo.Form.constructor | src/app/dashboard/components/sliders/AddMediaVideo.tsx:16-20 | the form starts with three empty strings |
| AddMediaVideo.Form.HandleChange | src/app/dashboard/components/sliders/AddMediaVideo.tsx:60-65 | only the named field changes |
| AddMediaVideo.Form.HandleSubmit | src/app/dashboard/components/sliders/AddMediaVideo.tsx:43-76 | with an empty date nothing is sent and " date is required" is shown. Otherwise the form is posted as it is. Success marks the video list stale, empties the form and calls the close callback. Failure keeps the form and shows the error's text |
| JoditUploader.Prepared | src/config/joditEditor.config.ts:15-19 | after the rewrite no entry is under "files[0]", every other entry survives, and the file and then the "millat" preset come last |
| JoditUploader.PreparedGetAll | src/config/joditEditor.config.ts:17-19 | after the rewrite, each name holds its old values (none for "files[0]") followed by the file if the name is "file" and by "millat" if it is "upload_preset" |
| JoditUploader.PreparedEntries | src/config/joditEditor.config.ts:17-20 | after the rewrite nothing is under "files[0]". The file is the last value under "file" and "millat" the last under "upload_preset". Every other name keeps its values |
| JoditUploader.PrepareData | src/config/joditEditor.config.ts:14-21 | without a truthy "files[0]" it fails with "No file selected" and the payload is untouched; otherwise it rewrites the payload in place and returns it |
| JoditUploader.IsSuccess | src/config/joditEditor.config.ts:22 | an upload succeeded when `secure_url` is present and non-empty |
| JoditUploader.Process | src/config/joditEditor.config.ts:23-28 | at most one file is handed on, the secure URL, and one exactly when `isSuccess` holds; the path, error and message are passed through |
| JoditUploader.FirstUrl | src/config/joditEditor.config.ts:30 | `response?.files?.[0]`: the first file URL, absent when there is no response or no file |
| JoditUploader.ProcessedUrlIffSuccess | src/config/joditEditor.config.ts:22-33 | a processed answer has a usable first URL exactly when `isSuccess` holds, and it is the secure URL |
| JoditUploader.Editor.InsertImage | src/config/joditEditor.config.ts:32 | inserting adds one image with its URL and width at the end |
| JoditUploader.DefaultHandlerSuccess | src/config/joditEditor.config.ts:29-34 | one image 250 wide is inserted when there is a truthy first URL and a selection; otherwise nothing changes. Without an editor nothing happens |

## Left out

- Rendering: JSX, dialogs, drawers, tables, switches, spinners and styling have no state to model.
- Requests: axios, `fetch`, `/api/upload`, `/photos/:id` and the image host are never called. Each handler takes the outcome of each awaited request as a parameter and returns the requests it sends.
- Side effects: `confirm()` is a parameter. Toasts and sweetalert warnings are returned values; their titles, icons and timers are left out, and so is console logging.
- `FileReader`: the data URL it produces is the parameter of `BannerPage.Page.OnImageRead`, and the conversion itself is not modelled.
- Query cache: the cache is only a map and a stale set. Refetching, `useQuery` and `useMutation` pending flags, and the loading state of the video fetch are not modelled.
- Mutation timing: a slider's `mutate` and the outcome it later settles with are one method call, so interleaved user events are not modelled.
- UpdateBanner.Slider.HandleSubmit: `notifiedParent` means the optional `onSuccess` callback runs when the parent gave one. AddBanner.Slider.HandleSubmit uses the flag the same way.
- AddBanner.Slider.HandleSubmit: the slider closes at once, where the code closes it 400 ms later with `setTimeout`.
- AddBanner.Slider.HandleSubmit: the success text is modelled character for character as the source file holds it. The file's bytes decode to "â", "œ", "…" after "successfully ", which is the check-mark emoji (U+2705) mis-decoded as Windows-1252.
- BannerPage.BannersFromBody: a list body is null, undefined, a string, an array of banners, or an object seen only through its `data` property. Number and boolean bodies, and arrays of anything but banners, are not modelled.
- UploadImageModal.Percent: works on exact naturals, where the code rounds a floating-point quotient. Byte counts too large for a double to divide exactly are not modelled.
- AddMediaVideo.Form.HandleSubmit: the request is the form itself. Its JSON serialisation, the hard-coded endpoint and the failure of `response.json()` are not modelled; a thrown error only carries its message.
- JoditUploader: the editor's static options (upload URL, height, toolbar, plugins, styles), the `error` handler and the init and destroy events only log or configure the widget.
- The editor wrapper component (`src/app/dashboard/components/sliders/JodiEditor.tsx`) is not part of this model. It syncs the value on blur and spreads the same settings.
