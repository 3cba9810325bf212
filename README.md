# AgriIQ crop-health application — a Dafny model

AgriIQ lets farmers upload photos of maize leaves. A detection service classifies
each photo and keeps the result as a report that the farmer can read, edit and
delete. An account service handles registration, login and profile editing,
including an optional profile picture. This project models the decision logic of
both back ends and the state changes of the web pages, and proves what each
handler promises.

- **User service** (`user_controller.dfy`, `auth_gate.dfy`, `tokens.dfy`)
  - The handlers run over a user collection and the upload folder:
    - registration: missing field, then e-mail syntax, then password length;
    - login: unknown e-mail, or wrong password, or a one-day token;
    - profile read;
    - profile update: required fields, address parsing, and optional fields
      written only when given. A new picture replaces the old one, and the
      stale file is deleted on a best-effort basis.
  - The `authUser` middleware has three outcomes: token missing, token invalid,
    or identity attached.
  - `UserStore` is the class whose methods update the collection. Each method
    is proved against a step function. The lemmas about those step functions
    carry the properties.
- **Detection service** (`detection_service.dfy`, `disease_info.dfy`)
  - Normalisation of class names: `_` becomes a space, then Python's `title()`.
    It is proved that all seven model classes land on a key of the disease
    table, `MLN`→`Mln` and `FAW`→`Faw` included. So only an out-of-range index
    (the name `Unknown`) lacks disease information.
  - Naming of stored uploads.
  - The image endpoint: the traversal check and the media type.
  - `predict`, `delete_report` and `update_report` over the report collection
    and the upload folder (class `DetectionStore`).
- **Pages** (`report_page.dfy`, `history_page.dfy`, `profile_page.dfy`,
  `segment_viewer.dfy`, `faq_section.dfy`)
  - The report editor's field and list edits, and its save and cancel outcomes.
  - The history page: the fallback chain for the image URL, the delete filter
    and the show-more truncation.
  - The profile page: the choice of picture, the defaults it fills in, the
    edits, and the multipart form its save sends.
  - The segmentation viewer: the even-odd point-in-polygon loop, the
    last-match hover search, the zoom bounds, reset, drag and the filter text.
  - The FAQ accordion, which keeps one answer open at a time.
- **Shared modules**
  - `wrappers.dfy`: `Option`.
  - `text.dfy`: the string operations of Python and JavaScript that the
    handlers use.
  - `json.dfy`: dynamically typed records, and JavaScript truthiness.

Some parts of the system are parameters of the model, because their behaviour
is not visible here:
- password hashing and comparison;
- token signing and verification;
- the e-mail syntax check;
- `JSON.parse` / `JSON.stringify`;
- the random hex of an upload name;
- the clock;
- whether a file write or unlink succeeds;
- the inference result;
- the server's answer as a page receives it.

A token is represented by its claims: the user id, and the lifetime when an
`exp` claim is set (section 4.1.4 of RFC 7519).

Behaviour of the code that is easy to misread:
- **Registration token.** Registration issues a token with no expiry. Only
  login sets a one-day lifetime.
- **Duplicate e-mail.** A duplicate e-mail is not checked by the handler. It
  surfaces as the store's duplicate-key error message: `success: false` at
  registration, 500 at update. In the update case the old picture has already
  been deleted.
- **Picture replacement.** The old picture is deleted only when its path
  starts with `/uploads` and the file exists.
- **Report ids.** Report ids are modelled as a counter. The id returned to the
  client is its decimal text.

## Model

| member | source | states |
|---|---|---|
| Text.LastSegment | Backend_combined/CropDetectionBackend/main.py:62 | the text after the last separator is a suffix, contains no separator, and is preceded by the separator unless it is the whole input; without a separator it is the input |
| Text.ContainsAt | Backend_combined/CropDetectionBackend/main.py:220 | an occurrence of `..` at any position makes `".." in filename` true |
| Text.ContainsWitness | Backend_combined/CropDetectionBackend/main.py:220 | conversely, when `".." in filename` holds, `..` starts at some position of the name |
| Text.Replace | Backend_combined/CropDetectionBackend/main.py:114 | `replace("_", " ")` keeps the length and changes exactly the underscores |
| Text.Lower | Backend_combined/CropDetectionBackend/main.py:231 | `lower()` keeps the length, leaves no upper-case letter, keeps letters letters and non-letters, and keeps every character that was not upper-case |
| Text.Utf16Length | Backend_combined/Backend/controllers/userController.js:24 | `password.length` counts UTF-16 code units: between the number of characters and twice it, exactly the number of characters when none lies beyond U+FFFF and twice it when all do |
| Text.LowerIdempotent | Backend_combined/CropDetectionBackend/main.py:231 | lower-casing an already lower-cased extension changes nothing |
| Text.TitleAt | Backend_combined/CropDetectionBackend/main.py:114 | `title()` upper-cases a letter that does not follow a letter, lower-cases one that does, and keeps the length |
| Text.TitleIdempotent | Backend_combined/CropDetectionBackend/main.py:114 | applying `title()` twice equals applying it once |
| Text.TitleFixed | Backend_combined/CropDetectionBackend/main.py:114 | a string in which every character already has the case `title()` gives it at its position is left unchanged |
| Text.NatToStringRoundTrip | Backend_combined/CropDetectionBackend/main.py:141 | the decimal text of an id reads back as the id |
| UserController.EmailOwner | Backend_combined/Backend/controllers/userController.js:59 | `findOne({ email })` finds a user holding that e-mail, and finds none exactly when no user holds it |
| UserController.EmailOwnerUnique | Backend_combined/Backend/controllers/userController.js:59 | with unique e-mails, the user found is the one holding the e-mail |
| UserController.RegisterCheck | Backend_combined/Backend/controllers/userController.js:14-26 | each of the four outcomes, as an iff: any missing or empty field gives "Missing Details"; otherwise a bad e-mail gives "Enter a valid email"; otherwise a password shorter than 8 UTF-16 code units gives "Enter a strong password"; 8 or more passes |
| UserController.RegisterKeepsValid | Backend_combined/Backend/controllers/userController.js:29-42 | registration keeps ids below the counter and e-mails unique |
| UserController.RegisterOutcome | Backend_combined/Backend/controllers/userController.js:29-48 | a refusal changes nothing; a success adds exactly one user under a fresh id, stores the hash rather than the password, and returns a token for that id with no expiry; files are untouched |
| UserController.RegisterTwiceRefused | Backend_combined/Backend/controllers/userController.js:38-48 | a second registration with an e-mail just registered is refused with the duplicate-key error, and the store is unchanged |
| UserController.LoginOutcomes | Backend_combined/Backend/controllers/userController.js:59-73 | "User does not exist" exactly for an unknown e-mail; for the user holding the e-mail, a token with that id and a one-day lifetime if the password matches its hash, and "Invalid Credentials" otherwise |
| UserController.LoginAfterRegister | Backend_combined/Backend/controllers/userController.js:54-79 | after a registration, logging in with the same credentials gives a one-day token for the new id |
| UserController.ProfileOf | Backend_combined/Backend/controllers/userController.js:90-99 | 404 "User not found" exactly for an absent id; otherwise the stored profile, which has no password field |
| UserController.ProfileAfterRegister | Backend_combined/Backend/controllers/userController.js:85-99 | reading the profile with the id in the registration token gives the registered name and e-mail |
| UserController.ParseAddress | Backend_combined/Backend/controllers/userController.js:306-314 | a string address is parsed with `JSON.parse` and its value is used, and the update fails exactly when the parse fails; any other address is kept as it is |
| UserController.UpdateRejectsInvalid | Backend_combined/Backend/controllers/userController.js:302-314 | a missing or empty name, phone or gender gives 400 with its message; an unparsable string address gives 400 "Invalid address format"; every 400 leaves the store and the files unchanged |
| UserController.UpdateWrites | Backend_combined/Backend/controllers/userController.js:316-381 | a success sets name, phone, gender and the timestamp; a sent address is stored as parsed and a missing one leaves the stored address; e-mail, dob and language are overwritten only when given; the picture becomes `/uploads/<file>` when a file came; the password, the other users and the key set are unchanged; the reply is the stored profile |
| UserController.UpdateFileEffect | Backend_combined/Backend/controllers/userController.js:331-356 | files only shrink, and only by the previous picture, when a new file came, that picture is under `/uploads` and the unlink succeeded; a failed unlink changes neither the reply nor the users |
| UserController.UpdateSwapsPicture | Backend_combined/Backend/controllers/userController.js:331-360 | after a successful update with a new uploaded file, the user's picture names a file that exists, and the stale local picture is gone |
| UserController.UpdateKeepsValid | Backend_combined/Backend/controllers/userController.js:365-375 | the update keeps ids fresh and e-mails unique |
| UserController.UserStore.RegisterUser | Backend_combined/Backend/controllers/userController.js:9-51 | the handler's effect on the store and its reply are those of the registration step; the store stays valid |
| UserController.UserStore.LoginUser | Backend_combined/Backend/controllers/userController.js:54-79 | the reply is the login outcome; the store is only read |
| UserController.UserStore.GetProfile | Backend_combined/Backend/controllers/userController.js:85-108 | the reply is the profile read |
| UserController.UserStore.UpdateProfile | Backend_combined/Backend/controllers/userController.js:291-387 | the handler, step by step, has the effect and reply of the update step; the store stays valid |
| UserController.UserStore.UnlinkStale | Backend_combined/Backend/controllers/userController.js:336-356 | the current picture is deleted exactly when it is a local `/uploads` file that exists and the deletion succeeds; users are untouched |
| UserController.UserStore.Commit | Backend_combined/Backend/controllers/userController.js:365-385 | `findByIdAndUpdate` has the effect and reply of the commit step: 404 for an unknown id, the duplicate-key error for an e-mail another user holds, otherwise the merged profile is stored and returned |
| AuthGate.Decide | Backend_combined/Backend/middlewares/authUser.js:5-16 | "missing" iff there is no non-empty `token` header; "invalid" iff there is one and it does not verify; otherwise it passes with the verified token's id |
| AuthGate.SignedTokenPasses | Backend_combined/Backend/middlewares/authUser.js:11-14 | a token the server signed and that still verifies lets the request through as the user it names, whatever the other headers |
| AuthGate.AuthUser | Backend_combined/Backend/middlewares/authUser.js:3-21 | missing or invalid token: status 401 with its message, `next` not called, no identity attached; valid token: the identity is attached, `next` is called once, and no status is set; the body is never changed |
| DiseaseInfo.TableKeys | Backend_combined/CropDetectionBackend/disease_info.py:1-88 | the table has exactly seven keys: Blight, Common Rust, Gray Leaf Spot, Healthy, Mln, Faw and Maize Streak |
| DiseaseInfo.EntriesWellFormed | Backend_combined/CropDetectionBackend/disease_info.py:1-88 | every entry scans a leaf, has a category from the four used, and has at least one treatment and one prevention step; only "Healthy" has category "Healthy" |
| DetectionService.PredictedClassNames | Backend_combined/CropDetectionBackend/main.py:27-35 | the normalised names of classes 0 to 6 are Blight, Common Rust, Gray Leaf Spot, Healthy, Mln, Faw and Maize Streak |
| DetectionService.ShownBlight | Backend_combined/CropDetectionBackend/main.py:113-114 | class 0, `Blight`, is named "Blight" after the underscores become spaces and `title()` |
| DetectionService.ShownCommonRust | Backend_combined/CropDetectionBackend/main.py:113-114 | class 1, `Common_Rust`, is named "Common Rust" after the underscores become spaces and `title()` |
| DetectionService.ShownGrayLeafSpot | Backend_combined/CropDetectionBackend/main.py:113-114 | class 2, `Gray_Leaf_Spot`, is named "Gray Leaf Spot" after the underscores become spaces and `title()` |
| DetectionService.ShownHealthy | Backend_combined/CropDetectionBackend/main.py:113-114 | class 3, `Healthy`, is named "Healthy" after the underscores become spaces and `title()` |
| DetectionService.ShownMln | Backend_combined/CropDetectionBackend/main.py:113-114 | class 4, `MLN`, is named "Mln" after the underscores become spaces and `title()` |
| DetectionService.ShownFaw | Backend_combined/CropDetectionBackend/main.py:113-114 | class 5, `FAW`, is named "Faw" after the underscores become spaces and `title()` |
| DetectionService.ShownMaizeStreak | Backend_combined/CropDetectionBackend/main.py:113-114 | class 6, `Maize_Streak`, is named "Maize Streak" after the underscores become spaces and `title()` |
| DetectionService.UnknownClass | Backend_combined/CropDetectionBackend/main.py:113-114 | any index outside 0..6 is named "Unknown" |
| DetectionService.PredictedClassHasInfo | Backend_combined/CropDetectionBackend/main.py:113-118 | a normalised class name has disease information exactly when the index is in 0..6 |
| DetectionService.KnownClassHasInfo | Backend_combined/CropDetectionBackend/main.py:116 | the name of each of the seven classes is a key of the disease table |
| DetectionService.UnknownHasNoInfo | Backend_combined/CropDetectionBackend/main.py:116-118 | "Unknown" is not a key of the disease table, so it takes the no-information branch |
| DetectionService.UploadExtension | Backend_combined/CropDetectionBackend/main.py:62 | the extension has no '.', is "jpg" for a name without a '.', and otherwise is the text after the name's last '.' |
| DetectionService.StoredNameRoundTrip | Backend_combined/CropDetectionBackend/main.py:62-64 | the stored name's extension is the original's; the basename of the stored path is the stored name |
| DetectionService.MediaType | Backend_combined/CropDetectionBackend/main.py:231-240 | the result is one of the five image types: the map's entry for a lower-cased extension in the map, and "image/jpeg" for any other |
| DetectionService.MediaTypeOfStored | Backend_combined/CropDetectionBackend/main.py:231-240 | an upload is served with the media type of its original name, whatever the case of the extension |
| DetectionService.MediaTypePng | Backend_combined/CropDetectionBackend/main.py:231-240 | a ".png" extension in any letter case is served as "image/png" |
| DetectionService.GetImage | Backend_combined/CropDetectionBackend/main.py:219-260 | 400 iff the name contains "..", '/' or '\\'; 404 iff it is safe and the file is absent; otherwise the served file exists, lies in the upload folder under that very name, and has the name's media type |
| DetectionService.UnsafeNeverLooksUp | Backend_combined/CropDetectionBackend/main.py:220-222 | an unsafe name gets 400 whatever files exist |
| DetectionService.RecordFields | Backend_combined/CropDetectionBackend/main.py:126-138 | the record has no `_id`; class, category, part scanned, symptoms, treatment and prevention are copied from the entry; the path is the stored one and the file name its basename |
| DetectionService.RecordLayout | Backend_combined/CropDetectionBackend/main.py:126-138 | the inserted record has no `_id` key and each named key holds its own value, whatever the values |
| DetectionService.PredictEffect | Backend_combined/CropDetectionBackend/main.py:99-123 | the collection stays valid; a failed save is reported iff the write failed, and then nothing changes; otherwise the upload is in the folder; an inference failure or missing disease information inserts nothing, and the latter only happens for "Unknown" |
| DetectionService.PredictInserts | Backend_combined/CropDetectionBackend/main.py:140-144 | a record is inserted iff the upload was saved and the index is in 0..6; it goes under a fresh id, no other record changes, and the reply is the inserted record plus its `_id` |
| DetectionService.PredictRecord | Backend_combined/CropDetectionBackend/main.py:126-141 | the returned record is built from the class's table entry and the stored upload, with `_id` set to the new id |
| DetectionService.DeleteOutcome | Backend_combined/CropDetectionBackend/main.py:182-195 | `deleted` is true iff the record existed and its existing file, if any, was removed; the record is removed; no file other than the one it names is removed; a non-text path (a lookup that raises) or an `os.remove` that raises is an error that changes nothing |
| DetectionService.DeleteInserted | Backend_combined/CropDetectionBackend/main.py:182-192 | deleting a record just inserted under the fresh id, together with its new image file, gives back the earlier collection and files |
| DetectionService.PredictThenDelete | Backend_combined/CropDetectionBackend/main.py:178-192 | deleting a report right after `predict` created it restores the collection and the upload folder |
| DetectionService.UpdateOutcome | Backend_combined/CropDetectionBackend/main.py:201-211 | an empty, `$`-prefixed or (on an existing record) `_id` field is refused with the store unchanged; otherwise the supplied fields are overwritten and every other field, record and file stays; "Report updated successfully" iff the store applied the update and the record changed |
| DetectionService.UpdateTwice | Backend_combined/CropDetectionBackend/main.py:201-211 | repeating an update modifies nothing and is answered with an error, "Update failed or no changes made" when the store applied the first |
| DetectionService.DeleteKeepsValid | Backend_combined/CropDetectionBackend/main.py:178-195 | a delete keeps every stored id below the next fresh one |
| DetectionService.UpdateKeepsValid | Backend_combined/CropDetectionBackend/main.py:198-211 | an update keeps every stored id below the next fresh one |
| DetectionService.DetectionStore.Predict | Backend_combined/CropDetectionBackend/main.py:90-148 | the handler's effect and reply are those of the predict step, and the store stays valid |
| DetectionService.DetectionStore.DeleteReport | Backend_combined/CropDetectionBackend/main.py:178-195 | the handler's effect and reply are those of the delete step, including the error when removing the file raises, and the store stays valid |
| DetectionService.DetectionStore.UpdateReport | Backend_combined/CropDetectionBackend/main.py:198-211 | the handler's effect and reply are those of the update step, and the store stays valid |
| FaqSection.Toggle | Frontend/src/components/FAQSection.jsx:8-10 | clicking the open question closes it, and clicking any other question opens that one |
| FaqSection.AtMostOneOpen | Frontend/src/components/FAQSection.jsx:6-10 | after any clicks, two open answers are the same answer |
| FaqSection.ReplayOpensLastClicked | Frontend/src/components/FAQSection.jsx:8-10 | after a run of clicks, the open answer, if any, is the last one clicked |
| FaqSection.RepeatedClicks | Frontend/src/components/FAQSection.jsx:6-10 | from the initial state, n clicks on one question leave it open iff n is odd |
| FaqSection.RepeatedClicksFrom | Frontend/src/components/FAQSection.jsx:8-10 | the same from the closed state or from that question open |
| FaqSection.ToggleTwice | Frontend/src/components/FAQSection.jsx:8-10 | two clicks on the same question restore the state iff nothing or that question was open; otherwise everything ends closed |
| FaqSection.ToggleTwiceFromOther | Frontend/src/components/FAQSection.jsx:8-10 | with answer 0 open, two clicks on question 1 close everything instead of reopening 0 |
| ReportPage.SetField | Frontend/src/pages/Report.jsx:68-73 | the field takes the text, and every other field is unchanged |
| ReportPage.SetFieldLastWins | Frontend/src/pages/Report.jsx:68-73 | typing twice keeps the second text; typing the current text changes nothing |
| ReportPage.ReplaceAt | Frontend/src/pages/Report.jsx:78 | the `map` keeps the length, puts the value at the index and keeps every other element |
| ReportPage.ChangeItem | Frontend/src/pages/Report.jsx:75-80 | an edit succeeds iff the field is a list; then only the element at the index changes, and the length and the other fields are kept |
| ReportPage.ChangeItemUndo | Frontend/src/pages/Report.jsx:75-80 | changing an element and then changing it back restores the copy |
| ReportPage.AddItem | Frontend/src/pages/Report.jsx:82-87 | a missing or falsy field becomes `['']`; a list gets '' appended; a string becomes the list of its characters, one per element, followed by ''; any other value throws; other fields are kept |
| ReportPage.DropIndexSlices | Frontend/src/pages/Report.jsx:92 | the filter removes exactly the element at an in-range index, keeping order; an index outside the list removes nothing |
| ReportPage.RemoveItem | Frontend/src/pages/Report.jsx:89-94 | the edit succeeds iff the field is a list; the element at an in-range index is dropped and the others keep their order; other fields are kept |
| ReportPage.AddThenRemove | Frontend/src/pages/Report.jsx:82-94 | removing the item just added gives back the copy |
| ReportPage.SavePayload | Frontend/src/pages/Report.jsx:35-43 | the body holds the six editable fields that are present, plus `farmer_notes`, which is '' when missing or falsy |
| ReportPage.PayloadAccepted | Frontend/src/pages/Report.jsx:35-43 | every field a save sends is a name the store accepts, and `_id` is not among them |
| ReportPage.SaveReachesStore | Frontend/src/pages/Report.jsx:35-48 | the service answers a save with success or "no changes", never with an empty-update error; saving the same copy again is answered "no changes" |
| ReportPage.SaveFinished | Frontend/src/pages/Report.jsx:46-60 | `isUpdating` ends false; on the exact success message the report becomes `updated_report` or the copy, and edit mode ends; otherwise the report and mode are kept; the copy is never changed |
| ReportPage.CancelAfterSaveKeepsEdits | Frontend/src/pages/Report.jsx:49 | after a success without `updated_report`, the saved report is the working copy |
| ReportPage.ReportEditor.Loaded | Frontend/src/pages/Report.jsx:13-21 | the fetched report becomes both the saved report and the copy |
| ReportPage.ReportEditor.HandleEdit | Frontend/src/pages/Report.jsx:23-25 | only edit mode turns on |
| ReportPage.ReportEditor.HandleCancel | Frontend/src/pages/Report.jsx:63-66 | the copy becomes the saved report and edit mode ends |
| ReportPage.ReportEditor.HandleInputChange | Frontend/src/pages/Report.jsx:68-73 | the copy becomes `SetField` of it |
| ReportPage.ReportEditor.Apply | Frontend/src/pages/Report.jsx:75-94 | a list edit replaces the copy; a thrown one leaves it |
| ReportPage.ReportEditor.BeginSave | Frontend/src/pages/Report.jsx:27-43 | `isUpdating` turns on, and the body sent is the payload of the copy |
| ReportPage.ReportEditor.FinishSave | Frontend/src/pages/Report.jsx:46-60 | the page state after the save is `SaveFinished` of the state before |
| HistoryPage.FileOfPath | Frontend/src/pages/History.jsx:53 | a path without '/' is used whole; a non-empty last '/'-segment is the result; a path ending in '/' gives its last `\`-separated part, which ends in '/'; the result is a suffix of the path and is empty only for the empty path |
| HistoryPage.ImageUrl | Frontend/src/pages/History.jsx:38-64 | a failed id gives the placeholder; otherwise a non-empty `image_filename` wins; a served URL always ends in a non-empty name; the placeholder comes exactly when the id failed or neither field yields a name |
| HistoryPage.PathFallback | Frontend/src/pages/History.jsx:52-58 | without `image_filename`, a path with no '/' is served whole, a non-empty last '/'-segment is served, and a path ending in '/' serves its last `\`-separated part |
| HistoryPage.DetectedRecordShowsUpload | Frontend/src/pages/History.jsx:44-49 | a stored detection's card requests its upload under the name the image endpoint serves |
| HistoryPage.WithoutId | Frontend/src/pages/History.jsx:28 | the filter is no longer than the list and keeps no report with that id |
| HistoryPage.WithoutIdAppend | Frontend/src/pages/History.jsx:28 | filtering a concatenation filters each part, so order is kept |
| HistoryPage.WithoutIdKeeps | Frontend/src/pages/History.jsx:28 | a list without the id is kept whole, and every report with another id survives |
| HistoryPage.Displayed | Frontend/src/pages/History.jsx:93 | the whole list when expanded; otherwise the first min(3, n) reports, as a prefix |
| HistoryPage.ToggleMatters | Frontend/src/pages/History.jsx:173-182 | without the button (three or fewer reports) both views show everything; with it, expanding shows strictly more |
| HistoryPage.HistoryView.Loaded | Frontend/src/pages/History.jsx:11-19 | the fetched list replaces the reports |
| HistoryPage.HistoryView.HandleDelete | Frontend/src/pages/History.jsx:21-35 | the reports with that id are filtered out iff the server reported `deleted`; nothing else changes |
| HistoryPage.HistoryView.HandleImageError | Frontend/src/pages/History.jsx:67-75 | the failed set only grows, by the id, and every report with that id shows the placeholder afterwards |
| HistoryPage.HistoryView.ToggleShowAll | Frontend/src/pages/History.jsx:176 | only the show-all flag flips |
| ProfilePage.Or | Frontend/src/pages/MyProfile.jsx:51-55 | the or-default of a field gives the value or the fallback, and the fallback exactly when the value is missing, empty or equal to it |
| ProfilePage.ImageUrl | Frontend/src/pages/MyProfile.jsx:85-98 | a picked file wins; a stored `/uploads` path gets the backend URL prefixed; any other stored value is used as it is; nothing otherwise |
| ProfilePage.UploadedPictureShown | Frontend/src/pages/MyProfile.jsx:89-92 | a picture stored by the profile update is shown from `backendUrl + "/uploads/" + file` |
| ProfilePage.WithDefaults | Frontend/src/pages/MyProfile.jsx:22-27 | gender, language and address take "Male", "English" and empty lines only where missing; the other fields are kept |
| ProfilePage.DefaultsSettle | Frontend/src/pages/MyProfile.jsx:20-29 | the effect is idempotent, leaves nothing that re-triggers it, and never replaces a gender or language already set |
| ProfilePage.SetField | Frontend/src/pages/MyProfile.jsx:31-36 | the named field takes the value, and every other field is kept |
| ProfilePage.SetAddressLine | Frontend/src/pages/MyProfile.jsx:38-46 | the named line takes the value; the other lines and all other fields are kept |
| ProfilePage.SaveForm | Frontend/src/pages/MyProfile.jsx:50-57 | six text fields, plus the image only when a file was picked; no `dob` field |
| ProfilePage.TextField | Backend_combined/Backend/controllers/userController.js:295 | a field is read as text iff exactly one text entry carries its key, and then as that entry's text |
| ProfilePage.TextFieldOnly | Backend_combined/Backend/controllers/userController.js:295 | a key carried by one text entry and no other entry is read as that entry's text |
| ProfilePage.TextFieldRepeated | Backend_combined/Backend/controllers/userController.js:295 | a text field appended twice arrives as a list and is not read as text |
| ProfilePage.TextFieldAbsent | Backend_combined/Backend/controllers/userController.js:295 | a key no entry carries is read as absent |
| ProfilePage.FormReadsFirst | Frontend/src/pages/MyProfile.jsx:51-54 | the service reads back the name, e-mail, phone and gender the form was built with |
| ProfilePage.FormReadsRest | Frontend/src/pages/MyProfile.jsx:50-57 | the service reads back the language and address, and no date of birth when only the image follows |
| ProfilePage.SaveFormRequiredFields | Frontend/src/pages/MyProfile.jsx:50-57 | the service receives the page's name, e-mail and phone or '' for each, a non-empty gender and language, no dob, and the address as JSON text; its required-field check passes iff the page's name and phone are non-empty |
| ProfilePage.ProfileView.ApplyDefaults | Frontend/src/pages/MyProfile.jsx:20-29 | one run of the defaulting effect |
| ProfilePage.ProfileView.HandleInputChange | Frontend/src/pages/MyProfile.jsx:31-36 | the profile becomes `SetField` of it |
| ProfilePage.ProfileView.HandleAddressChange | Frontend/src/pages/MyProfile.jsx:38-46 | the profile becomes `SetAddressLine` of it |
| ProfilePage.ProfileView.PickImage | Frontend/src/pages/MyProfile.jsx:139 | only the picked file changes |
| ProfilePage.ProfileView.SetEditing | Frontend/src/pages/MyProfile.jsx:158-167 | only the mode changes, so cancelling keeps the edits |
| ProfilePage.ProfileView.BuildForm | Frontend/src/pages/MyProfile.jsx:50-57 | the appends build exactly `SaveForm` of the profile and the picked file |
| ProfilePage.ProfileView.FinishSave | Frontend/src/pages/MyProfile.jsx:69-76 | on success the profile is reloaded, edit mode ends and the picked file is dropped; on failure nothing changes |
| SegmentViewer.Crosses | Frontend/src/pages/Segment.jsx:96 | a crossing edge straddles the horizontal line, so its ends differ in height and the division is defined |
| SegmentViewer.IsPointInPolygon | Frontend/src/pages/Segment.jsx:90-101 | the loop's answer is the even-odd rule: an odd number of crossing edges, each edge starting from the previous vertex and the first from the last |
| SegmentViewer.EdgesFormRing | Frontend/src/pages/Segment.jsx:92 | every vertex starts exactly one edge, so each side is tested once |
| SegmentViewer.OutsideBand | Frontend/src/pages/Segment.jsx:96 | a point on or above every vertex, or below every vertex, crosses nothing and is outside |
| SegmentViewer.SegmentationDataWellFormed | Frontend/src/pages/Segment.jsx:23-40 | every built-in outline is a list of coordinate pairs |
| SegmentViewer.FirstLeafContainsItsMiddle | Frontend/src/pages/Segment.jsx:25 | the point (130, 130) lies inside leaf1 |
| SegmentViewer.Tag | Frontend/src/pages/Segment.jsx:79-83 | a group's segments are visited in order, each tagged with the group's kind |
| SegmentViewer.TaggedWellFormed | Frontend/src/pages/Segment.jsx:79-85 | every visited segment has an even-length outline |
| SegmentViewer.LastMatchIsLast | Frontend/src/pages/Segment.jsx:76-87 | nothing is found iff no segment contains the point; what is found contains it, and no later segment does |
| SegmentViewer.LastMatchSnoc | Frontend/src/pages/Segment.jsx:81-83 | a later segment that contains the point overrides the earlier result |
| SegmentViewer.SearchGroup | Frontend/src/pages/Segment.jsx:80-84 | the inner loop over one group's segments, continuing a search, ends with the last segment so far that contains the point |
| SegmentViewer.HoverSearch | Frontend/src/pages/Segment.jsx:76-87 | the nested loops find the last segment, in iteration order, that contains the point |
| SegmentViewer.ZoomOut | Frontend/src/pages/Segment.jsx:311 | one step below the zoom when that stays at least 0.1, and exactly 0.1 otherwise |
| SegmentViewer.ZoomIn | Frontend/src/pages/Segment.jsx:326 | one step above the zoom when that stays at most 3, and exactly 3 otherwise |
| SegmentViewer.ZoomButtonsStayInRange | Frontend/src/pages/Segment.jsx:311-326 | from [0.1, 3] both buttons stay in [0.1, 3]; away from the bounds, in then out (or out then in) returns to the same zoom |
| SegmentViewer.ImageFilterShape | Frontend/src/pages/Segment.jsx:139-143 | the default map gives `brightness(b%) contrast(c%)`; every other map appends one space and its filter |
| SegmentViewer.ImageFilterBrightness | Frontend/src/pages/Segment.jsx:140 | the digits after `brightness(` read back as the brightness |
| SegmentViewer.FilterStartsWithBrightness | Frontend/src/pages/Segment.jsx:140 | the filter text begins with `brightness(` and the brightness digits |
| SegmentViewer.Viewer.PressAndMove | Frontend/src/pages/Segment.jsx:110-121 | a press off the segments then a move: the drag offset moves by exactly the pointer's movement since the press |
| SegmentViewer.Viewer.ZoomOutButton | Frontend/src/pages/Segment.jsx:311 | zoom becomes `ZoomOut` of it, and the view stays in range |
| SegmentViewer.Viewer.ZoomInButton | Frontend/src/pages/Segment.jsx:326 | zoom becomes `ZoomIn` of it, and the view stays in range |
| SegmentViewer.Viewer.ZoomSlider | Frontend/src/pages/Segment.jsx:316-324 | zoom takes the slider's value, and the view stays in range |
| SegmentViewer.Viewer.ResetView | Frontend/src/pages/Segment.jsx:129-136 | zoom 1, rotation 0, drag (0, 0), brightness and contrast 100, map "default"; the image and the hovered and selected segments are untouched |
| SegmentViewer.Viewer.MouseDown | Frontend/src/pages/Segment.jsx:107-112 | a drag starts, anchored at the pointer minus the offset, only when no segment is hovered |
| SegmentViewer.Viewer.MouseMove | Frontend/src/pages/Segment.jsx:69-88 | the hovered segment is the hover search at the pointer in image coordinates (offset removed, divided by zoom); when dragging, the offset follows the pointer |
| SegmentViewer.Viewer.MouseUp | Frontend/src/pages/Segment.jsx:125-127 | dragging stops |
| SegmentViewer.Viewer.SegmentClick | Frontend/src/pages/Segment.jsx:103-105 | the clicked segment becomes the selected one |

## Left out

- Upload middleware (multer): the stored name of a profile picture is an input of the update; the middleware file is not part of this model.
- Schema defaults, timestamps and `select('-password')`: `userModel.js` is not part of this model. The profile type simply has no password field.
- Store ids: MongoDB ObjectIds and their parsing (`ObjectId(report_id)` on a malformed id) are replaced by natural-number counters.
- Non-string form and record fields: a field that is not a string counts as absent where the code reads it as text. JavaScript's `!x` on numbers and other types is not modelled there.
- Text: case conversion and `title()` cover ASCII letters only; Unicode case rules are left out.
- Login body: the e-mail and password are taken as present strings; a missing login field, which reaches the store query as `undefined`, is left out.
- Hashing, signing, `isEmail`, `JSON.parse`/`JSON.stringify`, the random hex, the clock, and the success of each file write, unlink or `os.remove` are parameters; their algorithms are outside the model.
- DetectionService.UpdateOutcome: a field name containing '.' is taken as a plain top-level name; the store reads it as a path into an embedded document, and two overlapping paths make it refuse the update. The text of the store's error for a refused field name is not reproduced (`FieldRefusedError` stands for it).
- DetectionService.DeleteStep: a numeric `image_path` is not read as a file descriptor. `os.path.exists` takes an integer as one and answers false for a descriptor that is not open, so the source deletes such a record; the model answers the error for every non-text path.
- UserController.ApplyUpdate: an update without an address keeps the stored address. This is the behaviour of Mongoose 6 and later, which strip an `undefined` key from an update; Mongoose 5 wrote null. The Mongoose version is an assumption of the model.
- DetectionService.UpdateStep: an empty update is answered with the error MongoDB servers before 5.0 give for an empty `$set`; from 5.0 on the server accepts it as a no-op, which `update_report` answers with "Update failed or no changes made". The server version is an assumption of the model.
- Inference: image preprocessing, the ONNX model, argmax and `round(confidence, 2)` are left out; the class index and the rounded confidence are inputs. Thrown errors inside `predict` other than a failed inference are not distinguished.
- Path handling: `os.path.join` and `path.join` are modelled as plain joining with '/'; normalisation of `.` and `..` is not modelled.
- The history fetch, `get_report`, `get_all_history` and its sort by timestamp are left out; the page's list is an input.
- Floating point: coordinates, zoom and confidence are exact reals, so rounding of the 0.1 zoom steps and of the crossing division is not reproduced.
- Rendering: SVG transforms, health colours, the 3D toggle, rotation/brightness/contrast/colour-map setters, alerts and toasts are left out. The slider bounds appear only as the viewer's range invariant.
- Concurrency: async interleaving and React's batching of state updates are left out; each handler is one atomic transition.
- ReportPage.CommittedReport: a truthy `updated_report` that is not an object is treated like an absent one.
- ReportPage.ChangeItem: the TypeError thrown for a field that is not a list is modelled as the `Thrown` outcome, which leaves the copy unchanged; the crash of the page is not modelled.
- ProfilePage.ProfileView.PickImage: a picker closed without a file (`files[0]` undefined) is not modelled.
- FaqSection.ToggleTwice: two clicks restore the previous state only when nothing or that same question was open; with another answer open, everything ends closed (`ToggleTwiceFromOther`).
