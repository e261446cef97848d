# Reconocimiento facial: verified model of the client screens and the Flask backend

This project models the face-recognition app. It has two halves:

- **The mobile client** (React Native): the app shell with its `navigate` state machine, and the four screens.
  - Analyze sends a photo and shows the match.
  - Register validates a form and sends a multipart registration.
  - The profile list filters, refreshes and deletes.
  - Edit sends a PUT of the edited draft.
- **The Flask backend** (`app.py`): the four endpoints `/register`, `/analyze`, `/profiles` and `/profiles/<id>`.

Modules follow the source files:

| file | module | models |
|---|---|---|
| `types.dfy` | `Types` | `Profile`, `ScreenName`, the four-field form, alerts, the requests the client sends |
| `text.dfy` | `Text` | decimal rendering of `Date.now()`, `String(bool)`, the `x \|\| fallback` idiom, the connection-error alert |
| `upload.dfy` | `Upload` | the upload name `${Date.now()}-${uri.split('/').pop() \|\| 'photo.jpg'}` shared by Register and Analyze |
| `app.dfy` | `Navigation` | `App.tsx`: the `App` class with its two state cells, `navigate`, the mounted screen and the active button |
| `profile_list.dfy` | `ProfileListing` | `ProfileListScreen.tsx`: the filter, and the `ProfileListScreen` class (fetch, filter, delete, edit) |
| `register.dfy` | `Registration` | `RegisterScreen.tsx`: the validation guard, the `FormData` loop, `handleRegister` |
| `analyze.dfy` | `Analysis` | `AnalyzeScreen.tsx`: `handleAnalyze` split at its `await`, and the result panel |
| `edit_profile.dfy` | `Editing` | `EditProfileScreen.tsx`: the draft, the PUT body, `handleUpdate` split at its `await`, cancel |
| `backend.dfy` | `Backend` | `app.py`: the flag parse, the `/register` check chain, first-match selection, list projection, PUT and DELETE |
| `wire.dfy` | `Wire` | what the backend reads from the requests the client builds |

The screens change state step by step, so each one is a class. Its fields are the React state cells. It also keeps two logs: the alerts shown (`alerts`) and the requests sent (`sent`). Each handler is a method whose `ensures` gives the whole new state.

A handler that awaits a response takes that response as a parameter: `ListReply`, `RegisterReply`, `AnalyzeReply`, `UpdateReply` or `DeleteReply`. Each reply is either a parsed body or a thrown error. Analyze and Edit show a spinner or a disabled button while their request is in flight, so those handlers are also split into a part before the `await` and a part after it.

On the backend, Firestore is a sequence of documents in stream order. Whatever the face library, Storage, `secure_filename` and the Firestore `add` decide is passed in as an input (`RegisterEnv`, `unknown`, `sameFace`).

Two consequences of the code are worth knowing:

- `editingProfile` is never cleared, so returning to EditProfile without a profile shows the last one supplied again (`Navigation.StaleProfileShown`).
- The analyze screen never looks at the response status. A backend error body (400 or 500) has neither `match` nor `reason`, so it is displayed as a non-match with the fallback text (`Analysis.Panel`, with `NotMatched(None)`).

## Model

| member | source | states |
|---|---|---|
| Types.WithField | dev/frontend_facial/src/screens/EditProfileScreen.tsx:44-47 | typing into one input sets that field to the text and leaves the other three fields as they were |
| Types.FormOf | dev/frontend_facial/src/screens/EditProfileScreen.tsx:10-15 | the form's four fields are the profile's nombre, apellidos, codigo_estudiante and correo |
| Text.DecimalString | dev/frontend_facial/src/screens/RegisterScreen.tsx:20 | the rendered timestamp is a non-empty string of digits without a leading zero |
| Text.DecimalRoundTrip | dev/frontend_facial/src/screens/RegisterScreen.tsx:20 | reading the rendered timestamp back as a number gives the timestamp |
| Text.DecimalStringInjective | dev/frontend_facial/src/screens/RegisterScreen.tsx:20 | two different timestamps never render to the same text |
| Text.BoolString | dev/frontend_facial/src/screens/RegisterScreen.tsx:23 | `String(flag)` is "true" or "false", and it is "true" exactly when the flag is set |
| Text.OrElse | dev/frontend_facial/src/screens/RegisterScreen.tsx:31 | `error \|\| fallback` yields the server's message when it is present and non-empty, otherwise the fallback; it is never empty when the fallback is not |
| Text.ConnectionAlert | dev/frontend_facial/src/screens/RegisterScreen.tsx:32 | a thrown error shows the "Error del Servidor" title, with a message that ends in the error's own message |
| Upload.LastSlash | dev/frontend_facial/src/screens/RegisterScreen.tsx:19 | the position of the last '/' in the URI (no '/' after it), or -1 when there is none |
| Upload.LastSegment | dev/frontend_facial/src/screens/RegisterScreen.tsx:19 | `split('/').pop()`: the final segment of the URI; it has no '/' and is either the whole URI or follows a '/' |
| Upload.LastSegmentOfPath | dev/frontend_facial/src/screens/RegisterScreen.tsx:19 | for `dir/name` and for a bare `name` without a '/', the segment taken is `name` |
| Upload.UploadFilename | dev/frontend_facial/src/screens/AnalyzeScreen.tsx:23 | the file name is the last segment when that is non-empty and "photo.jpg" otherwise; it is never empty and has no '/' |
| Upload.UniqueFilename | dev/frontend_facial/src/screens/RegisterScreen.tsx:20 | the upload name ends in "-" plus the file name, and everything before that is digits |
| Upload.UniqueFilenameRoundTrip | dev/frontend_facial/src/screens/AnalyzeScreen.tsx:25 | splitting the upload name at its first '-' gives back the timestamp and the file name |
| Navigation.Navigated | dev/frontend_facial/App.tsx:29-34 | after `navigate(s, p)` the screen is `s`; the stored profile becomes `p` exactly when `s` is EditProfile and `p` is present; otherwise it is unchanged and never reset to null |
| Navigation.NavigateIdempotent | dev/frontend_facial/App.tsx:29-34 | the same navigation applied twice gives the same state as once |
| Navigation.LastSupplied | dev/frontend_facial/App.tsx:30-32 | when some call supplied a profile to the edit screen, the profile of the call after which no other call supplied one; when none did, the prior profile |
| Navigation.LatestSupplier | dev/frontend_facial/App.tsx:30-32 | the index of a call that supplies a profile to the edit screen with no later call supplying one, or -1 exactly when no call supplies one |
| Navigation.ReplayAppend | dev/frontend_facial/App.tsx:29-34 | running two batches of navigations in a row equals running their concatenation |
| Navigation.ReplayFinal | dev/frontend_facial/App.tsx:29-34 | after any sequence of navigations the screen is the last one asked for, and the stored profile is the one most recently supplied |
| Navigation.ReplayTwice | dev/frontend_facial/App.tsx:29-34 | repeating a whole sequence of navigations leaves the state where the first run put it |
| Navigation.IsMounted | dev/frontend_facial/App.tsx:43-47 | only the current screen can be mounted; each of the three main screens is mounted whenever it is current; the edit screen exactly when it is current and a profile is stored |
| Navigation.MountedIsCurrent | dev/frontend_facial/App.tsx:43-47 | at most one screen is mounted and it is the current one; nothing is mounted exactly on EditProfile without a stored profile |
| Navigation.EditMountedAfter | dev/frontend_facial/App.tsx:29-47 | from start, the edit screen shows content iff the last call went to it and any earlier call supplied a profile |
| Navigation.StaleProfileShown | dev/frontend_facial/App.tsx:29-47 | editing p, going to Analyze, then returning to EditProfile without a profile shows p again |
| Navigation.Target | dev/frontend_facial/App.tsx:51-53 | no bottom-bar button leads to the edit screen |
| Navigation.IsActive | dev/frontend_facial/App.tsx:51-53 | no button is highlighted on the edit screen |
| Navigation.ActiveButton | dev/frontend_facial/App.tsx:51-53 | a button is active iff the current screen is its target; at most one is active, one is active on every main screen, none on EditProfile; pressing a button keeps the stored profile |
| Navigation.App.constructor | dev/frontend_facial/App.tsx:25-27 | the shell starts on Analyze with no stored profile |
| Navigation.App.Navigate | dev/frontend_facial/App.tsx:29-34 | the new state is the old state after `navigate` |
| Navigation.App.Press | dev/frontend_facial/App.tsx:51-53 | pressing a button navigates to its screen without a profile and makes that button active |
| ProfileListing.WithFlag | dev/frontend_facial/src/screens/ProfileListScreen.tsx:55-56 | `filter` by the flag keeps exactly the profiles with that flag value, as an order-preserving subsequence |
| ProfileListing.Displayed | dev/frontend_facial/src/screens/ProfileListScreen.tsx:54-58 | `all` returns the list unchanged; every filter returns exactly the profiles it admits, in their original order |
| ProfileListing.SubsequenceOfSelf | dev/frontend_facial/src/screens/ProfileListScreen.tsx:57 | the unfiltered list is an order-preserving subsequence of itself |
| ProfileListing.FlagPartition | dev/frontend_facial/src/screens/ProfileListScreen.tsx:55-56 | the flagged and unflagged results are disjoint; together they are a permutation of the list, so their lengths add up to its length |
| ProfileListing.WithFlagKeepsAll | dev/frontend_facial/src/screens/ProfileListScreen.tsx:55-56 | filtering a list whose profiles all carry the flag value returns it unchanged |
| ProfileListing.FilterIdempotent | dev/frontend_facial/src/screens/ProfileListScreen.tsx:54-58 | filtering a filtered list again with the same filter changes nothing |
| ProfileListing.FetchedProfiles | dev/frontend_facial/src/screens/ProfileListScreen.tsx:14-24 | a successful fetch replaces the list with the response data; a non-OK status or an exception empties it |
| ProfileListing.FetchAlerts | dev/frontend_facial/src/screens/ProfileListScreen.tsx:17-21 | a fetch shows an alert exactly when it fails, and then exactly one, titled "Error del Servidor" |
| ProfileListing.ConfirmDialog | dev/frontend_facial/src/screens/ProfileListScreen.tsx:31-33 | the dialog is titled "Confirmar Eliminación" and its question ends with the profile's nombre and apellidos |
| ProfileListing.ProfileListScreen.constructor | dev/frontend_facial/src/screens/ProfileListScreen.tsx:11-28 | each mount starts with the `all` filter and fetches the list once |
| ProfileListing.ProfileListScreen.FetchProfiles | dev/frontend_facial/src/screens/ProfileListScreen.tsx:14-24 | one GET of `/profiles`; the list and the alerts follow the reply; the filter is kept |
| ProfileListing.ProfileListScreen.SetFilter | dev/frontend_facial/src/screens/ProfileListScreen.tsx:68-70 | a filter button changes only the active filter |
| ProfileListing.ProfileListScreen.HandleDelete | dev/frontend_facial/src/screens/ProfileListScreen.tsx:30-52 | Cancelar sends nothing; Eliminar sends one DELETE of the profile's path; only an OK reply refetches; on failure the list is unchanged and the server's error or the fallback is shown |
| ProfileListing.ProfileListScreen.EditPressed | dev/frontend_facial/src/screens/ProfileListScreen.tsx:82 | "Editar" stores the profile in the shell and mounts the edit screen |
| Registration.CanSubmit | dev/frontend_facial/src/screens/RegisterScreen.tsx:16 | the form can be sent exactly when a photo is picked and every required field (nombre, codigo_estudiante) is non-empty |
| Registration.OptionalFieldsFree | dev/frontend_facial/src/screens/RegisterScreen.tsx:16 | whatever apellidos and correo hold, empty included, does not change whether the form can be sent; the empty form cannot be |
| Registration.RegisterParts | dev/frontend_facial/src/screens/RegisterScreen.tsx:21-23 | the body is the photo under its upload name, then one part per form field in declaration order with its value, then the flag as text |
| Registration.BuildRegisterData | dev/frontend_facial/src/screens/RegisterScreen.tsx:21-23 | the multipart body is photo, nombre, apellidos, codigo_estudiante, correo, then requisitoriado as "true" or "false", each with the form's value |
| Registration.ReplyAlert | dev/frontend_facial/src/screens/RegisterScreen.tsx:28-32 | the success alert exactly on an OK reply; otherwise the server's error or "Ocurrió un error.", or the connection alert when the request threw |
| Registration.RegisterScreen.constructor | dev/frontend_facial/src/screens/RegisterScreen.tsx:11-13 | no image, an empty form and the flag off |
| Registration.RegisterScreen.PickImage | dev/frontend_facial/src/screens/RegisterScreen.tsx:38 | picking a photo sets only the image |
| Registration.RegisterScreen.EditField | dev/frontend_facial/src/screens/RegisterScreen.tsx:41-44 | typing changes only that form field |
| Registration.RegisterScreen.SetRequisitoriado | dev/frontend_facial/src/screens/RegisterScreen.tsx:47 | the switch changes only the flag |
| Registration.RegisterScreen.HandleRegister | dev/frontend_facial/src/screens/RegisterScreen.tsx:15-33 | without an image, nombre or codigo_estudiante: only the "Campos incompletos" alert, nothing sent; otherwise one POST of the multipart body under the timestamped name, and a move to ProfileList only on an OK reply |
| Analysis.Panel | dev/frontend_facial/src/screens/AnalyzeScreen.tsx:49-66 | a match shows the profile's photo, "nombre apellidos", its code, and "¡ALERTA: REQUISITORIADO!" when flagged or "SIN REQUISITORIA" when not; a non-match shows the reason if present and non-empty, else "El rostro no corresponde a ningún perfil." |
| Analysis.View | dev/frontend_facial/src/screens/AnalyzeScreen.tsx:38-66 | a spinner exactly while loading; otherwise the Analyze button is enabled iff an image is picked, and a panel is shown iff there is a result |
| Analysis.AnalyzeRequest | dev/frontend_facial/src/screens/AnalyzeScreen.tsx:19-28 | one POST to `/analyze` with a single photo part, whose name gives back the timestamp before its first '-' and the file name after it |
| Analysis.AnalyzeScreen.constructor | dev/frontend_facial/src/screens/AnalyzeScreen.tsx:10-12 | no image, no result, not loading |
| Analysis.AnalyzeScreen.PickImage | dev/frontend_facial/src/screens/AnalyzeScreen.tsx:45 | picking a photo sets only the image |
| Analysis.AnalyzeScreen.StartAnalyze | dev/frontend_facial/src/screens/AnalyzeScreen.tsx:14-28 | without an image nothing changes; with one, loading is set, the old result is cleared, one POST of the photo is sent and the spinner is shown |
| Analysis.AnalyzeScreen.FinishAnalyze | dev/frontend_facial/src/screens/AnalyzeScreen.tsx:30-35 | the parsed reply becomes the result, or a thrown error alerts and leaves it; loading is reset either way |
| Analysis.AnalyzeScreen.HandleAnalyze | dev/frontend_facial/src/screens/AnalyzeScreen.tsx:14-36 | a no-op without an image; otherwise one request, loading false afterwards, and either the reply becomes the result with no alert, or after an exception the result stays cleared and the connection alert is shown |
| Editing.InitialDraft | dev/frontend_facial/src/screens/EditProfileScreen.tsx:10-16 | the draft's four fields and flag start as the profile's |
| Editing.ApplyEdit | dev/frontend_facial/src/screens/EditProfileScreen.tsx:44-50 | one input or switch change sets its own value and leaves every other field and the flag |
| Editing.UntouchedKept | dev/frontend_facial/src/screens/EditProfileScreen.tsx:44-50 | after any sequence of edits, a field never typed into and a flag never switched keep their starting values |
| Editing.PutBody | dev/frontend_facial/src/screens/EditProfileScreen.tsx:25 | the PUT body names each form field, in spread order, with the draft's value, then `requisitoriado` with the toggle |
| Editing.ToggleThenSave | dev/frontend_facial/src/screens/EditProfileScreen.tsx:16-25 | switching only the flag and saving sends the profile's own four values and the new flag |
| Editing.UpdateAlert | dev/frontend_facial/src/screens/EditProfileScreen.tsx:28-35 | the success alert exactly on an OK reply; otherwise the server's error or "No se pudo actualizar el perfil.", or the connection alert |
| Editing.EditProfileScreen.constructor | dev/frontend_facial/src/screens/EditProfileScreen.tsx:10-17 | the draft is the profile's own values and nothing is loading |
| Editing.EditProfileScreen.Edit | dev/frontend_facial/src/screens/EditProfileScreen.tsx:44-50 | one edit applied to the draft, nothing else changed |
| Editing.EditProfileScreen.BeginUpdate | dev/frontend_facial/src/screens/EditProfileScreen.tsx:19-26 | loading is set, the save button disabled, and one PUT of the draft to the profile's own id is sent |
| Editing.EditProfileScreen.FinishUpdate | dev/frontend_facial/src/screens/EditProfileScreen.tsx:27-38 | the reply's alert; a move to ProfileList only on OK; loading reset and the save button re-enabled in every case |
| Editing.EditProfileScreen.HandleUpdate | dev/frontend_facial/src/screens/EditProfileScreen.tsx:19-39 | one PUT of the draft, the reply's alert, navigation only on OK, loading false afterwards |
| Editing.EditProfileScreen.Cancel | dev/frontend_facial/src/screens/EditProfileScreen.tsx:53 | "Cancelar" moves to ProfileList and sends nothing |
| Backend.AsciiLower | dev/backend_facial/app.py:111 | `lower()` keeps the length, turns each capital A-Z into its small letter, keeps every other character, and leaves no capital |
| Backend.ParseRequisitoriado | dev/backend_facial/app.py:111 | a missing value reads as false |
| Backend.ParseAcceptsExactly | dev/backend_facial/app.py:111 | the flag is true iff the value is "1", "t" or "true" in any letter case |
| Backend.ProfileData | dev/backend_facial/app.py:106-114 | the stored document has exactly seven keys: each form key holds its form value (null when absent), `requisitoriado` the parsed flag, `photo_url` the public URL, `face_encoding` the encoding |
| Backend.RegisterProfile | dev/backend_facial/app.py:68-123 | a document is stored iff the reply is 201; nothing happens until Firebase, the photo part and its name pass; past them, with a face found, the reply is 201 with the store's id and `profile_data` when the write succeeds and 500 "Error al guardar en Firestore: …" when it fails; the temporary file is always removed, and removed before the Firestore write; failures are 400 or 500 |
| Backend.RegisterCheckOrder | dev/backend_facial/app.py:74-94 | Firebase down gives 500, then no photo 400, then an empty name 400, then no face 400; each one before anything is stored |
| Backend.KnownFaceOf | dev/backend_facial/app.py:152-156 | a candidate's profile is the document's fields, each with its value, plus `id` set to the document id; its encoding is the document's `face_encoding` |
| Backend.Known | dev/backend_facial/app.py:151-156 | no more candidates than documents; none when no document has an encoding (every encoded document becoming a candidate, in stream order, is stated by `KnownOfPrefix`, `KnownPrefix` and `KnownAt`) |
| Backend.KnownOfPrefix | dev/backend_facial/app.py:151-156 | `Known` unfolded at the prefix ending at document `i`: the step `KnownAt` builds on |
| Backend.KnownPrefix | dev/backend_facial/app.py:151-156 | candidates are only appended: those of a prefix of the stream are a prefix of all the candidates |
| Backend.KnownAt | dev/backend_facial/app.py:151-156 | every document with an encoding is a candidate, at the position counted by the candidates of the documents before it |
| Backend.FirstMatchingDocument | dev/backend_facial/app.py:151-169 | when document `i` is the first encoded document in stream order whose encoding matches, the first `True` of the comparisons is at its candidate |
| Backend.NoDocumentMatches | dev/backend_facial/app.py:151-172 | when no stored encoding matches, no comparison is `True`, so the "no match" reason is given |
| Backend.KnownCandidates | dev/backend_facial/app.py:151-158 | there is a candidate iff some document has an encoding (so the "no profiles" reason is given exactly when none has); every candidate is built from a document with an encoding |
| Backend.Matches | dev/backend_facial/app.py:163 | one comparison flag per candidate, aligned with the candidates |
| Backend.AnalyzeImage | dev/backend_facial/app.py:127-172 | 500 without Firebase, 400 without a photo; a no-face or no-candidates reason; otherwise a match iff some candidate matches, and then the profile of the first matching candidate |
| Backend.Projected | dev/backend_facial/app.py:184-187 | a listed entry has `id` set to the document id, no `face_encoding`, and every other field of the document |
| Backend.GetAllProfiles | dev/backend_facial/app.py:176-191 | 500 without Firebase or when the stream fails; otherwise one projected entry per document, in stream order |
| Backend.Updated | dev/backend_facial/app.py:205 | the document with that id gets the body's fields set and keeps every other field with its old value; other documents are unchanged |
| Backend.UpdateProfile | dev/backend_facial/app.py:194-206 | 500 and nothing changed without Firebase; an absent or empty body is 400 and changes nothing; an update of a held id is 200 "Perfil id actualizado."; an update of an id not held raises; only a 200 changes the store |
| Backend.Without | dev/backend_facial/app.py:211 | the store keeps exactly the documents of other ids, and none of the deleted id; deleting an id the store does not hold leaves it as it was |
| Backend.WithoutAppend | dev/backend_facial/app.py:211 | deleting from two batches of documents is deleting from each in turn, so the remaining documents keep their stream order |
| Backend.DeleteProfile | dev/backend_facial/app.py:196-212 | 500 without Firebase; otherwise 200 "Perfil id eliminado." with the id's documents removed, whether or not it was held |
| Wire.PhotoUpload | dev/backend_facial/app.py:77-80 | `request.files['photo']` is found exactly when the body has a file part named photo, and it is the first such part's file |
| Wire.FlagRoundTrip | dev/backend_facial/app.py:111 | the flag the client sends as `String(flag)` parses back to the same boolean |
| Wire.SentForm | dev/frontend_facial/src/screens/RegisterScreen.tsx:21-23 | the register body's text values are exactly the four form keys with the form's values and the flag as `String(flag)` |
| Wire.RegisterPartsRead | dev/frontend_facial/src/screens/RegisterScreen.tsx:21-23 | the backend reads the register body as the photo under its upload name plus the four form values and the flag text |
| Wire.RegisterRequestAccepted | dev/backend_facial/app.py:74-120 | with Firebase up, a submitted registration fails only for no face or a refused write, and what is stored carries the form's values and the flag |
| Wire.SentFormStored | dev/backend_facial/app.py:106-114 | `profile_data` stores the register screen's four text values as strings and its stringified flag as the same boolean |
| Wire.EditedFields | dev/frontend_facial/src/screens/EditProfileScreen.tsx:25 | the edit body sets exactly the four form keys to the draft's values and `requisitoriado` to the flag, so it is never empty |
| Wire.PutBodyRead | dev/frontend_facial/src/screens/EditProfileScreen.tsx:25 | the backend reads the edit body as the four form values and the flag |
| Wire.EditRequestAccepted | dev/backend_facial/app.py:200-206 | with Firebase up, an edit is never refused as empty; for a held id it sets the draft's values and flag on that document only; for an id no longer held the update raises and nothing changes |
| Wire.DeleteThenList | dev/backend_facial/app.py:208-212 | with Firebase up, after a delete no listed entry has the deleted id, and every other profile is still listed |

## Left out

- The face library: `get_face_encoding` and `compare_faces` (`app.py:44-59, 163`) are floating-point numerics in a library outside the model. They are inputs: `env.face` and `unknown` are the encoding or no face, and `sameFace` is the comparison at tolerance 0.5.
- Firebase start-up, Storage and Firestore calls, and the temporary folder (`app.py:11-39, 97-100, 117`). Availability is `Firebase(db, bucket)`. The Storage URL and the result of `add` are inputs. Saving, uploading and removing files are recorded as `Effect`s, not performed.
- `secure_filename` is an input (`RegisterEnv.safeName`), not a model of Werkzeug's sanitiser.
- Backend.RegisterProfile: an exception from the Storage upload or `make_public` (lines 97-99) escapes the handler and leaves the temporary file behind. The model has no such outcome.
- Backend.AnalyzeImage: a stream error while reading Firestore is not modelled.
- Backend.UpdateProfile models only a JSON object body:
  - A JSON list or scalar body, or a non-JSON content type (refused by Flask), is not modelled.
  - Dotted keys are not treated as Firestore field paths.
- Flask routing, method dispatch, JSON serialisation and the generic 500 page are reduced to the reply datatypes (`Uncaught` for an exception the handler does not catch).
- `fetch`, `response.json()` and `Alert.alert` are replaced by reply values and an alert log. A body that fails to parse is reported the same way as a thrown network error. `Date.now()` is a parameter.
- The configured server URL: requests carry paths only. `src/config` is not part of this model.
- The image picker (`src/utils/imagePicker.ts`): a pick is modelled as the callback receiving a URI. Permissions and cancellation are outside the model.
- Layout and styling (`src/components/common.tsx`, every `StyleSheet` and JSX block). Only the choices the render makes are kept: the mounted screen, the active button, the spinner, the enabled buttons and the panel contents.
- Concurrency is outside the model: overlapping submissions, an unmount during a request, and the list refresh not being awaited after a delete. Each handler runs to completion in one call.
- Backend.AsciiLower: Python's `lower()` also folds non-ASCII letters. The model folds A-Z only.
- ProfileListing.ProfileListScreen.HandleDelete: the model requires the profile to be one the list shows, since the delete button exists only on displayed entries.
