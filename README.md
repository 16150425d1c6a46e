# tallygo ballot capture: a Dafny model of its stateful UI logic

This project models the four pieces of state-changing logic in tallygo's web
front end and proves properties about them:

- **Record editor** (`src/components/JsonEditor.jsx`, module `JsonEditor`,
  file `json_editor.dfy`). The editor holds the committed record (the `data`
  prop), a working copy `editableData` and an `isEditing` flag. The class
  `Editor` holds these fields, and its handlers overwrite them. The same
  transitions also exist as values: `EditorState`, `Step` and `Run` over a
  sequence of `Event`s. The lemmas are stated over these. The main result is
  that cancel is a true rollback, whatever events happened while editing.
  Another lemma shows that save only hands the working copy to `onUpdate`:
  the edits are committed only when the parent passes them back as the new
  prop.
- **Error boundary and its diagnostic log** (`src/components/ErrorBoundary.jsx`,
  module `ErrorBoundary`, file `error_boundary.dfy`). The log is stored in
  session storage under `tallygo_logs`, newest entry first. Reading it is
  modelled as `StoredItem`: missing, unreadable, an array of entries, or
  some other JSON value. After a caught error, the new entry is prepended
  and the first 50 entries are stored. The model proves that, after any run
  of caught errors whose storage reads give an array and whose writes
  succeed, the stored log is the newest entries, newest first, cut to 50. It also models that
  the list in the component's state is the same array that is prepended to,
  so it gains the entry but is never cut.
- **Ballot batch page** (`src/pages/upload.jsx`, module `Upload`, file
  `upload.dfy`). The page keeps `images`, `previews`, the per-ballot fields
  in `data` and a `loading` flag. The two requests are replaced by their
  outcomes, and `URL.createObjectURL` by a function parameter. The
  `handleUpload` handler is split at its `await`: `StartUpload` and
  `FinishUpload`.
- **Camera view** (`src/components/Camera.jsx`, module `Camera`, file
  `camera.dfy`). `CameraView` holds `stream`, `error`, `isCaptured`,
  `facingMode` and `canFlip`. Each run of the camera effect is an
  `EffectRun` that owns its `activeStream` binding. Tracks, streams, the
  video element and the canvas are objects whose fields are updated in
  place. The outcomes of `enumerateDevices` and `getUserMedia` are
  parameters, and JPEG encoding is a function parameter.

`options.dfy` holds the `Option` type that the four modules share.

Four facts about the code that the model follows:

- Capture draws the frame at exactly the video's width and height. It does
  not downsample and does not pass a JPEG quality to `toDataURL`.
- Saving in the editor does not change `data`. It only passes the working
  copy to `onUpdate`.
- The editor edits a flat record (key to value), one level deep.
- A successful submission on the upload page clears nothing. See Findings.

## Model

| member | source | states |
|---|---|---|
| `JsonEditor.WithKey` | src/components/JsonEditor.jsx:27-32 | The changed key holds the new value. The key set gains the key if it was absent. Every other key keeps its value. |
| `JsonEditor.ShowsEmptyState` | src/components/JsonEditor.jsx:34 | The empty state is shown exactly when there is no record or the record has no key. |
| `JsonEditor.RunKeepsData` | src/components/JsonEditor.jsx:11-32 | No sequence of handler calls changes the committed record. Only a new prop does. |
| `JsonEditor.CancelRestoresCommitted` | src/components/JsonEditor.jsx:22-25 | Edit, then any events that leave the prop alone, then cancel: the working copy equals `data`, or `{}` when it is null; editing is off, and the committed record is unchanged. |
| `JsonEditor.EditCancelRoundTrip` | src/components/JsonEditor.jsx:11-32 | A synchronised editor that is not editing returns to exactly its prior state after edit, any changes, then cancel. |
| `JsonEditor.SaveWithoutNewPropIsUndone` | src/components/JsonEditor.jsx:15-25 | Save followed by edit and cancel, with no new prop in between, discards the saved changes. |
| `JsonEditor.SaveThenNewPropCommits` | src/components/JsonEditor.jsx:7-20 | Save followed by the parent passing the saved map back makes it the committed record, and a later cancel keeps it. |
| `JsonEditor.Step` | src/components/JsonEditor.jsx:7-32 | Only a new prop changes `data`. Edit turns editing on, save and cancel turn it off, and the other events keep the mode. Edit and save leave the working copy alone. Cancel and a new prop reset it to `data`, or `{}` when that is null. |
| `JsonEditor.Editor.constructor` | src/components/JsonEditor.jsx:4-9 | After mounting and the first effect run, the working copy is `data`, or `{}` when it is null, and editing is off. |
| `JsonEditor.Editor.DataChanged` | src/components/JsonEditor.jsx:7-9 | A new prop replaces the working copy by the new record, or `{}` if the record is null. The mode is kept. |
| `JsonEditor.Editor.HandleEdit` | src/components/JsonEditor.jsx:11-13 | Editing turns on. Neither the record nor the working copy changes. |
| `JsonEditor.Editor.HandleSave` | src/components/JsonEditor.jsx:15-20 | Editing turns off. `onUpdate`, when given, receives exactly the working copy. The working copy and the record are unchanged. |
| `JsonEditor.Editor.HandleCancel` | src/components/JsonEditor.jsx:22-25 | The working copy becomes `data`, or `{}` when it is null, and editing turns off. |
| `JsonEditor.Editor.HandleChange` | src/components/JsonEditor.jsx:27-32 | Sets one key of the working copy. Other keys and the mode are unchanged. |
| `ErrorBoundary.LoadLogs` | src/components/ErrorBoundary.jsx:33-44 | A missing or unreadable stored log reads as the empty list and never raises. A stored array is taken as it is. Any other JSON value is kept as a non-list. |
| `ErrorBoundary.Capped` | src/components/ErrorBoundary.jsx:62 | `slice(0, 50)`: a prefix of the log, of length min(n, 50). |
| `ErrorBoundary.StoredAfterCatch` | src/components/ErrorBoundary.jsx:61-62 | The stored log has at most 50 entries and starts with the new entry. The prior entries follow in order, cut to 49. If fewer than 50 were stored, none is dropped. |
| `ErrorBoundary.CatchesKeepMostRecent` | src/components/ErrorBoundary.jsx:53-62 | After any run of caught errors, the stored log is the caught entries newest first, then the earlier log, cut to 50. |
| `ErrorBoundary.FullLogHoldsNewest` | src/components/ErrorBoundary.jsx:61-62 | After 50 or more caught errors, the stored log holds exactly the 50 newest entries, newest first. |
| `ErrorBoundary.EntryColour` | src/components/ErrorBoundary.jsx:106-111 | Red exactly for type "error". Green exactly for type "success". White for every other type. |
| `ErrorBoundary.GetDerivedStateFromError` | src/components/ErrorBoundary.jsx:13-28 | Always sets `hasError`. `errorLogs` is the loaded list: an empty list when storage fails. |
| `ErrorBoundary.Boundary.constructor` | src/components/ErrorBoundary.jsx:4-11 | No error, no error info and an empty log. |
| `ErrorBoundary.Boundary.MergeDerivedState` | src/components/ErrorBoundary.jsx:13-28 | The state takes the derived `hasError` and `errorLogs`. The error details are untouched. |
| `ErrorBoundary.Boundary.ComponentDidCatch` | src/components/ErrorBoundary.jsx:30-66 | The error text and component stack go into state. The in-state list becomes the new "ERROR BOUNDARY TRIGGERED: " entry followed by the loaded list, uncut. Storage receives `StoredAfterCatch`, and a stored log within 50 stays within 50. A non-array stored value or a refused write leaves storage as it was. |
| `Upload.BallotForm` | src/pages/upload.jsx:24-25 | The upload body holds every image, in order, under the field "ballots". |
| `Upload.SetBallotField` | src/pages/upload.jsx:40-45 | Sets one field of one ballot. The other fields of that ballot and all other ballots are unchanged. A missing ballot starts from no fields. |
| `Upload.SetBallotFieldCommutes` | src/pages/upload.jsx:40-45 | Edits to different fields or different ballots can be applied in either order. |
| `Upload.SetBallotFieldLastWins` | src/pages/upload.jsx:40-45 | A second edit of the same field overrides the first. |
| `Upload.UploadPage.constructor` | src/pages/upload.jsx:5-8 | No images, no previews, no data, not loading. |
| `Upload.UploadPage.HandleFiles` | src/pages/upload.jsx:10-15 | `images` is the selection in order. There is one preview per image, each made from its image. Data and loading are unchanged. The process button shows exactly when the selection is non-empty. |
| `Upload.UploadPage.StartUpload` | src/pages/upload.jsx:22-25 | Loading turns on, and the returned body is every image under "ballots". |
| `Upload.UploadPage.FinishUpload` | src/pages/upload.jsx:26-37 | Loading is false on every path. A parsed response replaces the data. An exception leaves the data unchanged. |
| `Upload.UploadPage.HandleChange` | src/pages/upload.jsx:40-45 | The data becomes `SetBallotField` of the old data. Nothing else changes. |
| `Upload.UploadPage.Render` | src/pages/upload.jsx:82-130 | The process button is shown exactly when there are previews. It is disabled and reads "Processing..." exactly while loading, and reads "Process Ballots" otherwise. The submit button is shown exactly when `data` has a ballot. |
| `Upload.UploadPage.SubmitAsWritten` | src/pages/upload.jsx:47-65 | As written: the posted body is the current `data`, the alert matches the outcome, and no state changes, even after an accepted submission. |
| `Upload.UploadPage.Submit` | src/pages/upload.jsx:47-65 | As intended: the posted body is the `data` at the time of the call. An accepted submission clears images, previews and data, which hides both buttons. A rejected submission or an exception keeps everything. |
| `Upload.AcceptedSubmitKeepsBatch` | src/pages/upload.jsx:54-58 | Counterexample: after an accepted submission, the success alert appears but the batch and both buttons remain. |
| `Camera.Flipped` | src/components/Camera.jsx:70 | The result differs from the input, and "user" and "environment" swap. |
| `Camera.FlipTwiceRestores` | src/components/Camera.jsx:70 | Flipping twice restores the facing mode. |
| `Camera.VideoInputs` | src/components/Camera.jsx:21 | The filter keeps at most the enumerated devices. |
| `Camera.VideoInputsExactly` | src/components/Camera.jsx:21 | The filter keeps exactly the devices of kind "videoinput". |
| `Camera.SomeVideoInput` | src/components/Camera.jsx:21-22 | The filter is non-empty exactly when some device is a video input. |
| `Camera.CanFlipIffTwoVideoInputs` | src/components/Camera.jsx:20-22 | The count exceeds one exactly when two distinct devices are video inputs. |
| `Camera.StopTracks` | src/components/Camera.jsx:43 | Every track of the stream is stopped. |
| `Camera.CameraView.constructor` | src/components/Camera.jsx:8-13 | No stream, no error, live preview, "user" facing mode, no flip. |
| `Camera.CameraView.Render` | src/components/Camera.jsx:74-135 | An error shows only the placeholder. Capture, and flip when offered, are disabled while there is no stream. The still and its retake button show only when captured. |
| `Camera.CameraView.StartEffect` | src/components/Camera.jsx:15-16 | A new run for the current facing mode, with no stream yet. |
| `Camera.CameraView.SetupAsWritten` | src/components/Camera.jsx:18-37 | A failure of either request sets "Camera access denied or not available". Otherwise `canFlip` is whether there is more than one video input, and the stream is published and attached to the video element, even for a run that was already cleaned up. |
| `Camera.CameraView.CleanupAsWritten` | src/components/Camera.jsx:41-45 | Stops every track of the stream the run has acquired so far. |
| `Camera.CameraView.Setup` | src/components/Camera.jsx:18-37 | As written, except that a cleaned-up run stops its late stream and does not publish it. On every other path no track is stopped, and on a failed or cleaned-up path the video element's `srcObject` is untouched. It preserves `NoLeak`. |
| `Camera.CameraView.Cleanup` | src/components/Camera.jsx:41-45 | Marks the run cleaned up and stops every track of its stream, which establishes `NoLeak`. |
| `Camera.CameraView.CaptureImage` | src/components/Camera.jsx:48-62 | A no-op without the video or canvas element. Otherwise the canvas gets exactly the video's width and height and its frame, the view shows the still, and `onCapture` receives the encoded image. |
| `Camera.CameraView.RetakePhoto` | src/components/Camera.jsx:64-67 | Back to the live view, and `onCapture(null)`. |
| `Camera.CameraView.FlipCamera` | src/components/Camera.jsx:69-72 | The opposite facing mode, and back to the live view. Nothing else changes. |
| `Camera.EarlyCleanupLeaksAsWritten` | src/components/Camera.jsx:24-45 | Counterexample: if cleanup runs before `getUserMedia` resolves, the late stream is published and keeps running. |
| `Camera.EarlyCleanupReleases` | src/components/Camera.jsx:24-45 | With the intended setup and cleanup, the same order of events stops the late stream and leaves it unpublished. |

## Findings

| source | as written | input that shows it | evidently intended | confidence | as-written member | corrected member |
|---|---|---|---|---|---|---|
| src/pages/upload.jsx:56 | After an accepted submission, the handler calls `setImages([])`, but the setter is `setimages` (line 5). The ReferenceError is caught at line 62, so the success alert is shown but images, previews and data are never cleared. | One image processed into `{"0": {"reg_id": "7"}}`, then the backend answers 2xx | An accepted batch is cleared, and both buttons disappear | not executed | `Upload.UploadPage.SubmitAsWritten` (exhibited by `Upload.AcceptedSubmitKeepsBatch`) | `Upload.UploadPage.Submit` |
| src/components/Camera.jsx:41-45 | Cleanup stops `activeStream` only if `getUserMedia` has already resolved. A stream that resolves after cleanup is published by the stale run and never stopped. | The facing mode is flipped, or the view unmounts, while `getUserMedia` is pending | Every effect run releases the stream it acquires, whichever finishes first | not executed | `Camera.CameraView.SetupAsWritten` (exhibited by `Camera.EarlyCleanupLeaksAsWritten`) | `Camera.CameraView.Setup` |

## Left out

- Session storage, `JSON.parse`/`JSON.stringify`, `fetch`, `FormData`, `URL.createObjectURL`, `enumerateDevices`, `getUserMedia`, canvas drawing and `toDataURL` are replaced by parameters and abstract outcomes.
  - `JSON.parse(JSON.stringify(a))` is taken to give `a` back.
  - Stored array elements are taken to be log entries.
  - A processing response is taken to be a map of ballots whose fields are strings.
- `Upload.UploadPage.HandleFiles`: `objectUrl` is a pure function, whereas the browser mints a fresh URL on every call. Old preview URLs are never revoked, and that is not modelled.
- `Camera.VideoInputsExactly`: states which devices the filter keeps, not their order. Only the count is used by the source.
- Asynchrony is modelled one await at a time, where it matters:
  - `handleUpload` is split into `StartUpload` and `FinishUpload`.
  - The two awaits of `setupCamera` are one step, `Setup`. A cleanup between them has the same effect as a cleanup before both.
  - A stale camera run that publishes its stream over a newer run's stream is avoided only by the corrected `Setup`.
- React's own behaviour is not modelled: batching of `setState`, re-rendering, and which prop identity counts as a change. The editor's effect is the `DataChanged` event, which fires for each new `data` object.
- Rendering and CSS are left out, apart from `ShowsEmptyState`, the upload page's `Render` and the camera's `Render`. Not modelled:
  - The debug panel of the error boundary.
  - The refresh button (`window.location.reload`).
  - The storage-availability lines.
  - The ballot form's field inputs.
  - The stylesheet import at src/pages/upload.jsx:3.
- `handleDrop` (src/pages/upload.jsx:17-20) only prevents the browser default and calls `handleFiles`. It is covered by `HandleFiles`.
- `ErrorBoundary.Boundary.ComponentDidCatch`: takes `errorText` as the result of `error.toString()`. A thrown `null` or `undefined` makes that call throw at src/components/ErrorBoundary.jsx:49, before state or storage is updated, and this path is not modelled.
- Console logging, `Date.now()` and `toLocaleTimeString()` are left out. The two time values are parameters of `ComponentDidCatch`.
- The order of keys in records (`Object.keys`, `Object.entries`) is not modelled: records are Dafny maps.
- The image recognition client, its response repair and field sanitisation, the capture pipeline controller with stale-result discard, and frame downsampling are not part of this model: none of them is in the modelled source files.
- src/pages/login.jsx, src/components/Settings.jsx, src/App.jsx and src/components/ProtectedRoute.jsx are not part of this model. They hold login, layout and routing glue.
