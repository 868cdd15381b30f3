# Snipt: a verified model of its client-side logic

Snipt is a screenshot tool. Its desktop app lets the user:

- pick a screen or window, or drag out an area of the screen;
- annotate the capture with arrows, boxes, highlights and text;
- copy the result, save it, or upload it to cloud storage and copy a signed share link.

A web dashboard lists the uploads and accepts dropped image files. A settings page changes the password. A small edge function signs users up with a generated password. The marketing site injects a shared header and footer into every page.

This project models the logic of these pieces in Dafny and proves properties of the model. One module corresponds to one source file:

| module | source |
|---|---|
| `AnnotationCanvas` | `app_Electron/src/components/AnnotationCanvas.jsx` |
| `Constants` | `app_Electron/src/utils/constants.js` |
| `AreaSelect` | `app_Electron/src/AreaSelectApp.jsx` |
| `CaptureApp` | `app_Electron/src/CaptureApp.jsx` |
| `ChangePassword` | `app_Electron/src/components/ChangePasswordModal.jsx` |
| `Settings` | `dashboard/src/pages/Settings.jsx` |
| `Upload` | `app_Electron/src/utils/upload.js` |
| `DragDropUpload` | `dashboard/src/components/DragDropUpload.jsx` |
| `Gallery` | `app_Electron/src/components/Gallery.jsx` |
| `SignupAuto` | `supabase/functions/signup-auto/index.ts` |
| `Components` | `docs/components.js` |

`Common` holds the shared value types and the string helpers (`startsWith`, `includes`, integer printing).

How the model is built:

- **Components become classes.** A React component whose handlers update its state is a class whose fields are that state. Each handler is a method. Its `ensures` gives the new state, usually as a pure step function of the old state, such as `State() == PointerDown(old(State()), pos, reply)`. Lemmas about those step functions prove the behaviour the code promises.
- **Canvas output is data.** The canvases are sequences of draw commands, so the painting order can be stated and proved.
- **Outside calls are parameters.** Backend replies, the prompt reply, the save-dialog path, the clock (as its ISO string), `Math.random()` and the signed-in user are parameters of the operations. The calls made to the backend are returned or recorded as data, in order.

Where the code does something a reader might not expect, the model follows the code:

- Boxes and highlights are drawn with the signed extent `end - start`, not a normalised rectangle.
- The filename timestamp turns `:` and `.` into `-` rather than deleting them.
- `getMousePos` has no guard against a zero-sized canvas box. The model requires a positive box size instead.
- Cancelling the capture window only asks for the window to close.

## Model

| member | source | states |
|---|---|---|
| AnnotationCanvas.MousePos | app_Electron/src/components/AnnotationCanvas.jsx:115-125 | the mapped point times the displayed size equals the pointer offset times the canvas size, on each axis |
| AnnotationCanvas.MousePosRoundTrip | app_Electron/src/components/AnnotationCanvas.jsx:115-125 | mapping a pointer position to canvas pixels and back gives the position again |
| AnnotationCanvas.MousePosUnscaled | app_Electron/src/components/AnnotationCanvas.jsx:118-123 | a canvas shown at its own size only has the box offset subtracted |
| AnnotationCanvas.MousePosDoubled | app_Electron/src/components/AnnotationCanvas.jsx:118-123 | a canvas twice as wide as shown doubles the horizontal offset |
| AnnotationCanvas.DrawAnnotation | app_Electron/src/components/AnnotationCanvas.jsx:47-113 | defined by its body: one draw command per annotation, in its colour; its shapes are stated by RectSpansDrag and RectReversedDrag |
| AnnotationCanvas.RectSpansDrag | app_Electron/src/components/AnnotationCanvas.jsx:95-107 | box and highlight rectangles start at the drag start and end exactly at the drag end, in the annotation's colour |
| AnnotationCanvas.RectReversedDrag | app_Electron/src/components/AnnotationCanvas.jsx:95-107 | dragging backwards gives the same rectangle from the other corner, with negated extents; no normalisation |
| AnnotationCanvas.DrawAll | app_Electron/src/components/AnnotationCanvas.jsx:38-41 | defined by its body; stated by DrawAllAt and DrawAllAppend |
| AnnotationCanvas.Painted | app_Electron/src/components/AnnotationCanvas.jsx:31-45 | defined by its body; stated by PaintedInOrder and CommitKeepsPicture |
| AnnotationCanvas.DrawAllAt | app_Electron/src/components/AnnotationCanvas.jsx:40-41 | painting the list draws entry k as the k-th command |
| AnnotationCanvas.DrawAllAppend | app_Electron/src/components/AnnotationCanvas.jsx:40-41 | painting two lists one after the other is painting their concatenation |
| AnnotationCanvas.PaintedInOrder | app_Electron/src/components/AnnotationCanvas.jsx:31-45 | a repaint draws every committed annotation in list order and then the draft, and nothing else |
| AnnotationCanvas.CommitKeepsPicture | app_Electron/src/components/AnnotationCanvas.jsx:165-174 | committing the draft leaves the painted picture unchanged |
| AnnotationCanvas.PointerDown | app_Electron/src/components/AnnotationCanvas.jsx:127-153 | defined by its body; stated by PointerDownWithoutTool, PointerDownStartsDraft and PointerDownText |
| AnnotationCanvas.PointerMove | app_Electron/src/components/AnnotationCanvas.jsx:155-163 | defined by its body; stated by PointerMoveOnlyMovesEnd |
| AnnotationCanvas.PointerUp | app_Electron/src/components/AnnotationCanvas.jsx:165-174 | defined by its body; stated by PointerUpCommits and CommitKeepsPicture |
| AnnotationCanvas.Undo | app_Electron/src/components/AnnotationCanvas.jsx:190-192 | defined by its body; stated by UndoDropsLast and UndoAfterCommit |
| AnnotationCanvas.PointerDownWithoutTool | app_Electron/src/components/AnnotationCanvas.jsx:127-128 | with no tool, pointer-down changes nothing |
| AnnotationCanvas.PointerDownStartsDraft | app_Electron/src/components/AnnotationCanvas.jsx:145-152 | with a shape tool, pointer-down starts a draft of that kind with start = end = the position and the current colour; the list is unchanged |
| AnnotationCanvas.PointerDownText | app_Electron/src/components/AnnotationCanvas.jsx:132-144 | with the text tool, one label is appended iff the reply is non-empty, and the tool always drops back to none |
| AnnotationCanvas.PointerMoveOnlyMovesEnd | app_Electron/src/components/AnnotationCanvas.jsx:155-163 | pointer-move replaces only the draft's end, and changes nothing when not drawing, without a draft, or with the text tool |
| AnnotationCanvas.PointerUpCommits | app_Electron/src/components/AnnotationCanvas.jsx:165-174 | pointer-up appends the draft at the end, clears it, stops drawing and keeps the earlier entries; a release while drawing with no shape draft (after a text click) only stops drawing; a release while not drawing changes nothing |
| AnnotationCanvas.UndoDropsLast | app_Electron/src/components/AnnotationCanvas.jsx:190-192 | undo removes exactly the last entry and keeps an empty list empty |
| AnnotationCanvas.UndoAfterCommit | app_Electron/src/components/AnnotationCanvas.jsx:165-192 | undo right after a commit restores the list from before the commit |
| AnnotationCanvas.ArrowThenUndo | app_Electron/src/components/AnnotationCanvas.jsx:127-192 | an arrow drag from (0,0) to (100,50) commits one red arrow, and undo removes it |
| AnnotationCanvas.TextAtOnce | app_Electron/src/components/AnnotationCanvas.jsx:132-144 | a text click with reply "hello" commits the label at once and paints it as one text command |
| AnnotationCanvas.StepsKeepPalette | app_Electron/src/components/AnnotationCanvas.jsx:194-203 | every step keeps all colours (current, committed, draft) inside the toolbar palette |
| AnnotationCanvas.Editor.constructor | app_Electron/src/components/AnnotationCanvas.jsx:7-12 | no tool, red, empty list, no draft; canvases at the default 300 x 150 |
| AnnotationCanvas.Editor.Repaint | app_Electron/src/components/AnnotationCanvas.jsx:31-45 | once the image is loaded, the overlay becomes the committed annotations in order followed by the draft |
| AnnotationCanvas.Editor.LoadImage | app_Electron/src/components/AnnotationCanvas.jsx:14-29 | both canvases take the image's size; editor state unchanged |
| AnnotationCanvas.Editor.SelectTool | app_Electron/src/components/AnnotationCanvas.jsx:209-236 | only the active tool changes |
| AnnotationCanvas.Editor.SelectColor | app_Electron/src/components/AnnotationCanvas.jsx:245-249 | only the current colour changes, to a palette colour |
| AnnotationCanvas.Editor.HandleMouseDown | app_Electron/src/components/AnnotationCanvas.jsx:127-153 | the new state is the pointer-down step at the mapped position, and the overlay shows it |
| AnnotationCanvas.Editor.HandleMouseMove | app_Electron/src/components/AnnotationCanvas.jsx:155-163 | the new state is the pointer-move step at the mapped position, and the overlay shows it |
| AnnotationCanvas.Editor.HandleMouseUp | app_Electron/src/components/AnnotationCanvas.jsx:165-174 | the new state is the pointer-up step, also used for pointer-leave |
| AnnotationCanvas.Editor.HandleUndo | app_Electron/src/components/AnnotationCanvas.jsx:190-192 | the new state is the undo step |
| AreaSelect.Selection | app_Electron/src/AreaSelectApp.jsx:89-92 | the rectangle runs from the smaller to the larger coordinate on each axis |
| AreaSelect.SelectionSymmetric | app_Electron/src/AreaSelectApp.jsx:48-51 | swapping start and current gives the same rectangle |
| AreaSelect.CropOf | app_Electron/src/AreaSelectApp.jsx:100-108 | defined by its body: a canvas of the selection's size that receives the selected rectangle of the screenshot at the origin; stated by PointerUpEmitsOnlySignificant |
| AreaSelect.DimensionLabel | app_Electron/src/AreaSelectApp.jsx:67 | defined by its body; stated by DimensionLabelInjective |
| AreaSelect.DigitRunOf | app_Electron/src/AreaSelectApp.jsx:67 | a run of digits followed by a non-digit is read as exactly those digits, so a printed width ends where " × " starts |
| AreaSelect.DimensionLabelInjective | app_Electron/src/AreaSelectApp.jsx:67 | the "w × h" label determines the width and the height |
| AreaSelect.SplitAtSeparator | app_Electron/src/AreaSelectApp.jsx:67 | two digit strings around " × " split in only one way |
| AreaSelect.PreviewFrame | app_Electron/src/AreaSelectApp.jsx:32-69 | defined by its body; stated by PreviewShowsCrop |
| AreaSelect.PreviewShowsCrop | app_Electron/src/AreaSelectApp.jsx:32-69 | during a drag, the undimmed area is exactly the rectangle a release would crop; otherwise only the dimmed screenshot is shown |
| AreaSelect.PointerDown | app_Electron/src/AreaSelectApp.jsx:71-77 | defined by its body; stated by PointerDownNeedsScreenshot |
| AreaSelect.PointerMove | app_Electron/src/AreaSelectApp.jsx:79-83 | defined by its body; stated by PointerMoveOnlyCurrent |
| AreaSelect.PointerUp | app_Electron/src/AreaSelectApp.jsx:85-98 | defined by its body; stated by PointerUpEmitsOnlySignificant and ThresholdExamples |
| AreaSelect.PointerDownNeedsScreenshot | app_Electron/src/AreaSelectApp.jsx:71-77 | pointer-down is ignored before the screenshot arrives, and otherwise starts a drag with start = current |
| AreaSelect.PointerMoveOnlyCurrent | app_Electron/src/AreaSelectApp.jsx:79-83 | pointer-move updates only the current point, and only while selecting |
| AreaSelect.PointerUpEmitsOnlySignificant | app_Electron/src/AreaSelectApp.jsx:85-118 | release always ends the drag; something is sent iff both sides exceed 10 pixels, and then the exact crop followed by the close request |
| AreaSelect.ThresholdExamples | app_Electron/src/AreaSelectApp.jsx:95 | 5 x 5 and 10-wide drags are dropped; an 11 x 11 drag is cropped at (89,100) |
| AreaSelect.Selector.constructor | app_Electron/src/AreaSelectApp.jsx:4-7 | no screenshot, not selecting, both points at the origin |
| AreaSelect.Selector.Draw | app_Electron/src/AreaSelectApp.jsx:32-69 | the canvas shows the preview frame of the current state |
| AreaSelect.Selector.ReceiveCapture | app_Electron/src/AreaSelectApp.jsx:11-30 | the screenshot is stored and drawn |
| AreaSelect.Selector.HandleMouseDown | app_Electron/src/AreaSelectApp.jsx:71-77 | the pointer-down step at the canvas-relative position |
| AreaSelect.Selector.HandleMouseMove | app_Electron/src/AreaSelectApp.jsx:79-83 | the pointer-move step at the canvas-relative position |
| AreaSelect.Selector.HandleMouseUp | app_Electron/src/AreaSelectApp.jsx:85-118 | the pointer-up step; its messages are appended to those sent |
| AreaSelect.Selector.HandleCancel | app_Electron/src/AreaSelectApp.jsx:120-124 | only the close request is sent |
| CaptureApp.WithPrefixMembers | app_Electron/src/CaptureApp.jsx:23 | the prefix filter keeps exactly the sources whose id has the prefix |
| CaptureApp.WithPrefixAppend | app_Electron/src/CaptureApp.jsx:167-168 | the filter distributes over concatenation, so it keeps the original order |
| CaptureApp.ScreensAndWindows | app_Electron/src/CaptureApp.jsx:167-168 | screens are exactly the "screen" sources, windows exactly the "window" ones, and no source is both |
| CaptureApp.ListedWindows | app_Electron/src/CaptureApp.jsx:202 | defined by its body; stated by ListedWindowsAreFirst12 |
| CaptureApp.ListedWindowsAreFirst12 | app_Electron/src/CaptureApp.jsx:202 | the picker lists the first min(12, n) windows in order |
| CaptureApp.ReceiveSources | app_Electron/src/CaptureApp.jsx:14-27 | defined by its body; stated by AutoSelectOnlyScreen |
| CaptureApp.AutoSelectOnlyScreen | app_Electron/src/CaptureApp.jsx:22-34 | a new source list selects the only screen iff there is exactly one and nothing is selected; otherwise only the list changes |
| CaptureApp.ViewOf | app_Electron/src/CaptureApp.jsx:166-246 | defined by its body; stated by PickerCondition and SelectedSourceIsAnnotated |
| CaptureApp.PickerCondition | app_Electron/src/CaptureApp.jsx:166 | the picker shows iff not annotating and there is more than one source |
| CaptureApp.SelectSource | app_Electron/src/CaptureApp.jsx:29-34 | defined by its body; stated by SelectedSourceIsAnnotated and AutoSelectOnlyScreen |
| CaptureApp.SelectedSourceIsAnnotated | app_Electron/src/CaptureApp.jsx:29-34 | selecting a source opens the editor on its thumbnail |
| CaptureApp.MenuResult | app_Electron/src/CaptureApp.jsx:114-164 | defined by its body: the clicked button's action, or null for cancel |
| CaptureApp.SaveOutcome | app_Electron/src/CaptureApp.jsx:42-85 | defined by its body; stated by SaveBranches and MenuDecidesSave |
| CaptureApp.SaveBranches | app_Electron/src/CaptureApp.jsx:42-85 | upload sets the pending blob, shows the prompt and has no effect; every other action leaves the state alone; the close is scheduled iff the action is not upload and any copy or save call resolved, and then once, last; a rejected copy or save leaves its request as the only effect |
| CaptureApp.MenuDecidesSave | app_Electron/src/CaptureApp.jsx:43-78 | the copy, save and upload buttons, and only they, lead to a copy request, a save request, or the prompt with the blob pending; cancel only schedules the close |
| CaptureApp.UploadSuccessOutcome | app_Electron/src/CaptureApp.jsx:87-107 | defined by its body; stated by UploadSuccessOutcomes |
| CaptureApp.StorageEffects | app_Electron/src/CaptureApp.jsx:90 | the upload's storage calls appear in the effect list in order |
| CaptureApp.UploadSuccessOutcomes | app_Electron/src/CaptureApp.jsx:87-107 | a failed upload, or a rejected copy of its link, keeps the prompt and the blob, does not close and ends with an error notice; an upload always asks to copy the signed link; when that copy resolves, the prompt and the blob are cleared and the close is scheduled last |
| CaptureApp.UploadCancelled | app_Electron/src/CaptureApp.jsx:109-112 | defined by its body; stated by UploadThenCancel |
| CaptureApp.UploadThenCancel | app_Electron/src/CaptureApp.jsx:109-112 | cancelling the prompt after choosing upload hides it and drops the blob |
| CaptureApp.CaptureWindow.constructor | app_Electron/src/CaptureApp.jsx:6-12 | no sources, nothing selected, not annotating, no prompt |
| CaptureApp.CaptureWindow.HandleSourceSelect | app_Electron/src/CaptureApp.jsx:29-34 | the new state is the source-selection step |
| CaptureApp.CaptureWindow.SourcesReady | app_Electron/src/CaptureApp.jsx:14-27 | the new state is the source list plus the auto-select effect |
| CaptureApp.CaptureWindow.HandleCancel | app_Electron/src/CaptureApp.jsx:36-40 | only the close request is made |
| CaptureApp.CaptureWindow.HandleSave | app_Electron/src/CaptureApp.jsx:42-85 | state and requests follow the save step for the chosen action and the way the copy or save call settled |
| CaptureApp.CaptureWindow.HandleUploadSuccess | app_Electron/src/CaptureApp.jsx:87-107 | state and requests follow the upload step, for the storage replies and the way the link copy settled |
| CaptureApp.CaptureWindow.HandleUploadCancel | app_Electron/src/CaptureApp.jsx:109-112 | prompt hidden, blob cleared, nothing else |
| ChangePassword.Validate | app_Electron/src/components/ChangePasswordModal.jsx:12-23 | defined by its body; stated by ShortFailsFirst, WeakFailsSecond and ValidateVerdicts |
| ChangePassword.ShortFailsFirst | app_Electron/src/components/ChangePasswordModal.jsx:4-15 | under 6 characters gives the length error whatever else holds |
| ChangePassword.WeakFailsSecond | app_Electron/src/components/ChangePasswordModal.jsx:16-18 | 6 or more characters without an ASCII upper, lower and digit gives the character-class error |
| ChangePassword.ValidateVerdicts | app_Electron/src/components/ChangePasswordModal.jsx:12-23 | mismatch is reported iff the first two checks pass and the entries differ; no error iff all three checks pass |
| ChangePassword.ValidateExamples | app_Electron/src/components/ChangePasswordModal.jsx:12-23 | "Abc123" is accepted, "abc123" lacks a capital, "Abc123"/"Abc124" mismatch |
| ChangePassword.Modal.constructor | app_Electron/src/components/ChangePasswordModal.jsx:7-10 | empty fields, not submitting, no error |
| ChangePassword.Modal.SetPassword | app_Electron/src/components/ChangePasswordModal.jsx:7 | only the password changes |
| ChangePassword.Modal.SetConfirm | app_Electron/src/components/ChangePasswordModal.jsx:8 | only the confirmation changes |
| ChangePassword.Modal.HandleSubmit | app_Electron/src/components/ChangePasswordModal.jsx:25-44 | a validation error sets the error and makes no call; otherwise one call is made and submitting ends; success clears both fields and calls onSuccess if given; failure sets the message or "Could not update password" |
| Settings.Validate | dashboard/src/pages/Settings.jsx:30-38 | defined by its body; stated by ValidateVerdicts and DialogIsStricter |
| Settings.ValidateVerdicts | dashboard/src/pages/Settings.jsx:30-38 | mismatch is checked first; the length error only for matching entries; accepted iff they match and have 6 or more characters |
| Settings.DialogIsStricter | dashboard/src/pages/Settings.jsx:30-38 | whatever the desktop dialog accepts, the page accepts; "abcdef" shows it is not conversely; a short mismatch gets different first messages |
| Settings.SettingsPage.constructor | dashboard/src/pages/Settings.jsx:7-10 | not loading, empty fields |
| Settings.SettingsPage.HandleChangePassword | dashboard/src/pages/Settings.jsx:27-58 | a failed check shows its message and makes no call; otherwise one update call; success clears all three fields with a success toast; failure shows the message or "Failed to update password"; loading ends false |
| Upload.Timestamp | app_Electron/src/utils/upload.js:5 | defined by its body; stated by TimestampHasNoSeparators, TimestampOf24 and TimestampOfIsoString |
| Upload.Sanitize | app_Electron/src/utils/upload.js:5 | same length, every ':' and '.' turned into '-', the rest kept |
| Upload.GenerateFilename | app_Electron/src/utils/upload.js:3-7 | defined by its body; stated by TimestampHasNoSeparators, TimestampOf24 and TimestampOfIsoString |
| Upload.TimestampHasNoSeparators | app_Electron/src/utils/upload.js:5 | the timestamp contains no ':' and no '.' |
| Upload.TimestampOf24 | app_Electron/src/utils/upload.js:5 | a 24-character ISO string gives its first 19 characters with separators dashed |
| Upload.TimestampOfIsoString | app_Electron/src/utils/upload.js:3-7 | for a well-formed ISO instant only the two time colons change, the fraction and 'Z' are dropped |
| Upload.UploadScreenshotToCloud | app_Electron/src/utils/upload.js:33-88 | defined by its body; stated by AuthBeforeStorage, UploadTarget and UploadSucceeds |
| Upload.AuthBeforeStorage | app_Electron/src/utils/upload.js:35-40 | without a user id the flow throws AUTH_REQUIRED and makes no storage call |
| Upload.UploadTarget | app_Electron/src/utils/upload.js:42-52 | the first call stores the blob as PNG at userId/snipt-<ts>.png without overwrite |
| Upload.UploadSucceeds | app_Electron/src/utils/upload.js:54-84 | success iff store and sign succeed; the link equals the signed URL; a metadata failure changes nothing |
| DragDropUpload.Hundredths | dashboard/src/components/DragDropUpload.jsx:27 | the size in MiB to two decimals is within half a hundredth of the exact value, a tie rounding up |
| DragDropUpload.HundredthsUnique | dashboard/src/components/DragDropUpload.jsx:27 | no other count of hundredths is that close |
| DragDropUpload.Fixed2Reads | dashboard/src/components/DragDropUpload.jsx:27 | the two-decimal text reads back as the count of hundredths |
| DragDropUpload.UploadFile | dashboard/src/components/DragDropUpload.jsx:22-85 | defined by its body; stated by OversizeRefusedFirst, SignedOutUploadsNothing, UploadTarget and UploadToastIsNoWarning |
| DragDropUpload.OversizeRefusedFirst | dashboard/src/components/DragDropUpload.jsx:25-29 | a file over 2 MiB is refused with its size message before any sign-in or storage call |
| DragDropUpload.SignedOutUploadsNothing | dashboard/src/components/DragDropUpload.jsx:31-35 | signed out, nothing is stored and "Not authenticated" is shown |
| DragDropUpload.UploadTarget | dashboard/src/components/DragDropUpload.jsx:37-78 | the file goes to the same path the desktop upload uses, with its own type or image/png; success iff store and sign succeed, shown by the success toast |
| DragDropUpload.DropStep | dashboard/src/components/DragDropUpload.jsx:94-98 | defined by its body: an image file is uploaded, any other file gets the warning; stated by DropToasts and DropIsPickOfImages |
| DragDropUpload.DropAttempts | dashboard/src/components/DragDropUpload.jsx:87-100 | defined by its body; stated by DropToasts and DropIsPickOfImages |
| DragDropUpload.PickAttempts | dashboard/src/components/DragDropUpload.jsx:102-107 | defined by its body; stated by PickToasts |
| DragDropUpload.UploadToastIsNoWarning | dashboard/src/components/DragDropUpload.jsx:22-85 | an upload shows a success or an error toast, never a warning, and a success toast iff onUploadSuccess is called |
| DragDropUpload.DropToasts | dashboard/src/components/DragDropUpload.jsx:87-100 | one toast per dropped file, in order: the "image files only" warning exactly at the non-image files, and each image file's own upload toast |
| DragDropUpload.PickToasts | dashboard/src/components/DragDropUpload.jsx:102-107 | one toast per picked file, in order, each that file's upload toast and none a warning |
| DragDropUpload.Images | dashboard/src/components/DragDropUpload.jsx:92-99 | the kept files are as many as their environments and no more than the drop, and each is an image file of the drop |
| DragDropUpload.ImageIndices | dashboard/src/components/DragDropUpload.jsx:93-94 | the positions of the image files in a list, strictly increasing, containing a position iff the file there has an image type |
| DragDropUpload.ImagesByIndex | dashboard/src/components/DragDropUpload.jsx:92-99 | the kept files are exactly the image files, in drop order, each paired with its own environment |
| DragDropUpload.PickedAtSnoc | dashboard/src/components/DragDropUpload.jsx:92-99 | appending a file to the list keeps the earlier picks; picking it as well adds its position at the end |
| DragDropUpload.PickedImages | dashboard/src/components/DragDropUpload.jsx:92-99 | the image filter picks both files and environments at exactly the image positions |
| DragDropUpload.DropIsPickOfImages | dashboard/src/components/DragDropUpload.jsx:87-107 | a drop makes the same storage calls and success callbacks as picking only its image files |
| DragDropUpload.Callbacks | dashboard/src/components/DragDropUpload.jsx:78 | defined by its body: one `onUploadSuccess` call per success when the callback was passed, none otherwise |
| DragDropUpload.DropZone.constructor | dashboard/src/components/DragDropUpload.jsx:5-8 | not dragging, not uploading, nothing shown or stored; whether `onUploadSuccess` was passed is fixed |
| DragDropUpload.DropZone.HandleDragOver | dashboard/src/components/DragDropUpload.jsx:10-14 | dragging becomes true |
| DragDropUpload.DropZone.HandleDragLeave | dashboard/src/components/DragDropUpload.jsx:16-20 | dragging becomes false |
| DragDropUpload.DropZone.Record | dashboard/src/components/DragDropUpload.jsx:22-85 | one attempt adds its toast and its storage calls, calls the callback if given and the upload succeeded, and an upload attempt ends not uploading while a warning leaves the flag alone |
| DragDropUpload.DropZone.HandleDrop | dashboard/src/components/DragDropUpload.jsx:87-100 | dragging ends; toasts, storage calls and callback calls are those of the dropped files' attempts in order; not uploading afterwards iff some file was an image, else the flag is unchanged |
| DragDropUpload.DropZone.HandleFileSelect | dashboard/src/components/DragDropUpload.jsx:102-107 | toasts, storage calls and callback calls are those of uploading every picked file in order; not uploading afterwards unless nothing was picked |
| Gallery.Latest | app_Electron/src/components/Gallery.jsx:31 | the first min(20, n) fetched items, in fetched order |
| Gallery.WithoutId | app_Electron/src/components/Gallery.jsx:44 | the filtered list is never longer than the list; stated by the four lemmas below |
| Gallery.WithoutIdMembers | app_Electron/src/components/Gallery.jsx:44 | exactly the items with another id remain |
| Gallery.WithoutIdAppend | app_Electron/src/components/Gallery.jsx:44 | the filter works piecewise, so survivors keep their order |
| Gallery.WithoutIdAbsent | app_Electron/src/components/Gallery.jsx:44 | a list without that id is unchanged |
| Gallery.WithoutIdIdempotent | app_Electron/src/components/Gallery.jsx:44 | deleting the same id twice is deleting it once |
| Gallery.DeleteAlert | app_Electron/src/components/Gallery.jsx:46 | defined by its body: a missing message prints as "undefined" |
| Gallery.GalleryView.constructor | app_Electron/src/components/Gallery.jsx:6-9 | empty list, loading, no error |
| Gallery.GalleryView.LoadScreenshots | app_Electron/src/components/Gallery.jsx:25-37 | loading ends false; success shows the latest 20 items with no error; failure keeps the list and shows the message or "Failed to load screenshots" |
| Gallery.GalleryView.HandleDelete | app_Electron/src/components/Gallery.jsx:39-48 | declined: nothing happens; otherwise one delete call; success removes exactly that id; failure keeps the list and alerts "Failed to delete: " + message |
| SignupAuto.CharIndex | supabase/functions/signup-auto/index.ts:13 | the drawn index is the floor of r times 70, inside the alphabet |
| SignupAuto.PasswordFrom | supabase/functions/signup-auto/index.ts:7-16 | defined by its body; stated by PasswordShape and GeneratePassword |
| SignupAuto.PasswordShape | supabase/functions/signup-auto/index.ts:7-16 | the password has 16 characters, all in the 70-character alphabet |
| SignupAuto.EveryCharReachable | supabase/functions/signup-auto/index.ts:9-13 | every alphabet character can be drawn |
| SignupAuto.GeneratePassword | supabase/functions/signup-auto/index.ts:7-16 | the loop builds the password of the draws: 16 characters from the alphabet |
| SignupAuto.Handle | supabase/functions/signup-auto/index.ts:18-95 | defined by its body; stated by the six lemmas below |
| SignupAuto.PreflightAnswered | supabase/functions/signup-auto/index.ts:20-28 | OPTIONS answers "ok" with the three CORS headers and creates nobody |
| SignupAuto.OtherVerbsRefused | supabase/functions/signup-auto/index.ts:30-35 | any method other than OPTIONS and POST gets 405 and creates nobody |
| SignupAuto.BadEmailRefused | supabase/functions/signup-auto/index.ts:40-45 | a missing email or one without "@" gets 400 and creates nobody |
| SignupAuto.CreateCalledIff | supabase/functions/signup-auto/index.ts:37-60 | createUser is called iff a POST carries a usable email, with the generated password and a confirmed address |
| SignupAuto.CreateStatuses | supabase/functions/signup-auto/index.ts:53-94 | 201 iff created, 409 USER_EXISTS iff an error result mentions a duplicate, 500 for any other error result and for any thrown error whatever its message; a 201 returns the password sent to createUser |
| SignupAuto.StatusesAreSix | supabase/functions/signup-auto/index.ts:18-95 | the status is one of 200, 201, 400, 405, 409, 500, and every failure has a non-empty JSON error |
| Components.BasePath | docs/components.js:4-8 | defined by its body; stated by BasePathShape and BasePathOfPage |
| Components.BasePathShape | docs/components.js:4-8 | the base path has 3·max(depth, 0) characters, all from repeated "../", where depth is the slash count minus 2 |
| Components.RepeatUp | docs/components.js:7 | repeated "../" has '.', '.', '/' at offsets 0, 1, 2 mod 3 |
| Components.BasePathOfPage | docs/components.js:4-8 | on a page under a one-segment site prefix, the base climbs exactly the page's directories |
| Components.RootBaseEmpty | docs/components.js:4-8 | a page one directory below the root `/` has two slashes in its path, so its base is empty |
| Components.ResolveInside | docs/components.js:4-8 | a link that does not begin with `.`, resolved from a page in one directory, lands inside that directory |
| Components.RootServedFirstLevel | docs/components.js:4-8 | on a site served at `/`, a page one directory deep gets an empty base, so each internal link resolves inside that directory rather than to the site's page |
| Components.ResolveClimbs | docs/components.js:7 | links prefixed with that base lead back to the site prefix |
| Components.RenderHeader | docs/components.js:10-30 | defined by its body; stated by HeaderAndFooterResolve |
| Components.RenderFooter | docs/components.js:32-65 | defined by its body; stated by HeaderAndFooterResolve |
| Components.AnchorsResolve | docs/components.js:10-65 | every internal link resolves to its page and every external link stays absolute, at any depth |
| Components.HeaderResolves | docs/components.js:10-30 | the header logo and links resolve to their pages at any depth; Login stays on the dashboard |
| Components.FooterResolves | docs/components.js:32-65 | all ten footer links resolve to their pages at any depth |
| Components.HeaderAndFooterResolve | docs/components.js:10-65 | header logo and links and all ten footer links resolve to their pages; Login stays on the dashboard |
| Common.NatToString | app_Electron/src/AreaSelectApp.jsx:67 | a number prints as a non-empty run of digits without a leading zero, as a template literal prints it |
| Common.ParseNatToString | app_Electron/src/AreaSelectApp.jsx:67 | reading the printed digits back gives the number |
| Common.NatToStringInjective | app_Electron/src/AreaSelectApp.jsx:67 | different numbers print differently |

## Left out

- Electron main process, preload bridge and IPC: window creation, tray, shortcuts, desktop capture and the clipboard are platform I/O. The bridge's requests appear as effects in the model, and how each awaited one settles is a parameter.
- Pixels: images are opaque data URLs or byte blobs. Canvas painting is a list of draw commands. Arrowhead trigonometry, fonts, alpha blending and PNG encoding are not modelled.
- `handleSave` in `AnnotationCanvas.jsx` (lines 176-188) flattens the two canvases into a PNG blob. That is pixel work, so the model takes the resulting blob as a parameter where the capture window receives it.
- Timers: the 500 ms close delay is the effect `CloseWindowLater`. The timer itself, and anything that happens between scheduling and closing, is not modelled.
- Asynchrony: each awaited call is an atomic step whose reply is a parameter. This includes how the capture window's clipboard and save-dialog calls settle: a rejected copy or save escapes the `try` of `handleSave` and ends it with no notice and no close, and a rejected copy of the share link lands in the error handler of `handleUploadSuccess`. `FileReader` callbacks and the states in flight (`isSubmitting`, `loading`, `isUploading` set to true) are not observable in the model. Only their final values are stated.
- `saveScreenshotLocally` in `upload.js`, vendor auth and storage wrappers (`utils/auth.js`, `utils/gallery.js`), and UI-only components: these are vendor calls or presentation.
- `getUser` rejecting, `FileReader` throwing, and `err` values without a `message` field other than those modelled: the model covers replies and errors with an optional message only.
- Non-string JSON values in the signup request body (such as an `email` that is a number) are not modelled. A body that fails to parse is.
- ChangePassword.Validate: string length counts characters, while the source's `.length` counts UTF-16 code units, so a character outside the Basic Multilingual Plane (an emoji, say) counts twice there. The model then diverges: "Ab1😀😀" has length 7 in the source and passes the 6-character minimum, but in the model it has 5 characters and gets the too-short error.
- Settings.Validate: the same divergence; a matching pair of "abcd😀" entries passes the source's length check (6 code units) and fails the model's (5 characters).
- `drawAnnotation`'s default branch is unreachable, because annotations are a closed datatype.
- Area select takes the desktop bridge to be present. The `window.electronAPI` guards are not modelled.
- AreaSelect.Selector.HandleMouseDown: pointer coordinates are integers, so `Math.round` in the size label is the identity and unrounded coordinates are not modelled.
- The footer copyright line, class names and other static markup of `renderHeader`/`renderFooter` are not modelled, and neither is the injection on `DOMContentLoaded`, which only copies the rendered markup into placeholders.
- Components.BasePathOfPage: the result is proved for pages served under a one-segment prefix (such as `/snipt/...`), which is what the "minus 2" assumes. For a site served at `/`, a page one directory deep gets no `../`, so its internal links lead into that directory; `Components.RootServedFirstLevel` proves this behaviour of the code.
