# PACS study workflow and DICOM viewer state, in Dafny

This project models two parts of a small picture-archiving (PACS) web application. It also proves properties of both.

- **The study lifecycle of the backend** (`backend/server.py`), in module `Server` (`server.dfy`).
  - A `Database` class holds the user, centre, study, AI-report, final-report and file stores as maps.
  - Studies are keyed by their 8-character display `study_id`.
  - Each HTTP handler is a method of `Database`, or a function of it when it only reads the stores. It takes the authenticated caller `(id, role, centre_id)` and returns `Ok(value)` or `Err(Forbidden(..))` / `Err(NotFound(..))`. These carry the source's 403/404 status codes and detail texts.
  - The handlers modelled are upload, listing, reading, assigning, reporting and user toggling.
  - The pure helpers are also modelled: study-id generation and the mock AI report.
- **The viewport and slice state of the DICOM viewer** (`frontend/src/components/Viewer/DicomViewer.jsx`), in module `Viewer` (`viewer.dfy`).
  - A `DicomViewer` class holds the component's state: the four `viewports`, the image state, the 3D rotation, the cine slice and the measurement lists.
  - Its methods are the wheel, mouse-down, mouse-move and mouse-up handlers, the cine tick, 3D rotation, window presets and reset.
  - The layout and preset tables are pure functions.

Modelling choices:
- **Randomness.** `random.choices` is given as a sequence of draws, and draw `d` picks character `d % 36`. A clock reading `now` and the object ids the file store hands out are also parameters.
- **Id uniqueness.** The source retries nothing on an id collision. The ids a handler writes are therefore required to be unused (`UploadIdsFresh`, `ReportIdFresh`).
- **Python truthiness.** `not study.get("ai_report_id")` and `if radiologist_id:` test for a present, non-empty string (`IsSet`).
- **An absent `is_active` flag** reads as true (`IsActive`).
- **Viewer numbers.** Zoom, pan and window values are reals. Slices and 3D angles are integers. JavaScript's remainder, which keeps the dividend's sign, is written out in `JsRemainder`.

## Model

| member | source | states |
|---|---|---|
| Server.AlphabetChar | backend/server.py:148-150 | draw k picks the k-th character of `ascii_uppercase + digits` |
| Server.Choices | backend/server.py:148-150 | one character per draw, each an upper-case letter or a digit |
| Server.GenerateStudyId | backend/server.py:148-150 | a study id is exactly 8 characters from A–Z0–9 |
| Server.ChoicesReachAll | backend/server.py:148-150 | every string of letters and digits is produced by some draws of its length |
| Server.GenerateStudyIdReachesAll | backend/server.py:148-150 | every 8-character A–Z0–9 string can be generated |
| Server.DefaultReport | backend/server.py:202-205 | the default findings and diagnosis both name the modality |
| Server.MockAIReport | backend/server.py:181-207 | a known modality gets its table entry; any other gets texts naming the modality |
| Server.MockAIReportIgnoresPatient | backend/server.py:181-207 | the mock report does not depend on patient age or gender |
| Server.Toggled | backend/server.py:313-314 | the stored flag becomes present and the negation of the effective flag (absent = true); every other field is unchanged |
| Server.ToggleTwiceRestores | backend/server.py:313-314 | toggling twice restores the effective flag |
| Server.AssignedTo | backend/server.py:424-427 | only `radiologist_id` (to the caller) and `status` (to assigned) change |
| Server.AssignIdempotent | backend/server.py:415-429 | assigning twice to the same radiologist equals assigning once |
| Server.CompletedWith | backend/server.py:472-475 | only `final_report_id` and `status` (to completed) change |
| Server.NewAIReport | backend/server.py:348-358 | the AI report carries the generated id, the study's `study_id`, the mock report's findings and diagnosis for the form's modality, age and gender, the clock reading and the model version |
| Server.NewStudy | backend/server.py:361-377 | the new study is pending, unassigned and unreported; it belongs to the caller and the caller's centre and points at its AI report |
| Server.InsertNewestFirst | backend/server.py:405 | insertion keeps every element and adds exactly the new one (the multiset grows by it) |
| Server.InsertKeepsNewestFirst | backend/server.py:405 | insertion keeps `uploaded_at` in descending order |
| Server.InsertKeepsDistinct | backend/server.py:405 | insertion of a new study keeps the list free of duplicates |
| Server.QueryFor | backend/server.py:389-403 | technicians and centres are pinned to their centre; `centre_id` is honoured for admins only and `radiologist_id` for radiologists only; `status` filters when given |
| Server.BuildQuery | backend/server.py:389-403 | the query built branch by branch is exactly `QueryFor` of the caller and parameters |
| Server.Error.StatusCode | backend/server.py:267 | a `Forbidden` error is exactly a 403 and a `NotFound` error exactly a 404 |
| Server.Error.Detail | backend/server.py:412 | every error carries a non-empty detail text |
| Server.BlobFor | backend/server.py:340-344 | a stored file is named `<study_id>_<filename>` and keeps the content, with the study id and original name as metadata |
| Server.Database.AddUser | backend/server.py:234 | a user document is stored under its id |
| Server.Database.CreateCentre | backend/server.py:264-277 | non-admins get 403 and nothing is stored; admins store an active centre `centre_<id>` |
| Server.Database.ToggleUserActive | backend/server.py:304-316 | 403 unless admin or centre, then 404 for an unknown user, else the flag is negated and the new value returned |
| Server.Database.StoreFiles | backend/server.py:337-345 | one stored file per upload, in order, under the given object ids; earlier files unchanged |
| Server.Database.InsertStudyWithReport | backend/server.py:358-379 | both inserts happen and every study stays linked to its AI report |
| Server.Database.UploadStudy | backend/server.py:320-380 | non-technicians get 403 and nothing is written; otherwise exactly one study, one AI report and the files are written, and the new study is a fresh upload linked to its report |
| Server.Database.GetStudies | backend/server.py:382-406 | results are stored studies matching `QueryFor`, newest first, at most 1000; every matching study is returned unless 1000 newer matches fill the result |
| Server.Database.Find | backend/server.py:405 | every match is returned unless 1000 newer matches fill the result |
| Server.Database.GetStudy | backend/server.py:408-413 | the stored study, or 404 exactly when the id is unknown |
| Server.Database.AssignStudy | backend/server.py:415-429 | 403 before 404; otherwise only that study changes, from any prior status |
| Server.Database.GetAIReport | backend/server.py:433-446 | three distinct 404s (no study, no reference, no record), else exactly the referenced report |
| Server.Database.CreateFinalReport | backend/server.py:450-477 | 403 before 404; otherwise the report is stored, earlier reports remain, and the study is completed and points at it |
| Server.Database.GetFinalReport | backend/server.py:479-492 | three distinct 404s, else exactly the referenced report |
| Server.Database.UploadThenReadAIReport | backend/server.py:356-378 | after a technician's upload, reading the AI report returns the report written for that study |
| Server.Database.ReportThenRead | backend/server.py:450-492 | after a radiologist's report, reading the final report returns exactly it |
| Server.LinkedAIReportReadable | backend/server.py:433-446 | while every study is linked, every study's AI report is readable and names that study |
| Viewer.GetLayoutConfig | frontend/src/components/Viewer/DicomViewer.jsx:352-369 | a known "RxC" layout has R rows, C columns and R×C canvases; any other name gives 2x2 |
| Viewer.MaxSlice | frontend/src/components/Viewer/DicomViewer.jsx:1326 | the last slice index is one less than the file count; a missing or empty file list counts as one slice |
| Viewer.ScrolledSlice | frontend/src/components/Viewer/DicomViewer.jsx:1339 | the scrolled slice is in [0, maxSlice]; it moves by the direction when that stays in range and is clamped to 0 or maxSlice otherwise |
| Viewer.CineStep | frontend/src/components/Viewer/DicomViewer.jsx:120-123 | next slice is prev + 1 below the last slice, else 0; it stays in [0, maxSlice] |
| Viewer.CineClimbs | frontend/src/components/Viewer/DicomViewer.jsx:117-124 | below the last slice cine advances one slice per tick |
| Viewer.CineStepsCompose | frontend/src/components/Viewer/DicomViewer.jsx:117-124 | a + b ticks equal b ticks after a ticks |
| Viewer.CineCycles | frontend/src/components/Viewer/DicomViewer.jsx:117-124 | every slice recurs after maxSlice + 1 ticks |
| Viewer.CineVisitsEverySlice | frontend/src/components/Viewer/DicomViewer.jsx:117-124 | from slice 0, tick k shows slice k |
| Viewer.Scrolled | frontend/src/components/Viewer/DicomViewer.jsx:1336-1340 | only the slice changes, to `ScrolledSlice` of the old slice, which stays inside the stack |
| Viewer.ZoomedBy | frontend/src/components/Viewer/DicomViewer.jsx:1317 | zoom stays in [0.2, 5]; it moves by 0.1 per notch when that stays in range and is clamped to 5 above and 0.2 below |
| Viewer.Zoomed | frontend/src/components/Viewer/DicomViewer.jsx:1315-1318 | only the zoom changes, to `ZoomedBy` of the old zoom, inside [0.2, 5] |
| Viewer.Panned | frontend/src/components/Viewer/DicomViewer.jsx:1256-1260 | only panX/panY change, by exactly the drag delta |
| Viewer.PanBackRestores | frontend/src/components/Viewer/DicomViewer.jsx:1256-1260 | panning by a delta and back restores the viewport |
| Viewer.UpdateViewports | frontend/src/components/Viewer/DicomViewer.jsx:1324-1343 | synced: every entry updated; otherwise only the event's entry; others unchanged; length kept |
| Viewer.UnsyncedUpdateAsWritten | frontend/src/components/Viewer/DicomViewer.jsx:1336-1341 | the unsynced update throws (a TypeError on `undefined.slice`) exactly when the index has no viewport entry; otherwise only that entry changes |
| Viewer.FifthCanvasWheelThrows | frontend/src/components/Viewer/DicomViewer.jsx:1901-1912 | in the 2x3 layout, with sync off, a wheel event on canvas 4 throws |
| Viewer.JsQuotient | frontend/src/components/Viewer/DicomViewer.jsx:1350 | the quotient of division truncated toward zero: q·n lies between 0 and a, less than n away from a |
| Viewer.JsRemainder | frontend/src/components/Viewer/DicomViewer.jsx:1350 | a = q·n + r for the truncated quotient q; r lies strictly between −n and n and has the dividend's sign |
| Viewer.Rotated | frontend/src/components/Viewer/DicomViewer.jsx:1347-1352 | only the named axis changes, to `JsRemainder(prev + delta, 360)`: congruent to prev + delta, inside (−360, 360) |
| Viewer.RotateBackCongruent | frontend/src/components/Viewer/DicomViewer.jsx:1347-1352 | rotating by delta and back gives an angle congruent to the original |
| Viewer.WindowPresetFor | frontend/src/components/Viewer/DicomViewer.jsx:1354-1364 | a known preset gives its listed width/level, any other name 400/40; width at least 1 |
| Viewer.WindowLevelDragged | frontend/src/components/Viewer/DicomViewer.jsx:1265-1271 | width never drops below 1, level moves by dy/2, nothing else changes |
| Viewer.StretchLast | frontend/src/components/Viewer/DicomViewer.jsx:1272-1286 | only the last shape's end point changes, to the pointer |
| Viewer.StretchLastVolume | frontend/src/components/Viewer/DicomViewer.jsx:1287-1291 | only the last volume ROI's end point changes; its slice count is kept |
| Viewer.DicomViewer.constructor | frontend/src/components/Viewer/DicomViewer.jsx:53-99 | the initial state, which satisfies the invariant |
| Viewer.DicomViewer.HandleWheel | frontend/src/components/Viewer/DicomViewer.jsx:1299-1345 | the zoom tool zooms and every other tool scrolls, synced or single; slices and zooms stay in range |
| Viewer.DicomViewer.HandleMouseDown | frontend/src/components/Viewer/DicomViewer.jsx:1195-1229 | without a canvas nothing changes; otherwise the drag starts and the active tool's list gains one shape at the press point (annotations only for non-empty text) |
| Viewer.DicomViewer.HandleMouseMove | frontend/src/components/Viewer/DicomViewer.jsx:1231-1293 | outside a drag nothing changes; pan and window-level apply the delta; drawing tools stretch their last shape |
| Viewer.DicomViewer.DragView | frontend/src/components/Viewer/DicomViewer.jsx:1243-1271 | pan moves the targeted viewports; window-level keeps width at least 1; the drag point advances |
| Viewer.DicomViewer.StretchActiveShape | frontend/src/components/Viewer/DicomViewer.jsx:1272-1292 | only the active tool's last shape changes, and only if there is one |
| Viewer.DicomViewer.HandleMouseUp | frontend/src/components/Viewer/DicomViewer.jsx:1295-1297 | the drag ends |
| Viewer.DicomViewer.CineTick | frontend/src/components/Viewer/DicomViewer.jsx:117-134 | in 2D with cine on the slice takes one cine step; otherwise nothing changes |
| Viewer.DicomViewer.Rotate3D | frontend/src/components/Viewer/DicomViewer.jsx:1347-1352 | the 3D rotation takes one rotation step and stays within (−360, 360) |
| Viewer.DicomViewer.ApplyWindowPreset | frontend/src/components/Viewer/DicomViewer.jsx:1354-1371 | only width/level change, to the preset's or the 400/40 fallback; the name is recorded |
| Viewer.DicomViewer.Reset | frontend/src/components/Viewer/DicomViewer.jsx:1385-1411 | default image state, rotation and four viewports; measurements, angles, rectangle/ellipse ROIs and annotations cleared; volume ROIs kept |

## Left out

- MongoDB and GridFS are modelled as maps. File streaming (`get_dicom_file`) is not modelled, and the object ids GridFS returns are a parameter.
- JWT, bcrypt, `register`, `login` and `get_current_user` are not modelled. The authenticated caller is an input, and `AddUser` stands in for inserting a user document.
- The AI report's `confidence_score` is a random float and is not modelled.
- Clock readings are a parameter `now`. The source reads the clock separately for the AI report and for the study; the model uses one reading for both.
- Listing users and centres, the dashboard counters, and the app and startup wiring are not modelled.
- Billing, and the draft and delete-request transitions, are not modelled: `server.py` has no handlers for them.
- Each handler is one atomic step of the model. The source awaits a `find_one` and then a separate `update_one` or `insert_one` (toggle, assign, final report), so concurrent requests can interleave: two concurrent toggles can both read `is_active` as true and both write false. Lost updates between concurrent requests are not captured, and `ToggleTwiceRestores` holds for sequential requests only.
- Response-model validation (`DicomStudy(**s)` rejecting, say, a study whose `centre_id` is None) is not modelled.
- Server.Database.GetStudies: the `status` query parameter is typed as a known status. A string matching no status simply matches no study in the source and is not represented.
- Server.Database.UploadStudy: id uniqueness is a precondition. A colliding `study_id` would make a second document that `find_one` might not return; the model does not capture this.
- Viewer: zoom, pan and window arithmetic use exact reals. JavaScript's double rounding (e.g. 1 + 0.1 + 0.1) is not modelled.
- Viewer.GetLayoutConfig: Object.prototype keys (`configs["toString"]`) are not modelled. The same holds for the preset lookup in `WindowPresetFor`.
- Viewer.DicomViewer.HandleMouseMove: the source mutates the last measurement object in place, which also changes the previous state's copy. The model treats it as a value update.
- Viewer.DicomViewer.HandleWheel: on a canvas with no viewport entry (canvases 4 and 5 of layouts 2x3 and 3x2) with sync off, the zoom and scroll branches apply the corrected update from "## Findings" and leave the viewports unchanged; the source throws a TypeError there.
- Viewer.DicomViewer.HandleMouseMove: its pan branch, through `DragView`, applies the corrected update from "## Findings" on a canvas with no viewport entry; the source throws a TypeError there.
- Viewer.DicomViewer.DragView: the unsynced pan on a canvas with no viewport entry leaves the viewports unchanged (the corrected update from "## Findings"); the source throws a TypeError there.
- React batching and the stale closures over `measurements` are not modelled. Each handler sees the latest state.
- `handleZoomTool`, the MPR/3D/MIP slice buttons, and the toolbar toggles are not modelled as methods. The toggles (tool, layout, view mode, comparison, sync, cine) are plain field assignments on `DicomViewer`.
- Canvas drawing, DICOM parsing and the measurement geometry are not modelled.

## Findings

| source | as written | input that shows it | evidently intended | confidence | as-written member | corrected member |
|---|---|---|---|---|---|---|
| frontend/src/components/Viewer/DicomViewer.jsx:1336-1341 | the unsynced wheel, zoom and pan updates read `.slice`, `.zoom` or `.panX` of `updated[viewportIndex]`; layouts 2x3 and 3x2 draw six canvases but the state holds four viewports, so for canvases 4 and 5 that entry is `undefined` and the updater throws a TypeError | layout "2x3", sync off, a wheel event on canvas 4 | a canvas without a viewport entry leaves the viewports unchanged, as drawing already falls back to viewport 0 for it (line 408) | not executed | Viewer.FifthCanvasWheelThrows | Viewer.UpdateViewports |
