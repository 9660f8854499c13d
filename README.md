# Text-area detector: processing session, history store and box analytics

A Dafny model of the logic inside a document-image demo:

- the **upload-and-detect component** (`components/image-uploader.tsx`): a class
  `ImageUploader.Uploader` whose fields are the component's state (original and
  processed image, statistics, zoom, pan flag, fullscreen target, processing
  flag, history). Its handlers are methods. The simulated detection takes its
  random draws as parameters and runs as a loop that records rectangles and
  sums their areas (`Detection`). A completed run puts a new record at the
  front of a history capped at ten (`History.Push`), and the history is saved
  to the browser's key-value store under `"imageHistory"` whenever it is
  non-empty;
- the **history panel** (`frontend/components/history-panel.tsx`): a class
  `HistoryPanel.Panel` that loads the same key on mount, falls back to an
  empty list when the key is missing, empty or unparseable, and can clear both
  its list and the stored key;
- the **backend analysis** (`backend/services.py`): over a given sequence of
  bounding boxes `(x, y, w, h)`, count those with `w > 50` and `h > 15`, sum
  their areas, derive the density (0 for an image without pixels) and a
  confidence capped at 100, and draw exactly the boxes that are counted
  (`TextAnalysis`);
- the **home page** (`frontend/app/page.tsx`), only in that it mounts both
  components over one store (`Page`).

The store is `LocalStorage.Storage`, a class over a `map<string, string>`.
`JSON.parse` and `JSON.stringify` are function parameters: `parse` returns
`None` where the real call would throw. Clock readings, the random draws, the
file reader's data URL and the canvas output are parameters too.

Behaviour of the code that a reader may not expect, kept as written:

- A stored empty string is falsy in `if (savedHistory)`, so it loads nothing,
  like a missing key.
- A parse failure keeps the list the component already has (at mount, the
  empty list).
- A loaded list is not capped: a stored list longer than ten stays that long
  until the next completed run cuts it to ten.
- `detectText` returns on any falsy original image, an empty string included.
- The page mounts the uploader and the history panel side by side over one
  store, each with its own list. Clearing from the panel empties only the
  panel's list and the stored key. The uploader keeps the cleared records,
  and its next completed run writes them back (`Page.ClearThenDetect`). So
  `History.LoadAfterClear` and `HistoryPanel.ClearThenRemount` hold only
  until the uploader's next run.
- `detectText` itself does not check the processing flag. Only the button is
  disabled while processing, and that is rendering.
- Zoom has no free "set" operation. The buttons clamp to 50..200, and the
  slider cannot leave those bounds.
- A completion that is still pending when a new image is loaded is not
  cancelled. It records the image captured at the trigger (`StaleCompletion`).

## Model

| member | source | states |
|---|---|---|
| History.Push | components/image-uploader.tsx:186 | the new item comes first, then the previous items in order; length is min(10, old length + 1), so only the oldest entries are dropped |
| History.PushAllKeepsNewest | components/image-uploader.tsx:186 | after any non-empty sequence of runs (or none, on a list of at most ten), the list is the new items newest first followed by the old ones, cut to ten |
| History.PushAllFromEmpty | components/image-uploader.tsx:186 | from an empty history, after n runs the list has min(10, n) items and position k holds the k-th newest |
| History.DecimalString | components/image-uploader.tsx:179 | the record id is a non-empty string of decimal digits whose value is the clock reading: no leading zero for a positive reading, and "0" for zero |
| History.Loaded | components/image-uploader.tsx:62-71 | the loaded list is either the current one or exactly what a non-empty stored value parses to; it changes only if a value is stored |
| History.Saved | components/image-uploader.tsx:74-78 | "imageHistory" is present afterwards iff it was before or the history is non-empty, holds the serialized list when non-empty, and every other entry is kept |
| History.Cleared | frontend/components/history-panel.tsx:43 | "imageHistory" is absent afterwards and every remaining entry is an unchanged entry of before |
| Mime.Contains | components/image-uploader.tsx:103 | a successful search needs a string at least as long as the pattern, and a pattern at the start is always found |
| Mime.Accepted | components/image-uploader.tsx:103 | an accepted type is at least as long as the shortest of the three patterns |
| LocalStorage.Lookup | components/image-uploader.tsx:63 | `getItem` yields a value iff the key is present, and then the stored one |
| LocalStorage.Storage.constructor | components/image-uploader.tsx:63 | the store starts with the given entries |
| LocalStorage.Storage.GetItem | frontend/components/history-panel.tsx:31 | reading a key returns its lookup and changes nothing |
| LocalStorage.Storage.SetItem | components/image-uploader.tsx:76 | writing a key sets exactly that key to the value |
| LocalStorage.Storage.RemoveItem | frontend/components/history-panel.tsx:43 | removing a key deletes exactly that key |
| History.LoadMissingKey | frontend/components/history-panel.tsx:31-32 | with no stored "imageHistory" the loaded list is the current (initially empty) one |
| History.LoadEmptyValue | frontend/components/history-panel.tsx:31-32 | a stored empty string loads nothing either |
| History.LoadParseFailure | frontend/components/history-panel.tsx:33-37 | a stored value that fails to parse leaves the list unchanged, and no error escapes |
| History.LoadParsed | frontend/components/history-panel.tsx:34 | a stored value that parses becomes the list exactly, in order |
| History.SaveOnlyHistoryKey | components/image-uploader.tsx:74-78 | saving changes no key other than "imageHistory", and an empty history changes nothing |
| History.SaveThenLoad | components/image-uploader.tsx:62-78 | when parsing undoes serializing, a saved non-empty list is what the next load yields; after an empty one the next load yields what was stored before |
| History.ClearRemovesOnlyHistory | frontend/components/history-panel.tsx:41-44 | clearing deletes "imageHistory", keeps every other key and value, and is idempotent |
| History.LoadAfterClear | frontend/components/history-panel.tsx:31-44 | a load after a clear finds nothing, so the list stays empty |
| Viewport.ZoomedOut | components/image-uploader.tsx:352 | zoom-out never goes below 50, steps down by 10 when it can, and keeps a zoom in 50..200 inside that range |
| Viewport.ZoomedIn | components/image-uploader.tsx:358 | zoom-in never goes above 200, steps up by 10 when it can, and keeps a zoom in 50..200 inside that range |
| Viewport.ZoomOutRepeatedClamps | components/image-uploader.tsx:352 | n presses of zoom-out give max(50, z - 10n) |
| Viewport.ZoomInRepeatedClamps | components/image-uploader.tsx:358 | n presses of zoom-in give min(200, z + 10n) |
| Viewport.ToggledFullscreen | components/image-uploader.tsx:269-271 | the result is null exactly when the requested image is the one shown, and that image otherwise |
| Viewport.ToggleTwiceCloses | components/image-uploader.tsx:269-271 | toggling the same image twice from no fullscreen returns to no fullscreen |
| Viewport.ToggleShowsThenCloses | components/image-uploader.tsx:269-271 | from any state not showing the image (none or another), one toggle shows it and a second closes fullscreen |
| Mime.ContainsIffOccurs | components/image-uploader.tsx:103 | the unanchored search succeeds exactly when the pattern occurs at some position |
| Mime.AcceptedIffOccurs | components/image-uploader.tsx:103 | a MIME type is accepted iff "image/jpeg", "image/jpg" or "image/png" occurs in it |
| Mime.AcceptedExamples | components/image-uploader.tsx:103 | the three image types pass, and so does a type that merely embeds one of them |
| Mime.RejectedExamples | components/image-uploader.tsx:103 | "image/gif" and the empty type are rejected |
| Detection.NumAreas | components/image-uploader.tsx:146 | the number of areas is 5 plus the count draw, so it lies in 5..10 |
| Detection.GenerateTextAreas | components/image-uploader.tsx:151-161 | the loop records exactly the drawn rectangles, in order, and its total is the sum of their areas |
| Detection.RoundHalfUp | components/image-uploader.tsx:169-172 | the result is the integer nearest to num/den, halves rounding up |
| Detection.ComputeStats | components/image-uploader.tsx:166-173 | the count and total area are reported as computed, density is 100·total/image area rounded, words are total/100 rounded, and confidence is the draw |
| Detection.SizeInDrawRange | components/image-uploader.tsx:154-155 | width in [100, 400) and height in [20, 60); such a rectangle has area between 2000 and 399·59 |
| Detection.TotalAreaBounds | components/image-uploader.tsx:151-158 | with sizes in their draw ranges, the total lies between n·2000 and n·399·59 |
| Detection.StatsInRange | components/image-uploader.tsx:146-172 | a completed run reports 5..10 areas, a positive total area and a non-negative density |
| Detection.DensityCanExceedHundred | components/image-uploader.tsx:146-170 | rectangles are not clamped to the image: every completed run over an image of at most 5000 px² reports a density above 100 |
| ImageUploader.IsTruthy | components/image-uploader.tsx:122 | a nullable image string is truthy exactly when it is present and non-empty |
| ImageUploader.Uploader.constructor | components/image-uploader.tsx:47-55 | the initial state: no images, no stats, zoom 100, flags off, empty history |
| ImageUploader.Uploader.LoadSavedHistory | components/image-uploader.tsx:62-71 | the mount effect sets the history by the load protocol and changes nothing else |
| ImageUploader.Uploader.SaveHistory | components/image-uploader.tsx:74-78 | the store is written under "imageHistory" only when the history is non-empty |
| ImageUploader.Uploader.Mount | components/image-uploader.tsx:62-78 | mounting loads the stored history and then saves it back when it is non-empty |
| ImageUploader.Uploader.ProcessFile | components/image-uploader.tsx:109-119 | sets the original image, clears the processed image and stats, resets zoom to 100, and leaves history and every other field unchanged |
| ImageUploader.Uploader.HandleFileChange | components/image-uploader.tsx:80-85 | the picker's first file is processed whatever its type; no file changes nothing |
| ImageUploader.Uploader.HandleDrop | components/image-uploader.tsx:97-107 | a dropped first file is processed iff its type passes the image filter; otherwise nothing changes |
| ImageUploader.Uploader.DetectText | components/image-uploader.tsx:121-124 | with a null or empty original image nothing changes and nothing is captured; otherwise only the processing flag is set, and the current image is captured |
| ImageUploader.Uploader.CompleteDetection | components/image-uploader.tsx:127-193 | sets the processed image and stats, prepends the record to the history capped at ten, clears the processing flag and writes the history to the store |
| ImageUploader.Uploader.ZoomOut | components/image-uploader.tsx:352 | zoom becomes the clamped zoom-out value; nothing else changes |
| ImageUploader.Uploader.ZoomIn | components/image-uploader.tsx:358 | zoom becomes the clamped zoom-in value; nothing else changes |
| ImageUploader.Uploader.ResetZoom | components/image-uploader.tsx:200-202 | zoom becomes 100; nothing else changes |
| ImageUploader.Uploader.HandleZoomChange | components/image-uploader.tsx:196-198 | zoom becomes the slider value in 50..200; nothing else changes |
| ImageUploader.Uploader.TogglePan | components/image-uploader.tsx:204-206 | the pan flag flips; nothing else changes |
| ImageUploader.Uploader.ToggleFullscreen | components/image-uploader.tsx:269-271 | the fullscreen target becomes the toggled value; nothing else changes |
| ImageUploader.Uploader.CloseFullscreen | components/image-uploader.tsx:512 | the fullscreen target becomes null; nothing else changes |
| ImageUploader.Session | components/image-uploader.tsx:109-193 | two detections on a fresh store leave both records newest first, the store holding that list, and fullscreen closed after a double toggle |
| ImageUploader.StaleCompletion | components/image-uploader.tsx:121-193 | a completion after a newer image was loaded still records the earlier image and overwrites the newer image's reset state |
| HistoryPanel.Panel.ClearTriggerEnabled | frontend/components/history-panel.tsx:82 | the trash button is enabled exactly when the list is non-empty |
| HistoryPanel.Panel.constructor | frontend/components/history-panel.tsx:23-24 | the panel starts with an empty list, not yet on the client |
| HistoryPanel.Panel.Mount | frontend/components/history-panel.tsx:27-39 | marks the client side and sets the list by the load protocol |
| HistoryPanel.Panel.ClearHistory | frontend/components/history-panel.tsx:41-44 | the list becomes empty and the store loses exactly the "imageHistory" key |
| HistoryPanel.Panel.ConfirmClear | frontend/components/history-panel.tsx:80-96 | the confirm action runs only from a non-empty list and leaves an empty one, with the trigger disabled |
| HistoryPanel.ClearThenRemount | frontend/components/history-panel.tsx:31-44 | clear then remount shows an empty list whatever the parser does; a second clear changes nothing |
| TextAnalysis.IsTextBox | backend/services.py:23 | the filter `w > 50 and h > 15` (the same test at line 51); a passing box has area above 750 |
| TextAnalysis.TextBoxes | backend/services.py:21-24 | the boxes passing the filter never outnumber the contours |
| TextAnalysis.TextBoxesMembers | backend/services.py:23 | a box is kept iff it is among the contours and has w > 50 and h > 15 |
| TextAnalysis.TextBoxesAreaNonNegative | backend/services.py:23-26 | the occupied area is never negative |
| TextAnalysis.RejectedBoxContributesNothing | backend/services.py:23-26 | a box failing the filter adds nothing to the count or the occupied area |
| TextAnalysis.TruncDiv | backend/services.py:29 | `int()` of a quotient truncates toward zero |
| TextAnalysis.Density | backend/services.py:28 | density is occupied/image area, and 0 when the image area is 0 |
| TextAnalysis.Confidence | backend/services.py:29 | confidence is at most 100, at least 20 for a non-negative density; it is 100 exactly when the truncated 100·density + 20 reaches 100, and that truncated value otherwise |
| TextAnalysis.ComputeAnalysis | backend/services.py:14-36 | the count is the number of passing boxes and at most the contour count; density uses their summed area; confidence is in 20..100; the reported total area is height·width, not the occupied area |
| TextAnalysis.DrawTextBoxes | backend/services.py:49-52 | the boxes drawn are exactly the passing boxes, in contour order |
| Page.ClearThenDetect | frontend/app/page.tsx:24-31 | with both components mounted over one store, a clear from the panel empties the panel's list, but the uploader's next run writes the cleared record back behind the new one |
| TextAnalysis.DetectText | backend/services.py:38-60 | a box is drawn iff it is counted, and as many are drawn as are counted; the density is the drawn boxes' area over height·width and the confidence is derived from it |

## Left out

- Rendering: JSX, tabs, dialogs, the slider widget, the drag-over highlight (`isDragging`), and the "hydration" guard beyond the panel's `isClient` flag. This is presentation only.
- Canvas drawing, `FileReader`, `Image` decoding and the 1500 ms timer. These are browser I/O. A file is given with its data URL. The completion is a method called with the decoded size and the rendered output. A file that never decodes corresponds to a completion that is never called.
- `Math.random` and `Date.now`. Their values are parameters: the count draw, the rectangles, the confidence, and the two clock readings.
- ImageUploader.Uploader.CompleteDetection: assumes the canvas has a 2D context. The source's `if (ctx)` branch without one would leave the component processing forever.
- ImageUploader.Uploader.CompleteDetection: requires a positive image size. A decoded image has one, and a zero size would make the density non-finite.
- Detection.ComputeStats: rounds exact rationals with integer sizes. The source rounds IEEE doubles of real-valued draws, which can differ at ties.
- Detection.GenerateTextAreas: does not constrain rectangle positions. Positions do not enter the statistics, and the source does not clamp them to the image.
- Panning by drag (`handleMouseDown`): the scroll writes and the document listeners are DOM effects. Only the pan flag is modelled.
- Exports (image download, JSON download, the PDF alert), the panel's `loadImage` event and alert, and `formatDate`'s locale formatting. These are browser side effects.
- JSON: `parse` and `serialize` are parameters. A parse whose result is not a list (such as `"null"`) and a `setItem` quota error are not modelled.
- TextAnalysis.Confidence: exact rational arithmetic. The source's floating-point `densidade * 100` can land just below an integer and give one less.
- TextAnalysis.ComputeAnalysis: reports the density as an exact fraction. The source's `round(densidade_texto * 100, 2)` to two decimals is not modelled.
- The OpenCV and base64 calls (decode, encode, grey conversion, thresholding, contour finding, bounding boxes, rectangle drawing). These are a foreign library; boxes are given, and the drawing loop yields the boxes it would draw.
- `backend/main.py` (web plumbing) and the page's static layout, footer and about section are not part of this model. Of the page, only the fact that it mounts both components over one store is modelled.
- The response record `TextAnalysis.Analysis` only partly mirrors the response schema of `backend/models.py`. It has no `imagem_processada_base64` field, because the encoded image is a foreign-library output; the drawn boxes are returned beside it instead. Its `density` is the unscaled ratio, where `densidade_texto` is a percentage rounded to two decimals.
