# Dual-View Presentation: session controls and document pager

A Dafny model of the two stateful parts of a presenter-rehearsal web app
(React, TypeScript): the session controls of `App.tsx` (the camera/document
split-pane divider, the rehearsal timer and its `HH:MM:SS` display, the
recording lifecycle, notes, camera filters and the confirmed "new session"
reset) and the document pane of `components/ContentViewer.tsx` (the page
cursor and its keyboard navigation, the reset on every file change, the
bounded wait for the PDF library, the page-conversion loop and the decision
of what the pane shows).

Files, one module each:

- `types.dfy`, module `Types`: `Option` (the source's `null`), `ViewMode`,
  and `FileHandle` (a browser `File`, known only by identity). `types.ts`,
  where the source defines `ViewMode`, is not part of this model; its two
  values are read off their uses.
- `time_format.dfy`, module `TimeFormat`: `formatTime` as pure functions
  (`ToDecimal` for `toString`, `PadStart` for `padStart`, `FormatTime`) and a
  parser `ParseTime` proved to be its exact inverse.
- `app.dfy`, module `App`: class `Session`, one field per `useState` variable
  plus the recorder ref (`mediaRecorderRef`), and one method per handler, each with a field-level `modifies` clause, so
  everything the handler does not set is unchanged. Beside it, pure step
  functions for the divider, timer and chunk list specify the methods and
  carry the lemmas about whole event sequences.
- `content_viewer.dfy`, module `ContentViewer`: class `Viewer` with the
  component's state and handlers, pure functions for the cursor moves, key
  dispatch, `renderContent` and the overlay controls, and two loop methods:
  the library poll and the page conversion.

Foreign calls are inputs. `window.confirm` is a `bool`. The mouse
position becomes the percentage it gives. The `MediaStream` becomes a stream
id. The URL from `URL.createObjectURL` is a string argument. Whether
`pdfjsLib` is defined at the k-th check is a function `present: nat -> bool`.
The pdf.js page count or rejection is an `Opened` value. The JPEG data URL
rendered for page i is `render(i)`.

## Model

| member | source | states |
|---|---|---|
| `TimeFormat.ToDecimal` | App.tsx:163-165 | `toString` of a count: a non-empty digit string, starting with '0' only for 0, at least two digits exactly from 10 on |
| `TimeFormat.PadStart` | App.tsx:163-165 | `padStart`: the result is max(len, width) long, ends with the input and is filled with the pad character before it; never truncates |
| `TimeFormat.FieldReadsBack` | App.tsx:163-165 | a padded field has at least two digits, reads back as its number, is exactly two digits below 100 and is the unpadded numeral from 10 on |
| `TimeFormat.Field` | App.tsx:163-165 | a field is at least two digits, exactly two below 100, and starts with '0' only for a value below 10 (padding never truncates) |
| `TimeFormat.FormatTime` | App.tsx:162-167 | the display is at least eight characters with ':' third and sixth from the end, exactly `hh:mm:ss` below 100 hours |
| `TimeFormat.FormatTimeFields` | App.tsx:162-167 | the display splits at ':' into exactly three fields h, m, s with m, s two digits below 60, every field at least two digits, h*3600 + m*60 + s == seconds, and the hours field not truncated at 100 hours or more |
| `TimeFormat.FormatTimeRoundTrip` | App.tsx:162-167 | reading the display back gives the original second count |
| `TimeFormat.ParseTimeSound` | App.tsx:162-167 | every string the parser accepts is the display of the count it reads |
| `TimeFormat.ParseTimeInverts` | App.tsx:162-167 | a string reads as n exactly when it is the display of n |
| `TimeFormat.FormatTimeInjective` | App.tsx:162-167 | distinct second counts never give the same display |
| `App.MoveDivider` | App.tsx:53-59 | the divider changes only while dragging and only to the proposed value strictly inside (20, 80); such a proposal is always taken |
| `App.DividerStaysInside` | App.tsx:53-59 | any sequence of press, release and move events keeps a divider inside (20, 80) there |
| `App.DividerAlwaysInside` | App.tsx:23-59 | from the initial 50 the divider is always strictly between 20 and 80 |
| `App.NoDragNoMove` | App.tsx:44-61 | without a mouse press, moves never shift the divider |
| `App.TimerStep` | App.tsx:100-148 | a tick adds exactly 1 while running and nothing while paused; reset (`resetTimer`, App.tsx:100-103) gives time 0, stopped; toggle (the timer button, App.tsx:255) flips running and keeps the time |
| `App.TimerBoundedByTicks` | App.tsx:144-148 | over any sequence of toggles, ticks and resets the time never exceeds the start plus the ticks delivered |
| `App.RunningTimerCountsTicks` | App.tsx:144-148 | n ticks on a running timer add exactly n seconds |
| `App.PausedTimerHolds` | App.tsx:144-154 | ticks on a paused timer change nothing |
| `App.AppendChunk` | App.tsx:120-124 | a chunk is appended at the end exactly when its size is positive; earlier chunks are kept in order |
| `App.CollectedChunks` | App.tsx:120-124 | after any run of data events the chunk list is the old list followed by exactly the non-empty chunks in arrival order |
| `App.FilterClassName` | App.tsx:209 | every filter's CSS class starts with `filter-` |
| `App.FilterClassNamesDistinct` | App.tsx:9-17 | distinct filters (the six `cameraFilters` keys) give distinct class names |
| `App.Session.constructor` | App.tsx:20-40 | the initial state: Presentation mode, no file, mirrored, divider at 50, nothing recorded, timer at 0 and stopped, no filter |
| `App.Session.MouseDown` | App.tsx:44-47 | dragging starts; the divider invariant holds |
| `App.Session.MouseUp` | App.tsx:49-51 | dragging stops |
| `App.Session.MouseMove` | App.tsx:53-61 | the divider becomes `MoveDivider` of the old position; only that field changes |
| `App.Session.FileChange` | App.tsx:92-96 | the first selected file becomes the document; an empty selection changes nothing |
| `App.Session.SetViewMode` | App.tsx:245-249 | the Document and Presentation buttons set the view mode |
| `App.Session.ToggleMirror` | App.tsx:318 | the mirror button flips mirroring |
| `App.Session.ToggleNotes` | App.tsx:286 | the notes button flips the notes panel |
| `App.Session.EditNotes` | App.tsx:228 | the notes become the edited text |
| `App.Session.ToggleFilterPanel` | App.tsx:292 | the filter button flips the filter panel |
| `App.Session.SelectFilter` | App.tsx:305-308 | choosing a filter applies it and closes the panel |
| `App.Session.ToggleTimer` | App.tsx:255 | the timer button flips running and keeps the time |
| `App.Session.Tick` | App.tsx:144-148 | one interval firing adds 1 second only while running |
| `App.Session.Clock` | App.tsx:260 | the timer button's display reads back as the elapsed seconds |
| `App.Session.ResetTimer` | App.tsx:100-103 | the timer stops at 0 |
| `App.Session.StreamReady` | App.tsx:208 | the camera's stream, or null, becomes the media stream |
| `App.Session.StartRecording` | App.tsx:105-127 | without a stream nothing changes; with one the timer resets, the chunks and playback URL are cleared, recording starts with a recorder over that stream |
| `App.Session.DataAvailable` | App.tsx:120-124 | the chunk list becomes `AppendChunk` of the old one; every stored chunk stays non-empty |
| `App.Session.StopRecording` | App.tsx:129-134 | with a recorder, recording stops; without one nothing changes |
| `App.Session.RecordingSettled` | App.tsx:136-142 | once stopped with chunks present, the playback URL is set; otherwise it is unchanged |
| `App.Session.OpenPlayback` | App.tsx:278-279 | the playback button, shown only for a finished take, sets the playback URL |
| `App.Session.ClosePlayback` | App.tsx:199 | closing the dialog clears the playback URL |
| `App.Session.ResetSession` | App.tsx:169-184 | on confirmation: recording stopped, timer at 0 and stopped, no file, no chunks, no playback URL, empty notes, Presentation mode; on refusal nothing changes |
| `App.Session.HasRecording` | App.tsx:186 | for a session keeping its invariant, there is a recording exactly when some recorded data exists |
| `ContentViewer.PrevPage` | components/ContentViewer.tsx:125-127 | one page back, never below 1 |
| `ContentViewer.NextPage` | components/ContentViewer.tsx:129-133 | one page on, never past numPages; with no pages the cursor stays |
| `ContentViewer.PrevNextInverse` | components/ContentViewer.tsx:125-133 | away from the ends, Prev undoes Next and Next undoes Prev |
| `ContentViewer.CursorStopsAtEnds` | components/ContentViewer.tsx:125-133 | Prev is idempotent at page 1 and Next at the last page |
| `ContentViewer.NavigationStaysInBounds` | components/ContentViewer.tsx:125-133 | any sequence of Prev/Next keeps a cursor in 1..max(numPages, 1) there |
| `ContentViewer.NavigationFromFirstPage` | components/ContentViewer.tsx:40-133 | from page 1 any navigation stays within 1..max(numPages, 1) |
| `ContentViewer.RepeatedNext` | components/ContentViewer.tsx:129-133 | k presses of Next advance k pages, stopping at the last page |
| `ContentViewer.KeyPage` | components/ContentViewer.tsx:135-144 | in Presentation mode ArrowRight is Next and ArrowLeft is Prev; every other key, and every key in Document mode, leaves the page |
| `ContentViewer.KeyStaysInBounds` | components/ContentViewer.tsx:135-144 | a key press keeps the cursor in bounds |
| `ContentViewer.RenderContent` | components/ContentViewer.tsx:152-195 | the pane shows, in this priority: spinner iff loading, else the error iff one is set, else the no-file view, else nothing for an empty list, else all pages in Document mode, else page `currentPage` (its URL when in bounds) |
| `ContentViewer.NavControls` | components/ContentViewer.tsx:201-216 | the counter shows iff there are pages, no loading and no error; arrows additionally need Presentation mode; Prev disabled iff page <= 1, Next iff page >= numPages |
| `ContentViewer.DisabledExactlyWhenNoMove` | components/ContentViewer.tsx:201-208 | inside a document, a button is disabled exactly when pressing it would not move the cursor |
| `ContentViewer.ArrowsOnlyOverSinglePage` | components/ContentViewer.tsx:184-210 | with a file loaded, the arrows appear only over a single page |
| `ContentViewer.PollLibrary` | components/ContentViewer.tsx:101-112 | at most 50 retries; the library is found iff it is present at some check 0..50, and then at the first such check |
| `ContentViewer.PageUrls` | components/ContentViewer.tsx:76-87 | one URL per page, page i's at index i - 1 |
| `ContentViewer.ConvertPages` | components/ContentViewer.tsx:76-87 | the loop visits pages 1..numPages in order and yields exactly numPages URLs, entry i - 1 from page i |
| `ContentViewer.LoadOutcomeAsWritten` | components/ContentViewer.tsx:52-98 | as the code is written: no update happens exactly when the file was read and pdf.js rejected it; it loads exactly when the file was read, pdf.js opened it and a canvas exists, with one URL per page in page order |
| `ContentViewer.LoadOutcome` | components/ContentViewer.tsx:52-98 | every conversion ends in an update; it loads exactly when the file was read, pdf.js opened it and a canvas exists; a rejection reports "Failed to process PDF: ..."; otherwise as the code is written |
| `ContentViewer.ApplyCompletion` | components/ContentViewer.tsx:87-97 | a finished conversion ends loading and stores either the URLs or the error message |
| `ContentViewer.RejectedDocumentKeepsSpinner` | components/ContentViewer.tsx:56-89 | as written, a file pdf.js rejects leaves loading on and the spinner shown |
| `ContentViewer.ConversionAlwaysSettles` | components/ContentViewer.tsx:52-98 | with the rejection reported, every conversion ends loading and a rejected file shows its error |
| `ContentViewer.Viewer.constructor` | components/ContentViewer.tsx:39-42 | no pages, page 1, not loading, no error |
| `ContentViewer.Viewer.SetViewMode` | App.tsx:214-218 | the view-mode prop changes |
| `ContentViewer.Viewer.GoToPrevPage` | components/ContentViewer.tsx:125-127 | the cursor becomes `PrevPage` of the old one and stays in bounds |
| `ContentViewer.Viewer.GoToNextPage` | components/ContentViewer.tsx:129-133 | the cursor becomes `NextPage` of the old one and stays in bounds |
| `ContentViewer.Viewer.HandleKeyDown` | components/ContentViewer.tsx:135-150 | the cursor becomes `KeyPage` of the old one; nothing else changes |
| `ContentViewer.Viewer.FileChanged` | components/ContentViewer.tsx:44-121 | no pages, page 1, no error; with a file loading starts, without one loading is untouched |
| `ContentViewer.Viewer.CheckLibrary` | components/ContentViewer.tsx:101-112 | processing proceeds iff the library shows up within 50 retries; otherwise the fixed library error is set and loading ends |
| `ContentViewer.Viewer.Shown` | components/ContentViewer.tsx:152-195 | the spinner exactly while loading, the error panel exactly when settled with an error; settled in presentation mode with pages, the image of the page under the cursor; the full document only in document mode for a loaded file |
| `ContentViewer.Viewer.Overlay` | components/ContentViewer.tsx:201-216 | for the viewer's state, the arrows appear only when the pane shows a single page, and with the counter shown each arrow is disabled exactly when it would not move the cursor |
| `ContentViewer.Viewer.OnLoad` | components/ContentViewer.tsx:52-98 | the state becomes `ApplyCompletion` of the corrected `LoadOutcome`; loading has ended (as written, a pdf.js rejection leaves loading on; see Findings) |

## Left out

- Face-framing guidance (sweet spot, framing classifier, detection loop, backend negotiation): no source file implements it, so there is nothing to model it against.
- `components/CameraView.tsx` (acquiring and stopping camera tracks) and `components/icons.tsx` (static SVG): browser I/O and markup. Their only effect on the model is `onStreamReady`, modelled as `App.Session.StreamReady`.
- The divider percentage computed from `clientX` and the container's width (App.tsx:55-56) is floating point; the model takes the percentage as a `real` input and keeps only the guard. The container ref is taken as mounted.
- Event listener registration and cleanup, the click-outside handler of the filter panel (App.tsx:74-90), `setInterval`/`setTimeout` timing, React effect scheduling and batching, CSS classes for mirroring, JSX layout.
- `MediaRecorder`, `Blob`, `URL.createObjectURL`/`revokeObjectURL`, `FileReader`, canvas rendering and `toDataURL`, and `pdfjsLib` itself: foreign calls whose results are inputs. The worker URL assignment (components/ContentViewer.tsx:104) is not modelled. Resetting the file input's value (App.tsx:176-178) is DOM state.
- Asynchronous interleavings are not modelled: a library poll or conversion for an earlier file that finishes after a later file change, and a final `dataavailable` event that arrives after a reset. `ContentViewer.Viewer.OnLoad` therefore requires the page list to be empty and a file to be set, as they are after the file change that started the conversion (without a file no conversion starts, components/ContentViewer.tsx:45-50).
- `ContentViewer.Viewer.OnLoad`: applies the corrected outcome `LoadOutcome`, so a document pdf.js rejects sets the "Failed to process PDF: ..." error and ends loading; the source as written sets nothing and leaves `isLoading` true with the spinner shown (components/ContentViewer.tsx:64, outside the try/catch), which `ContentViewer.RejectedDocumentKeepsSpinner` states.
- `App.Session.RecordingSettled`: the model does not track React's dependency list (App.tsx:142); the effect runs only after `isRecording` or `recordedChunks` change, and the model leaves that ordering to the caller.
- `ContentViewer.LoadOutcome`: a rejection from `pdf.getPage` or `page.render` is not modelled (`render` is total); it escapes the try/catch in the same way as the rejection from `getDocument`.
- The final `return null` of `renderContent` (components/ContentViewer.tsx:194) is unreachable with the two view modes and has no counterpart.

## Findings

| source | as written | input that shows it | evidently intended | confidence | as-written member | corrected member |
|---|---|---|---|---|---|---|
| components/ContentViewer.tsx:53-98 | the try/catch covers only the synchronous FileReader setup; `await pdfjsLib.getDocument(...)` runs inside the asynchronous `onload` handler, so its rejection escapes, no state is set and `isLoading` stays true | any file that pdf.js rejects, e.g. a file named `.pdf` whose bytes are not a PDF | the catch's "Failed to process PDF: <message>" error is shown and loading ends | high; not executed | `ContentViewer.RejectedDocumentKeepsSpinner` | `ContentViewer.LoadOutcome` |
