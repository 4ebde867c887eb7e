# flutter_pdf_reader: the Android coordination layer in Dafny

This project models the Android side of the `flutter_pdf_reader` plugin. It covers
the plugin object that routes Flutter method calls (`FlutterPdfReaderPlugin`) and
the single viewer session it keeps (`FlutterFullPdfViewerManager`). It also covers
the integer and string arithmetic behind `getNumberOfPages` and `getPage`.

- `wrappers.dfy` (`Wrappers`): `Option`. Java's `null` is `None`.
- `channels.dfy` (`Channels`): the Flutter side, as two append-only logs.
  `Host.replies` holds what the per-call `Result` objects received, and each reply is
  tagged with the call it answers. `Host.invocations` holds what the plugin invoked on
  the method channel. `RepliesTo` counts the replies to one call, which is how the
  "exactly once" and "never" reply rules are stated.
- `page_naming.dfy` (`PageNaming`): `lastIndexOf`, the extension taken by
  `substring(lastIndexOf('.'))`, the `"%d"` rendering of a count and the preview name
  `"%s-%d.png"`. The `"%d"` text and the preview name each have a partner that reads
  the text back (`ParseNat` and `SplitPreviewName`); `LastIndexOf` and `ExtensionOf`
  are pinned down by their own `ensures` instead.
- `rasterizer.dfy` (`Rasterizer`): `getNumberOfPages` and `getPage`.
  - The Android renderer, bitmap and file system become a `Native` value. It says
    which paths open, with how many pages, and which later step throws.
  - The handles opened and closed are returned as a trace, so the close order in the
    `finally` block can be observed.
  - `GetPage` is the imperative method: it mutates a page-number variable and appends
    to the trace step by step. `PageOutcome` is its specification, and the lemmas
    about `PageOutcome` prove the clamp, naming and release properties.
- `viewer.dfy` (`Viewer`): the `PdfView` class, with zoom, offsets, layout and
  whether it has a parent. The `Manager` class holds the nullable `pdfView`, the
  `closed` flag, the load listeners that have not fired yet, and the network fetches
  still running. The asynchronous steps of the source are methods that the environment
  calls: `LoadCompleted` (load finished, then the 300 ms settle, then the UI thread)
  and `FetchFinished`.
- `plugin.dfy` (`Plugin`): `Route` is the `switch` on the method name.
  `PdfReaderPlugin` holds the lazily created worker, the single manager slot and the
  host. It also has one method per handler, and `OnMethodCall` runs exactly the
  handler the name selects.

Some functions have no contract of their own: `MethodName`, `SynchronousReplies`,
`TextPayload`, `PreviewName`, `SplitPreviewName`, `ParseNat`, `DigitsValue`,
`TempFilePath` and `PageOutcome`. They are specified through the lemmas and methods
that use them.

Behaviour worth knowing (the model follows the code):
- `getPage` only caps the page number from above. A number of 0 or less gives a
  negative index, `openPage` throws, and the result is `null`.
- The preview file name is built from the path's extension, from the last `'.'` on,
  dot included. It is not the extension-stripped stem. A path with no `'.'` makes
  `substring(-1)` throw, and `getPage` returns `null`.
- Handles are not released on every exit path. If `openPage` or the rendering throws,
  the renderer stays open, and `getNumberOfPages` never closes its renderer. Only once
  `createTempPreview` is reached are the page and then the renderer closed.
- A failed file load is never reported. No error listener is registered, so the caller
  of `launch` gets no reply at all. Only a failed network fetch replies `false`.
- The session-destroyed notification is `methodChannel.invokeMethod("onDestroy")`,
  not an event on the event stream. It is sent on every manager `close`, including a
  repeated one.
- `close` on an empty slot sends no reply at all.
- A `launch` while a session is open does not silently reuse the session. The plugin
  reuses the open manager and re-adds its view, which already has a parent. Android
  rejects that with an `IllegalStateException`, and the call never gets a reply. Nothing
  catches that exception on the UI thread, so on a device it ends the process; the model
  only stops the handler (`threw`), so whatever the model lets happen after it happens in
  the model only. A closed manager is
  never found in the slot, because the plugin's `close` empties the slot right after
  closing the manager. So the `closed` test in `openPDF` only matters for code that
  closes a manager some other way.

## Model

| member | source | states |
|---|---|---|
| Channels.Host.SendSuccess | android/src/main/java/com/beninsapps/flutter_pdf_reader/FlutterPdfReaderPlugin.java:82 | `result.success(x)` appends exactly one success reply for that call and touches nothing else |
| Channels.Host.SendNotImplemented | android/src/main/java/com/beninsapps/flutter_pdf_reader/FlutterPdfReaderPlugin.java:133 | `result.notImplemented()` appends exactly one not-implemented reply for that call |
| Channels.Host.InvokeMethod | android/src/main/java/com/beninsapps/flutter_pdf_reader/FlutterFullPdfViewerManager.java:151 | invoking a method on the channel appends it to the invocation log, with no reply |
| PageNaming.LastIndexOf | android/src/main/java/com/beninsapps/flutter_pdf_reader/FlutterPdfReaderPlugin.java:162 | the result is -1 exactly when the character is absent; otherwise it is a position holding the character with no occurrence after it |
| PageNaming.ExtensionOf | android/src/main/java/com/beninsapps/flutter_pdf_reader/FlutterPdfReaderPlugin.java:162 | none exactly when the path has no '.'; otherwise a suffix of the path that starts with '.' and has no other '.' |
| PageNaming.ExtensionIsShortestDotSuffix | android/src/main/java/com/beninsapps/flutter_pdf_reader/FlutterPdfReaderPlugin.java:162 | the extension is never longer than any suffix that starts with '.', so it is the text after the last dot and not the stem |
| PageNaming.NatText | android/src/main/java/com/beninsapps/flutter_pdf_reader/FlutterPdfReaderPlugin.java:154 | "%d" of a count: non-empty, digits only, no leading zero |
| PageNaming.ParseNatText | android/src/main/java/com/beninsapps/flutter_pdf_reader/FlutterPdfReaderPlugin.java:154 | reading the decimal text back gives the count again |
| PageNaming.NatTextInjective | android/src/main/java/com/beninsapps/flutter_pdf_reader/FlutterPdfReaderPlugin.java:154 | different counts render differently |
| PageNaming.SplitPreviewNameRoundTrip | android/src/main/java/com/beninsapps/flutter_pdf_reader/FlutterPdfReaderPlugin.java:165 | the name "prefix-page.png" splits back into exactly that prefix and page, even when the prefix contains '-' |
| PageNaming.PreviewNameInjective | android/src/main/java/com/beninsapps/flutter_pdf_reader/FlutterPdfReaderPlugin.java:165 | for one prefix, different pages give different names |
| Rasterizer.NumberOfPages | android/src/main/java/com/beninsapps/flutter_pdf_reader/FlutterPdfReaderPlugin.java:149-158 | the canonical "%d" text of the count exactly when the document opens, and null otherwise; the text parses back to the count; the renderer is opened and never closed |
| Rasterizer.ClampedIndex | android/src/main/java/com/beninsapps/flutter_pdf_reader/FlutterPdfReaderPlugin.java:184-188 | the index passed to openPage is min(pageNumber, pageCount) - 1; it is never past the last page, and it is a valid index exactly when pageNumber >= 1 and the document has pages |
| Rasterizer.ClampedIndexSaturates | android/src/main/java/com/beninsapps/flutter_pdf_reader/FlutterPdfReaderPlugin.java:184-186 | every page number at or past the page count selects the last page |
| Rasterizer.CreateTempPreview | android/src/main/java/com/beninsapps/flutter_pdf_reader/FlutterPdfReaderPlugin.java:161-176 | throws exactly when the name has no '.'; returns null exactly when the write fails; otherwise returns the temp path built from extension + "-" + page + ".png" |
| Rasterizer.PreviewPathNamesPage | android/src/main/java/com/beninsapps/flutter_pdf_reader/FlutterPdfReaderPlugin.java:162-166 | the file name inside a returned preview path gives back the extension and the 0-based page it was built from |
| Rasterizer.GetPage | android/src/main/java/com/beninsapps/flutter_pdf_reader/FlutterPdfReaderPlugin.java:179-216 | the imperative getPage (in-place cap and decrement, try/finally) returns exactly the result and handle trace of PageOutcome |
| Rasterizer.PageOutcomeBeyondEnd | android/src/main/java/com/beninsapps/flutter_pdf_reader/FlutterPdfReaderPlugin.java:184-188 | getPage with a number past the end gives the same result and trace as getPage of the last page |
| Rasterizer.PageOutcomeNonPositive | android/src/main/java/com/beninsapps/flutter_pdf_reader/FlutterPdfReaderPlugin.java:184-215 | a page number of zero or less yields null and closes nothing, because there is no lower clamp |
| Rasterizer.PageOutcomeSucceeds | android/src/main/java/com/beninsapps/flutter_pdf_reader/FlutterPdfReaderPlugin.java:179-216 | a path comes back exactly when the document opens, 1 <= pageNumber, it has pages, rendering works, the path has a '.' and the write works; the path names the decremented 0-based index |
| Rasterizer.PageOutcomeReleases | android/src/main/java/com/beninsapps/flutter_pdf_reader/FlutterPdfReaderPlugin.java:202-209 | the page is closed exactly when the renderer is, and then in the order page then renderer; both are closed exactly when the document opens, the clamped index is a valid page and rendering works, whatever createTempPreview then does (a path, a null, or the throw for a path without '.'); a returned path implies both closes; the renderer is opened exactly when the document opens |
| Viewer.PositionMap | android/src/main/java/com/beninsapps/flutter_pdf_reader/FlutterFullPdfViewerManager.java:138-142 | the close snapshot has exactly the keys Zoom, XOffset and YOffset |
| Viewer.TargetOf | android/src/main/java/com/beninsapps/flutter_pdf_reader/FlutterFullPdfViewerManager.java:39-41 | the target viewport is read from the Zoom, XOffset and YOffset keys, and exists exactly when all three are present |
| Viewer.PositionRoundTrip | android/src/main/java/com/beninsapps/flutter_pdf_reader/FlutterFullPdfViewerManager.java:138-142 | a map saved by close, passed to open again, restores the same viewport |
| Viewer.EmptyPositionRejected | android/src/main/java/com/beninsapps/flutter_pdf_reader/FlutterFullPdfViewerManager.java:138 | the empty map from closing a viewless session cannot be opened again |
| Viewer.PdfView.constructor | android/src/main/java/com/beninsapps/flutter_pdf_reader/FlutterFullPdfViewerManager.java:35 | a new view has no parent and no layout |
| Viewer.PdfView.AttachTo | android/src/main/java/com/beninsapps/flutter_pdf_reader/FlutterPdfReaderPlugin.java:228 | addContentView throws exactly when the view already has a parent; afterwards it has one, and its viewport is unchanged |
| Viewer.Manager.constructor | android/src/main/java/com/beninsapps/flutter_pdf_reader/FlutterFullPdfViewerManager.java:29-36 | a new manager is not closed and holds a fresh, unattached view, with nothing pending |
| Viewer.Manager.OpenPdf | android/src/main/java/com/beninsapps/flutter_pdf_reader/FlutterFullPdfViewerManager.java:38-74 | registers one load listener for the call with the target from the position map, and sends no reply; it throws when a key is missing |
| Viewer.Manager.OpenPdfFromNetwork | android/src/main/java/com/beninsapps/flutter_pdf_reader/FlutterFullPdfViewerManager.java:76-103 | starts one fetch for the call with the target from the position map, and sends no reply; it throws when a key is missing |
| Viewer.Manager.FetchFinished | android/src/main/java/com/beninsapps/flutter_pdf_reader/FlutterFullPdfViewerManager.java:103-130 | a finished fetch leaves the in-flight set; if it succeeded and the view still exists, a load listener is registered; otherwise exactly one false reply is sent and no listener can ever fire |
| Viewer.Manager.LoadCompleted | android/src/main/java/com/beninsapps/flutter_pdf_reader/FlutterFullPdfViewerManager.java:42-64 | a fired listener leaves the pending set and sends exactly one reply: true when zoom then move succeed, false when either throws or the view is gone; the view is zoomed, then moved, to the target |
| Viewer.Manager.Resize | android/src/main/java/com/beninsapps/flutter_pdf_reader/FlutterFullPdfViewerManager.java:133-135 | sets the view's layout and changes nothing else about it |
| Viewer.Manager.Close | android/src/main/java/com/beninsapps/flutter_pdf_reader/FlutterFullPdfViewerManager.java:137-152 | replies the snapshot map (empty without a view) exactly when there is a result object; detaches the old view; leaves pdfView null and closed true; invokes onDestroy exactly once |
| Viewer.Manager.CloseQuietly | android/src/main/java/com/beninsapps/flutter_pdf_reader/FlutterFullPdfViewerManager.java:154-156 | the no-argument close sends no reply, invokes onDestroy once, and leaves the manager closed |
| Viewer.SessionRoundTrip | android/src/main/java/com/beninsapps/flutter_pdf_reader/FlutterFullPdfViewerManager.java:50-152 | open with v, then a clean load, replies true; close replies v; a second close replies an empty map; onDestroy is invoked twice |
| Plugin.Route | android/src/main/java/com/beninsapps/flutter_pdf_reader/FlutterPdfReaderPlugin.java:76-136 | each of the seven method names selects its own handler, and every other name selects the not-implemented reply |
| Plugin.RouteMethodName | android/src/main/java/com/beninsapps/flutter_pdf_reader/FlutterPdfReaderPlugin.java:76-127 | routing is the inverse of handler naming, so distinct handlers have distinct names |
| Plugin.PdfReaderPlugin.constructor | android/src/main/java/com/beninsapps/flutter_pdf_reader/FlutterPdfReaderPlugin.java:53-59 | a fresh plugin has no worker and an empty slot |
| Plugin.PdfReaderPlugin.EnsureWorker | android/src/main/java/com/beninsapps/flutter_pdf_reader/FlutterPdfReaderPlugin.java:63-69 | the worker is created when there is none and is otherwise reused unchanged |
| Plugin.PdfReaderPlugin.OpenPdf | android/src/main/java/com/beninsapps/flutter_pdf_reader/FlutterPdfReaderPlugin.java:220-231 | a new manager exactly when the slot is empty or its manager is closed; either way the slot's view is attached; a fresh manager takes the call's nightMode and rect and gets one pending load for the call (none when the position map lacks a key); reusing an open manager throws in addContentView and keeps its loads, fetches, layout and viewport |
| Plugin.PdfReaderPlugin.OpenPdfFromNetwork | android/src/main/java/com/beninsapps/flutter_pdf_reader/FlutterPdfReaderPlugin.java:233-243 | the same slot rule, with one fetch started for the call on a fresh manager; on reuse the throw keeps the manager's loads, fetches, layout and viewport |
| Plugin.PdfReaderPlugin.Resize | android/src/main/java/com/beninsapps/flutter_pdf_reader/FlutterPdfReaderPlugin.java:245-251 | replies success(null) exactly once and relays out the view only when the slot is filled |
| Plugin.PdfReaderPlugin.Close | android/src/main/java/com/beninsapps/flutter_pdf_reader/FlutterPdfReaderPlugin.java:253-258 | an empty slot: no reply and no invocation; a filled slot: the manager is closed, the snapshot is replied once, onDestroy is invoked once, and the slot is left empty; the dropped manager keeps its pending loads and fetches, which later answer false |
| Plugin.PdfReaderPlugin.OnMethodCall | android/src/main/java/com/beninsapps/flutter_pdf_reader/FlutterPdfReaderPlugin.java:62-141 | the worker is created at most once; the selected handler's effect follows; the number of replies to the call is one for getNumberOfPages, getPage, resize and unknown names, none for listen, launch and launchFromNetwork (they reply later), and for close one exactly when there was a session; no other call's replies change; getNumberOfPages, getPage, listen and unknown names leave the slot's manager, its loads, fetches, view, layout and viewport unchanged, and resize changes only the layout; for launch and launchFromNetwork a fresh manager takes the call's nightMode and rect and holds exactly the call's pending load or fetch (none when the open threw), and a reused manager throws and keeps its loads, fetches, layout and viewport, so it never replies; a closed session keeps its pending entries |
| Plugin.RelaunchWithoutClose | android/src/main/java/com/beninsapps/flutter_pdf_reader/FlutterPdfReaderPlugin.java:224-228 | a second launch without close reuses the manager and throws without replying (on a device this uncaught exception ends the process); in the model a close then replies once, and a second close sends nothing |

## Left out

- PdfRenderer, ParcelFileDescriptor, Bitmap and Canvas drawing, and PNG compression are foreign Android APIs. `Native` says only which step throws. It assumes `openPage(i)` throws exactly when `i` is not a page index.
- The bitmap size and aspect-ratio arithmetic (`FlutterPdfReaderPlugin.java:190-195`) and `dp2px` are floating-point arithmetic. A rendering failure is the single flag `renderFails`.
- `File.createTempFile` and the cache directory are file-system I/O. The returned path is modelled as `cacheDir + "/" + name + suffix + ".tmp"`, and the random suffix is a parameter.
- `buildLayoutParams`, `Display` sizing and `addContentView` layout: the `rect` argument is stored on the view as given (`None` fills the display).
- The `HttpURLConnection` fetch is network I/O. Its success is the parameter `fetched` of `FetchFinished`.
- HandlerThread and Handler posting, `new Thread`, `SystemClock.sleep(300)` and `runOnUiThread` are concurrency. Each handler runs to completion inside `OnMethodCall`. Load completion and fetch completion are separate steps that the environment triggers in any order, once per pending entry.
- PDFView internals (the `pdf/` package) and its builder chain are not modelled. The library is not visible, so whether a superseded load's listener still fires is unknown. The model lets each registered listener fire at most once, at any time. The file path, the stream, `nightMode` and the swipe settings handed to the builder are not recorded.
- The EventChannel stream handler (`listen()`, `eventSink`), the engine and activity lifecycle callbacks, and `onDetachedFromEngine` are transport plumbing. The `"listen"` method name does nothing, as in the source.
- Call arguments are taken as present and of the right type. A missing or mistyped `filePath`, `pageNumber`, `path` or `nightMode` throws outside every try in the source; on the worker thread that throw is uncaught too and ends the process. A missing key of the position map is modelled (`TargetOf`); its throw stops the handler.
- An uncaught exception on any thread, the UI thread or the worker, ends the Android process. The model only records that the handler stopped (`threw`), with the effects made before the throw kept.
- An `OutOfMemoryError` from `Bitmap.createBitmap` (`FlutterPdfReaderPlugin.java:195-196`) on a very tall page is an `Error`, not an `Exception`. It escapes `catch (Exception)` and is uncaught on the worker thread, so the process ends without a reply; the model's `renderFails` covers only the caught failures that end in null.
- When the last `'.'` of the path sits in a directory name (`/a.b/c`), the prefix contains `'/'`. What `File.createTempFile` then does with that prefix is Android library behaviour and is not modelled: the model builds the path from the prefix as it is, unless `writeFails` is set.
- Java's 32-bit `int` for `pageNumber` is not modelled. Decrementing `Integer.MIN_VALUE` wraps to another out-of-range index, so `getPage` returns null either way.
- The `(float)` casts of zoom and offsets are not modelled. Viewports are `real` values, without rounding.
- Viewer.PdfView.constructor: the library's initial zoom and offsets are not promised, only that the view has no parent and no layout.
- Viewer.Manager.Resize: requires an open manager. On a closed one, `pdfView.setLayoutParams` would throw on null, but the plugin never keeps a closed manager in its slot.
- Viewer.Manager.Close: requires that a present view has a parent. Otherwise `vg.removeView` throws on null, but the plugin attaches every view it creates before anything can close it.
