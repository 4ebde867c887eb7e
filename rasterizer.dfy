/**
 * Page counting and page-preview rendering (`getNumberOfPages`, `getPage`
 * and `createTempPreview`).  The Android renderer, the bitmap and the file
 * system are abstracted into a `Native` value that says which calls throw;
 * the handles the code opens and closes are recorded as a trace.
 */
module Rasterizer {
  import opened Wrappers
  import opened PageNaming

  /**
   * What the Android side does for one call.  A path opens as a
   * `PdfRenderer` exactly when it is a key of `pageCounts`; `openPage(i)`
   * throws unless `0 <= i < pageCount`; `renderFails` stands for a throw
   * while sizing, allocating or drawing the bitmap; `writeFails` for a throw
   * while creating or writing the temp file; `tempSuffix` is the random part
   * `File.createTempFile` inserts.
   */
  datatype Native = Native(
    pageCounts: map<string, nat>,
    renderFails: bool,
    cacheDir: string,
    tempSuffix: string,
    writeFails: bool)

  /** Native handles opened and closed, in order. */
  datatype NativeEvent = RendererOpened | PageOpened(index: nat) | PageClosed | RendererClosed

  /** Result of one `getNumberOfPages`/`getPage`: the returned string (`None` is null) and the handle trace. */
  datatype Rendered = Rendered(text: Option<string>, trace: seq<NativeEvent>)

  /** Outcome of `createTempPreview`: it either throws or returns a path or null. */
  datatype Preview = Threw | Returned(path: Option<string>)

  /** `getNumberOfPages`: the page count in decimal, or null when the document does not open. */
  function NumberOfPages(native: Native, filePath: string): (r: Rendered)
    ensures r.text.Some? <==> filePath in native.pageCounts
    ensures r.text.Some? ==> r.text.value == NatText(native.pageCounts[filePath])
    ensures r.text.Some? ==> ParseNat(r.text.value) == Some(native.pageCounts[filePath])
    ensures RendererClosed !in r.trace && PageClosed !in r.trace
    ensures r.trace == if filePath in native.pageCounts then [RendererOpened] else []
  {
    if filePath in native.pageCounts then
      ParseNatText(native.pageCounts[filePath]);
      Rendered(Some(NatText(native.pageCounts[filePath])), [RendererOpened])
    else
      Rendered(None, [])
  }

  /**
   * The 0-based index `getPage` asks the renderer for: the caller's 1-based
   * number capped at the page count, then decremented.  There is no lower cap.
   */
  function ClampedIndex(pageNumber: int, pageCount: nat): (index: int)
    ensures index <= pageCount - 1
    ensures index <= pageNumber - 1
    ensures index == pageNumber - 1 || index == pageCount - 1
    ensures 0 <= index < pageCount <==> 1 <= pageNumber && 1 <= pageCount
  {
    (if pageNumber > pageCount then pageCount else pageNumber) - 1
  }

  /** Every number at or past the last page selects the last page. */
  lemma ClampedIndexSaturates(pageNumber: int, pageCount: nat)
    requires pageNumber >= pageCount
    ensures ClampedIndex(pageNumber, pageCount) == ClampedIndex(pageCount, pageCount) == pageCount - 1
  {
  }

  /** Where `File.createTempFile(name, null, cacheDir)` puts the file. */
  function TempFilePath(native: Native, name: string): string
  {
    native.cacheDir + "/" + name + native.tempSuffix + ".tmp"
  }

  /**
   * `createTempPreview(bmp, name, page)`: the prefix is the path's text from the
   * last '.'; when there is none, `substring(-1)` throws outside the inner try.
   */
  function CreateTempPreview(native: Native, name: string, page: nat): (r: Preview)
    ensures r.Threw? <==> '.' !in name
    ensures r.Returned? ==> (r.path.None? <==> native.writeFails)
    ensures r.Returned? && r.path.Some? ==>
      r.path.value == TempFilePath(native, PreviewName(ExtensionOf(name).value, page))
  {
    match ExtensionOf(name)
    case None => Threw
    case Some(prefix) =>
      if native.writeFails then Returned(None)
      else
        Returned(Some(TempFilePath(native, PreviewName(prefix, page))))
  }

  /** What `getPage(filePath, pageNumber)` returns and which handles it opens and closes. */
  function PageOutcome(native: Native, filePath: string, pageNumber: int): Rendered
  {
    if filePath !in native.pageCounts then Rendered(None, [])
    else
      var index := ClampedIndex(pageNumber, native.pageCounts[filePath]);
      if !(0 <= index < native.pageCounts[filePath]) then Rendered(None, [RendererOpened])
      else if native.renderFails then Rendered(None, [RendererOpened, PageOpened(index)])
      else
        var closing := [RendererOpened, PageOpened(index), PageClosed, RendererClosed];
        match CreateTempPreview(native, filePath, index)
        case Threw => Rendered(None, closing)
        case Returned(path) => Rendered(path, closing)
  }

  /**
   * `getPage`: `pageNumber` is capped and decremented in place, the renderer
   * is opened, the page opened and rendered, and the page and renderer are
   * closed in a `finally` around `createTempPreview`.  Every exception ends in
   * a null result.
   */
  method GetPage(native: Native, filePath: string, pageNumber: int) returns (path: Option<string>, trace: seq<NativeEvent>)
    ensures Rendered(path, trace) == PageOutcome(native, filePath, pageNumber)
  {
    path, trace := None, [];
    var number := pageNumber;
    if filePath !in native.pageCounts {
      return;  // new PdfRenderer(...) throws
    }
    trace := trace + [RendererOpened];
    var pageCount := native.pageCounts[filePath];
    if number > pageCount {
      number := pageCount;
    }
    number := number - 1;
    if !(0 <= number < pageCount) {
      return;  // openPage throws; the renderer is left open
    }
    trace := trace + [PageOpened(number)];
    if native.renderFails {
      return;  // bitmap or render throws; nothing is closed
    }
    assert trace == [RendererOpened, PageOpened(number)];
    var preview := CreateTempPreview(native, filePath, number);
    trace := trace + [PageClosed, RendererClosed];  // the finally block
    if preview.Returned? {
      path := preview.path;
    }
    assert number == ClampedIndex(pageNumber, pageCount);
  }

  /** The file name inside a preview path gives back the extension and the 0-based page. */
  lemma PreviewPathNamesPage(native: Native, name: string, page: nat)
    requires '.' in name && !native.writeFails
    ensures CreateTempPreview(native, name, page).Returned?
    ensures var path := CreateTempPreview(native, name, page).path.value;
      |path| >= |native.cacheDir| + 1 + |native.tempSuffix| + 4
      && SplitPreviewName(path[|native.cacheDir| + 1..|path| - |native.tempSuffix| - 4]) == Some((ExtensionOf(name).value, page))
  {
    var fileName := PreviewName(ExtensionOf(name).value, page);
    var path := TempFilePath(native, fileName);
    assert path[|native.cacheDir| + 1..|path| - |native.tempSuffix| - 4] == fileName;
    SplitPreviewNameRoundTrip(ExtensionOf(name).value, page);
  }

  /** A number past the end renders the same file as the last page. */
  lemma PageOutcomeBeyondEnd(native: Native, filePath: string, pageNumber: int)
    requires filePath in native.pageCounts && pageNumber >= native.pageCounts[filePath]
    ensures PageOutcome(native, filePath, pageNumber) == PageOutcome(native, filePath, native.pageCounts[filePath])
  {
    ClampedIndexSaturates(pageNumber, native.pageCounts[filePath]);
  }

  /** A page number of zero or less never yields a file. */
  lemma PageOutcomeNonPositive(native: Native, filePath: string, pageNumber: int)
    requires pageNumber <= 0
    ensures PageOutcome(native, filePath, pageNumber).text == None
    ensures PageClosed !in PageOutcome(native, filePath, pageNumber).trace
  {
  }

  /** `getPage` returns a path exactly when every step succeeds, and the path names the 0-based page. */
  lemma PageOutcomeSucceeds(native: Native, filePath: string, pageNumber: int)
    ensures PageOutcome(native, filePath, pageNumber).text.Some? <==>
      filePath in native.pageCounts && 1 <= pageNumber && 1 <= native.pageCounts[filePath]
      && !native.renderFails && '.' in filePath && !native.writeFails
    ensures PageOutcome(native, filePath, pageNumber).text.Some? ==>
      PageOutcome(native, filePath, pageNumber).text.value ==
        TempFilePath(native, PreviewName(ExtensionOf(filePath).value, ClampedIndex(pageNumber, native.pageCounts[filePath])))
  {
  }

  /**
   * Once the page is rendered, the page and then the renderer are closed,
   * whatever `createTempPreview` does (a path, a null, or the throw of a path
   * without '.'); a failure before that (no document, a bad index, a render
   * failure) closes nothing.
   */
  lemma PageOutcomeReleases(native: Native, filePath: string, pageNumber: int)
    ensures var t := PageOutcome(native, filePath, pageNumber).trace;
      (PageClosed in t <==> RendererClosed in t)
      && (RendererClosed in t <==> |t| == 4)
      && (|t| == 4 ==> t[2] == PageClosed && t[3] == RendererClosed && t[1].PageOpened?)
      && (RendererOpened in t <==> filePath in native.pageCounts)
      && (RendererClosed in t <==>
            filePath in native.pageCounts
            && 0 <= ClampedIndex(pageNumber, native.pageCounts[filePath]) < native.pageCounts[filePath]
            && !native.renderFails)
      && (PageOutcome(native, filePath, pageNumber).text.Some? ==> RendererClosed in t)
  {
  }
}
