/** The document pane of components/ContentViewer.tsx: a page cursor over
    the images a PDF was converted to, the keyboard navigation that moves it,
    the reset on every file change, the bounded wait for the PDF library,
    the page-conversion loop, and the decision of what the pane shows. */
module ContentViewer {
  import opened Types

  /** Retries of the library check before giving up (about five seconds at 100 ms). */
  const LibraryRetryLimit: nat := 50

  const LibraryFailedMessage: string := "PDF processing library failed to load. Please refresh the page."
  const ReadFailedMessage: string := "Failed to read the file."
  const ContextFailedMessage: string := "Could not create canvas context for rendering."
  const ReaderErrorMessage: string := "Error reading file."
  const ProcessFailedPrefix: string := "Failed to process PDF: "

  function Max(a: int, b: int): int { if a >= b then a else b }

  function Min(a: int, b: int): int { if a <= b then a else b }

  /** The pages the cursor may rest on: 1..numPages, or page 1 of an empty document. */
  predicate InBounds(page: int, numPages: nat) { 1 <= page <= Max(numPages, 1) }

  // ---------------------------------------------------------------------
  // The page cursor
  // ---------------------------------------------------------------------

  /** `goToPrevPage`: one page back, never below page 1. */
  function PrevPage(page: int): (r: int)
    ensures r >= 1
    ensures page >= 2 ==> r == page - 1
    ensures page <= 2 ==> r == 1
  {
    Max(page - 1, 1)
  }

  /** `goToNextPage`: one page on, never past the last page; an empty
      document (numPages 0) leaves the cursor alone. */
  function NextPage(page: int, numPages: nat): (r: int)
    ensures numPages == 0 ==> r == page
    ensures numPages > 0 ==> r <= numPages
    ensures 0 < numPages && page < numPages ==> r == page + 1
    ensures numPages > 0 && page >= numPages ==> r == numPages
  {
    if numPages == 0 then page else Min(page + 1, numPages)
  }

  /** Prev and Next undo each other away from the ends of the document. */
  lemma PrevNextInverse(page: int, numPages: nat)
    ensures 1 <= page < numPages ==> PrevPage(NextPage(page, numPages)) == page
    ensures 1 < page <= numPages ==> NextPage(PrevPage(page), numPages) == page
  {
  }

  /** Both moves stop at the ends: page 1 for Prev, the last page for Next. */
  lemma CursorStopsAtEnds(numPages: nat)
    ensures PrevPage(1) == 1
    ensures numPages > 0 ==> NextPage(numPages, numPages) == numPages
  {
  }

  datatype NavOp = Prev | Next

  function NavStep(page: int, numPages: nat, op: NavOp): int
  {
    match op
    case Prev => PrevPage(page)
    case Next => NextPage(page, numPages)
  }

  function Navigate(page: int, numPages: nat, ops: seq<NavOp>): int
    decreases ops
  {
    if ops == [] then page else Navigate(NavStep(page, numPages, ops[0]), numPages, ops[1..])
  }

  /** Any run of Prev/Next keeps a cursor that starts in bounds in bounds. */
  lemma {:induction false} NavigationStaysInBounds(page: int, numPages: nat, ops: seq<NavOp>)
    requires InBounds(page, numPages)
    ensures InBounds(Navigate(page, numPages, ops), numPages)
    decreases ops
  {
    if ops != [] {
      NavigationStaysInBounds(NavStep(page, numPages, ops[0]), numPages, ops[1..]);
    }
  }

  /** From the first page (where every file change puts the cursor), the
      cursor is always between 1 and max(numPages, 1). */
  lemma NavigationFromFirstPage(numPages: nat, ops: seq<NavOp>)
    ensures InBounds(Navigate(1, numPages, ops), numPages)
  {
    NavigationStaysInBounds(1, numPages, ops);
  }

  /** k presses of Next advance k pages, stopping at the last page. */
  lemma {:induction false} RepeatedNext(page: int, numPages: nat, k: nat)
    requires InBounds(page, numPages)
    ensures Navigate(page, numPages, seq(k, _ => Next)) == Min(page + k, Max(numPages, 1))
    decreases k
  {
    if k > 0 {
      var ops := seq(k, _ => Next);
      assert ops[1..] == seq(k - 1, _ => Next);
      RepeatedNext(NextPage(page, numPages), numPages, k - 1);
    }
  }

  /** The keydown handler: arrows move the cursor in Presentation mode only. */
  function KeyPage(mode: ViewMode, key: string, page: int, numPages: nat): (r: int)
    ensures mode == Document ==> r == page
    ensures key != "ArrowRight" && key != "ArrowLeft" ==> r == page
    ensures mode == Presentation && key == "ArrowRight" ==> r == NextPage(page, numPages)
    ensures mode == Presentation && key == "ArrowLeft" ==> r == PrevPage(page)
  {
    if mode == Presentation then
      if key == "ArrowRight" then NextPage(page, numPages)
      else if key == "ArrowLeft" then PrevPage(page)
      else page
    else page
  }

  /** Keys keep the cursor in bounds, like the buttons. */
  lemma KeyStaysInBounds(mode: ViewMode, key: string, page: int, numPages: nat)
    requires InBounds(page, numPages)
    ensures InBounds(KeyPage(mode, key, page, numPages), numPages)
  {
  }

  // ---------------------------------------------------------------------
  // What the pane shows
  // ---------------------------------------------------------------------

  /** JavaScript truthiness of the `error` state: null and "" are false. */
  predicate Truthy(e: Option<string>) { e.Some? && e.value != "" }

  /** `imageUrls[page - 1]`, which is undefined outside the list. */
  function PageAt(urls: seq<string>, page: int): Option<string>
  {
    if 1 <= page <= |urls| then Some(urls[page - 1]) else None
  }

  /** The outcomes of `renderContent`. */
  datatype Content =
    | Spinner
    | ErrorPanel(message: string)
    | NoFileView
    | Blank
    | AllPages(urls: seq<string>)
    | SinglePage(page: int, url: Option<string>)

  /** `renderContent`: loading first, then an error, then no file, then an
      empty page list, then every page in Document mode, else the current
      page in Presentation mode. */
  function RenderContent(isLoading: bool, error: Option<string>, hasFile: bool,
                         imageUrls: seq<string>, mode: ViewMode, currentPage: int): (c: Content)
    ensures c == Spinner <==> isLoading
    ensures c.ErrorPanel? <==> !isLoading && Truthy(error)
    ensures c.ErrorPanel? ==> c.message == error.value
    ensures c == NoFileView <==> !isLoading && !Truthy(error) && !hasFile
    ensures c == Blank <==> !isLoading && !Truthy(error) && hasFile && imageUrls == []
    ensures c.AllPages? <==> !isLoading && !Truthy(error) && hasFile && imageUrls != [] && mode == Document
    ensures c.AllPages? ==> c.urls == imageUrls
    ensures c.SinglePage? <==> !isLoading && !Truthy(error) && hasFile && imageUrls != [] && mode == Presentation
    ensures c.SinglePage? ==> c.page == currentPage
    ensures c.SinglePage? && InBounds(currentPage, |imageUrls|) ==> c.url == Some(imageUrls[currentPage - 1])
  {
    if isLoading then Spinner
    else if Truthy(error) then ErrorPanel(error.value)
    else if !hasFile then NoFileView
    else if imageUrls == [] then Blank
    else match mode
      case Document => AllPages(imageUrls)
      case Presentation => SinglePage(currentPage, PageAt(imageUrls, currentPage))
  }

  /** The arrow buttons and the "page / pages" counter drawn over the pane. */
  datatype Controls = Controls(showArrows: bool, prevDisabled: bool, nextDisabled: bool, showCounter: bool)

  function NavControls(mode: ViewMode, numPages: nat, isLoading: bool, error: Option<string>,
                       currentPage: int): (c: Controls)
    ensures c.showCounter <==> numPages > 0 && !isLoading && !Truthy(error)
    ensures c.showArrows <==> c.showCounter && mode == Presentation
    ensures c.prevDisabled <==> currentPage <= 1
    ensures c.nextDisabled <==> currentPage >= numPages
  {
    var settled := numPages > 0 && !isLoading && !Truthy(error);
    Controls(mode == Presentation && settled, currentPage <= 1, currentPage >= numPages, settled)
  }

  /** A button is disabled exactly when pressing it would not move the
      cursor, for a cursor inside a non-empty document. */
  lemma DisabledExactlyWhenNoMove(mode: ViewMode, numPages: nat, isLoading: bool,
                                  error: Option<string>, page: int)
    requires 1 <= page <= numPages
    ensures NavControls(mode, numPages, isLoading, error, page).prevDisabled <==> PrevPage(page) == page
    ensures NavControls(mode, numPages, isLoading, error, page).nextDisabled <==> NextPage(page, numPages) == page
  {
  }

  /** Arrows are shown only when the pane shows a single page. */
  lemma ArrowsOnlyOverSinglePage(mode: ViewMode, imageUrls: seq<string>, isLoading: bool,
                                 error: Option<string>, currentPage: int)
    requires NavControls(mode, |imageUrls|, isLoading, error, currentPage).showArrows
    ensures RenderContent(isLoading, error, true, imageUrls, mode, currentPage).SinglePage?
  {
  }

  // ---------------------------------------------------------------------
  // Waiting for the PDF library
  // ---------------------------------------------------------------------

  /** `checkPdfLibAndProcess`, with its timer-driven recursion unrolled into a
      loop: the check with retry count k sees the library iff `present(k)`,
      and a failed check is retried while fewer than 50 retries were made. */
  method PollLibrary(present: nat -> bool) returns (found: bool, retries: nat)
    ensures retries <= LibraryRetryLimit
    ensures forall k :: 0 <= k < retries ==> !present(k)
    ensures found == present(retries)
    ensures !found ==> retries == LibraryRetryLimit
    ensures found <==> exists k :: 0 <= k <= LibraryRetryLimit && present(k)
  {
    retries := 0;
    while !present(retries) && retries < LibraryRetryLimit
      invariant retries <= LibraryRetryLimit
      invariant forall k :: 0 <= k < retries ==> !present(k)
      decreases LibraryRetryLimit - retries
    {
      retries := retries + 1;
    }
    found := present(retries);
  }

  // ---------------------------------------------------------------------
  // Converting the document
  // ---------------------------------------------------------------------

  /** The image URLs of a document: page i's at index i - 1. */
  function PageUrls(numPages: nat, render: nat -> string): (urls: seq<string>)
    ensures |urls| == numPages
    ensures forall i :: 1 <= i <= numPages ==> urls[i - 1] == render(i)
  {
    seq(numPages, k requires 0 <= k => render(k + 1))
  }

  /** The conversion loop: pages 1..numPages in order, one URL pushed per
      page; `render(i)` is the JPEG data URL the canvas yields for page i. */
  method ConvertPages(numPages: nat, render: nat -> string) returns (urls: seq<string>)
    ensures |urls| == numPages
    ensures forall i :: 1 <= i <= numPages ==> urls[i - 1] == render(i)
  {
    urls := [];
    var i := 1;
    while i <= numPages
      invariant 1 <= i <= numPages + 1
      invariant |urls| == i - 1
      invariant forall j :: 1 <= j < i ==> urls[j - 1] == render(j)
    {
      urls := urls + [render(i)];
      i := i + 1;
    }
  }

  /** How reading the file ended: the synchronous setup threw, the reader
      reported an error, or it loaded, with or without a result. */
  datatype ReadEvent = SetupThrew(message: string) | ReadError | ReadLoaded(hasResult: bool)

  /** What pdf.js made of the bytes: a document of some pages, or a rejection. */
  datatype Opened = Opened(numPages: nat) | Rejected(message: string)

  /** The state update that ends a conversion, if any. */
  datatype Completion = Loaded(urls: seq<string>) | Failed(message: string) | NoUpdate

  /** The conversion's outcome as the code is written: the try/catch covers
      only the synchronous setup, so a rejection from pdf.js inside the
      asynchronous onload handler updates nothing. */
  function LoadOutcomeAsWritten(read: ReadEvent, doc: Opened, hasContext: bool,
                                render: nat -> string): (c: Completion)
    ensures c == NoUpdate <==> read == ReadLoaded(true) && doc.Rejected?
    ensures c.Loaded? <==> read == ReadLoaded(true) && doc.Opened? && hasContext
    ensures c.Loaded? ==>
      && |c.urls| == doc.numPages
      && (forall i :: 1 <= i <= doc.numPages ==> c.urls[i - 1] == render(i))
  {
    match read
    case SetupThrew(m) => Failed(ProcessFailedPrefix + m)
    case ReadError => Failed(ReaderErrorMessage)
    case ReadLoaded(hasResult) =>
      if !hasResult then Failed(ReadFailedMessage)
      else match doc
        case Rejected(_) => NoUpdate
        case Opened(n) =>
          if !hasContext then Failed(ContextFailedMessage) else Loaded(PageUrls(n, render))
  }

  /** The conversion's outcome with the rejection reported as the catch
      block intends ("Failed to process PDF: ..."). Every path ends in an
      update; the document loads exactly when the file was read, pdf.js
      opened it and a canvas context exists, with one URL per page in
      page order; otherwise it agrees with the code as written. */
  function LoadOutcome(read: ReadEvent, doc: Opened, hasContext: bool,
                       render: nat -> string): (c: Completion)
    ensures c != NoUpdate
    ensures c.Loaded? <==> read == ReadLoaded(true) && doc.Opened? && hasContext
    ensures c.Loaded? ==>
      && |c.urls| == doc.numPages
      && (forall i :: 1 <= i <= doc.numPages ==> c.urls[i - 1] == render(i))
    ensures read == ReadLoaded(true) && doc.Rejected? ==> c == Failed(ProcessFailedPrefix + doc.message)
    ensures LoadOutcomeAsWritten(read, doc, hasContext, render) != NoUpdate ==>
      c == LoadOutcomeAsWritten(read, doc, hasContext, render)
  {
    match read
    case SetupThrew(m) => Failed(ProcessFailedPrefix + m)
    case ReadError => Failed(ReaderErrorMessage)
    case ReadLoaded(hasResult) =>
      if !hasResult then Failed(ReadFailedMessage)
      else match doc
        case Rejected(m) => Failed(ProcessFailedPrefix + m)
        case Opened(n) =>
          if !hasContext then Failed(ContextFailedMessage) else Loaded(PageUrls(n, render))
  }

  /** The part of the pane's state a conversion writes. */
  datatype LoadState = LoadState(imageUrls: seq<string>, isLoading: bool, error: Option<string>)

  function ApplyCompletion(s: LoadState, c: Completion): (r: LoadState)
    ensures c.NoUpdate? ==> r == s
    ensures !c.NoUpdate? ==> !r.isLoading
    ensures c.Loaded? ==> r.imageUrls == c.urls && r.error == s.error
    ensures c.Failed? ==> r.error == Some(c.message) && r.imageUrls == s.imageUrls
  {
    match c
    case Loaded(urls) => s.(imageUrls := urls, isLoading := false)
    case Failed(m) => s.(error := Some(m), isLoading := false)
    case NoUpdate => s
  }

  /** As written, a file pdf.js rejects leaves the pane on the spinner: the
      update that would end loading never happens. */
  lemma RejectedDocumentKeepsSpinner(s: LoadState, message: string, hasContext: bool,
                                     render: nat -> string, mode: ViewMode, page: int)
    requires s.isLoading
    ensures var after := ApplyCompletion(s, LoadOutcomeAsWritten(ReadLoaded(true), Rejected(message), hasContext, render));
      after.isLoading && RenderContent(after.isLoading, after.error, true, after.imageUrls, mode, page) == Spinner
  {
  }

  /** With the rejection reported, every conversion ends loading, and a
      rejected file shows its error. */
  lemma ConversionAlwaysSettles(s: LoadState, read: ReadEvent, doc: Opened, hasContext: bool,
                                render: nat -> string, mode: ViewMode, page: int)
    ensures var after := ApplyCompletion(s, LoadOutcome(read, doc, hasContext, render));
      && !after.isLoading
      && RenderContent(after.isLoading, after.error, true, after.imageUrls, mode, page) != Spinner
      && (read == ReadLoaded(true) && doc.Rejected? && doc.message != "" ==>
            RenderContent(after.isLoading, after.error, true, after.imageUrls, mode, page)
              == ErrorPanel(ProcessFailedPrefix + doc.message))
  {
  }

  // ---------------------------------------------------------------------
  // The component
  // ---------------------------------------------------------------------

  class Viewer {
    /** The props from App. */
    var file: Option<FileHandle>
    var viewMode: ViewMode
    /** The component's state. */
    var imageUrls: seq<string>
    var currentPage: int
    var isLoading: bool
    var error: Option<string>

    /** The cursor is on a page of the document (page 1 when it is empty),
        and pages exist only for a file. */
    ghost predicate Valid()
      reads this
    {
      && InBounds(currentPage, |imageUrls|)
      && (imageUrls != [] ==> file.Some?)
    }

    function State(): LoadState
      reads this
    {
      LoadState(imageUrls, isLoading, error)
    }

    /** What the pane shows: the spinner while loading, otherwise the error,
        the no-file view, nothing, or the pages; a single page is the one
        under the cursor. */
    function Shown(): (c: Content)
      reads this
      ensures c == Spinner <==> isLoading
      ensures c.ErrorPanel? <==> !isLoading && Truthy(error)
      ensures Valid() && !isLoading && !Truthy(error) && imageUrls != [] && viewMode == Presentation ==>
        c == SinglePage(currentPage, Some(imageUrls[currentPage - 1]))
      ensures Valid() && c.AllPages? ==> file.Some? && c.urls == imageUrls && viewMode == Document
    {
      RenderContent(isLoading, error, file.Some?, imageUrls, viewMode, currentPage)
    }

    /** The arrow buttons and counter: the arrows appear only over a single
        page, and each is disabled exactly when it would not move the cursor. */
    function Overlay(): (c: Controls)
      reads this
      ensures Valid() && c.showArrows ==> Shown().SinglePage?
      ensures Valid() && c.showCounter ==>
        && (c.prevDisabled <==> PrevPage(currentPage) == currentPage)
        && (c.nextDisabled <==> NextPage(currentPage, |imageUrls|) == currentPage)
    {
      NavControls(viewMode, |imageUrls|, isLoading, error, currentPage)
    }

    /** The initial `useState` values, before any file is given. */
    constructor (mode: ViewMode)
      ensures Valid()
      ensures file == None && viewMode == mode
      ensures imageUrls == [] && currentPage == 1 && !isLoading && error == None
    {
      file, viewMode := None, mode;
      imageUrls, currentPage, isLoading, error := [], 1, false, None;
    }

    method SetViewMode(mode: ViewMode)
      requires Valid()
      modifies this`viewMode
      ensures Valid() && viewMode == mode
    {
      viewMode := mode;
    }

    /** `goToPrevPage`. */
    method GoToPrevPage()
      requires Valid()
      modifies this`currentPage
      ensures Valid()
      ensures currentPage == PrevPage(old(currentPage))
    {
      currentPage := if currentPage - 1 >= 1 then currentPage - 1 else 1;
    }

    /** `goToNextPage`. */
    method GoToNextPage()
      requires Valid()
      modifies this`currentPage
      ensures Valid()
      ensures currentPage == NextPage(old(currentPage), |imageUrls|)
    {
      var numPages := |imageUrls|;
      if numPages != 0 {
        currentPage := if currentPage + 1 <= numPages then currentPage + 1 else numPages;
      }
    }

    /** `handleKeyDown`. */
    method HandleKeyDown(key: string)
      requires Valid()
      modifies this`currentPage
      ensures Valid()
      ensures currentPage == KeyPage(viewMode, key, old(currentPage), |imageUrls|)
    {
      if viewMode == Presentation {
        if key == "ArrowRight" {
          GoToNextPage();
        } else if key == "ArrowLeft" {
          GoToPrevPage();
        }
      }
    }

    /** The effect run when the `file` prop changes: without a file the page
        list, cursor and error are cleared; with one, loading also starts. */
    method FileChanged(f: Option<FileHandle>)
      requires Valid()
      modifies this`file, this`imageUrls, this`currentPage, this`error, this`isLoading
      ensures Valid()
      ensures file == f && imageUrls == [] && currentPage == 1 && error == None
      ensures f.None? ==> isLoading == old(isLoading)
      ensures f.Some? ==> isLoading
    {
      file := f;
      if f.None? {
        imageUrls := [];
        currentPage := 1;
        error := None;
        return;
      }
      isLoading := true;
      error := None;
      imageUrls := [];
      currentPage := 1;
    }

    /** The library wait: on giving up after 50 retries the fixed error is
        shown and loading ends; otherwise processing may proceed. */
    method CheckLibrary(present: nat -> bool) returns (proceed: bool)
      requires Valid()
      modifies this`error, this`isLoading
      ensures Valid()
      ensures proceed <==> exists k :: 0 <= k <= LibraryRetryLimit && present(k)
      ensures proceed ==> error == old(error) && isLoading == old(isLoading)
      ensures !proceed ==> error == Some(LibraryFailedMessage) && !isLoading
    {
      var found, retries := PollLibrary(present);
      proceed := found;
      if !found {
        error := Some(LibraryFailedMessage);
        isLoading := false;
      }
    }

    /** The reader's completion and the conversion after it, for the file
        the cursor was last reset for. It applies the corrected outcome
        `LoadOutcome`: a document pdf.js rejects sets the "Failed to process
        PDF: ..." error and ends loading, where the code as written sets
        nothing and leaves loading on (`RejectedDocumentKeepsSpinner`). */
    method OnLoad(read: ReadEvent, doc: Opened, hasContext: bool, render: nat -> string)
      requires Valid() && imageUrls == [] && file.Some?
      modifies this`imageUrls, this`isLoading, this`error
      ensures Valid()
      ensures State() == ApplyCompletion(old(State()), LoadOutcome(read, doc, hasContext, render))
      ensures !isLoading
    {
      match read {
        case SetupThrew(m) =>
          error := Some(ProcessFailedPrefix + m);
          isLoading := false;
        case ReadError =>
          error := Some(ReaderErrorMessage);
          isLoading := false;
        case ReadLoaded(hasResult) =>
          if !hasResult {
            error := Some(ReadFailedMessage);
            isLoading := false;
            return;
          }
          match doc {
            case Rejected(m) =>
              error := Some(ProcessFailedPrefix + m);
              isLoading := false;
            case Opened(n) =>
              if !hasContext {
                error := Some(ContextFailedMessage);
                isLoading := false;
                return;
              }
              var urls := ConvertPages(n, render);
              assert urls == PageUrls(n, render);
              imageUrls := urls;
              isLoading := false;
          }
      }
    }
  }
}
