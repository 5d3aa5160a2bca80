/** `Document` (packages/pdf-core/src/core/Document.ts): a facade that is
    unloaded until `load` succeeds and then holds the engine's document
    handle. The loader and engine answers are inputs; each method also
    returns what it asked the engine for. */
module Documents {
  import opened Common
  import opened Pages

  /** `Number.isInteger` on a finite number. */
  predicate IsInteger(x: real)
  {
    x.Floor as real == x
  }

  /** The guards of `getPage(pageNumber)`, in the source's order: first
      "is a document loaded" (`numPages` is `None` when not), then "is the
      number an integer between 1 and the page count". On success, the page
      number to ask the engine for. */
  function CheckPageRequest(numPages: Option<nat>, pageNumber: real): (r: Result<int>)
    ensures numPages.None? ==> r == Err(PdfError(LoadingError))
    ensures numPages.Some? ==> (r.Ok? <==> IsInteger(pageNumber) && 1.0 <= pageNumber <= numPages.value as real)
    ensures numPages.Some? && r.Err? ==> r.error == PdfError(PageError)
    ensures r.Ok? ==> r.value as real == pageNumber && 1 <= r.value
  {
    match numPages
    case None => Err(PdfError(LoadingError))
    case Some(count) =>
      if !IsInteger(pageNumber) || pageNumber < 1.0 || pageNumber > count as real then Err(PdfError(PageError))
      else Ok(pageNumber.Floor)
  }

  /** Every page of a loaded document passes the guards as itself, and no
      number outside 1..numPages does. */
  lemma PageRequestRange(numPages: nat, n: int)
    ensures CheckPageRequest(Some(numPages), n as real) == if 1 <= n <= numPages then Ok(n) else Err(PdfError(PageError))
  {
    assert IsInteger(n as real);
  }

  class Document {
    var pdfDocument: DocumentProxy?
    const url: string

    constructor (url: string)
      ensures pdfDocument == null && this.url == url
    {
      pdfDocument := null;
      this.url := url;
    }

    /** `numPages`: 0 while unloaded, the engine's count once loaded. */
    function NumPages(): (n: nat)
      reads this
      ensures pdfDocument == null ==> n == 0
      ensures pdfDocument != null ==> n == pdfDocument.numPages
    {
      if pdfDocument == null then 0 else pdfDocument.numPages
    }

    /** The loaded document's page count, or `None` while unloaded. */
    function LoadedPageCount(): Option<nat>
      reads this
    {
      if pdfDocument == null then None else Some(pdfDocument.numPages)
    }

    /** `load()`: `loaderSucceeds` says whether loading PDF.js succeeded and
        `engineReply` is the engine's document (null when it failed). The
        handle is assigned only after the engine resolves; any failure is a
        LOADING_ERROR and leaves the handle as it was. */
    method Load(loaderSucceeds: bool, engineReply: DocumentProxy?) returns (r: Outcome, asked: Option<string>)
      modifies this`pdfDocument
      ensures asked == if loaderSucceeds then Some(url) else None
      ensures r == Pass <==> loaderSucceeds && engineReply != null
      ensures r.Fail? ==> r.error == PdfError(LoadingError) && pdfDocument == old(pdfDocument)
      ensures r == Pass ==> pdfDocument == engineReply && NumPages() == engineReply.numPages
    {
      if !loaderSucceeds {
        return Fail(PdfError(LoadingError)), None;
      }
      asked := Some(url);
      if engineReply == null {
        return Fail(PdfError(LoadingError)), asked;
      }
      pdfDocument := engineReply;
      r := Pass;
    }

    /** `getPage(pageNumber)`: the guards run before the engine is asked,
        the engine is asked for exactly the requested page, and its failure
        is a PAGE_ERROR. The page is constructed with the engine page alone,
        without a scale getter. */
    method GetPage(pageNumber: real, engineReply: PageProxy?) returns (r: Result<Page>, asked: Option<int>)
      ensures CheckPageRequest(LoadedPageCount(), pageNumber).Err? ==>
                asked == None && r == Err(CheckPageRequest(LoadedPageCount(), pageNumber).error)
      ensures CheckPageRequest(LoadedPageCount(), pageNumber).Ok? ==>
                asked == Some(CheckPageRequest(LoadedPageCount(), pageNumber).value)
      ensures asked.Some? && engineReply == null ==> r == Err(PdfError(PageError))
      ensures asked.Some? && engineReply != null ==>
                r.Ok? && fresh(r.value) && r.value.page == engineReply && !r.value.hasScaleGetter &&
                r.value.visibilityManager == null && !r.value.isVisible && r.value.pendingCanvas == null &&
                r.value.pendingRenderOptions == None
    {
      var check := CheckPageRequest(LoadedPageCount(), pageNumber);
      if check.Err? {
        return Err(check.error), None;
      }
      asked := Some(check.value);
      if engineReply == null {
        return Err(PdfError(PageError)), asked;
      }
      var p := new Page(engineReply, false);
      r := Ok(p);
    }

    /** `destroy()`: a LOADING_ERROR while unloaded; otherwise the engine's
        `destroy` is called and the handle (and so `numPages`) is kept. */
    method Destroy() returns (r: Outcome)
      modifies pdfDocument
      ensures pdfDocument == old(pdfDocument)
      ensures pdfDocument == null ==> r == Fail(PdfError(LoadingError))
      ensures pdfDocument != null ==> r == Pass && pdfDocument.destroyCalls == old(pdfDocument.destroyCalls) + 1
    {
      if pdfDocument == null {
        return Fail(PdfError(LoadingError));
      }
      pdfDocument.destroyCalls := pdfDocument.destroyCalls + 1;
      r := Pass;
    }
  }

  /** A page obtained from `getPage` has no scale getter, so every render
      of it fails with a RENDERING_ERROR before the engine is asked to
      draw. */
  method PageFromDocumentCannotRender(doc: Document, pageNumber: real, engineReply: PageProxy, canvas: Canvas,
                                      windowRatio: Option<real>, docScale: Option<real>, viewportThrows: bool,
                                      drawSucceeds: bool)
    returns (plan: Option<RenderPlan>)
    modifies canvas`width, canvas`height
    ensures plan.Some? ==> plan.value == RenderPlan(Fail(PdfError(RenderingError)), None)
    ensures CheckPageRequest(doc.LoadedPageCount(), pageNumber).Ok? ==> plan.Some?
  {
    var got, _ := doc.GetPage(pageNumber, engineReply);
    if got.Err? {
      return None;
    }
    var p := got.value;
    var planned := p.Render(canvas, map[], windowRatio, docScale, viewportThrows, drawSucceeds);
    plan := Some(planned);
  }
}
