/** Shared vocabulary of the pdf-core model: optional values, results and the
    error taxonomy, plus stand-ins for the PDF.js objects and DOM elements the
    core talks to. Only the parts of those objects that the core reads or
    writes are represented. */
module Common {

  datatype Option<+T> = None | Some(value: T)

  /** The `kind` a `PDFError` carries. `Unclassified` is a `PDFError` built
      with a message only, as the render manager does. */
  datatype ErrorKind = LoadingError | PageError | RenderingError | Unclassified

  /** A thrown value: the library's own `PDFError`, an error raised by the
      rendering engine and passed on unwrapped, or a plain `Error`. */
  datatype Error = PdfError(kind: ErrorKind) | EngineError | PlainError

  datatype Result<+T> = Ok(value: T) | Err(error: Error)

  /** A call that returns nothing, or throws. */
  datatype Outcome = Pass | Fail(error: Error)

  /** The fields of a PDF.js viewport that the core uses. */
  datatype Viewport = Viewport(width: real, height: real, scale: real)

  /** A loaded PDF.js document. Its `destroy` is counted, nothing else is
      interpreted. */
  class DocumentProxy {
    const numPages: nat
    var destroyCalls: nat

    constructor (numPages: nat)
      ensures this.numPages == numPages && destroyCalls == 0
    {
      this.numPages := numPages;
      destroyCalls := 0;
    }
  }

  /** A PDF.js page. `getViewport` is an uninterpreted function of the scale;
      `cleanup` is counted. */
  class PageProxy {
    const pageNumber: int
    const viewportAt: real -> Viewport
    var cleanupCalls: nat

    constructor (pageNumber: int, viewportAt: real -> Viewport)
      ensures this.pageNumber == pageNumber && this.viewportAt == viewportAt
      ensures cleanupCalls == 0
    {
      this.pageNumber := pageNumber;
      this.viewportAt := viewportAt;
      cleanupCalls := 0;
    }
  }

  /** A DOM element: its `data-page-number` attribute (the integer whose
      decimal text it holds, if set) and its CSS width and height. */
  class Element {
    var dataPageNumber: Option<int>
    var styleWidth: real
    var styleHeight: real

    constructor ()
      ensures dataPageNumber == None && styleWidth == 0.0 && styleHeight == 0.0
    {
      dataPageNumber := None;
      styleWidth, styleHeight := 0.0, 0.0;
    }
  }

  /** A canvas element: whether `getContext('2d')` yields a context, its
      backing-store size and its CSS size. */
  class Canvas {
    const hasContext: bool
    var width: real
    var height: real
    var styleWidth: real
    var styleHeight: real

    constructor (hasContext: bool)
      ensures this.hasContext == hasContext
      ensures width == 0.0 && height == 0.0 && styleWidth == 0.0 && styleHeight == 0.0
    {
      this.hasContext := hasContext;
      width, height, styleWidth, styleHeight := 0.0, 0.0, 0.0, 0.0;
    }
  }

  /** A reading that falls back to 1 when absent. It models both
      `getDocumentScale() ?? 1.0`, where a getter returning null or
      undefined is `None`, and
      `typeof window !== 'undefined' ? window.devicePixelRatio : 1`, where
      `None` stands for "no window". */
  function OrOne(reading: Option<real>): (r: real)
    ensures reading.None? ==> r == 1.0
    ensures reading.Some? ==> r == reading.value
  {
    match reading
    case None => 1.0
    case Some(x) => x
  }

  /** The canvas's backing size is the viewport size times `ratio` and its
      CSS size is the viewport size. */
  predicate SizedFor(c: Canvas, viewport: Viewport, ratio: real)
    reads c
  {
    c.width == viewport.width * ratio && c.height == viewport.height * ratio &&
    c.styleWidth == viewport.width && c.styleHeight == viewport.height
  }

  /** Neither the backing size nor the CSS size of the canvas changed. */
  twostate predicate Unresized(c: Canvas)
    reads c
  {
    c.width == old(c.width) && c.height == old(c.height) &&
    c.styleWidth == old(c.styleWidth) && c.styleHeight == old(c.styleHeight)
  }
}
