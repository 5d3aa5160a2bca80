/** `RenderManager` (packages/pdf-core/src/core/RenderManager.ts): per-page
    render bookkeeping. It remembers every canvas it has set up with the
    viewport that canvas was last drawn with, the scale of the last
    refresh, and its own lazily created visibility observer. The engine's
    `getViewport` is the page proxy's function of the scale and the outcome
    of each engine draw is an input. */
module Rendering {
  import opened Common
  import opened Visibility

  /** The visibility callbacks this manager stores: the closure `render`
      builds (it captured the canvas and the viewport of that call), or a
      caller's own callback. */
  datatype RenderCallback =
    | DrawOnVisible(canvas: Canvas, viewport: Viewport)
    | ExternalCallback(id: nat)

  /** The rendered-canvas map after a refresh with viewport `viewport`: each
      canvas whose draw succeeded (it has a 2D context and the engine draw
      went through) records the new viewport, every other one keeps its
      old entry, and no canvas is added or dropped. */
  function Refreshed(rendered: map<Canvas, Viewport>, viewport: Viewport, engineSucceeds: set<Canvas>)
    : (m: map<Canvas, Viewport>)
    ensures m.Keys == rendered.Keys
    ensures forall c :: c in rendered && c.hasContext && c in engineSucceeds ==> m[c] == viewport
    ensures forall c :: c in rendered && !(c.hasContext && c in engineSucceeds) ==> m[c] == rendered[c]
  {
    map c | c in rendered :: if c.hasContext && c in engineSucceeds then viewport else rendered[c]
  }

  /** A refresh in which every draw fails changes nothing, and refreshing
      again with the same viewport and outcomes changes nothing more. */
  lemma RefreshedLaws(rendered: map<Canvas, Viewport>, viewport: Viewport, engineSucceeds: set<Canvas>)
    ensures Refreshed(rendered, viewport, {}) == rendered
    ensures Refreshed(Refreshed(rendered, viewport, engineSucceeds), viewport, engineSucceeds)
         == Refreshed(rendered, viewport, engineSucceeds)
  {
  }

  class RenderManager {
    const page: PageProxy
    var observer: Option<Observer>
    var callbacks: map<Element, RenderCallback>
    /** `defaultVisibilityOptions`: initialised to `{}` and never assigned. */
    const defaultVisibilityOptions: VisibilityOptions
    var renderedCanvases: map<Canvas, Viewport>
    var lastScale: real

    /** Without an observer nothing is registered; with one, the registry
        and the observed set agree. */
    ghost predicate Valid()
      reads this
    {
      match observer
      case None => callbacks == map[]
      case Some(o) => callbacks.Keys == o.targets
    }

    /** `docScale` is what the document's scale getter returns now;
        `lastScale` starts at the current scale. */
    constructor (page: PageProxy, docScale: Option<real>)
      ensures Valid() && this.page == page
      ensures observer == None && callbacks == map[] && renderedCanvases == map[]
      ensures defaultVisibilityOptions == NoOptions
      ensures lastScale == OrOne(docScale)
    {
      this.page := page;
      observer := None;
      callbacks := map[];
      defaultVisibilityOptions := NoOptions;
      renderedCanvases := map[];
      lastScale := OrOne(docScale);
    }

    /** `getViewport()`: the engine's viewport at the current scale, the
        getter's value or 1.0 when it gives null or undefined. */
    function ViewportAt(docScale: Option<real>): (v: Viewport)
      ensures docScale.None? ==> v == page.viewportAt(1.0)
      ensures docScale.Some? ==> v == page.viewportAt(docScale.value)
    {
      page.viewportAt(OrOne(docScale))
    }

    /** `observeVisibility(element, callback, options)`: the observer is
        created when there is none (with these options) and the environment
        offers IntersectionObserver; without an observer nothing is
        registered and the element is not tagged. */
    method ObserveVisibility(element: Element, callback: RenderCallback, options: Option<VisibilityOptions>,
                             hasObserverApi: bool)
      requires Valid()
      modifies this`observer, this`callbacks, element`dataPageNumber
      ensures Valid()
      ensures old(observer).Some? ==> observer.Some? && observer.value.init == old(observer).value.init
      ensures old(observer).None? && hasObserverApi ==>
                observer.Some? && observer.value.init == ResolveLayered(options, defaultVisibilityOptions)
      ensures old(observer).None? && !hasObserverApi ==>
                observer == None && callbacks == old(callbacks) && element.dataPageNumber == old(element.dataPageNumber)
      ensures observer.Some? ==>
                element.dataPageNumber == Some(page.pageNumber) && callbacks == old(callbacks)[element := callback] &&
                observer.value.targets == (if old(observer).Some? then old(observer).value.targets else {}) + {element}
    {
      if observer.None? && hasObserverApi {
        observer := Some(Observer(ResolveLayered(options, defaultVisibilityOptions), {}));
      }
      if observer.None? {
        return;
      }
      element.dataPageNumber := Some(page.pageNumber);
      callbacks := callbacks[element := callback];
      observer := Some(observer.value.(targets := observer.value.targets + {element}));
    }

    /** `unobserveVisibility(element)`: removes that element only; a no-op
        without an observer. */
    method UnobserveVisibility(element: Element)
      requires Valid()
      modifies this`observer, this`callbacks
      ensures Valid()
      ensures old(observer).None? ==> observer == None && callbacks == old(callbacks)
      ensures old(observer).Some? ==>
                callbacks == old(callbacks) - {element} &&
                observer == Some(old(observer).value.(targets := old(observer).value.targets - {element}))
    {
      if observer.None? {
        return;
      }
      callbacks := callbacks - {element};
      observer := Some(observer.value.(targets := observer.value.targets - {element}));
    }

    /** `render(container, canvas)`: the viewport is computed now, the
        container takes its size, the visibility closure capturing this
        canvas and this viewport is registered, and the canvas is recorded
        with this viewport at once, whether or not it is ever drawn. When
        the engine's `getViewport` throws (`viewportThrows`), the `catch`
        rethrows it as a `PDFError` carrying only a message, before anything
        has changed. */
    method Render(container: Element, canvas: Canvas, docScale: Option<real>, hasObserverApi: bool,
                  viewportThrows: bool)
      returns (r: Result<Viewport>)
      requires Valid()
      modifies this`observer, this`callbacks, this`renderedCanvases
      modifies container`styleWidth, container`styleHeight, container`dataPageNumber
      ensures Valid()
      ensures lastScale == old(lastScale)
      ensures viewportThrows ==>
                r == Err(PdfError(Unclassified)) && observer == old(observer) && callbacks == old(callbacks) &&
                renderedCanvases == old(renderedCanvases) &&
                container.styleWidth == old(container.styleWidth) && container.styleHeight == old(container.styleHeight) &&
                container.dataPageNumber == old(container.dataPageNumber)
      ensures !viewportThrows ==>
                r == Ok(ViewportAt(docScale)) &&
                (observer.Some? <==> old(observer).Some? || hasObserverApi) &&
                (old(observer).Some? ==> observer.value.init == old(observer).value.init) &&
                (old(observer).None? && hasObserverApi ==>
                   observer.value.init == ResolveLayered(None, defaultVisibilityOptions)) &&
                container.styleWidth == r.value.width && container.styleHeight == r.value.height &&
                renderedCanvases == old(renderedCanvases)[canvas := r.value] &&
                (observer.Some? ==>
                   container.dataPageNumber == Some(page.pageNumber) &&
                   callbacks == old(callbacks)[container := DrawOnVisible(canvas, r.value)]) &&
                (observer.None? ==> callbacks == old(callbacks) && container.dataPageNumber == old(container.dataPageNumber))
    {
      if viewportThrows {
        return Err(PdfError(Unclassified));
      }
      var viewport := ViewportAt(docScale);
      container.styleWidth, container.styleHeight := viewport.width, viewport.height;
      ObserveVisibility(container, DrawOnVisible(canvas, viewport), None, hasObserverApi);
      renderedCanvases := renderedCanvases[canvas := viewport];
      r := Ok(viewport);
    }

    /** `renderToCanvas(canvas, viewport)`: without a 2D context it throws
        before touching the canvas or calling the engine; otherwise the
        backing size is the viewport size times the device pixel ratio (1
        outside a browser), the CSS size is the viewport size, and the
        engine draws. Returns whether the engine was asked to draw. */
    method RenderToCanvas(canvas: Canvas, viewport: Viewport, windowRatio: Option<real>, drawSucceeds: bool)
      returns (r: Outcome, drew: bool)
      modifies canvas`width, canvas`height, canvas`styleWidth, canvas`styleHeight
      ensures drew == canvas.hasContext
      ensures !canvas.hasContext ==> r == Fail(PdfError(Unclassified)) && Unresized(canvas)
      ensures canvas.hasContext ==>
                SizedFor(canvas, viewport, OrOne(windowRatio)) && r == (if drawSucceeds then Pass else Fail(EngineError))
    {
      if !canvas.hasContext {
        return Fail(PdfError(Unclassified)), false;
      }
      var pixelRatio := OrOne(windowRatio);
      canvas.width := viewport.width * pixelRatio;
      canvas.height := viewport.height * pixelRatio;
      canvas.styleWidth := viewport.width;
      canvas.styleHeight := viewport.height;
      drew := true;
      r := if drawSucceeds then Pass else Fail(EngineError);
    }

    /** The closure `render` registered, called with a visibility report:
        when visible it draws with the viewport captured at `render` time
        and, if that succeeded, records the canvas with it again; when the
        draw fails the callback's promise rejects and nothing is recorded. */
    method RunDrawOnVisible(canvas: Canvas, viewport: Viewport, isVisible: bool, windowRatio: Option<real>,
                            drawSucceeds: bool)
      returns (r: Outcome, drew: bool)
      modifies this`renderedCanvases, canvas`width, canvas`height, canvas`styleWidth, canvas`styleHeight
      ensures drew == (isVisible && canvas.hasContext)
      ensures !isVisible ==> r == Pass
      ensures isVisible ==>
                r == (if !canvas.hasContext then Fail(PdfError(Unclassified))
                      else if drawSucceeds then Pass else Fail(EngineError))
      ensures !drew ==> Unresized(canvas)
      ensures drew ==> SizedFor(canvas, viewport, OrOne(windowRatio))
      ensures renderedCanvases == if isVisible && canvas.hasContext && drawSucceeds then old(renderedCanvases)[canvas := viewport]
                                  else old(renderedCanvases)
    {
      r, drew := Pass, false;
      if isVisible {
        r, drew := RenderToCanvas(canvas, viewport, windowRatio, drawSucceeds);
        if r == Pass {
          renderedCanvases := renderedCanvases[canvas := viewport];
        }
      }
    }

    /** `refreshAllCanvases()`: one viewport at the current scale; every
        recorded canvas is drawn with it (`engineSucceeds` holds those whose
        engine draw goes through); a failure is logged and the loop goes
        on. When `getViewport` throws (`viewportThrows`) the whole refresh
        rejects before any canvas is touched. Returns the canvases the
        engine was asked to draw. */
    method RefreshAllCanvases(docScale: Option<real>, windowRatio: Option<real>, engineSucceeds: set<Canvas>,
                              viewportThrows: bool)
      returns (r: Outcome, drawn: set<Canvas>)
      modifies this`renderedCanvases, renderedCanvases.Keys
      ensures viewportThrows ==>
                r == Fail(EngineError) && drawn == {} && renderedCanvases == old(renderedCanvases) &&
                forall c :: c in old(renderedCanvases) ==> Unresized(c)
      ensures !viewportThrows ==>
                r == Pass &&
                renderedCanvases == Refreshed(old(renderedCanvases), ViewportAt(docScale), engineSucceeds) &&
                drawn == (set c | c in old(renderedCanvases) && c.hasContext) &&
                (forall c :: c in drawn ==> SizedFor(c, ViewportAt(docScale), OrOne(windowRatio))) &&
                (forall c :: c in old(renderedCanvases) && !c.hasContext ==> Unresized(c))
    {
      drawn := {};
      if viewportThrows {
        return Fail(EngineError), {};
      }
      r := Pass;
      var viewport := ViewportAt(docScale);
      ghost var before := renderedCanvases;
      var remaining := renderedCanvases.Keys;
      while remaining != {}
        invariant remaining <= before.Keys
        invariant renderedCanvases.Keys == before.Keys
        invariant forall c :: c in remaining ==> renderedCanvases[c] == before[c]
        invariant forall c :: c in before && c !in remaining ==>
                    renderedCanvases[c] == Refreshed(before, viewport, engineSucceeds)[c]
        invariant drawn == set c | c in before && c !in remaining && c.hasContext
        invariant forall c :: c in drawn ==> SizedFor(c, viewport, OrOne(windowRatio))
        invariant forall c :: c in before && c !in drawn ==> Unresized(c)
        decreases remaining
      {
        var canvas :| canvas in remaining;
        var outcome, drew := RenderToCanvas(canvas, viewport, windowRatio, canvas in engineSucceeds);
        if outcome == Pass {
          renderedCanvases := renderedCanvases[canvas := viewport];
        }
        if drew {
          drawn := drawn + {canvas};
        }
        remaining := remaining - {canvas};
      }
    }

    /** `refreshIfScaleChanged()`: nothing happens at an unchanged scale;
        otherwise the new scale is recorded FIRST and then every canvas is
        refreshed, so a refresh that rejects leaves the canvases stale with
        the new scale already recorded. */
    method RefreshIfScaleChanged(docScale: Option<real>, windowRatio: Option<real>, engineSucceeds: set<Canvas>,
                                 viewportThrows: bool)
      returns (r: Outcome, drawn: set<Canvas>)
      modifies this`lastScale, this`renderedCanvases, renderedCanvases.Keys
      ensures OrOne(docScale) == old(lastScale) ==>
                r == Pass && drawn == {} && lastScale == old(lastScale) && renderedCanvases == old(renderedCanvases) &&
                forall c :: c in old(renderedCanvases) ==> Unresized(c)
      ensures OrOne(docScale) != old(lastScale) ==> lastScale == OrOne(docScale)
      ensures OrOne(docScale) != old(lastScale) && viewportThrows ==>
                r == Fail(EngineError) && drawn == {} && renderedCanvases == old(renderedCanvases) &&
                forall c :: c in old(renderedCanvases) ==> Unresized(c)
      ensures OrOne(docScale) != old(lastScale) && !viewportThrows ==>
                r == Pass &&
                renderedCanvases == Refreshed(old(renderedCanvases), ViewportAt(docScale), engineSucceeds) &&
                drawn == (set c | c in old(renderedCanvases) && c.hasContext) &&
                (forall c :: c in drawn ==> SizedFor(c, ViewportAt(docScale), OrOne(windowRatio))) &&
                (forall c :: c in old(renderedCanvases) && !c.hasContext ==> Unresized(c))
    {
      r, drawn := Pass, {};
      var current := OrOne(docScale);
      if current != lastScale {
        lastScale := current;
        r, drawn := RefreshAllCanvases(docScale, windowRatio, engineSucceeds, viewportThrows);
      }
    }

    /** `destroy()`: the observer is disconnected and dropped, callbacks and
        recorded canvases are cleared. A later `observeVisibility` creates a
        new observer. */
    method Destroy()
      modifies this`observer, this`callbacks, this`renderedCanvases
      ensures Valid() && observer == None && callbacks == map[] && renderedCanvases == map[]
    {
      observer := None;
      callbacks := map[];
      renderedCanvases := map[];
    }
  }

  /** A refresh whose `getViewport` throws still advances `lastScale`, so a
      later `refreshIfScaleChanged` at that scale, whose engine would now
      answer, does nothing: the canvas keeps the viewport of scale 1.0. */
  method FailedRefreshIsNotRetried(page: PageProxy) returns (recorded: Viewport, lastScale: real, second: set<Canvas>)
    ensures recorded == page.viewportAt(1.0) && lastScale == 2.0 && second == {}
  {
    var m := new RenderManager(page, Some(1.0));
    var container := new Element();
    var canvas := new Canvas(true);
    var _ := m.Render(container, canvas, Some(1.0), false, false);
    var _, _ := m.RefreshIfScaleChanged(Some(2.0), None, {canvas}, true);
    var _, drawn := m.RefreshIfScaleChanged(Some(2.0), None, {canvas}, false);
    recorded, lastScale, second := m.renderedCanvases[canvas], m.lastScale, drawn;
  }

  /** The visibility closure draws with the viewport captured by `render`:
      after a refresh at scale 2.0, the page coming into view redraws at
      scale 1.0's viewport and records it again. */
  method VisibleAfterRefreshUsesCapturedViewport(page: PageProxy)
    returns (afterRefresh: Viewport, afterVisible: Viewport)
    ensures afterRefresh == page.viewportAt(2.0) && afterVisible == page.viewportAt(1.0)
  {
    var m := new RenderManager(page, Some(1.0));
    var container := new Element();
    var canvas := new Canvas(true);
    var _ := m.Render(container, canvas, Some(1.0), true, false);
    var callback := m.callbacks[container];
    var _, _ := m.RefreshAllCanvases(Some(2.0), None, {canvas}, false);
    afterRefresh := m.renderedCanvases[canvas];
    match callback {
      case DrawOnVisible(c, v) =>
        var _, _ := m.RunDrawOnVisible(c, v, true, None, true);
      case ExternalCallback(_) =>
    }
    afterVisible := m.renderedCanvases[canvas];
  }
}
