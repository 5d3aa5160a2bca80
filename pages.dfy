/** `Page` (packages/pdf-core/src/core/Page.ts): one PDF page bound to the
    document's scale. `render` draws it onto a canvas; the visibility-based
    mode keeps a pending canvas and merged render options and draws only
    while the page is visible. The engine's `getViewport` is the page
    proxy's function of the scale, the outcome of its `render` call is an
    input, and what the page does in the order it does it is returned as a
    list of actions. */
module Pages {
  import opened Common
  import opened Visibility

  /** A value stored in `IRenderOptions`. `undefined` and `null` are kept
      apart from absence because a spread copies them. */
  datatype OptionValue = Undefined | Null | Number(x: real)

  /** `IRenderOptions`: option name to value. */
  type RenderOptions = map<string, OptionValue>

  /** `{ ...older, ...newer }`: every key of `newer` wins, every other key
      of `older` is kept. */
  function Merge(older: RenderOptions, newer: RenderOptions): (m: RenderOptions)
    ensures m.Keys == older.Keys + newer.Keys
    ensures forall k :: k in newer ==> m[k] == newer[k]
    ensures forall k :: k in older && k !in newer ==> m[k] == older[k]
  {
    older + newer
  }

  /** Merging the same update again changes nothing, and two updates in a
      row amount to one update with their own merge. */
  lemma MergeLaws(a: RenderOptions, b: RenderOptions, c: RenderOptions)
    ensures Merge(Merge(a, b), b) == Merge(a, b)
    ensures Merge(Merge(a, b), c) == Merge(a, Merge(b, c))
  {
  }

  /** `options.pixelRatio ?? (typeof window !== 'undefined' ? devicePixelRatio : 1)`. */
  function PixelRatio(options: RenderOptions, windowRatio: Option<real>): (r: real)
    ensures "pixelRatio" in options && options["pixelRatio"].Number? ==> r == options["pixelRatio"].x
    ensures !("pixelRatio" in options && options["pixelRatio"].Number?) && windowRatio.Some? ==> r == windowRatio.value
    ensures !("pixelRatio" in options && options["pixelRatio"].Number?) && windowRatio.None? ==> r == 1.0
  {
    if "pixelRatio" in options && options["pixelRatio"].Number? then options["pixelRatio"].x
    else OrOne(windowRatio)
  }

  /** What `render` decides, given the page, the canvas and the engine's
      answer: the viewport the engine is asked to draw with (none when the
      call never reaches the engine) and the outcome. */
  datatype RenderPlan = RenderPlan(outcome: Outcome, drawn: Option<Viewport>)

  /** `render(canvas, options)`: the viewport is computed first, calling
      the scale getter (a page built without one throws a TypeError here)
      and then the engine's `getViewport` (which throws when
      `viewportThrows`); then the 2D context is fetched, then the engine
      draws. Every failure, wherever it arises, comes out as a
      RENDERING_ERROR. */
  function PlanRender(hasScaleGetter: bool, viewportThrows: bool, docScale: Option<real>, viewportAt: real -> Viewport,
                      hasContext: bool, drawSucceeds: bool): (p: RenderPlan)
    ensures p.outcome.Fail? ==> p.outcome.error == PdfError(RenderingError)
    ensures p.drawn.Some? <==> hasScaleGetter && !viewportThrows && hasContext
    ensures p.drawn.Some? ==> p.drawn.value == viewportAt(OrOne(docScale))
    ensures p.outcome == Pass <==> p.drawn.Some? && drawSucceeds
  {
    if !hasScaleGetter || viewportThrows then RenderPlan(Fail(PdfError(RenderingError)), None)
    else
      var viewport := viewportAt(OrOne(docScale));
      if !hasContext then RenderPlan(Fail(PdfError(RenderingError)), None)
      else if !drawSucceeds then RenderPlan(Fail(PdfError(RenderingError)), Some(viewport))
      else RenderPlan(Pass, Some(viewport))
  }

  /** `pendingRenderOptions ?? {}`. */
  function OptionsOrEmpty(stored: Option<RenderOptions>): (o: RenderOptions)
    ensures stored.None? ==> o == map[]
    ensures stored.Some? ==> o == stored.value
  {
    match stored
    case None => map[]
    case Some(x) => x
  }

  /** The visibility callbacks a page hands to its visibility manager: the
      handler `setupVisibilityBasedRendering` builds (holding the user's
      callback, if any), or a caller's own callback. */
  datatype PageCallback =
    | VisibilityHandler(onVisibilityChange: Option<nat>)
    | ExternalCallback(id: nat)

  /** What the page does that can be seen from outside, in order. */
  datatype PageAction =
    | NotifiedUser(callback: nat, pageNumber: int, visible: bool, intersectionRatio: real)
    | Drew(canvas: Canvas, viewport: Viewport)
    | Cleared(canvas: Canvas)
    | LoggedFailure(pageNumber: int)

  /** The user's callback invocation, when there is a user callback. */
  function Notification(onVisibilityChange: Option<nat>, pageNumber: int, visible: bool, ratio: real): seq<PageAction>
  {
    match onVisibilityChange
    case None => []
    case Some(cb) => [NotifiedUser(cb, pageNumber, visible, ratio)]
  }

  /** The actions of one render attempt whose failure is only logged. */
  function RenderActions(canvas: Canvas, plan: RenderPlan, pageNumber: int): seq<PageAction>
  {
    (if plan.drawn.Some? then [Drew(canvas, plan.drawn.value)] else []) +
    (if plan.outcome.Fail? then [LoggedFailure(pageNumber)] else [])
  }

  /** No draw without the page being visible: the visibility handler's
      actions hold a draw only when the report said visible, and with a user
      callback the callback always comes first. */
  lemma {:induction false} HandlerDrawsOnlyWhenVisible(onVisibilityChange: Option<nat>, pageNumber: int, visible: bool,
                                                       ratio: real, canvas: Canvas, plan: RenderPlan)
    ensures var actions := Notification(onVisibilityChange, pageNumber, visible, ratio) +
                           (if visible then RenderActions(canvas, plan, pageNumber)
                            else if canvas.hasContext then [Cleared(canvas)] else []);
            (forall k :: 0 <= k < |actions| && actions[k].Drew? ==> visible) &&
            (onVisibilityChange.Some? ==> actions[0] == NotifiedUser(onVisibilityChange.value, pageNumber, visible, ratio)) &&
            (!visible ==> forall k :: 0 <= k < |actions| ==> !actions[k].LoggedFailure?)
  {
    var n := Notification(onVisibilityChange, pageNumber, visible, ratio);
    var rest := if visible then RenderActions(canvas, plan, pageNumber)
                else if canvas.hasContext then [Cleared(canvas)] else [];
    var actions := n + rest;
    forall k | 0 <= k < |actions| && actions[k].Drew?
      ensures visible
    {
      if k < |n| {
        assert actions[k] == n[k];
      } else {
        assert actions[k] == rest[k - |n|];
      }
    }
    forall k | 0 <= k < |actions| && !visible
      ensures !actions[k].LoggedFailure?
    {
      if k < |n| {
        assert actions[k] == n[k];
      } else {
        assert actions[k] == rest[k - |n|];
      }
    }
  }

  class Page {
    const page: PageProxy
    /** Whether a `getDocumentScale` function was passed to the constructor. */
    const hasScaleGetter: bool
    var visibilityManager: VisibilityManager?<PageCallback>
    var isVisible: bool
    var pendingCanvas: Canvas?
    var pendingRenderOptions: Option<RenderOptions>

    ghost predicate Valid()
      reads this, visibilityManager
    {
      visibilityManager != null ==> visibilityManager.Valid()
    }

    constructor (page: PageProxy, hasScaleGetter: bool)
      ensures Valid()
      ensures this.page == page && this.hasScaleGetter == hasScaleGetter
      ensures visibilityManager == null && !isVisible && pendingCanvas == null && pendingRenderOptions == None
    {
      this.page := page;
      this.hasScaleGetter := hasScaleGetter;
      visibilityManager := null;
      isVisible := false;
      pendingCanvas := null;
      pendingRenderOptions := None;
    }

    /** The pending canvas, as a set: empty when none is pending. */
    function PendingCanvases(): set<Canvas>
      reads this
    {
      if pendingCanvas == null then {} else {pendingCanvas}
    }

    /** `pageNumber`: the engine page's number. */
    function PageNumber(): (n: int)
      ensures n == page.pageNumber
    {
      page.pageNumber
    }

    /** `render(canvas, options)`. `docScale` is what the document's scale
        getter returns, `windowRatio` the window's device pixel ratio (none
        outside a browser), `viewportThrows` whether the engine's
        `getViewport` throws, `drawSucceeds` the engine's outcome. The
        backing size is the viewport size times the pixel ratio, set only
        once a context was obtained. */
    method Render(canvas: Canvas, options: RenderOptions, windowRatio: Option<real>, docScale: Option<real>,
                  viewportThrows: bool, drawSucceeds: bool)
      returns (plan: RenderPlan)
      modifies canvas`width, canvas`height
      ensures plan == PlanRender(hasScaleGetter, viewportThrows, docScale, page.viewportAt, canvas.hasContext, drawSucceeds)
      ensures plan.drawn.Some? ==>
                canvas.width == plan.drawn.value.width * PixelRatio(options, windowRatio) &&
                canvas.height == plan.drawn.value.height * PixelRatio(options, windowRatio)
      ensures plan.drawn.None? ==> canvas.width == old(canvas.width) && canvas.height == old(canvas.height)
    {
      var pixelRatio := PixelRatio(options, windowRatio);
      if !hasScaleGetter || viewportThrows {
        return RenderPlan(Fail(PdfError(RenderingError)), None);
      }
      var viewport := page.viewportAt(OrOne(docScale));
      if !canvas.hasContext {
        return RenderPlan(Fail(PdfError(RenderingError)), None);
      }
      canvas.width := viewport.width * pixelRatio;
      canvas.height := viewport.height * pixelRatio;
      if !drawSucceeds {
        return RenderPlan(Fail(PdfError(RenderingError)), Some(viewport));
      }
      plan := RenderPlan(Pass, Some(viewport));
    }

    /** `observeVisibility(element, callback, options)`: the visibility
        manager is created on the first call only, so the first call's
        options are the ones it keeps; the element is tagged with the page
        number whether or not an observer exists. */
    method ObserveVisibility(element: Element, callback: PageCallback, options: Option<VisibilityOptions>,
                             hasObserverApi: bool)
      requires Valid()
      modifies this`visibilityManager, visibilityManager, element`dataPageNumber
      ensures Valid() && visibilityManager != null
      ensures old(visibilityManager) != null ==> visibilityManager == old(visibilityManager)
      ensures old(visibilityManager) == null ==>
                fresh(visibilityManager) &&
                visibilityManager.defaultOptions == (match options case None => NoOptions case Some(o) => o) &&
                (visibilityManager.observer.Some? <==> hasObserverApi)
      ensures element.dataPageNumber == Some(page.pageNumber)
      ensures old(visibilityManager) != null && old(visibilityManager.observer).Some? ==>
                visibilityManager.callbacks == old(visibilityManager.callbacks)[element := callback] &&
                visibilityManager.observer ==
                  Some(old(visibilityManager.observer).value.(targets := old(visibilityManager.observer).value.targets + {element}))
      ensures old(visibilityManager) != null && old(visibilityManager.observer).None? ==>
                visibilityManager.callbacks == old(visibilityManager.callbacks) && visibilityManager.observer == None
      ensures old(visibilityManager) == null ==>
                visibilityManager.callbacks == (if hasObserverApi then map[element := callback] else map[]) &&
                visibilityManager.observer ==
                  if hasObserverApi then Some(Observer(ResolveOptions(visibilityManager.defaultOptions), {element})) else None
      ensures visibilityManager.observer.Some? ==>
                element in visibilityManager.callbacks && visibilityManager.callbacks[element] == callback
    {
      if visibilityManager == null {
        visibilityManager := new VisibilityManager(hasObserverApi, match options case None => NoOptions case Some(o) => o);
      }
      element.dataPageNumber := Some(page.pageNumber);
      visibilityManager.Observe(element, callback);
      assert {} + {element} == {element};
    }

    /** `unobserveVisibility(element)`: forwarded when a manager exists. */
    method UnobserveVisibility(element: Element)
      requires Valid()
      modifies visibilityManager
      ensures Valid()
      ensures visibilityManager != null && old(visibilityManager.observer).Some? ==>
                visibilityManager.callbacks == old(visibilityManager.callbacks) - {element} &&
                visibilityManager.observer ==
                  Some(old(visibilityManager.observer).value.(targets := old(visibilityManager.observer).value.targets - {element}))
      ensures visibilityManager != null && old(visibilityManager.observer).None? ==>
                visibilityManager.callbacks == old(visibilityManager.callbacks) && visibilityManager.observer == None
    {
      if visibilityManager != null {
        visibilityManager.Unobserve(element);
      }
    }

    /** `setupVisibilityBasedRendering(canvas, element, options)`: the
        canvas and the render options (or `{}`) become pending, and the
        handler holding the user's callback observes the element. */
    method SetupVisibilityBasedRendering(canvas: Canvas, element: Element, renderOptions: Option<RenderOptions>,
                                         visibilityOptions: Option<VisibilityOptions>, onVisibilityChange: Option<nat>,
                                         hasObserverApi: bool)
      requires Valid()
      modifies this`pendingCanvas, this`pendingRenderOptions, this`visibilityManager, visibilityManager
      modifies element`dataPageNumber
      ensures Valid() && visibilityManager != null
      ensures pendingCanvas == canvas && isVisible == old(isVisible)
      ensures pendingRenderOptions == Some(match renderOptions case None => map[] case Some(o) => o)
      ensures element.dataPageNumber == Some(page.pageNumber)
      ensures old(visibilityManager) != null ==> visibilityManager == old(visibilityManager)
      ensures old(visibilityManager) != null && old(visibilityManager.observer).Some? ==>
                visibilityManager.callbacks == old(visibilityManager.callbacks)[element := VisibilityHandler(onVisibilityChange)] &&
                visibilityManager.observer ==
                  Some(old(visibilityManager.observer).value.(targets := old(visibilityManager.observer).value.targets + {element}))
      ensures old(visibilityManager) != null && old(visibilityManager.observer).None? ==>
                visibilityManager.callbacks == old(visibilityManager.callbacks) && visibilityManager.observer == None
      ensures old(visibilityManager) == null ==>
                fresh(visibilityManager) &&
                visibilityManager.defaultOptions == (match visibilityOptions case None => NoOptions case Some(o) => o) &&
                visibilityManager.callbacks ==
                  (if hasObserverApi then map[element := VisibilityHandler(onVisibilityChange)] else map[]) &&
                visibilityManager.observer ==
                  if hasObserverApi then Some(Observer(ResolveOptions(visibilityManager.defaultOptions), {element})) else None
    {
      pendingCanvas := canvas;
      pendingRenderOptions := Some(match renderOptions case None => map[] case Some(o) => o);
      ObserveVisibility(element, VisibilityHandler(onVisibilityChange), visibilityOptions, hasObserverApi);
    }

    /** The handler built by `setupVisibilityBasedRendering`, called with a
        visibility report: it records the visibility, calls the user's
        callback, and then, if a canvas is pending, renders it when visible
        (a failure is logged, not thrown) or clears it when hidden. When the
        user's callback throws (`callbackThrows`), the handler stops right
        after it: nothing is rendered or cleared. */
    method HandleVisibilityChange(onVisibilityChange: Option<nat>, callbackThrows: bool, pageNumber: int, visible: bool,
                                  ratio: real, windowRatio: Option<real>, docScale: Option<real>,
                                  viewportThrows: bool, drawSucceeds: bool)
      returns (actions: seq<PageAction>)
      modifies this`isVisible, PendingCanvases()`width, PendingCanvases()`height
      ensures isVisible == visible
      ensures pendingCanvas == null || (onVisibilityChange.Some? && callbackThrows) ==>
                actions == Notification(onVisibilityChange, pageNumber, visible, ratio)
      ensures pendingCanvas != null && (!visible || (onVisibilityChange.Some? && callbackThrows)) ==>
                pendingCanvas.width == old(pendingCanvas.width) && pendingCanvas.height == old(pendingCanvas.height)
      ensures pendingCanvas != null && !(onVisibilityChange.Some? && callbackThrows) && !visible ==>
                actions == Notification(onVisibilityChange, pageNumber, visible, ratio) +
                           (if pendingCanvas.hasContext then [Cleared(pendingCanvas)] else [])
      ensures pendingCanvas != null && !(onVisibilityChange.Some? && callbackThrows) && visible ==>
                var plan := PlanRender(hasScaleGetter, viewportThrows, docScale, page.viewportAt,
                                       pendingCanvas.hasContext, drawSucceeds);
                actions == Notification(onVisibilityChange, pageNumber, visible, ratio) +
                           RenderActions(pendingCanvas, plan, pageNumber) &&
                (plan.drawn.Some? ==>
                   pendingCanvas.width == plan.drawn.value.width * PixelRatio(OptionsOrEmpty(pendingRenderOptions), windowRatio) &&
                   pendingCanvas.height == plan.drawn.value.height * PixelRatio(OptionsOrEmpty(pendingRenderOptions), windowRatio)) &&
                (plan.drawn.None? ==>
                   pendingCanvas.width == old(pendingCanvas.width) && pendingCanvas.height == old(pendingCanvas.height))
    {
      isVisible := visible;
      actions := Notification(onVisibilityChange, pageNumber, visible, ratio);
      if onVisibilityChange.Some? && callbackThrows {
        return;
      }
      if pendingCanvas != null {
        if visible {
          var plan := Render(pendingCanvas, OptionsOrEmpty(pendingRenderOptions), windowRatio, docScale,
                             viewportThrows, drawSucceeds);
          actions := actions + RenderActions(pendingCanvas, plan, pageNumber);
        } else if pendingCanvas.hasContext {
          actions := actions + [Cleared(pendingCanvas)];
        }
      }
    }

    /** `updateRenderOptions(options)`: the new options are merged over the
        stored ones; the page re-renders only when it is visible and has a
        pending canvas (a failure is logged). */
    method UpdateRenderOptions(options: RenderOptions, windowRatio: Option<real>, docScale: Option<real>,
                               viewportThrows: bool, drawSucceeds: bool)
      returns (actions: seq<PageAction>)
      modifies this`pendingRenderOptions, PendingCanvases()`width, PendingCanvases()`height
      ensures pendingRenderOptions == Some(Merge(OptionsOrEmpty(old(pendingRenderOptions)), options))
      ensures !(isVisible && pendingCanvas != null) ==> actions == []
      ensures pendingCanvas != null && !isVisible ==>
                pendingCanvas.width == old(pendingCanvas.width) && pendingCanvas.height == old(pendingCanvas.height)
      ensures isVisible && pendingCanvas != null ==>
                var plan := PlanRender(hasScaleGetter, viewportThrows, docScale, page.viewportAt,
                                       pendingCanvas.hasContext, drawSucceeds);
                actions == RenderActions(pendingCanvas, plan, page.pageNumber) &&
                (plan.drawn.Some? ==>
                   pendingCanvas.width == plan.drawn.value.width * PixelRatio(pendingRenderOptions.value, windowRatio) &&
                   pendingCanvas.height == plan.drawn.value.height * PixelRatio(pendingRenderOptions.value, windowRatio)) &&
                (plan.drawn.None? ==>
                   pendingCanvas.width == old(pendingCanvas.width) && pendingCanvas.height == old(pendingCanvas.height))
    {
      pendingRenderOptions := Some(Merge(OptionsOrEmpty(pendingRenderOptions), options));
      actions := [];
      if isVisible && pendingCanvas != null {
        var plan := Render(pendingCanvas, pendingRenderOptions.value, windowRatio, docScale, viewportThrows, drawSucceeds);
        actions := RenderActions(pendingCanvas, plan, page.pageNumber);
      }
    }

    /** `destroy()`: the visibility manager, if any, is torn down and the
        engine page is cleaned up. */
    method Destroy()
      requires Valid()
      modifies visibilityManager, page`cleanupCalls
      ensures Valid()
      ensures visibilityManager != null ==> visibilityManager.observer == None && visibilityManager.callbacks == map[]
      ensures page.cleanupCalls == old(page.cleanupCalls) + 1
    {
      if visibilityManager != null {
        visibilityManager.Destroy();
      }
      page.cleanupCalls := page.cleanupCalls + 1;
    }
  }
}
