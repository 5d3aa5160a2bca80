# pdf-core render and zoom bookkeeping, modelled in Dafny

This project models the stateful core of the `pdf-core` package of a React
PDF viewer built on PDF.js. It covers seven parts:

- the event emitter: a table from event name to an ordered list of listeners;
- the zoom manager: a clamped scale with step zoom, reset and a Ctrl+wheel rule;
- the document facade: loaded or unloaded, with ordered `getPage` guards;
- the visibility manager: an element-to-callback registry in front of an optional IntersectionObserver;
- the load-once PDF.js loader;
- the per-page render manager;
- the page facade.

Each source file becomes one module: `Events`, `Zoom`, `Documents`, `Visibility`,
`Pdfjs`, `Rendering` and `Pages`. `Common` holds the shared pieces:
Option/Result, the error kinds, and stand-ins for the PDF.js and DOM objects.

Each class in the source becomes a Dafny class holding the state its
methods change. A method's `modifies` clause names the fields it may
change, and its ensures clauses give their new values. The one exception is
`Events.EventEmitter.Emit`: after a known event's round, the listener table
is left open (see "## Left out"). A few fields
take another form; "## Left out" lists them. Examples: the document-scale
getter becomes an argument, and a stored closure becomes its creation
number. The logic inside them (clamping, the wheel rule, the
page-number guards, first-occurrence removal, options merging, batch dispatch,
the refresh map) is written as functions. Lemmas prove properties of those
functions.

PDF.js is an oracle and is never interpreted. `getViewport` is a function of
the scale stored on the page proxy. Whether a given call of it throws is a
method parameter, and so are the engine's replies and the outcome of every
draw. The browser environment is also passed in as
parameters: whether `window` exists, whether IntersectionObserver exists, and
`devicePixelRatio`. The zoom manager keeps the DOM's wheel listener
registrations as a sequence of (target, handler, capture flag) entries.
`addEventListener` and `removeEventListener` act on them as the DOM does:
a removal matches the target, the handler and the capture flag. The methods whose effect is seen from outside return what they did:
- which listeners were called;
- which URL or page number the engine was asked for;
- which viewport the engine was asked to draw with;
- the page's ordered actions: user callback, draw, clear, logged failure.

Facts about the code that shape the model:
- the zoom manager has no debounce and sends no notifications;
- no core file cancels a render task;
- the visibility manager creates its observer in its constructor, not on first use;
- `getPage` builds a new `Page` on every call and keeps no cache;
- a document's `destroy` calls only the engine's `destroy`;
- `refreshIfScaleChanged` records the new scale before refreshing, so a
  refresh whose `getViewport` throws is not retried at that scale
  (`Rendering.FailedRefreshIsNotRetried`);
- the visibility closure built by `render` draws with the viewport captured
  at that call, also after a refresh at another scale
  (`Rendering.VisibleAfterRefreshUsesCapturedViewport`);
- `enableControls` twice leaves two wheel listeners, and one Ctrl+wheel step
  then zooms twice (`Zoom.EnableTwiceZoomsTwice`).

Other choices:
- `PDFError` takes a single message in `packages/pdf-core/src/types/index.ts`, but
  `Document.ts` and `Page.ts` pass an error kind. The model uses an error-kind
  datatype. `RenderManager.ts` passes only a message, and the model calls that
  kind `Unclassified`.
- `Document.ts:63` constructs `Page` with the engine page alone, so the page has
  no scale getter. When such a page renders, calling the missing getter throws,
  and `render` reports a RENDERING_ERROR before any draw call
  (`Documents.PageFromDocumentCannotRender`).

## Model

| member | source | states |
|---|---|---|
| `Events.IndexOf` | packages/pdf-core/src/utils/EventEmitter.ts:37 | the result is the first index holding the listener, or -1 exactly when it is absent |
| `Events.RemoveFirst` | packages/pdf-core/src/utils/EventEmitter.ts:36-41 | a list without the listener is unchanged; otherwise the first occurrence is spliced out, leaving one element fewer |
| `Events.RemoveFirstOccurrence` | packages/pdf-core/src/utils/EventEmitter.ts:36-41 | the remover deletes the first occurrence only; everything before and after it stays, in order |
| `Events.RemoveAbsent` | packages/pdf-core/src/utils/EventEmitter.ts:37-40 | a remover called when no occurrence remains changes nothing |
| `Events.RemoveFirstMultiset` | packages/pdf-core/src/utils/EventEmitter.ts:36-41 | removal drops exactly one copy of the listener if there is one |
| `Events.Registered` | packages/pdf-core/src/utils/EventEmitter.ts:29-34 | `on` gives its event a list (created empty if new) and leaves every other event's list unchanged |
| `Events.RegisterTwice` | packages/pdf-core/src/utils/EventEmitter.ts:33-34 | registering the same listener twice leaves two more entries for it: no deduplication |
| `Events.RegisterThenRemove` | packages/pdf-core/src/utils/EventEmitter.ts:28-41 | register then remove restores the list; if the listener was already there, its earlier entry goes and the new one stays |
| `Events.CallRemover` | packages/pdf-core/src/utils/EventEmitter.ts:36-41 | a remover edits only the list it captured |
| `Events.EventEmitter.constructor` | packages/pdf-core/src/utils/EventEmitter.ts:8-9 | a new emitter has no events |
| `Events.EventEmitter.On` | packages/pdf-core/src/utils/EventEmitter.ts:28-42 | new table = old table with the listener appended to that event; other lists keep their identity; the remover holds that event's list |
| `Events.EventEmitter.Emit` | packages/pdf-core/src/utils/EventEmitter.ts:56-73 | the listeners called are exactly the pre-call copy, once each and in order, whatever they add or remove; a throwing listener is counted and the round goes on; an unknown event calls nobody and leaves the table and every list as they were |
| `Events.EventEmitter.Destroy` | packages/pdf-core/src/utils/EventEmitter.ts:78-80 | afterwards no event has listeners |
| `Events.RemoverAfterDestroy` | packages/pdf-core/src/utils/EventEmitter.ts:28-80 | a remover obtained before `destroy` does not touch a listener registered afterwards under the same name, even the same listener |
| `Zoom.Clamp` | packages/pdf-core/src/core/ZoomManager.ts:38-41 | with min ≤ max the result is in range; it is x in range, min below, max above; with inverted bounds it is max |
| `Zoom.ClampIdempotent` | packages/pdf-core/src/core/ZoomManager.ts:37-43 | repeating `setScale(x)` leaves the same scale |
| `Zoom.StepDirection` | packages/pdf-core/src/core/ZoomManager.ts:45-51 | from an in-range scale, a step up never lowers it and a step down never raises it; at a bound the step toward it stays there |
| `Zoom.ResetWithDefaultBounds` | packages/pdf-core/src/core/ZoomManager.ts:53-55 | `resetZoom` gives exactly 1.0 with the default bounds 0.25..4.0 |
| `Zoom.WheelScale` | packages/pdf-core/src/core/ZoomManager.ts:65-74 | with Ctrl, deltaY < 0 clamps scale × factor and deltaY > 0 clamps scale ÷ factor; without Ctrl or with deltaY = 0 the scale is unchanged |
| `Zoom.WheelDirection` | packages/pdf-core/src/core/ZoomManager.ts:65-74 | for bounds ≥ 0 and factor ≥ 1 the wheel keeps the scale in bounds; scrolling up never shrinks it and scrolling down never enlarges it |
| `Zoom.WheelRepeatedIgnored` | packages/pdf-core/src/core/ZoomManager.ts:65-74 | an event without Ctrl or with deltaY = 0 leaves the scale however many wheel listeners run |
| `Zoom.TargetOf` | packages/pdf-core/src/core/ZoomManager.ts:60 | the listener target is the element when one is given, else the document |
| `Zoom.RemoveWithoutCaptureMisses` | packages/pdf-core/src/core/ZoomManager.ts:77-87 | a `removeEventListener` that omits the capture flag removes no registration added with `capture: true` |
| `Zoom.ZoomManager.constructor` | packages/pdf-core/src/core/ZoomManager.ts:11-23 | the initial scale is stored unclamped, so the bounds hold at the start only if it is already in range; the defaults are 0.25, 4.0, 1.2 and 0.1 |
| `Zoom.ZoomManager.CurrentScale` | packages/pdf-core/src/core/ZoomManager.ts:25-27 | the stored scale, in bounds whenever the manager is |
| `Zoom.ZoomManager.CanZoomIn` | packages/pdf-core/src/core/ZoomManager.ts:29-31 | within the bounds, true exactly when the scale is not at the maximum |
| `Zoom.ZoomManager.CanZoomOut` | packages/pdf-core/src/core/ZoomManager.ts:33-35 | within the bounds, true exactly when the scale is not at the minimum |
| `Zoom.ZoomManager.SetScale` | packages/pdf-core/src/core/ZoomManager.ts:37-43 | the new scale is the clamped request, within bounds when min ≤ max; after setScale(max) zooming in is impossible, after setScale(min) zooming out is |
| `Zoom.ZoomManager.ZoomIn` | packages/pdf-core/src/core/ZoomManager.ts:45-47 | the same as `setScale(scale + stepSize)`; never lowers an in-range scale |
| `Zoom.ZoomManager.ZoomOut` | packages/pdf-core/src/core/ZoomManager.ts:49-51 | the same as `setScale(scale - stepSize)`; never raises an in-range scale |
| `Zoom.ZoomManager.ResetZoom` | packages/pdf-core/src/core/ZoomManager.ts:53-55 | the same as `setScale(1.0)`; exactly 1.0 whenever the bounds contain it |
| `Zoom.ZoomManager.EnableControls` | packages/pdf-core/src/core/ZoomManager.ts:57-81 | outside a browser nothing changes; otherwise a new closure is stored, overwriting the old one without detaching it, and added with `capture: true` to `element || document` |
| `Zoom.ZoomManager.HandleWheel` | packages/pdf-core/src/core/ZoomManager.ts:62-75 | one handler run: the event is consumed exactly when Ctrl is held, and the new scale follows the wheel rule |
| `Zoom.ZoomManager.DispatchWheel` | packages/pdf-core/src/core/ZoomManager.ts:62-80 | a wheel event on a target runs every listener registered there, in order: the scale is the wheel rule applied once per listener |
| `Zoom.ZoomManager.DisableControls` | packages/pdf-core/src/core/ZoomManager.ts:83-89 | a no-op outside a browser or with no handler; otherwise the slot is emptied, but the removal omits `capture: true`, so every wheel listener stays registered |
| `Zoom.ZoomManager.Destroy` | packages/pdf-core/src/core/ZoomManager.ts:91-93 | `disableControls()` on `document`: the slot empties and every wheel listener, on the document or on an element, stays registered |
| `Zoom.ZoomManager.DisableControlsWithCapture` | packages/pdf-core/src/core/ZoomManager.ts:83-89 | corrected removal naming the capture phase: the registration of the stored handler on that target is gone and all others stay |
| `Zoom.ZoomManager.DestroyDetaching` | packages/pdf-core/src/core/ZoomManager.ts:91-93 | corrected destroy: every registration of the stored handler is gone, whatever its target |
| `Zoom.WheelAfterDisable` | packages/pdf-core/src/core/ZoomManager.ts:77-89 | after `enableControls()` and `disableControls()`, a Ctrl+wheel step up still runs one listener and zooms 1.0 to 1.2 |
| `Zoom.WheelAfterDestroy` | packages/pdf-core/src/core/ZoomManager.ts:57-93 | after `enableControls(element)` and `destroy()`, a Ctrl+wheel step up on the element still zooms 1.0 to 1.2 |
| `Zoom.EnableTwiceZoomsTwice` | packages/pdf-core/src/core/ZoomManager.ts:57-81 | after `enableControls()` twice, one Ctrl+wheel step runs two listeners and zooms 1.0 to 1.44 |
| `Zoom.NoWheelAfterCorrectedDisable` | packages/pdf-core/src/core/ZoomManager.ts:83-89 | with the corrected removal, a Ctrl+wheel step after disabling runs no listener and the scale stays 1.0 |
| `Zoom.NoWheelAfterCorrectedDestroy` | packages/pdf-core/src/core/ZoomManager.ts:91-93 | with the corrected destroy, a Ctrl+wheel step on the element runs no listener and the scale stays 1.0 |
| `Visibility.ResolveOptions` | packages/pdf-core/src/utils/VisibilityManager.ts:19-23 | root ‖ null, rootMargin ‖ '0px', threshold ‖ 0.1: a given threshold of 0 becomes 0.1 and the result is never 0 or empty |
| `Visibility.ResolveLayered` | packages/pdf-core/src/core/RenderManager.ts:136-144 | each field is the caller's truthy value, else the manager default's truthy value, else null / '0px' / 0.1; the margin is never empty and the threshold never 0 |
| `Visibility.LayeredWithEmptyDefaults` | packages/pdf-core/src/core/RenderManager.ts:136-144 | the render manager's three-layer defaults (its own defaults are always empty) give the same observer settings as the visibility manager's |
| `Visibility.PageNumberOf` | packages/pdf-core/src/utils/VisibilityManager.ts:29-32 | the page number is the `data-page-number` value, or 0 when the attribute is missing |
| `Visibility.DispatchOne` | packages/pdf-core/src/utils/VisibilityManager.ts:27-34 | an entry whose target is unregistered causes no call; otherwise exactly one call of its callback with (page number, isIntersecting, intersectionRatio) |
| `Visibility.Dispatched` | packages/pdf-core/src/utils/VisibilityManager.ts:26-35 | a batch causes at most one call per entry, and a registered first entry causes the first call |
| `Visibility.DispatchedAppend` | packages/pdf-core/src/utils/VisibilityManager.ts:26-35 | dispatching a batch is dispatching its parts in order: calls follow batch order |
| `Visibility.DispatchedBound` | packages/pdf-core/src/utils/VisibilityManager.ts:26-35 | only registered targets cause calls; an empty registry or unregistered targets cause none |
| `Visibility.DispatchedAllRegistered` | packages/pdf-core/src/utils/VisibilityManager.ts:26-35 | with every target registered, call k is entry k's callback with (page number, isIntersecting, intersectionRatio) |
| `Visibility.VisibilityManager.constructor` | packages/pdf-core/src/utils/VisibilityManager.ts:10-23 | the observer exists exactly when the environment offers IntersectionObserver, with the resolved options; the registry is empty |
| `Visibility.VisibilityManager.Observe` | packages/pdf-core/src/utils/VisibilityManager.ts:39-46 | with no observer nothing changes; otherwise the element maps to this callback alone, replacing any earlier one, and is observed |
| `Visibility.VisibilityManager.Unobserve` | packages/pdf-core/src/utils/VisibilityManager.ts:48-55 | with no observer nothing changes; otherwise only that element's entry goes, and an unknown element is a no-op |
| `Visibility.VisibilityManager.Destroy` | packages/pdf-core/src/utils/VisibilityManager.ts:57-63 | the observer is dropped and the registry emptied |
| `Visibility.VisibilityManager.Dispatch` | packages/pdf-core/src/utils/VisibilityManager.ts:25-36 | the observer callback makes exactly the calls of the batch specification |
| `Visibility.DestroyedStaysInert` | packages/pdf-core/src/utils/VisibilityManager.ts:39-63 | after `destroy`, `observe` registers nothing and no batch calls anybody: the manager never revives |
| `Pdfjs.WorkerSrc` | packages/pdf-core/src/pdfjs/index.ts:35 | the worker URL is `https://unpkg.com/pdfjs-dist@<version>/build/pdf.worker.mjs` |
| `Pdfjs.WorkerSrcInjective` | packages/pdf-core/src/pdfjs/index.ts:34-35 | the worker URL determines the version it was built from |
| `Pdfjs.Loader.constructor` | packages/pdf-core/src/pdfjs/index.ts:7-8 | both module variables start null and no import has started |
| `Pdfjs.Loader.Load` | packages/pdf-core/src/pdfjs/index.ts:14-47 | a filled cache returns at once, skipping the browser check; an in-flight load is joined with the same promise; outside a browser it throws with nothing changed; otherwise exactly one import starts |
| `Pdfjs.Loader.CompleteImport` | packages/pdf-core/src/pdfjs/index.ts:30-43 | success sets the worker URL for the version and fills the cache; failure clears the pending promise and leaves the cache empty |
| `Pdfjs.Loader.Get` | packages/pdf-core/src/pdfjs/index.ts:53-60 | `pdfjsGet` throws exactly when the cache is empty, and otherwise returns the cache |
| `Pdfjs.Loader.CreateTextLayer` | packages/pdf-core/src/pdfjs/index.ts:71-74 | fails exactly while no load has completed |
| `Pdfjs.Loader.GetDocument` | packages/pdf-core/src/pdfjs/index.ts:62-69 | completes or joins a load before consulting the cache; asks the engine for the URL only once the cache is filled; the loader's cache, pending promise, worker URL and import count end as that load left them |
| `Pdfjs.ConcurrentLoadsShareOneImport` | packages/pdf-core/src/pdfjs/index.ts:19-29 | two loads before the import settles start one import, and the second joins the first one's promise |
| `Pdfjs.FailedImportIsRetried` | packages/pdf-core/src/pdfjs/index.ts:15-44 | after a failed import the next load starts a new one; after success later loads return at once |
| `Documents.CheckPageRequest` | packages/pdf-core/src/core/Document.ts:41-59 | unloaded gives LOADING_ERROR for any page number; loaded accepts exactly the integers 1..numPages, and anything else is a PAGE_ERROR |
| `Documents.PageRequestRange` | packages/pdf-core/src/core/Document.ts:50-59 | an integer page number passes exactly when 1 ≤ n ≤ numPages, and passes as itself |
| `Documents.Document.constructor` | packages/pdf-core/src/core/Document.ts:11-14 | a new document is unloaded |
| `Documents.Document.NumPages` | packages/pdf-core/src/core/Document.ts:16-21 | 0 while unloaded, the engine's page count once loaded |
| `Documents.Document.Load` | packages/pdf-core/src/core/Document.ts:23-39 | any failure is LOADING_ERROR and keeps the previous handle; the handle is set only after the engine resolves; the engine is asked for this URL |
| `Documents.Document.GetPage` | packages/pdf-core/src/core/Document.ts:41-71 | guard failures never reach the engine; otherwise the engine is asked for exactly that page; an engine failure is PAGE_ERROR; success wraps a new Page with nothing pending and no scale getter |
| `Documents.Document.Destroy` | packages/pdf-core/src/core/Document.ts:73-81 | unloaded gives LOADING_ERROR; loaded calls the engine's destroy once and keeps the handle and numPages |
| `Documents.PageFromDocumentCannotRender` | packages/pdf-core/src/core/Document.ts:61-63 | a page `getPage` built fails every render with RENDERING_ERROR and no draw call |
| `Pages.Merge` | packages/pdf-core/src/core/Page.ts:140 | in the merged options, new keys win and old keys are kept |
| `Pages.MergeLaws` | packages/pdf-core/src/core/Page.ts:140 | merging the same update again changes nothing; two updates in a row equal one merged update |
| `Pages.PixelRatio` | packages/pdf-core/src/core/Page.ts:36-38 | `options.pixelRatio` if given, else the window's devicePixelRatio, else 1 |
| `Pages.OptionsOrEmpty` | packages/pdf-core/src/core/Page.ts:108 | the stored render options, or `{}` when none are stored |
| `Pages.PlanRender` | packages/pdf-core/src/core/Page.ts:31-72 | any failure is RENDERING_ERROR; the engine draws exactly when the scale getter exists, `getViewport` does not throw and a 2D context exists, using the viewport at the current scale; success needs the draw to succeed |
| `Pages.HandlerDrawsOnlyWhenVisible` | packages/pdf-core/src/core/Page.ts:92-126 | the handler's actions contain a draw only when the report said visible, and the user's callback comes first |
| `Pages.Page.constructor` | packages/pdf-core/src/core/Page.ts:20-25 | a new page is hidden, with nothing pending and no visibility manager |
| `Pages.Page.PageNumber` | packages/pdf-core/src/core/Page.ts:27-29 | the engine page's number |
| `Pages.Page.Render` | packages/pdf-core/src/core/Page.ts:31-72 | follows `PlanRender`; the canvas size is viewport size × pixel ratio, set only once a context exists |
| `Pages.Page.ObserveVisibility` | packages/pdf-core/src/core/Page.ts:157-170 | the manager is created on the first call only, with that call's options; the element is tagged with the page number; the callback is registered when an observer exists, keeping the other registrations and observed targets |
| `Pages.Page.UnobserveVisibility` | packages/pdf-core/src/core/Page.ts:172-174 | forwards to the manager when there is one: with an observer only that element's callback and target go; without one nothing changes |
| `Pages.Page.SetupVisibilityBasedRendering` | packages/pdf-core/src/core/Page.ts:80-133 | the canvas and options (or `{}`) become pending, and the handler holding the user callback observes the element: other registrations and the observer's other targets are kept, and a first call creates the manager with these options |
| `Pages.Page.HandleVisibilityChange` | packages/pdf-core/src/core/Page.ts:92-126 | records visibility, then calls the user callback; if that throws it stops there; otherwise it renders if visible (failure only logged, backing size = viewport × pixel ratio, unchanged when nothing was drawn, CSS size never touched) or clears if hidden |
| `Pages.Page.UpdateRenderOptions` | packages/pdf-core/src/core/Page.ts:139-150 | stored options become the merge; a re-render happens only while visible with a pending canvas, sized with the merged options' pixel ratio and unchanged when nothing was drawn; otherwise no action |
| `Pages.Page.Destroy` | packages/pdf-core/src/core/Page.ts:152-155 | destroys the visibility manager if any and calls the engine page's cleanup once |
| `Rendering.Refreshed` | packages/pdf-core/src/core/RenderManager.ts:203-217 | no canvas is added or dropped; a canvas that draws records the new viewport; a failing one keeps its old viewport |
| `Rendering.RefreshedLaws` | packages/pdf-core/src/core/RenderManager.ts:203-217 | a refresh where every draw fails changes nothing; the same refresh again changes nothing more |
| `Rendering.RenderManager.constructor` | packages/pdf-core/src/core/RenderManager.ts:18-25 | `lastScale` starts at the current scale (the getter's value, or 1.0 for null/undefined); no observer, callbacks or canvases |
| `Common.OrOne` | packages/pdf-core/src/core/RenderManager.ts:27-29 | the reading, or 1 when it is absent: `getDocumentScale() ?? 1.0`, and also the device pixel ratio of lines 100-101 (1 outside a browser) |
| `Rendering.RenderManager.ViewportAt` | packages/pdf-core/src/core/RenderManager.ts:35-55 | the engine's viewport at the current scale (the getter's value, or 1.0) |
| `Rendering.RenderManager.ObserveVisibility` | packages/pdf-core/src/core/RenderManager.ts:160-178 | creates the observer only when none exists, with that caller's options; if it cannot be created, nothing is registered and the element is not tagged |
| `Rendering.RenderManager.UnobserveVisibility` | packages/pdf-core/src/core/RenderManager.ts:180-187 | removes only that element; a no-op with no observer |
| `Rendering.RenderManager.Render` | packages/pdf-core/src/core/RenderManager.ts:57-80 | when `getViewport` throws, an unclassified PDFError and no change at all; otherwise it records the canvas with the viewport at call time even if never drawn, sizes the container, and registers a callback capturing that viewport; an existing observer keeps its options, a new one gets the defaults; with no observer the container stays untagged |
| `Rendering.RenderManager.RenderToCanvas` | packages/pdf-core/src/core/RenderManager.ts:91-122 | a missing 2D context throws before any change or draw; otherwise backing size = viewport × devicePixelRatio (1 outside a browser) and CSS size = viewport |
| `Rendering.RenderManager.RunDrawOnVisible` | packages/pdf-core/src/core/RenderManager.ts:66-71 | when hidden, nothing; when visible, draws with the viewport captured at `render` time. A missing context fails unclassified with the canvas untouched; otherwise the canvas is sized as by `renderToCanvas`, and the captured viewport is recorded again exactly when the draw succeeds |
| `Rendering.RenderManager.RefreshAllCanvases` | packages/pdf-core/src/core/RenderManager.ts:203-217 | a throwing `getViewport` rejects with no canvas resized; otherwise one viewport for all, the new map is `Refreshed` of the old, every canvas with a context gets the backing and CSS sizes of that viewport, and one without keeps all its sizes |
| `Rendering.RenderManager.RefreshIfScaleChanged` | packages/pdf-core/src/core/RenderManager.ts:192-198 | at an unchanged scale nothing at all changes, canvas sizes included; otherwise the new scale is recorded first, then the canvases are refreshed and sized as by `refreshAllCanvases`; a refresh that rejects leaves them as they were |
| `Rendering.RenderManager.Destroy` | packages/pdf-core/src/core/RenderManager.ts:219-226 | the observer is dropped; callbacks and rendered canvases are cleared |
| `Rendering.FailedRefreshIsNotRetried` | packages/pdf-core/src/core/RenderManager.ts:192-204 | after a scale change whose refresh rejects, a second `refreshIfScaleChanged` at that scale draws nothing, so the canvas keeps the old viewport |
| `Rendering.VisibleAfterRefreshUsesCapturedViewport` | packages/pdf-core/src/core/RenderManager.ts:62-74 | after a refresh at scale 2.0, the page coming into view redraws with and records the viewport of scale 1.0 captured by `render` |

## Left out

- Logging (`console.error`, `console.warn`) is a page action or a count of throwing listeners, except in `Rendering.RenderManager.RefreshAllCanvases`: there a canvas's warning is not returned, and it is logged exactly for a stored canvas that has no context or is not in `engineSucceeds`. Error messages and `cause` values are not modelled; only the error kind is.
- Async scheduling is not modelled. Each awaited engine call completes within the method that issues it. State changes made by other code during an `await` are not modelled.
- Floating point is not modelled: scales and sizes are `real`. NaN, Infinity and IEEE rounding are out of scope. For example, zooming in and then out is not claimed to restore the scale.
- Canvas contents, DOM style strings and the integer conversion of `canvas.width`/`height` are out of scope. Backing and CSS sizes are the real values assigned.
- PDF.js and IntersectionObserver geometry are not interpreted. Viewports carry only width, height and scale; rotation, offsets and transforms are not modelled.
- Events.EventEmitter.Emit: for a known event, states who is called and how many calls throw, but not the table after the round. Listener arguments are not modelled.
- Zoom.ZoomManager.HandleWheel: requires a non-zero zoom factor, because JavaScript's division by zero gives Infinity or NaN, which `real` lacks. The same holds for `Zoom.ZoomManager.DispatchWheel`.
- Zoom.ZoomManager.DispatchWheel: runs only the listeners registered on the target the event is dispatched to. Propagation from an element up to the document, and wheel listeners added by other code, are not modelled.
- Zoom.ZoomManager.EnableControls: `boundWheelHandler` holds the closure's creation number, not the closure; `handlersMade` and `wheelListeners` stand for the closures' identity and the DOM's registrations.
- Visibility.VisibilityManager.Dispatch: callbacks are given no effects, so a callback that edits the registry during a batch is not modelled.
- `Visibility.Observer` records its options and the set of observed targets, not which targets intersect.
- Documents.Document.Load: the PDF.js loading step is a boolean input. `Document.ts` imports `loadPdfjs`, which `pdfjs/index.ts` does not export, so the loader object is not wired in. `withCredentials: false` is not modelled.
- Pdfjs.Loader.GetDocument: when a load is joined, the earlier caller's import settles within this call, using the given outcome.
- Rendering.RenderManager.Render: of the failures the `catch` wraps, only a throwing `getViewport` is modelled; creating the observer and registering with it never throw in the model.
- Rendering.RenderManager.RefreshAllCanvases: visits the canvases in an unspecified order, not the map's insertion order.
- Pages.Page.UpdateRenderOptions: the re-render that the source does not await is modelled as completing within the call.
- The document-scale getter is not a field of `RenderManager` or `Page`: each call that reads the scale takes the getter's current value (`docScale`) as an argument, and `Page` records only whether a getter was passed (`hasScaleGetter`).
- Pages.Page: `pageRenderManager` is not a field. `PageRenderManager.ts` is not part of this model beyond its `getViewport` (scale getter, `?? 1.0`, engine viewport), which `Pages.PlanRender` applies directly.
- Visibility.PageNumberOf: `data-page-number` is held as an optional integer, so `parseInt` of an empty or non-numeric attribute (NaN) or of a number followed by text is not modelled. In the core only the page and render managers write it, always with a page number.
- Pages.Page.HandleVisibilityChange: the handler's rejected promise when the user's callback throws is modelled as the handler stopping; what becomes of the rejection is not modelled.

## Findings

| source | as written | input that shows it | evidently intended | confidence | as-written member | corrected member |
|---|---|---|---|---|---|---|
| packages/pdf-core/src/core/ZoomManager.ts:87 | `removeEventListener('wheel', handler)` omits `capture: true`, which lines 77-80 used when adding, so the DOM removes nothing | `enableControls()`, `disableControls()`, then Ctrl+wheel up on the document: the scale goes from 1.0 to 1.2 | the removal names the capture phase, so a disabled manager no longer zooms | high; not executed | `Zoom.WheelAfterDisable` | `Zoom.ZoomManager.DisableControlsWithCapture` |
| packages/pdf-core/src/core/ZoomManager.ts:92 | `destroy()` calls `disableControls()` without the element, so it looks on `document` even when the handler was added to an element (and without the capture flag) | `enableControls(element)`, `destroy()`, then Ctrl+wheel up on the element: the scale goes from 1.0 to 1.2 | `destroy` detaches the handler from the target `enableControls` added it to, so a destroyed manager no longer zooms | high; not executed | `Zoom.WheelAfterDestroy` | `Zoom.ZoomManager.DestroyDetaching` |

The corrected members are proved to stop the wheel:
`Zoom.NoWheelAfterCorrectedDisable` and `Zoom.NoWheelAfterCorrectedDestroy`
run the same inputs, and no listener remains and the scale stays 1.0.
