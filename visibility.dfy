/** `VisibilityManager` (packages/pdf-core/src/utils/VisibilityManager.ts):
    a registry from element to visibility callback in front of an optional
    IntersectionObserver. Without the observer (outside a browser, or after
    `destroy`) registration does nothing. The observer's geometry is not
    modelled: a batch of entries is an input. The observer-side definitions
    here are shared with the render manager, whose own observer code
    (packages/pdf-core/src/core/RenderManager.ts) is the same. */
module Visibility {
  import opened Common

  /** `IVisibilityOptions`; every field may be left out. */
  datatype VisibilityOptions = VisibilityOptions(root: Option<Element>, rootMargin: Option<string>, threshold: Option<real>)

  const NoOptions: VisibilityOptions := VisibilityOptions(None, None, None)

  /** The `IntersectionObserverInit` handed to the observer. */
  datatype ObserverInit = ObserverInit(root: Option<Element>, rootMargin: string, threshold: real)

  /** JavaScript `a || b` for a string: absent and "" are falsy. */
  function OrText(a: Option<string>, b: string): string
  {
    if a.Some? && a.value != "" then a.value else b
  }

  /** JavaScript `a || b` for a number: absent and 0 are falsy. */
  function OrNumber(a: Option<real>, b: real): real
  {
    if a.Some? && a.value != 0.0 then a.value else b
  }

  /** The observer options `createObserver` builds from the manager's
      options: root or null, root margin or '0px', threshold or 0.1. Since
      `||` is used, an explicit threshold of 0 becomes 0.1 and an empty
      margin becomes '0px'. */
  function ResolveOptions(options: VisibilityOptions): (init: ObserverInit)
    ensures init.root == options.root
    ensures init.rootMargin != "" && init.threshold != 0.0
    ensures options.threshold == None || options.threshold == Some(0.0) ==> init.threshold == 0.1
    ensures options.threshold.Some? && options.threshold.value != 0.0 ==> init.threshold == options.threshold.value
    ensures options.rootMargin == None || options.rootMargin == Some("") ==> init.rootMargin == "0px"
    ensures options.rootMargin.Some? && options.rootMargin.value != "" ==> init.rootMargin == options.rootMargin.value
  {
    ObserverInit(options.root, OrText(options.rootMargin, "0px"), OrNumber(options.threshold, 0.1))
  }

  /** The render manager's variant: the caller's options (which may be
      missing), then the manager's defaults, then the constants. */
  function ResolveLayered(options: Option<VisibilityOptions>, defaults: VisibilityOptions): (init: ObserverInit)
    ensures init.rootMargin != "" && init.threshold != 0.0
    ensures options.Some? && options.value.root.Some? ==> init.root == options.value.root
    ensures !(options.Some? && options.value.root.Some?) ==> init.root == defaults.root
    ensures options.Some? && options.value.threshold.Some? && options.value.threshold.value != 0.0 ==>
              init.threshold == options.value.threshold.value
    ensures !(options.Some? && options.value.threshold.Some? && options.value.threshold.value != 0.0) ==>
              init.threshold == (if defaults.threshold.Some? && defaults.threshold.value != 0.0
                                 then defaults.threshold.value else 0.1)
    ensures options.Some? && options.value.rootMargin.Some? && options.value.rootMargin.value != "" ==>
              init.rootMargin == options.value.rootMargin.value
    ensures !(options.Some? && options.value.rootMargin.Some? && options.value.rootMargin.value != "") ==>
              init.rootMargin == (if defaults.rootMargin.Some? && defaults.rootMargin.value != ""
                                  then defaults.rootMargin.value else "0px")
  {
    var given := match options case None => NoOptions case Some(o) => o;
    ObserverInit(
      if given.root.Some? then given.root else defaults.root,
      OrText(given.rootMargin, OrText(defaults.rootMargin, "0px")),
      OrNumber(given.threshold, OrNumber(defaults.threshold, 0.1)))
  }

  /** The render manager never sets its defaults, so its layered options
      come to the same observer settings as the visibility manager's. */
  lemma LayeredWithEmptyDefaults(options: Option<VisibilityOptions>)
    ensures ResolveLayered(options, NoOptions)
         == ResolveOptions(match options case None => NoOptions case Some(o) => o)
  {
  }

  /** An IntersectionObserver: its settings and the set of elements it
      currently observes. */
  datatype Observer = Observer(init: ObserverInit, targets: set<Element>)

  /** One IntersectionObserverEntry, reduced to what the dispatcher reads. */
  datatype Entry = Entry(target: Element, isIntersecting: bool, intersectionRatio: real)

  /** One callback invocation `callback(pageNumber, isIntersecting, ratio)`. */
  datatype Call<C> = Call(callback: C, pageNumber: int, isIntersecting: bool, intersectionRatio: real)

  /** `parseInt(getAttribute('data-page-number') || '0', 10)`: the page
      number written on the element, or 0 without the attribute. */
  function PageNumberOf(element: Element): (n: int)
    reads element
    ensures element.dataPageNumber.None? ==> n == 0
    ensures element.dataPageNumber.Some? ==> n == element.dataPageNumber.value
  {
    match element.dataPageNumber
    case None => 0
    case Some(n) => n
  }

  function Targets(entries: seq<Entry>): set<Element>
  {
    if entries == [] then {} else {entries[0].target} + Targets(entries[1..])
  }

  /** The call one entry causes: none when its target is unregistered. */
  function DispatchOne<C>(callbacks: map<Element, C>, entry: Entry): (calls: seq<Call<C>>)
    reads entry.target
    ensures entry.target !in callbacks ==> calls == []
    ensures entry.target in callbacks ==>
              calls == [Call(callbacks[entry.target], PageNumberOf(entry.target), entry.isIntersecting, entry.intersectionRatio)]
  {
    if entry.target in callbacks then
      [Call(callbacks[entry.target], PageNumberOf(entry.target), entry.isIntersecting, entry.intersectionRatio)]
    else []
  }

  /** The calls a batch of entries causes, in batch order. */
  function Dispatched<C>(callbacks: map<Element, C>, entries: seq<Entry>): (calls: seq<Call<C>>)
    reads Targets(entries)
    ensures |calls| <= |entries|
    ensures entries != [] && entries[0].target in callbacks ==>
              |calls| > 0 && calls[0] == Call(callbacks[entries[0].target], PageNumberOf(entries[0].target),
                               entries[0].isIntersecting, entries[0].intersectionRatio)
  {
    if entries == [] then []
    else DispatchOne(callbacks, entries[0]) + Dispatched(callbacks, entries[1..])
  }

  /** Dispatching two batches one after the other is dispatching their
      concatenation: the order of the calls follows the order of entries. */
  lemma {:induction false} DispatchedAppend<C>(callbacks: map<Element, C>, a: seq<Entry>, b: seq<Entry>)
    ensures Dispatched(callbacks, a + b) == Dispatched(callbacks, a) + Dispatched(callbacks, b)
  {
    if a == [] {
      assert a + b == b;
    } else {
      assert (a + b)[1..] == a[1..] + b;
      DispatchedAppend(callbacks, a[1..], b);
    }
  }

  /** Only registered targets cause calls, so there are never more calls
      than entries, and an empty registry (after `destroy`) causes none. */
  lemma {:induction false} DispatchedBound<C>(callbacks: map<Element, C>, entries: seq<Entry>)
    ensures |Dispatched(callbacks, entries)| <= |entries|
    ensures callbacks == map[] ==> Dispatched(callbacks, entries) == []
    ensures (forall i :: 0 <= i < |entries| ==> entries[i].target !in callbacks) ==> Dispatched(callbacks, entries) == []
  {
    if entries != [] {
      DispatchedBound(callbacks, entries[1..]);
    }
  }

  /** When every target is registered, the k-th call belongs to the k-th
      entry: that entry's callback, the page number on its target and the
      entry's own intersection data. */
  lemma {:induction false} DispatchedAllRegistered<C>(callbacks: map<Element, C>, entries: seq<Entry>)
    requires forall i :: 0 <= i < |entries| ==> entries[i].target in callbacks
    ensures |Dispatched(callbacks, entries)| == |entries|
    ensures forall k :: 0 <= k < |entries| ==>
              Dispatched(callbacks, entries)[k]
                == Call(callbacks[entries[k].target], PageNumberOf(entries[k].target),
                        entries[k].isIntersecting, entries[k].intersectionRatio)
  {
    if entries != [] {
      DispatchedAllRegistered(callbacks, entries[1..]);
    }
  }

  class VisibilityManager<C> {
    const defaultOptions: VisibilityOptions
    var observer: Option<Observer>
    var callbacks: map<Element, C>

    /** Without an observer nothing is registered; with one, the registry
        and the observed set agree. */
    ghost predicate Valid()
      reads this
    {
      match observer
      case None => callbacks == map[]
      case Some(o) => callbacks.Keys == o.targets
    }

    /** `new VisibilityManager(options)`: the observer is created here and
        only here, when the environment offers IntersectionObserver. */
    constructor (hasObserverApi: bool, defaultOptions: VisibilityOptions := NoOptions)
      ensures Valid() && callbacks == map[] && this.defaultOptions == defaultOptions
      ensures observer == if hasObserverApi then Some(Observer(ResolveOptions(defaultOptions), {})) else None
    {
      this.defaultOptions := defaultOptions;
      callbacks := map[];
      if hasObserverApi {
        observer := Some(Observer(ResolveOptions(defaultOptions), {}));
      } else {
        observer := None;
      }
    }

    /** `observe(element, callback)`: one callback per element, the latest
        replacing any earlier one; nothing at all without an observer. */
    method Observe(element: Element, callback: C)
      requires Valid()
      modifies this
      ensures Valid()
      ensures old(observer).None? ==> observer == old(observer) && callbacks == old(callbacks)
      ensures old(observer).Some? ==>
                callbacks == old(callbacks)[element := callback] &&
                observer == Some(old(observer).value.(targets := old(observer).value.targets + {element}))
    {
      if observer.None? {
        return;
      }
      callbacks := callbacks[element := callback];
      observer := Some(observer.value.(targets := observer.value.targets + {element}));
    }

    /** `unobserve(element)`: removes that element's entry only; an unknown
        element or a missing observer leaves everything as it was. */
    method Unobserve(element: Element)
      requires Valid()
      modifies this
      ensures Valid()
      ensures old(observer).None? ==> observer == old(observer) && callbacks == old(callbacks)
      ensures old(observer).Some? ==>
                callbacks == old(callbacks) - {element} &&
                observer == Some(old(observer).value.(targets := old(observer).value.targets - {element}))
      ensures element !in old(callbacks) ==> callbacks == old(callbacks)
    {
      if observer.None? {
        return;
      }
      callbacks := callbacks - {element};
      observer := Some(observer.value.(targets := observer.value.targets - {element}));
    }

    /** `destroy()`: the observer is disconnected and dropped and the
        registry emptied. Nothing recreates the observer afterwards, so
        later `observe` calls do nothing. */
    method Destroy()
      modifies this
      ensures Valid() && observer == None && callbacks == map[]
    {
      observer := None;
      callbacks := map[];
    }

    /** The observer's callback on a batch of entries. */
    method Dispatch(entries: seq<Entry>) returns (calls: seq<Call<C>>)
      ensures calls == Dispatched(callbacks, entries)
    {
      calls := [];
      var i := 0;
      while i < |entries|
        invariant 0 <= i <= |entries|
        invariant calls == Dispatched(callbacks, entries[..i])
      {
        var entry := entries[i];
        if entry.target in callbacks {
          var pageNumber := match entry.target.dataPageNumber case None => 0 case Some(n) => n;
          calls := calls + [Call(callbacks[entry.target], pageNumber, entry.isIntersecting, entry.intersectionRatio)];
        }
        DispatchedAppend(callbacks, entries[..i], [entry]);
        assert entries[..i + 1] == entries[..i] + [entry];
        i := i + 1;
      }
      assert entries[..i] == entries;
    }
  }

  /** Once destroyed, a manager stays inert: a later `observe` registers
      nothing and a later batch calls nobody. */
  method DestroyedStaysInert<C>(m: VisibilityManager<C>, element: Element, callback: C, entries: seq<Entry>)
    returns (calls: seq<Call<C>>)
    requires m.Valid()
    modifies m
    ensures m.observer == None && m.callbacks == map[]
    ensures calls == []
  {
    m.Destroy();
    m.Observe(element, callback);
    calls := m.Dispatch(entries);
    DispatchedBound(m.callbacks, entries);
  }
}
