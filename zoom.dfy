/** `ZoomManager` (packages/pdf-core/src/core/ZoomManager.ts): a scale
    register clamped by `setScale`, with step zoom, reset, the can-zoom
    getters and a Ctrl+wheel handler. Scales are real numbers; the IEEE
    rounding of the source's `number` is not modelled. The wheel listeners
    the manager has added to the page are kept as the DOM keeps them: one
    registration per target, handler and capture flag. */
module Zoom {
  import opened Common

  const DefaultMinScale: real := 0.25
  const DefaultMaxScale: real := 4.0
  const DefaultZoomFactor: real := 1.2
  const DefaultStepSize: real := 0.1

  /** `Math.min(Math.max(x, lo), hi)`. With inverted bounds the upper one
      wins. */
  function Clamp(x: real, lo: real, hi: real): (r: real)
    ensures lo <= hi ==> lo <= r <= hi
    ensures lo <= x <= hi ==> r == x
    ensures lo <= hi && x < lo ==> r == lo
    ensures x > hi || lo > hi ==> r == hi
  {
    var atLeastLo := if x >= lo then x else lo;
    if atLeastLo <= hi then atLeastLo else hi
  }

  /** Clamping twice is clamping once, so repeating `setScale(x)` leaves
      the same state. */
  lemma ClampIdempotent(x: real, lo: real, hi: real)
    ensures Clamp(Clamp(x, lo, hi), lo, hi) == Clamp(x, lo, hi)
  {
  }

  /** One step never moves the scale the wrong way, and at a bound the step
      towards it leaves the scale on that bound. */
  lemma StepDirection(scale: real, step: real, lo: real, hi: real)
    requires lo <= scale <= hi && step >= 0.0
    ensures scale <= Clamp(scale + step, lo, hi)
    ensures Clamp(scale - step, lo, hi) <= scale
    ensures scale == hi ==> Clamp(scale + step, lo, hi) == hi
    ensures scale == lo ==> Clamp(scale - step, lo, hi) == lo
  {
  }

  /** With the default bounds, the reset scale 1.0 is kept as it is. */
  lemma ResetWithDefaultBounds()
    ensures Clamp(1.0, DefaultMinScale, DefaultMaxScale) == 1.0
  {
  }

  /** The fields of a wheel event that the handler reads. */
  datatype WheelEvent = WheelEvent(ctrlKey: bool, deltaY: real)

  /** The scale after the wheel handler has seen an event: with Ctrl held,
      scrolling up multiplies by the zoom factor and scrolling down divides
      by it, both through the clamp; anything else leaves the scale. */
  function WheelScale(scale: real, event: WheelEvent, factor: real, lo: real, hi: real): (r: real)
    requires factor != 0.0
    ensures !event.ctrlKey || event.deltaY == 0.0 ==> r == scale
    ensures event.ctrlKey && event.deltaY < 0.0 ==> r == Clamp(scale * factor, lo, hi)
    ensures event.ctrlKey && event.deltaY > 0.0 ==> r == Clamp(scale / factor, lo, hi)
  {
    if !event.ctrlKey then scale
    else if event.deltaY < 0.0 then Clamp(scale * factor, lo, hi)
    else if event.deltaY > 0.0 then Clamp(scale / factor, lo, hi)
    else scale
  }

  /** For non-negative bounds and a factor of at least 1, scrolling up never
      shrinks the page and scrolling down never enlarges it, and the result
      stays within the bounds. */
  lemma {:induction false} WheelDirection(scale: real, event: WheelEvent, factor: real, lo: real, hi: real)
    requires 0.0 <= lo <= scale <= hi && factor >= 1.0
    ensures lo <= WheelScale(scale, event, factor, lo, hi) <= hi
    ensures event.deltaY < 0.0 ==> scale <= WheelScale(scale, event, factor, lo, hi)
    ensures event.deltaY > 0.0 ==> WheelScale(scale, event, factor, lo, hi) <= scale
  {
    var up, down := scale * factor, scale / factor;
    assert scale <= up by {
      assert up - scale == scale * (factor - 1.0);
      assert scale * (factor - 1.0) >= 0.0;
    }
    assert down <= scale by {
      assert down * factor == scale;
      assert scale - down == down * (factor - 1.0);
      assert down >= 0.0;
    }
    assert scale <= Clamp(up, lo, hi);
    assert Clamp(down, lo, hi) <= scale;
  }

  /** Where a wheel listener is attached: `element || document`. */
  datatype Target = OnDocument | OnElement(element: Element)

  function TargetOf(element: Option<Element>): (t: Target)
    ensures element.None? ==> t == OnDocument
    ensures element.Some? ==> t == OnElement(element.value)
  {
    match element
    case None => OnDocument
    case Some(e) => OnElement(e)
  }

  /** One entry of the DOM's listener list for `wheel`: the target, the
      handler (closures are told apart by the order they were created in)
      and the `capture` flag it was added with. */
  datatype Registration = Registration(target: Target, handler: nat, capture: bool)

  /** `addEventListener`: a registration equal in target, handler and
      capture flag to one already present is not added again. */
  function AddListener(ls: seq<Registration>, reg: Registration): (r: seq<Registration>)
    ensures reg in r && forall i :: 0 <= i < |ls| ==> ls[i] in r
    ensures forall i :: 0 <= i < |r| ==> r[i] in ls || r[i] == reg
    ensures reg in ls ==> r == ls
    ensures reg !in ls ==> r == ls + [reg]
  {
    if reg in ls then ls else ls + [reg]
  }

  /** `removeEventListener`: removes the registration equal in target,
      handler AND capture flag; any other registration stays, in order. */
  function RemoveListener(ls: seq<Registration>, reg: Registration): (r: seq<Registration>)
    ensures reg !in r
    ensures forall i :: 0 <= i < |r| ==> r[i] in ls
    ensures forall i :: 0 <= i < |ls| && ls[i] != reg ==> ls[i] in r
    ensures reg !in ls ==> r == ls
  {
    if ls == [] then []
    else (if ls[0] == reg then [] else [ls[0]]) + RemoveListener(ls[1..], reg)
  }

  /** A removal that does not ask for the capture phase never removes a
      capturing registration. */
  lemma RemoveWithoutCaptureMisses(ls: seq<Registration>, target: Target, handler: nat)
    requires forall i :: 0 <= i < |ls| ==> ls[i].capture
    ensures RemoveListener(ls, Registration(target, handler, false)) == ls
  {
    assert Registration(target, handler, false) !in ls;
  }

  /** How many listeners a wheel event on `target` runs. */
  function CountOn(ls: seq<Registration>, target: Target): (n: nat)
    ensures n <= |ls|
    ensures (forall i :: 0 <= i < |ls| ==> ls[i].target != target) ==> n == 0
  {
    if ls == [] then 0
    else CountOn(ls[..|ls| - 1], target) + (if ls[|ls| - 1].target == target then 1 else 0)
  }

  /** The scale after `n` handler runs on the same wheel event. */
  function WheelRepeated(scale: real, event: WheelEvent, factor: real, lo: real, hi: real, n: nat): real
    requires factor != 0.0
  {
    if n == 0 then scale else WheelScale(WheelRepeated(scale, event, factor, lo, hi, n - 1), event, factor, lo, hi)
  }

  /** An event without Ctrl, or without vertical movement, leaves the scale
      however many handlers see it. */
  lemma {:induction false} WheelRepeatedIgnored(scale: real, event: WheelEvent, factor: real, lo: real, hi: real, n: nat)
    requires factor != 0.0 && (!event.ctrlKey || event.deltaY == 0.0)
    ensures WheelRepeated(scale, event, factor, lo, hi, n) == scale
  {
    if n > 0 {
      WheelRepeatedIgnored(scale, event, factor, lo, hi, n - 1);
    }
  }

  class ZoomManager {
    var scale: real
    const minScale: real
    const maxScale: real
    const zoomFactor: real
    const stepSize: real
    /** `boundWheelHandler`: the closure stored by the last `enableControls`,
        if any. */
    var boundWheelHandler: Option<nat>
    /** The number of handler closures created so far. */
    var handlersMade: nat
    /** The wheel listeners this manager's closures hold in the DOM. */
    var wheelListeners: seq<Registration>

    /** The scale lies within the bounds. `setScale` establishes it; the
        constructor does not, because it stores `initialScale` as given. */
    predicate InBounds()
      reads this
    {
      minScale <= scale <= maxScale
    }

    /** Every registration was added with `capture: true` by a closure
        already created, and so was the stored handler. */
    predicate Valid()
      reads this
    {
      (forall i :: 0 <= i < |wheelListeners| ==> wheelListeners[i].capture && wheelListeners[i].handler < handlersMade) &&
      (boundWheelHandler.Some? ==> boundWheelHandler.value < handlersMade)
    }

    constructor (initialScale: real, minScale: real := DefaultMinScale, maxScale: real := DefaultMaxScale,
                 zoomFactor: real := DefaultZoomFactor, stepSize: real := DefaultStepSize)
      ensures Valid()
      ensures scale == initialScale
      ensures this.minScale == minScale && this.maxScale == maxScale
      ensures this.zoomFactor == zoomFactor && this.stepSize == stepSize
      ensures boundWheelHandler == None && handlersMade == 0 && wheelListeners == []
      ensures InBounds() <==> minScale <= initialScale <= maxScale
    {
      scale := initialScale;
      this.minScale := minScale;
      this.maxScale := maxScale;
      this.zoomFactor := zoomFactor;
      this.stepSize := stepSize;
      boundWheelHandler := None;
      handlersMade := 0;
      wheelListeners := [];
    }

    /** `currentScale`: the stored scale, unclamped until `setScale` runs. */
    function CurrentScale(): (s: real)
      reads this
      ensures s == scale
      ensures InBounds() ==> minScale <= s <= maxScale
    {
      scale
    }

    /** `canZoomIn`: true exactly while the scale is below the maximum, so
        within the bounds it is false exactly at the maximum. */
    function CanZoomIn(): (b: bool)
      reads this
      ensures InBounds() ==> (b <==> scale != maxScale)
    {
      scale < maxScale
    }

    /** `canZoomOut`: true exactly while the scale is above the minimum, so
        within the bounds it is false exactly at the minimum. */
    function CanZoomOut(): (b: bool)
      reads this
      ensures InBounds() ==> (b <==> scale != minScale)
    {
      scale > minScale
    }

    /** `setScale(x)`: stores x clamped to the bounds. */
    method SetScale(x: real)
      modifies this`scale
      ensures scale == Clamp(x, minScale, maxScale)
      ensures minScale <= maxScale ==> InBounds()
      ensures minScale <= x <= maxScale ==> scale == x
      ensures minScale <= maxScale && x >= maxScale ==> scale == maxScale && !CanZoomIn()
      ensures minScale <= maxScale && x <= minScale ==> scale == minScale && !CanZoomOut()
    {
      scale := Clamp(x, minScale, maxScale);
    }

    /** `zoomIn()`: one step up, through `setScale`. */
    method ZoomIn()
      modifies this`scale
      ensures scale == Clamp(old(scale) + stepSize, minScale, maxScale)
      ensures old(InBounds()) && stepSize >= 0.0 ==> old(scale) <= scale
    {
      SetScale(scale + stepSize);
    }

    /** `zoomOut()`: one step down, through `setScale`. */
    method ZoomOut()
      modifies this`scale
      ensures scale == Clamp(old(scale) - stepSize, minScale, maxScale)
      ensures old(InBounds()) && stepSize >= 0.0 ==> scale <= old(scale)
    {
      SetScale(scale - stepSize);
    }

    /** `resetZoom()`: `setScale(1.0)`, which is exactly 1.0 whenever the
        bounds contain it (as the default bounds do). */
    method ResetZoom()
      modifies this`scale
      ensures scale == Clamp(1.0, minScale, maxScale)
      ensures minScale <= 1.0 <= maxScale ==> scale == 1.0
    {
      SetScale(1.0);
    }

    /** `enableControls(element)`: outside a browser nothing happens; inside
        one a new closure is stored (overwriting any earlier one without
        detaching it) and added to `element || document` with
        `capture: true`. */
    method EnableControls(hasWindow: bool, element: Option<Element>)
      requires Valid()
      modifies this`boundWheelHandler, this`handlersMade, this`wheelListeners
      ensures Valid()
      ensures !hasWindow ==>
                boundWheelHandler == old(boundWheelHandler) && handlersMade == old(handlersMade) &&
                wheelListeners == old(wheelListeners)
      ensures hasWindow ==>
                boundWheelHandler == Some(old(handlersMade)) && handlersMade == old(handlersMade) + 1 &&
                wheelListeners == old(wheelListeners) + [Registration(TargetOf(element), old(handlersMade), true)]
    {
      if !hasWindow {
        return;
      }
      var handler := handlersMade;
      handlersMade := handlersMade + 1;
      boundWheelHandler := Some(handler);
      assert Registration(TargetOf(element), handler, true) !in wheelListeners;
      wheelListeners := AddListener(wheelListeners, Registration(TargetOf(element), handler, true));
    }

    /** One wheel handler closure receiving an event. Returns whether it
        called `preventDefault` and `stopPropagation` (it does when Ctrl is
        held). Every closure acts on this manager alike. */
    method HandleWheel(event: WheelEvent) returns (consumed: bool)
      requires zoomFactor != 0.0
      modifies this`scale
      ensures consumed == event.ctrlKey
      ensures scale == WheelScale(old(scale), event, zoomFactor, minScale, maxScale)
    {
      consumed := event.ctrlKey;
      if event.ctrlKey {
        if event.deltaY < 0.0 {
          SetScale(scale * zoomFactor);
        } else if event.deltaY > 0.0 {
          SetScale(scale / zoomFactor);
        }
      }
    }

    /** A wheel event reaching `target`: every listener registered there
        runs, in registration order (`stopPropagation` does not stop the
        others on the same target). */
    method DispatchWheel(target: Target, event: WheelEvent) returns (runs: nat, consumed: bool)
      requires zoomFactor != 0.0
      modifies this`scale
      ensures runs == CountOn(wheelListeners, target)
      ensures consumed == (event.ctrlKey && runs > 0)
      ensures scale == WheelRepeated(old(scale), event, zoomFactor, minScale, maxScale, runs)
    {
      runs := 0;
      var i := 0;
      while i < |wheelListeners|
        invariant 0 <= i <= |wheelListeners|
        invariant runs == CountOn(wheelListeners[..i], target)
        invariant scale == WheelRepeated(old(scale), event, zoomFactor, minScale, maxScale, runs)
      {
        assert wheelListeners[..i + 1][..i] == wheelListeners[..i];
        if wheelListeners[i].target == target {
          var _ := HandleWheel(event);
          runs := runs + 1;
        }
        i := i + 1;
      }
      assert wheelListeners[..i] == wheelListeners;
      consumed := event.ctrlKey && runs > 0;
    }

    /** `disableControls(element)` as written: a no-op outside a browser or
        with no stored handler; otherwise it asks the DOM to remove the
        stored handler from `element || document` WITHOUT the capture flag
        it was added with, which removes nothing, and empties the slot. */
    method DisableControls(hasWindow: bool, element: Option<Element>)
      requires Valid()
      modifies this`boundWheelHandler, this`wheelListeners
      ensures Valid()
      ensures !hasWindow || old(boundWheelHandler).None? ==> boundWheelHandler == old(boundWheelHandler)
      ensures hasWindow ==> boundWheelHandler == None
      ensures wheelListeners == old(wheelListeners)
    {
      if !hasWindow || boundWheelHandler.None? {
        return;
      }
      RemoveWithoutCaptureMisses(wheelListeners, TargetOf(element), boundWheelHandler.value);
      wheelListeners := RemoveListener(wheelListeners, Registration(TargetOf(element), boundWheelHandler.value, false));
      boundWheelHandler := None;
    }

    /** `destroy()` as written: `disableControls()`, so always on `document`. */
    method Destroy(hasWindow: bool)
      requires Valid()
      modifies this`boundWheelHandler, this`wheelListeners
      ensures Valid()
      ensures !hasWindow ==> boundWheelHandler == old(boundWheelHandler)
      ensures hasWindow ==> boundWheelHandler == None
      ensures wheelListeners == old(wheelListeners)
    {
      DisableControls(hasWindow, None);
    }

    /** `disableControls(element)` as evidently intended: the removal names
        the capture phase the handler was added in, so the DOM detaches it. */
    method DisableControlsWithCapture(hasWindow: bool, element: Option<Element>)
      requires Valid()
      modifies this`boundWheelHandler, this`wheelListeners
      ensures Valid()
      ensures !hasWindow || old(boundWheelHandler).None? ==>
                boundWheelHandler == old(boundWheelHandler) && wheelListeners == old(wheelListeners)
      ensures hasWindow && old(boundWheelHandler).Some? ==>
                boundWheelHandler == None &&
                wheelListeners == RemoveListener(old(wheelListeners),
                                                 Registration(TargetOf(element), old(boundWheelHandler).value, true))
    {
      if !hasWindow || boundWheelHandler.None? {
        return;
      }
      wheelListeners := RemoveListener(wheelListeners, Registration(TargetOf(element), boundWheelHandler.value, true));
      boundWheelHandler := None;
    }

    /** `destroy()` as evidently intended ("remove event listeners"): the
        stored handler is detached from whichever target it was added to. */
    method DestroyDetaching(hasWindow: bool)
      requires Valid()
      modifies this`boundWheelHandler, this`wheelListeners
      ensures Valid()
      ensures !hasWindow || old(boundWheelHandler).None? ==>
                boundWheelHandler == old(boundWheelHandler) && wheelListeners == old(wheelListeners)
      ensures hasWindow && old(boundWheelHandler).Some? ==>
                boundWheelHandler == None &&
                wheelListeners == DropHandler(old(wheelListeners), old(boundWheelHandler).value)
    {
      if !hasWindow || boundWheelHandler.None? {
        return;
      }
      var h := boundWheelHandler.value;
      wheelListeners := DropHandler(wheelListeners, h);
      boundWheelHandler := None;
    }
  }

  /** The registrations that do not belong to closure `handler`. */
  function DropHandler(ls: seq<Registration>, handler: nat): (r: seq<Registration>)
    ensures forall i :: 0 <= i < |r| ==> r[i] in ls && r[i].handler != handler
    ensures forall i :: 0 <= i < |ls| && ls[i].handler != handler ==> ls[i] in r
    ensures |r| <= |ls|
  {
    if ls == [] then []
    else (if ls[0].handler == handler then [] else [ls[0]]) + DropHandler(ls[1..], handler)
  }

  /** As written: after `enableControls()` and `disableControls()` on the
      document, Ctrl+wheel up still zooms from 1.0 to 1.2. */
  method WheelAfterDisable() returns (scale: real, runs: nat, consumed: bool)
    ensures runs == 1 && consumed && scale == 1.2
  {
    var m := new ZoomManager(1.0);
    m.EnableControls(true, None);
    m.DisableControls(true, None);
    runs, consumed := m.DispatchWheel(OnDocument, WheelEvent(true, -1.0));
    scale := m.scale;
  }

  /** As written: after `enableControls(element)` and `destroy()`, Ctrl+wheel
      up on the element still zooms, since `destroy` looks on `document`
      and without the capture flag. */
  method WheelAfterDestroy(element: Element) returns (scale: real, runs: nat, consumed: bool)
    ensures runs == 1 && consumed && scale == 1.2
  {
    var m := new ZoomManager(1.0);
    m.EnableControls(true, Some(element));
    m.Destroy(true);
    runs, consumed := m.DispatchWheel(OnElement(element), WheelEvent(true, -1.0));
    scale := m.scale;
  }

  /** As written: `enableControls()` twice leaves two listeners, so one
      Ctrl+wheel step zooms twice, 1.0 to 1.44. */
  method EnableTwiceZoomsTwice() returns (scale: real, runs: nat, consumed: bool)
    ensures runs == 2 && consumed && scale == 1.44
  {
    var m := new ZoomManager(1.0);
    m.EnableControls(true, None);
    m.EnableControls(true, None);
    runs, consumed := m.DispatchWheel(OnDocument, WheelEvent(true, -1.0));
    scale := m.scale;
  }

  /** Corrected: removal with the capture flag leaves no listener, so
      Ctrl+wheel after disabling does not zoom. */
  method NoWheelAfterCorrectedDisable() returns (scale: real, runs: nat, consumed: bool)
    ensures runs == 0 && !consumed && scale == 1.0
  {
    var m := new ZoomManager(1.0);
    m.EnableControls(true, None);
    m.DisableControlsWithCapture(true, None);
    runs, consumed := m.DispatchWheel(OnDocument, WheelEvent(true, -1.0));
    scale := m.scale;
  }

  /** Corrected: a destroy that detaches the handler from its own target
      leaves no listener on the element, so Ctrl+wheel does not zoom. */
  method NoWheelAfterCorrectedDestroy(element: Element) returns (scale: real, runs: nat, consumed: bool)
    ensures runs == 0 && !consumed && scale == 1.0
  {
    var m := new ZoomManager(1.0);
    m.EnableControls(true, Some(element));
    m.DestroyDetaching(true);
    runs, consumed := m.DispatchWheel(OnElement(element), WheelEvent(true, -1.0));
    scale := m.scale;
  }
}
