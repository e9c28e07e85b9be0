/** The zoom controller of script.js as a mutable object: its module-level `let`
    state becomes the fields of `Controller`, the four layer opacities an array,
    and each handler a method whose effect is the matching function of ZoomModel. */
module ZoomController {
  import opened ZoomModel

  /** The first step of updateRustLayers (script.js:46-54): the index of the last
      rust layer whose threshold the zoom reached, plus one. */
  method CurrentRustLevel(zoom: real) returns (level: nat)
    ensures level == Reached(RustThreshold, zoom)
    ensures forall i :: 0 <= i < RustLayerCount ==> (i < level <==> RustThreshold[i] <= zoom)
  {
    var lastIndex: int := -1;
    var i := 0;
    while i < RustLayerCount
      invariant 0 <= i <= RustLayerCount
      invariant -1 <= lastIndex < i
      invariant forall j :: 0 <= j < i ==> (RustThreshold[j] <= zoom <==> j <= lastIndex)
      invariant lastIndex + 1 == Reached(RustThreshold[..i], zoom)
    {
      assert RustThreshold[..i + 1][..i] == RustThreshold[..i];
      if zoom >= RustThreshold[i] {
        lastIndex := i;
      }
      i := i + 1;
    }
    assert RustThreshold[..i] == RustThreshold;
    level := lastIndex + 1;
  }

  class Controller {
    var currentZoom: real
    var maxRustLevel: nat
    var focusX: real
    var focusY: real
    var isGlitching: bool
    /** The rust-hold timeout is pending (rustHoldTimeoutId is set). */
    var holdArmed: bool
    /** The glitch timeout is pending (glitchTimeoutId is set). */
    var glitchArmed: bool
    var initialDistance: real
    /** Opacities of tree-rust1, tree-rust2, tree-rust-full and tree-clean. */
    const opacity: array<int>

    /** The controller's state as a value. */
    ghost function State(): Snapshot
      reads this, opacity
    {
      Snapshot(currentZoom, maxRustLevel, focusX, focusY, isGlitching,
               holdArmed, glitchArmed, initialDistance, opacity[..])
    }

    ghost predicate Valid()
      reads this, opacity
    {
      Inv(State())
    }

    /** The state at load time (script.js:24-31, 253-255). */
    constructor ()
      ensures Valid() && fresh(opacity)
      ensures State() == Initial
    {
      currentZoom := 1.0;
      isGlitching := false;
      holdArmed := false;
      glitchArmed := false;
      initialDistance := 0.0;
      focusX := CenterFocus;
      focusY := CenterFocus;
      maxRustLevel := 0;
      opacity := new int[LayerCount];
      new;
      opacity[CleanLayer] := 1;
      HideRustLayers();
    }

    /** `rustLayers.forEach(layer => layer.style.opacity = 0)`. */
    method HideRustLayers()
      requires opacity.Length == LayerCount
      modifies opacity
      ensures opacity[..] == [0, 0, 0, old(opacity[CleanLayer])]
    {
      for i := 0 to RustLayerCount
        invariant forall j :: 0 <= j < i ==> opacity[j] == 0
        invariant opacity[CleanLayer] == old(opacity[CleanLayer])
      {
        opacity[i] := 0;
      }
    }

    /** updateRustLayers (script.js:43-78). */
    method UpdateRustLayers()
      requires Valid()
      modifies this`maxRustLevel, opacity
      ensures Valid()
      ensures State() == UpdateRust(old(State()))
    {
      ghost var s0 := State();
      UpdateRustKeepsInv(s0);
      if holdArmed || isGlitching {
        return;
      }
      var currentRustVisible := false;
      var reached := CurrentRustLevel(currentZoom);
      maxRustLevel := Max(maxRustLevel, reached);
      if currentZoom == 1.0 {
        HideRustLayers();
        opacity[CleanLayer] := 1;
      } else {
        for i := 0 to RustLayerCount
          modifies opacity
          invariant forall j :: 0 <= j < i ==> opacity[j] == (if j < maxRustLevel then 1 else 0)
          invariant currentRustVisible <==> 0 < i && 0 < maxRustLevel
        {
          if i < maxRustLevel {
            opacity[i] := 1;
            currentRustVisible := true;
          } else {
            opacity[i] := 0;
          }
        }
        opacity[CleanLayer] := if currentRustVisible then 0 else 1;
      }
      RenderVisibility(currentZoom, maxRustLevel);
      assert opacity[..] == Render(currentZoom, maxRustLevel);
    }

    /** activateGlitchAndReset (script.js:83-87); its caller has just cleared the hold. */
    method ActivateGlitchAndReset()
      requires Valid() && !holdArmed
      modifies this`isGlitching, this`glitchArmed
      ensures Valid()
      ensures State() == ActivateGlitch(old(State()))
    {
      if isGlitching {
        return;
      }
      isGlitching := true;
      glitchArmed := true;
    }

    /** The glitch timeout fires (script.js:88-102). */
    method GlitchTimeoutFires()
      requires Valid() && glitchArmed
      modifies this, opacity
      ensures Valid()
      ensures State() == GlitchFired(old(State()))
    {
      isGlitching := false;
      glitchArmed := false;
      currentZoom := 1.0;
      focusX := CenterFocus;
      focusY := CenterFocus;
      maxRustLevel := 0;
      HideRustLayers();
      opacity[CleanLayer] := 1;
    }

    /** The hold timeout fires (script.js:157-160). */
    method HoldTimeoutFires()
      requires Valid() && holdArmed
      modifies this
      ensures Valid()
      ensures State() == HoldFired(old(State()))
    {
      holdArmed := false;
      ActivateGlitchAndReset();
    }

    /** The clamp of setZoomFocus (script.js:112-113); `x` and `y` are the
        container-relative percentages. */
    method SetZoomFocus(x: real, y: real)
      requires Valid()
      modifies this`focusX, this`focusY
      ensures Valid()
      ensures State() == SetFocus(old(State()), x, y)
    {
      focusX := Clamp(x, 0.0, 100.0);
      focusY := Clamp(y, 0.0, 100.0);
    }

    /** performZoom (script.js:119-163). */
    method PerformZoom(delta: real)
      requires Valid()
      modifies this, opacity
      ensures Valid()
      ensures State() == Zoom(old(State()), delta)
    {
      ghost var s0 := State();
      ZoomKeepsInv(s0, delta);
      if holdArmed {
        holdArmed := false;
      }
      if glitchArmed {
        glitchArmed := false;
        isGlitching := false;
        currentZoom := 1.0;
        HideRustLayers();
        opacity[CleanLayer] := 1;
        maxRustLevel := 0;
      }
      if isGlitching {
        return;
      }
      currentZoom := Clamp(currentZoom + delta, 1.0, MaxZoom);
      UpdateRustLayers();
      if currentZoom == 1.0 && delta < 0.0 {
        HideRustLayers();
        opacity[FullRustLayer] := 1;
        opacity[CleanLayer] := 0;
        if !holdArmed {
          holdArmed := true;
        }
      }
    }

    /** handleWheel (script.js:169-174); `delta` is the scaled wheel delta. */
    method HandleWheel(x: real, y: real, delta: real)
      requires Valid()
      modifies this, opacity
      ensures Valid()
      ensures State() == Wheel(old(State()), x, y, delta)
    {
      SetZoomFocus(x, y);
      PerformZoom(delta);
    }

    /** handleTouchStart (script.js:190-213); `distance`, `x` and `y` are the
        distance and centre of the first two touches. */
    method HandleTouchStart(touches: nat, distance: real, x: real, y: real)
      requires Valid()
      modifies this, opacity
      ensures Valid()
      ensures State() == TouchStart(old(State()), touches, distance, x, y)
    {
      if holdArmed || isGlitching {
        holdArmed := false;
        glitchArmed := false;
        isGlitching := false;
        currentZoom := 1.0;
        HideRustLayers();
        opacity[CleanLayer] := 1;
        maxRustLevel := 0;
        return;
      }
      if touches == 2 {
        initialDistance := distance;
        SetZoomFocus(x, y);
      }
    }

    /** handleTouchMove (script.js:215-234); `distance` is the new distance of
        the first two touches, `x` and `y` their centre. */
    method HandleTouchMove(touches: nat, distance: real, x: real, y: real)
      requires Valid()
      modifies this, opacity
      ensures Valid()
      ensures State() == TouchMove(old(State()), touches, distance, x, y)
    {
      if isGlitching {
        return;
      }
      if touches == 2 && initialDistance > 0.0 {
        SetZoomFocus(x, y);
        var scaleChange := distance / initialDistance;
        var delta := scaleChange - 1.0;
        PerformZoom(delta);
        initialDistance := distance;
      }
    }

    /** handleTouchEnd (script.js:236-245). */
    method HandleTouchEnd()
      requires Valid()
      modifies this
      ensures Valid()
      ensures State() == TouchEnd(old(State()))
    {
      initialDistance := 0.0;
      if currentZoom == 1.0 && !holdArmed && !isGlitching {
        holdArmed := true;
      }
    }
  }
}
