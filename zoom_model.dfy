/** The zoom controller's interaction state as a value, and one pure function per
    handler of script.js describing the state that handler leaves behind.

    Layers: the three rust layers (light, medium, full) are opacity indices 0, 1, 2;
    the clean layer is index 3. Timers are booleans: armed or not. */
module ZoomModel {

  const MaxZoom: real := 10.0
  /** Zoom thresholds at which rust layer i is unlocked, ascending. */
  const RustThreshold: seq<real> := [3.0, 6.0, 9.0]
  const RustLayerCount: nat := 3
  /** Index of the full-rust layer, shown during the hold period. */
  const FullRustLayer: nat := 2
  /** Index of the clean layer in the opacity sequence. */
  const CleanLayer: nat := 3
  const LayerCount: nat := 4
  /** Focus is a percentage of the container; 50 is its center. */
  const CenterFocus: real := 50.0

  /** Rust layers hidden, clean layer shown. */
  const RestOpacity: seq<int> := [0, 0, 0, 1]
  /** Only the full-rust layer shown, clean layer hidden. */
  const HoldOpacity: seq<int> := [0, 0, 1, 0]

  datatype Snapshot = Snapshot(
    zoom: real,
    level: nat,              // highest rust level reached since the last reset
    focusX: real,
    focusY: real,
    glitching: bool,
    holdArmed: bool,         // the rust-hold timeout is pending
    glitchArmed: bool,       // the glitch timeout is pending
    initialDistance: real,   // pinch reference distance, 0 when no pinch
    opacity: seq<int>)

  /** The state established at load time. */
  const Initial: Snapshot :=
    Snapshot(1.0, 0, CenterFocus, CenterFocus, false, false, false, 0.0, RestOpacity)

  /** What every handler keeps true. */
  predicate Inv(s: Snapshot) {
    && 1.0 <= s.zoom <= MaxZoom
    && s.level <= RustLayerCount
    && 0.0 <= s.focusX <= 100.0
    && 0.0 <= s.focusY <= 100.0
    && (s.glitching <==> s.glitchArmed)
    && !(s.holdArmed && s.glitchArmed)
    && |s.opacity| == LayerCount
    && forall i :: 0 <= i < |s.opacity| ==> 0 <= s.opacity[i] <= 1
  }

  predicate Ascending(ts: seq<real>) {
    forall i, j :: 0 <= i < j < |ts| ==> ts[i] < ts[j]
  }

  function Max(a: nat, b: nat): (m: nat)
    ensures m >= a && m >= b && (m == a || m == b)
  {
    if a < b then b else a
  }

  /** `Math.max(lo, Math.min(hi, x))`. */
  function Clamp(x: real, lo: real, hi: real): (r: real)
    requires lo <= hi
    ensures lo <= r <= hi
    ensures lo <= x <= hi ==> r == x
    ensures x < lo ==> r == lo
    ensures hi < x ==> r == hi
  {
    if x < lo then lo else if hi < x then hi else x
  }

  /** The number of thresholds in `ts` that `z` has reached. */
  function Reached(ts: seq<real>, z: real): (n: nat)
    ensures n <= |ts|
    ensures (forall i :: 0 <= i < |ts| ==> ts[i] <= z) ==> n == |ts|
    ensures (forall i :: 0 <= i < |ts| ==> z < ts[i]) ==> n == 0
  {
    if ts == [] then 0
    else Reached(ts[..|ts| - 1], z) + (if ts[|ts| - 1] <= z then 1 else 0)
  }

  /** For ascending thresholds, threshold k is reached exactly when the count
      exceeds k: the reached thresholds form a prefix. */
  lemma {:induction false} ReachedPrefix(ts: seq<real>, z: real, k: nat)
    requires Ascending(ts) && k < |ts|
    ensures k < Reached(ts, z) <==> ts[k] <= z
  {
    var n := |ts|;
    var init := ts[..n - 1];
    assert Ascending(init);
    assert Reached(ts, z) == Reached(init, z) + (if ts[n - 1] <= z then 1 else 0);
    if k < n - 1 {
      ReachedPrefix(init, z, k);
      assert ts[k] < ts[n - 1];
    } else if 0 < k && ts[k] <= z {
      ReachedPrefix(init, z, k - 1);
      assert ts[k - 1] < ts[k];
    }
  }

  lemma RustThresholdAscending()
    ensures Ascending(RustThreshold) && |RustThreshold| == RustLayerCount
  {
  }

  /** Rust layer i is unlocked at `zoom` exactly when `zoom` reached its threshold. */
  lemma ReachedRust(zoom: real, i: nat)
    requires i < RustLayerCount
    ensures i < Reached(RustThreshold, zoom) <==> RustThreshold[i] <= zoom
  {
    RustThresholdAscending();
    ReachedPrefix(RustThreshold, zoom, i);
  }

  /** The opacities updateRustLayers writes: everything clean at zoom 1; above
      zoom 1 the rust layers below `level`, and the clean layer only when no rust
      layer shows. */
  function Render(zoom: real, level: nat): (o: seq<int>)
  {
    if zoom == 1.0 then RestOpacity
    else
      var rust := seq(RustLayerCount, i => if i < level then 1 else 0);
      var anyRust := exists i :: 0 <= i < RustLayerCount && rust[i] == 1;
      rust + [if anyRust then 0 else 1]
  }

  /** Which layers the rendering shows, in terms of zoom and level. */
  lemma RenderVisibility(zoom: real, level: nat)
    ensures |Render(zoom, level)| == LayerCount
    ensures zoom == 1.0 ==> Render(zoom, level) == RestOpacity
    ensures zoom != 1.0 ==>
      (forall i :: 0 <= i < RustLayerCount ==> (Render(zoom, level)[i] == 1 <==> i < level))
    ensures zoom != 1.0 ==>
      (Render(zoom, level)[CleanLayer] == 0 <==> 0 < level)
    ensures forall i :: 0 <= i < LayerCount ==> 0 <= Render(zoom, level)[i] <= 1
  {
  }

  /** updateRustLayers (script.js:43-78). */
  function UpdateRust(s: Snapshot): (t: Snapshot)
  {
    if s.holdArmed || s.glitching then s
    else
      var level := Max(s.level, Reached(RustThreshold, s.zoom));
      s.(level := level, opacity := Render(s.zoom, level))
  }

  /** The level after updateRustLayers is the old level raised to the thresholds
      reached; nothing else but the opacities changes. */
  lemma UpdateRustLevel(s: Snapshot)
    requires !s.holdArmed && !s.glitching
    ensures UpdateRust(s).level >= s.level
    ensures UpdateRust(s).level >= Reached(RustThreshold, s.zoom)
    ensures UpdateRust(s).level == s.level || UpdateRust(s).level == Reached(RustThreshold, s.zoom)
    ensures s.level <= RustLayerCount ==> UpdateRust(s).level <= RustLayerCount
    ensures UpdateRust(s).opacity == Render(s.zoom, UpdateRust(s).level)
    ensures UpdateRust(s).(level := s.level, opacity := s.opacity) == s
  {
  }

  /** updateRustLayers keeps the invariant. */
  lemma UpdateRustKeepsInv(s: Snapshot)
    requires Inv(s)
    ensures Inv(UpdateRust(s))
  {
  }

  /** While the hold timer is armed or a glitch runs, updateRustLayers is inert. */
  lemma UpdateRustFrozen(s: Snapshot)
    requires s.holdArmed || s.glitching
    ensures UpdateRust(s) == s
  {
  }

  /** The focus clamp of setZoomFocus (script.js:112-113), given the
      container-relative percentages. */
  function SetFocus(s: Snapshot, x: real, y: real): (t: Snapshot)
    ensures 0.0 <= t.focusX <= 100.0 && 0.0 <= t.focusY <= 100.0
    ensures 0.0 <= x <= 100.0 ==> t.focusX == x
    ensures 0.0 <= y <= 100.0 ==> t.focusY == y
    ensures x < 0.0 ==> t.focusX == 0.0
    ensures 100.0 < x ==> t.focusX == 100.0
    ensures y < 0.0 ==> t.focusY == 0.0
    ensures 100.0 < y ==> t.focusY == 100.0
    ensures t.(focusX := s.focusX, focusY := s.focusY) == s
  {
    s.(focusX := Clamp(x, 0.0, 100.0), focusY := Clamp(y, 0.0, 100.0))
  }

  /** The reset performZoom does when it interrupts a running glitch
      (script.js:126-136); the focus is left as it is. */
  function CancelGlitch(s: Snapshot): (t: Snapshot)
  {
    s.(glitchArmed := false, glitching := false, zoom := 1.0, opacity := RestOpacity, level := 0)
  }

  /** performZoom(delta) (script.js:119-163). The hold re-arm test at line 156
      always passes because lines 121-124 just disarmed the hold. */
  function Zoom(s: Snapshot, delta: real): (t: Snapshot)
  {
    var s1 := s.(holdArmed := false);
    var s2 := if s1.glitchArmed then CancelGlitch(s1) else s1;
    if s2.glitching then s2
    else
      var s3 := UpdateRust(s2.(zoom := Clamp(s2.zoom + delta, 1.0, MaxZoom)));
      if s3.zoom == 1.0 && delta < 0.0 then s3.(opacity := HoldOpacity, holdArmed := true)
      else s3
  }

  /** After performZoom the zoom is the clamped sum, taken from 1 when a glitch
      was interrupted; no path of performZoom moves the focus or the pinch
      distance. */
  lemma ZoomClamps(s: Snapshot, delta: real)
    requires Inv(s)
    ensures 1.0 <= Zoom(s, delta).zoom <= MaxZoom
    ensures Zoom(s, delta).zoom == Clamp((if s.glitchArmed then 1.0 else s.zoom) + delta, 1.0, MaxZoom)
    ensures Zoom(s, delta).focusX == s.focusX && Zoom(s, delta).focusY == s.focusY
    ensures Zoom(s, delta).initialDistance == s.initialDistance
  {
  }

  /** A pending hold is always cancelled; the hold is armed afterwards exactly
      when a shrinking zoom lands on 1, and then only the full-rust layer shows. */
  lemma ZoomHold(s: Snapshot, delta: real)
    requires Inv(s)
    ensures Zoom(s, delta) == Zoom(s.(holdArmed := false), delta)
    ensures Zoom(s, delta).holdArmed <==> Zoom(s, delta).zoom == 1.0 && delta < 0.0
    ensures Zoom(s, delta).holdArmed ==> Zoom(s, delta).opacity == HoldOpacity
    ensures !Zoom(s, delta).glitching && !Zoom(s, delta).glitchArmed
  {
  }

  /** A negative delta at rest arms the hold and shows the full-rust layer even
      when the zoom did not move and no rust was revealed. */
  lemma ZoomAtRestArmsHold(s: Snapshot, delta: real)
    requires Inv(s) && !s.glitchArmed && s.zoom == 1.0 && delta < 0.0
    ensures Zoom(s, delta).zoom == 1.0 && Zoom(s, delta).holdArmed
    ensures Zoom(s, delta).opacity == HoldOpacity
    ensures Zoom(s, delta).level == s.level
  {
  }

  /** Interrupting a glitch is a full reset before the delta applies: the result
      is that of zooming from rest. */
  lemma ZoomCancelsGlitch(s: Snapshot, delta: real)
    requires s.glitchArmed
    ensures Zoom(s, delta) == Zoom(CancelGlitch(s.(holdArmed := false)), delta)
    ensures CancelGlitch(s).zoom == 1.0 && CancelGlitch(s).level == 0
    ensures CancelGlitch(s).opacity == RestOpacity
    ensures !Zoom(s, delta).glitching && !Zoom(s, delta).glitchArmed
    ensures Zoom(s, delta).level == Reached(RustThreshold, Zoom(s, delta).zoom)
  {
  }

  /** Without an interruption, performZoom never lowers the rust level. */
  lemma ZoomLevel(s: Snapshot, delta: real)
    requires Inv(s)
    ensures !s.glitchArmed ==> Zoom(s, delta).level >= s.level
    ensures Zoom(s, delta).level <= RustLayerCount
    ensures Zoom(s, delta).level >= Reached(RustThreshold, Zoom(s, delta).zoom)
  {
  }

  lemma ZoomKeepsInv(s: Snapshot, delta: real)
    requires Inv(s)
    ensures Inv(Zoom(s, delta))
  {
  }

  /** handleWheel (script.js:169-174), with the wheel's delta already scaled. */
  function Wheel(s: Snapshot, x: real, y: real, delta: real): (t: Snapshot)
  {
    Zoom(SetFocus(s, x, y), delta)
  }

  /** activateGlitchAndReset (script.js:83-87), up to arming the glitch timer. */
  function ActivateGlitch(s: Snapshot): (t: Snapshot)
  {
    if s.glitching then s else s.(glitching := true, glitchArmed := true)
  }

  lemma ActivateGlitchEffect(s: Snapshot)
    ensures s.glitching ==> ActivateGlitch(s) == s
    ensures ActivateGlitch(s).glitching
    ensures !s.glitching ==> ActivateGlitch(s).glitchArmed
    ensures ActivateGlitch(s).(glitching := s.glitching, glitchArmed := s.glitchArmed) == s
  {
  }

  /** The hold timeout callback (script.js:157-160). */
  function HoldFired(s: Snapshot): (t: Snapshot)
  {
    ActivateGlitch(s.(holdArmed := false))
  }

  lemma HoldFiredEffect(s: Snapshot)
    requires Inv(s) && s.holdArmed
    ensures HoldFired(s) == s.(holdArmed := false, glitching := true, glitchArmed := true)
    ensures Inv(HoldFired(s))
  {
  }

  /** The glitch timeout callback (script.js:88-102). */
  function GlitchFired(s: Snapshot): (t: Snapshot)
  {
    s.(glitching := false, glitchArmed := false, zoom := 1.0, focusX := CenterFocus,
       focusY := CenterFocus, level := 0, opacity := RestOpacity)
  }

  /** Glitch completion brings every part of the view back to rest. */
  lemma GlitchFiredEffect(s: Snapshot)
    requires Inv(s)
    ensures var t := GlitchFired(s);
      && t.zoom == 1.0 && t.focusX == 50.0 && t.focusY == 50.0 && t.level == 0
      && !t.glitching && !t.glitchArmed && t.holdArmed == s.holdArmed
      && t.opacity == RestOpacity && t.initialDistance == s.initialDistance
    ensures Inv(GlitchFired(s))
  {
  }

  /** handleTouchStart (script.js:190-213); `distance` and the focus percentages
      are the two-finger distance and centre computed by the caller. */
  function TouchStart(s: Snapshot, touches: nat, distance: real, x: real, y: real): (t: Snapshot)
  {
    if s.holdArmed || s.glitching then
      s.(holdArmed := false, glitchArmed := false, glitching := false, zoom := 1.0,
         opacity := RestOpacity, level := 0)
    else if touches == 2 then SetFocus(s.(initialDistance := distance), x, y)
    else s
  }

  /** A touch during the hold or the glitch resets and reads nothing of the touch. */
  lemma TouchStartCancels(s: Snapshot, touches: nat, distance: real, x: real, y: real)
    requires s.holdArmed || s.glitching
    ensures var t := TouchStart(s, touches, distance, x, y);
      && !t.holdArmed && !t.glitchArmed && !t.glitching
      && t.zoom == 1.0 && t.level == 0 && t.opacity == RestOpacity
      && t.initialDistance == s.initialDistance
      && t.focusX == s.focusX && t.focusY == s.focusY
  {
  }

  /** Otherwise only a two-finger touch records a pinch start. */
  lemma TouchStartPinch(s: Snapshot, touches: nat, distance: real, x: real, y: real)
    requires !s.holdArmed && !s.glitching
    ensures touches == 2 ==>
      TouchStart(s, touches, distance, x, y)
      == s.(initialDistance := distance, focusX := Clamp(x, 0.0, 100.0), focusY := Clamp(y, 0.0, 100.0))
    ensures touches != 2 ==> TouchStart(s, touches, distance, x, y) == s
  {
  }

  /** handleTouchMove (script.js:215-234); `distance` is the new two-finger
      distance, the ratio to the previous one is the scale change. */
  function TouchMove(s: Snapshot, touches: nat, distance: real, x: real, y: real): (t: Snapshot)
  {
    if s.glitching then s
    else if touches == 2 && s.initialDistance > 0.0 then
      var delta := distance / s.initialDistance - 1.0;
      Zoom(SetFocus(s, x, y), delta).(initialDistance := distance)
    else s
  }

  lemma TouchMoveEffect(s: Snapshot, touches: nat, distance: real, x: real, y: real)
    ensures s.glitching || touches != 2 || s.initialDistance <= 0.0 ==>
      TouchMove(s, touches, distance, x, y) == s
    ensures !s.glitching && touches == 2 && s.initialDistance > 0.0 ==>
      var t := TouchMove(s, touches, distance, x, y);
      && t.initialDistance == distance
      && t.(initialDistance := s.initialDistance)
         == Zoom(SetFocus(s, x, y), distance / s.initialDistance - 1.0).(initialDistance := s.initialDistance)
  {
  }

  /** A pinch that keeps its distance leaves the zoom where it is. */
  lemma TouchMoveSameDistance(s: Snapshot, x: real, y: real)
    requires Inv(s) && !s.glitching && s.initialDistance > 0.0
    ensures TouchMove(s, 2, s.initialDistance, x, y).zoom == s.zoom
  {
    assert s.initialDistance / s.initialDistance - 1.0 == 0.0;
  }

  /** handleTouchEnd (script.js:236-245). */
  function TouchEnd(s: Snapshot): (t: Snapshot)
  {
    var s1 := s.(initialDistance := 0.0);
    if s1.zoom == 1.0 && !s1.holdArmed && !s1.glitching then s1.(holdArmed := true) else s1
  }

  lemma TouchEndEffect(s: Snapshot)
    ensures TouchEnd(s).initialDistance == 0.0
    ensures TouchEnd(s).holdArmed <==> s.holdArmed || (s.zoom == 1.0 && !s.glitching)
    ensures TouchEnd(s).(initialDistance := s.initialDistance, holdArmed := s.holdArmed) == s
  {
  }
}
