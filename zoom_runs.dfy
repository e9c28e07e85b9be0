/** Sequences of input events and timer callbacks applied to the controller's
    state, and what holds along every such sequence. */
module ZoomRuns {
  import opened ZoomModel

  /** Everything that can drive the controller: the four listeners of
      script.js:247-250 and the two timeout callbacks. */
  datatype Event =
    | WheelEvent(x: real, y: real, delta: real)
    | TouchStartEvent(touches: nat, distance: real, x: real, y: real)
    | TouchMoveEvent(touches: nat, distance: real, x: real, y: real)
    | TouchEndEvent
    | HoldTimeout
    | GlitchTimeout

  /** One event. A timeout that has been cleared never fires, so firing a
      disarmed timer changes nothing. */
  function Step(s: Snapshot, e: Event): (t: Snapshot)
  {
    match e
    case WheelEvent(x, y, delta) => Wheel(s, x, y, delta)
    case TouchStartEvent(n, d, x, y) => TouchStart(s, n, d, x, y)
    case TouchMoveEvent(n, d, x, y) => TouchMove(s, n, d, x, y)
    case TouchEndEvent => TouchEnd(s)
    case HoldTimeout => if s.holdArmed then HoldFired(s) else s
    case GlitchTimeout => if s.glitchArmed then GlitchFired(s) else s
  }

  function Run(s: Snapshot, es: seq<Event>): (t: Snapshot)
    decreases |es|
  {
    if es == [] then s else Run(Step(s, es[0]), es[1..])
  }

  /** The event clears the rust level: it interrupts a running glitch
      (script.js:126-136), touches the screen during the hold or the glitch
      (script.js:192-205), or completes the glitch (script.js:88-102). */
  predicate Resets(s: Snapshot, e: Event)
  {
    match e
    case WheelEvent(_, _, _) => s.glitchArmed
    case TouchStartEvent(_, _, _, _) => s.holdArmed || s.glitching
    case TouchMoveEvent(n, _, _, _) =>
      !s.glitching && n == 2 && s.initialDistance > 0.0 && s.glitchArmed
    case TouchEndEvent => false
    case HoldTimeout => false
    case GlitchTimeout => s.glitchArmed
  }

  /** No event of `es`, applied from `s`, resets the rust level. */
  predicate NoReset(s: Snapshot, es: seq<Event>)
    decreases |es|
  {
    es == [] || (!Resets(s, es[0]) && NoReset(Step(s, es[0]), es[1..]))
  }

  /** The state a run can reach: the invariant, a rust level at least what the
      zoom unlocks, and layers that show what the state says — the rendering of
      (zoom, level) in normal interaction; at zoom 1, either the full-rust or
      the clean view while the hold or the glitch is pending. */
  predicate Coherent(s: Snapshot)
  {
    && Inv(s)
    && s.level >= Reached(RustThreshold, s.zoom)
    && (if s.holdArmed || s.glitching
        then s.zoom == 1.0 && (s.opacity == HoldOpacity || s.opacity == RestOpacity)
        else s.opacity == Render(s.zoom, s.level))
  }

  lemma InitialCoherent()
    ensures Coherent(Initial)
  {
  }

  /** Every handler and timer callback keeps the invariant. */
  lemma StepKeepsInv(s: Snapshot, e: Event)
    requires Inv(s)
    ensures Inv(Step(s, e))
  {
  }

  /** performZoom leaves a coherent state from any state satisfying the invariant. */
  lemma ZoomCoherent(s: Snapshot, delta: real)
    requires Inv(s)
    ensures Coherent(Zoom(s, delta))
  {
  }

  /** Every event keeps the state coherent. */
  lemma StepKeepsCoherent(s: Snapshot, e: Event)
    requires Coherent(s)
    ensures Coherent(Step(s, e))
  {
  }

  /** Coherence survives any sequence of events, in any interleaving: the
      timers are never both pending, the glitch flag matches its timer, zoom and
      focus stay in range, and the layers show what the state says. */
  lemma {:induction false} RunKeepsCoherent(s: Snapshot, es: seq<Event>)
    requires Coherent(s)
    ensures Coherent(Run(s, es))
    decreases |es|
  {
    if es != [] {
      StepKeepsCoherent(s, es[0]);
      RunKeepsCoherent(Step(s, es[0]), es[1..]);
    }
  }

  /** Every state reachable from load time is coherent. */
  lemma Reachable(es: seq<Event>)
    ensures Coherent(Run(Initial, es))
    ensures 1.0 <= Run(Initial, es).zoom <= MaxZoom
    ensures Run(Initial, es).level <= RustLayerCount
    ensures !(Run(Initial, es).holdArmed && Run(Initial, es).glitchArmed)
    ensures Run(Initial, es).glitching <==> Run(Initial, es).glitchArmed
  {
    InitialCoherent();
    RunKeepsCoherent(Initial, es);
  }

  /** One step: an event that does not reset never lowers the rust level, and
      one that resets leaves only what the new zoom unlocks. */
  lemma StepLevel(s: Snapshot, e: Event)
    requires Inv(s)
    ensures !Resets(s, e) ==> Step(s, e).level >= s.level
    ensures Resets(s, e) ==> Step(s, e).level == Reached(RustThreshold, Step(s, e).zoom)
  {
  }

  /** Between two resets the rust level never decreases. */
  lemma {:induction false} LevelMonotone(s: Snapshot, es: seq<Event>)
    requires Inv(s) && NoReset(s, es)
    ensures Run(s, es).level >= s.level
    decreases |es|
  {
    if es != [] {
      StepLevel(s, es[0]);
      StepKeepsInv(s, es[0]);
      LevelMonotone(Step(s, es[0]), es[1..]);
    }
  }

  /** Three wheel steps of +1 from rest: zoom 4, and only the first threshold (3)
      is reached. */
  lemma ScenarioThreeSteps()
    ensures var t := Run(Initial, [WheelEvent(50.0, 50.0, 1.0), WheelEvent(50.0, 50.0, 1.0),
                                  WheelEvent(50.0, 50.0, 1.0)]);
      t.zoom == 4.0 && t.level == 1 && t.opacity == [1, 0, 0, 0] && !t.holdArmed
  {
    RenderVisibility(4.0, 1);
  }

  /** Zooming to 9 and straight back to 1 keeps level 3, shows only the full-rust
      layer and arms the hold; the hold then starts the glitch, and the glitch's
      completion brings back the load-time state. */
  lemma ScenarioHoldAndGlitch()
    ensures var t := Run(Initial, [WheelEvent(50.0, 50.0, 8.0), WheelEvent(50.0, 50.0, -8.0)]);
      t.zoom == 1.0 && t.level == 3 && t.opacity == HoldOpacity && t.holdArmed && !t.glitching
    ensures var t := Run(Initial, [WheelEvent(50.0, 50.0, 8.0), WheelEvent(50.0, 50.0, -8.0),
                                  HoldTimeout]);
      t.glitching && t.glitchArmed && !t.holdArmed && t.level == 3
    ensures Run(Initial, [WheelEvent(50.0, 50.0, 8.0), WheelEvent(50.0, 50.0, -8.0),
                          HoldTimeout, GlitchTimeout]) == Initial
  {
  }

  /** A wheel event during the hold only cancels it: the level survives and the
      zoom moves by the wheel's own delta. */
  lemma ScenarioWheelDuringHold()
    ensures var t := Run(Initial, [WheelEvent(50.0, 50.0, 8.0), WheelEvent(50.0, 50.0, -8.0),
                                  WheelEvent(50.0, 50.0, 2.0)]);
      t.zoom == 3.0 && t.level == 3 && !t.holdArmed && t.opacity == [1, 1, 1, 0]
  {
    RenderVisibility(3.0, 3);
  }

  /** A pinch move during the glitch is ignored: the glitch keeps running and
      the zoom stays where the glitch found it. */
  lemma ScenarioPinchDuringGlitch()
    ensures var t := Run(Initial, [TouchStartEvent(2, 100.0, 50.0, 50.0),
                                  TouchMoveEvent(2, 50.0, 50.0, 50.0), HoldTimeout,
                                  TouchMoveEvent(2, 200.0, 50.0, 50.0)]);
      t.glitching && t.glitchArmed && t.zoom == 1.0 && t.initialDistance == 50.0
  {
  }
}
