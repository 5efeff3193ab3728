/**
 * The text overlay shared by both scrubbers: four panels, each fading in over the first
 * 5% of scroll of its window, staying fully visible, fading out over the last 5%, and
 * drifting upwards across its parallax window.
 */
module Overlay {
  import opened Motion

  /** The input points and output values handed to one `useTransform` call. */
  datatype Keyframes = Keyframes(input: seq<real>, output: seq<real>)

  /** Length of each fade ramp, in scroll progress. */
  const FADE: real := 0.05

  /** Where every panel ends its parallax drift, in pixels. */
  const DRIFT_END: real := -20.0

  /** `useScrollOpacity(start, end)`: inputs [s, s+0.05, e-0.05, e] onto [0, 1, 1, 0]. */
  function ScrollOpacity(start: real, end: real): Keyframes
  {
    Keyframes([start, start + FADE, end - FADE, end], [0.0, 1.0, 1.0, 0.0])
  }

  /** The fade keyframes are in order exactly when the window leaves room for both ramps. */
  lemma ScrollOpacityOrdered(start: real, end: real)
    ensures |ScrollOpacity(start, end).input| == |ScrollOpacity(start, end).output|
    ensures NonDecreasing(ScrollOpacity(start, end).input) <==> start + 2.0 * FADE <= end
    ensures Increasing(ScrollOpacity(start, end).input) <==> start + 2.0 * FADE < end
  {
    var xs := ScrollOpacity(start, end).input;
    assert xs[1] == start + FADE && xs[2] == end - FADE;
  }

  /** `useScrollY(start, end)`: inputs [s, e] onto [from, -20]. */
  function ScrollY(start: real, end: real, from: real): Keyframes
  {
    Keyframes([start, end], [from, DRIFT_END])
  }

  /** The drift keyframes are in order exactly when the window is. */
  lemma ScrollYOrdered(start: real, end: real, from: real)
    ensures |ScrollY(start, end, from).input| == |ScrollY(start, end, from).output|
    ensures NonDecreasing(ScrollY(start, end, from).input) <==> start <= end
    ensures Increasing(ScrollY(start, end, from).input) <==> start < end
  {
    var xs := ScrollY(start, end, from).input;
    assert xs[0] == start && xs[1] == end;
  }

  /** One authored panel: the scroll window of its fade and that of its parallax drift. */
  datatype Panel = Panel(fadeStart: real, fadeEnd: real, moveStart: real, moveEnd: real)

  /** The fade window leaves room for both ramps and the drift window is not empty. */
  predicate WellFormed(w: Panel)
  {
    w.fadeStart + 2.0 * FADE < w.fadeEnd && w.moveStart < w.moveEnd
  }

  /** Every panel is well formed and each fade window ends before the next one starts. */
  predicate Separated(ps: seq<Panel>)
  {
    && (forall i :: 0 <= i < |ps| ==> WellFormed(ps[i]))
    && (forall i, j :: 0 <= i < j < |ps| ==> ps[i].fadeEnd < ps[j].fadeStart)
  }

  /** The opacity of a panel at scroll progress p. */
  function Opacity(w: Panel, p: real): (o: real)
    requires w.fadeStart + 2.0 * FADE <= w.fadeEnd
    ensures 0.0 <= o <= 1.0
  {
    var k := ScrollOpacity(w.fadeStart, w.fadeEnd);
    InterpolateWithin(k.input, k.output, p, 0.0, 1.0);
    Interpolate(k.input, k.output, p)
  }

  /** The vertical offset of a panel at scroll progress p, starting from `from` pixels. */
  function Offset(w: Panel, from: real, p: real): (y: real)
    requires w.moveStart <= w.moveEnd
    ensures from <= y <= DRIFT_END || DRIFT_END <= y <= from
  {
    var k := ScrollY(w.moveStart, w.moveEnd, from);
    if from <= DRIFT_END then
      InterpolateWithin(k.input, k.output, p, from, DRIFT_END);
      Interpolate(k.input, k.output, p)
    else
      InterpolateWithin(k.input, k.output, p, DRIFT_END, from);
      Interpolate(k.input, k.output, p)
  }

  /** Before the window opens and after it closes a panel is invisible. */
  lemma OpacityOutside(w: Panel, p: real)
    requires w.fadeStart + 2.0 * FADE < w.fadeEnd
    requires p <= w.fadeStart || w.fadeEnd <= p
    ensures Opacity(w, p) == 0.0
  {
    ScrollOpacityOrdered(w.fadeStart, w.fadeEnd);
  }

  /** Between the two ramps a panel is fully visible. */
  lemma OpacityHold(w: Panel, p: real)
    requires w.fadeStart + 2.0 * FADE < w.fadeEnd
    requires w.fadeStart + FADE <= p <= w.fadeEnd - FADE
    ensures Opacity(w, p) == 1.0
  {
    var k := ScrollOpacity(w.fadeStart, w.fadeEnd);
    ScrollOpacityOrdered(w.fadeStart, w.fadeEnd);
    InterpolateOnSegment(k.input, k.output, p, 1);
    assert Lerp(k.input[1], k.input[2], 1.0, 1.0, p) == 1.0;
  }

  /** Over the first 5% of the window the opacity rises linearly from 0 to 1. */
  lemma OpacityRampUp(w: Panel, p: real)
    requires w.fadeStart + 2.0 * FADE < w.fadeEnd
    requires w.fadeStart <= p <= w.fadeStart + FADE
    ensures Opacity(w, p) == (p - w.fadeStart) / FADE
  {
    var k := ScrollOpacity(w.fadeStart, w.fadeEnd);
    ScrollOpacityOrdered(w.fadeStart, w.fadeEnd);
    InterpolateOnSegment(k.input, k.output, p, 0);
  }

  /** Over the last 5% of the window the opacity falls linearly from 1 to 0. */
  lemma OpacityRampDown(w: Panel, p: real)
    requires w.fadeStart + 2.0 * FADE < w.fadeEnd
    requires w.fadeEnd - FADE <= p <= w.fadeEnd
    ensures Opacity(w, p) == (w.fadeEnd - p) / FADE
  {
    var k := ScrollOpacity(w.fadeStart, w.fadeEnd);
    ScrollOpacityOrdered(w.fadeStart, w.fadeEnd);
    InterpolateOnSegment(k.input, k.output, p, 2);
  }

  /** The drift profile: `from` before the window, -20 after it, linear inside it. */
  lemma OffsetShape(w: Panel, from: real, p: real)
    requires w.moveStart < w.moveEnd
    ensures p <= w.moveStart ==> Offset(w, from, p) == from
    ensures w.moveEnd <= p ==> Offset(w, from, p) == DRIFT_END
    ensures w.moveStart <= p <= w.moveEnd ==>
      Offset(w, from, p) == from + (DRIFT_END - from) * ((p - w.moveStart) / (w.moveEnd - w.moveStart))
  {
    var k := ScrollY(w.moveStart, w.moveEnd, from);
    if w.moveStart <= p <= w.moveEnd {
      InterpolateOnSegment(k.input, k.output, p, 0);
    }
  }

  /** A panel that starts below its end point only ever drifts upwards as scrolling proceeds. */
  lemma OffsetMonotone(w: Panel, from: real, p: real, q: real)
    requires w.moveStart < w.moveEnd && DRIFT_END <= from && p <= q
    ensures Offset(w, from, q) <= Offset(w, from, p)
  {
    OffsetShape(w, from, p);
    OffsetShape(w, from, q);
    LerpMonotone(w.moveStart, w.moveEnd, from, DRIFT_END, p, q);
  }

  /** Of panels whose fade windows are separated, at most one is visible at any scroll position. */
  lemma AtMostOneVisible(ps: seq<Panel>, p: real, i: nat, j: nat)
    requires Separated(ps) && i < |ps| && j < |ps| && i != j
    ensures Opacity(ps[i], p) == 0.0 || Opacity(ps[j], p) == 0.0
  {
    var a, b := if i < j then i else j, if i < j then j else i;
    assert WellFormed(ps[a]) && WellFormed(ps[b]);
    assert ps[a].fadeEnd < ps[b].fadeStart;
    if p <= ps[b].fadeStart {
      OpacityOutside(ps[b], p);
    } else {
      OpacityOutside(ps[a], p);
    }
  }
}
