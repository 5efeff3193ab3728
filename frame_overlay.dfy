/** The text overlay of the image-sequence scrubber: four panels drifting from +20 to -20 pixels. */
module FrameOverlay {
  import opened Overlay

  /** Where this variant's panels start their drift, in pixels. */
  const PARALLAX_FROM: real := 20.0

  /** "We have", "Physical AI", "Onboard", "This is the future", in scroll order. */
  const PANELS: seq<Panel> := [
    Panel(-0.05, 0.2, 0.0, 0.2),
    Panel(0.25, 0.45, 0.25, 0.45),
    Panel(0.55, 0.75, 0.55, 0.75),
    Panel(0.85, 1.0, 0.85, 1.0)
  ]

  /**
   * The authored windows leave room for both ramps (so every keyframe list is in order) and
   * follow one another without overlapping.
   */
  lemma PanelsSeparated()
    ensures Separated(PANELS)
    ensures forall i :: 0 <= i < |PANELS| ==>
      Motion.Increasing(ScrollOpacity(PANELS[i].fadeStart, PANELS[i].fadeEnd).input) &&
      Motion.Increasing(ScrollY(PANELS[i].moveStart, PANELS[i].moveEnd, PARALLAX_FROM).input)
  {
    forall i | 0 <= i < |PANELS|
      ensures Motion.Increasing(ScrollOpacity(PANELS[i].fadeStart, PANELS[i].fadeEnd).input)
      ensures Motion.Increasing(ScrollY(PANELS[i].moveStart, PANELS[i].moveEnd, PARALLAX_FROM).input)
    {
      ScrollOpacityOrdered(PANELS[i].fadeStart, PANELS[i].fadeEnd);
      ScrollYOrdered(PANELS[i].moveStart, PANELS[i].moveEnd, PARALLAX_FROM);
    }
  }

  /** At any scroll position at most one panel is visible. */
  lemma OnePanelAtATime(p: real, i: nat, j: nat)
    requires i < |PANELS| && j < |PANELS| && i != j
    ensures Opacity(PANELS[i], p) == 0.0 || Opacity(PANELS[j], p) == 0.0
  {
    PanelsSeparated();
    AtMostOneVisible(PANELS, p, i, j);
  }

  /** The first panel's window opens before the scroll does, so it is fully visible at the top. */
  lemma FirstPanelAtTop()
    ensures Opacity(PANELS[0], 0.0) == 1.0
    ensures Offset(PANELS[0], PARALLAX_FROM, 0.0) == PARALLAX_FROM
  {
    OpacityHold(PANELS[0], 0.0);
    OffsetShape(PANELS[0], PARALLAX_FROM, 0.0);
  }

  /**
   * The fade of the panel with window [0.25, 0.45]: 0 at 0.25, half-way up at 0.275, fully
   * visible from 0.30 to 0.40, half-way down at 0.425, 0 again at 0.45.
   */
  lemma SecondPanelFade()
    ensures Opacity(PANELS[1], 0.25) == 0.0
    ensures Opacity(PANELS[1], 0.275) == 0.5
    ensures Opacity(PANELS[1], 0.30) == 1.0
    ensures Opacity(PANELS[1], 0.40) == 1.0
    ensures Opacity(PANELS[1], 0.425) == 0.5
    ensures Opacity(PANELS[1], 0.45) == 0.0
  {
    var w := PANELS[1];
    OpacityOutside(w, 0.25);
    OpacityRampUp(w, 0.275);
    OpacityHold(w, 0.30);
    OpacityHold(w, 0.40);
    OpacityRampDown(w, 0.425);
    OpacityOutside(w, 0.45);
  }

  /** Every panel drifts upwards as the scroll proceeds, from +20 to -20 pixels. */
  lemma PanelsDriftUp(i: nat, p: real, q: real)
    requires i < |PANELS| && p <= q
    ensures Offset(PANELS[i], PARALLAX_FROM, q) <= Offset(PANELS[i], PARALLAX_FROM, p)
    ensures Offset(PANELS[i], PARALLAX_FROM, PANELS[i].moveStart) == PARALLAX_FROM
    ensures Offset(PANELS[i], PARALLAX_FROM, PANELS[i].moveEnd) == DRIFT_END
  {
    PanelsSeparated();
    assert WellFormed(PANELS[i]);
    OffsetMonotone(PANELS[i], PARALLAX_FROM, p, q);
    OffsetShape(PANELS[i], PARALLAX_FROM, PANELS[i].moveStart);
    OffsetShape(PANELS[i], PARALLAX_FROM, PANELS[i].moveEnd);
  }
}
