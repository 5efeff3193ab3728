/**
 * The video scrubber: every change of scroll progress seeks a single video to
 * progress x duration, once the duration is known; its overlay is the same four panels,
 * drifting from 0 to -20 pixels.
 */
module VideoDrone {
  import opened Wrappers
  import opened Overlay
  import FrameOverlay

  /**
   * The time the change handler seeks to: `latest * video.duration`, or nothing when the
   * duration is falsy (None stands for an unknown, NaN duration; zero is falsy too).
   */
  function TargetTime(latest: real, duration: Option<real>): (t: Option<real>)
    ensures t.Some? <==> duration.Some? && duration.value != 0.0
  {
    if duration.Some? && duration.value != 0.0 then Some(latest * duration.value) else None
  }

  /** Scroll progress in [0, 1] seeks within the video, from its start (0) to its end (1). */
  lemma TargetTimeWithinVideo(p: real, d: real)
    requires 0.0 <= p <= 1.0 && d > 0.0
    ensures TargetTime(p, Some(d)).Some?
    ensures 0.0 <= TargetTime(p, Some(d)).value <= d
    ensures TargetTime(0.0, Some(d)) == Some(0.0) && TargetTime(1.0, Some(d)) == Some(d)
  {
    Motion.MulMono(d, p, 1.0);
    Motion.MulNonNeg(d, p);
  }

  /** Scrolling further never seeks to an earlier time. */
  lemma TargetTimeMonotone(p: real, q: real, d: real)
    requires p <= q && d > 0.0
    ensures TargetTime(p, Some(d)).value <= TargetTime(q, Some(d)).value
  {
    Motion.MulMono(d, p, q);
  }

  /** A seek as issued to the video element. */
  datatype Seek = FastSeek(time: real) | SetCurrentTime(time: real)

  /**
   * The video element as the scroll handler sees it: its duration (None while unknown),
   * whether `fastSeek` exists, the value the handler last assigned to `currentTime` (a
   * `fastSeek` also moves the playback position, which is not modelled), and every seek
   * issued so far.
   */
  class Video {
    var duration: Option<real>
    const hasFastSeek: bool
    var currentTime: real
    var seeks: seq<Seek>

    constructor (hasFastSeek: bool)
      ensures this.hasFastSeek == hasFastSeek
      ensures duration == None && currentTime == 0.0 && seeks == []
    {
      this.hasFastSeek := hasFastSeek;
      duration, currentTime, seeks := None, 0.0, [];
    }

    /** The metadata arriving: the duration becomes known. */
    method LoadMetadata(d: real)
      requires d >= 0.0
      modifies this`duration
      ensures duration == Some(d)
    {
      duration := Some(d);
    }

    /**
     * The handler of `scrollYProgress.on("change")`: with a known non-zero duration exactly
     * one seek to latest x duration, by `fastSeek` when present and otherwise by setting
     * `currentTime`; without one nothing changes.
     */
    method OnScrollChange(latest: real)
      modifies this`currentTime, this`seeks
      ensures TargetTime(latest, duration).None? ==> currentTime == old(currentTime) && seeks == old(seeks)
      ensures TargetTime(latest, duration).Some? && hasFastSeek ==>
        currentTime == old(currentTime) && seeks == old(seeks) + [FastSeek(TargetTime(latest, duration).value)]
      ensures TargetTime(latest, duration).Some? && !hasFastSeek ==>
        currentTime == TargetTime(latest, duration).value &&
        seeks == old(seeks) + [SetCurrentTime(TargetTime(latest, duration).value)]
    {
      if duration.Some? && duration.value != 0.0 {
        var time := latest * duration.value;
        assert TargetTime(latest, duration).value == latest * duration.value;
        if hasFastSeek {
          seeks := seeks + [FastSeek(time)];
        } else {
          currentTime := time;
          seeks := seeks + [SetCurrentTime(time)];
        }
      }
    }
  }

  /** Where this variant's panels start their drift, in pixels. */
  const PARALLAX_FROM: real := 0.0

  /** The same four panels as the image-sequence variant, in scroll order. */
  const PANELS: seq<Panel> := [
    Panel(-0.05, 0.2, 0.0, 0.2),
    Panel(0.25, 0.45, 0.25, 0.45),
    Panel(0.55, 0.75, 0.55, 0.75),
    Panel(0.85, 1.0, 0.85, 1.0)
  ]

  /**
   * The windows are those of the image-sequence variant, so they too leave room for both
   * ramps and do not overlap; only the drift differs.
   */
  lemma PanelsMatchFrameVariant()
    ensures PANELS == FrameOverlay.PANELS
    ensures Separated(PANELS)
    ensures PARALLAX_FROM != FrameOverlay.PARALLAX_FROM
  {
    FrameOverlay.PanelsSeparated();
  }

  /** Every panel drifts upwards as the scroll proceeds, from 0 to -20 pixels. */
  lemma PanelsDriftUp(i: nat, p: real, q: real)
    requires i < |PANELS| && p <= q
    ensures Offset(PANELS[i], PARALLAX_FROM, q) <= Offset(PANELS[i], PARALLAX_FROM, p)
    ensures Offset(PANELS[i], PARALLAX_FROM, PANELS[i].moveStart) == 0.0
    ensures Offset(PANELS[i], PARALLAX_FROM, PANELS[i].moveEnd) == DRIFT_END
  {
    PanelsMatchFrameVariant();
    assert WellFormed(PANELS[i]);
    OffsetMonotone(PANELS[i], PARALLAX_FROM, p, q);
    OffsetShape(PANELS[i], PARALLAX_FROM, PANELS[i].moveStart);
    OffsetShape(PANELS[i], PARALLAX_FROM, PANELS[i].moveEnd);
  }

  /** At any scroll position at most one panel is visible. */
  lemma OnePanelAtATime(p: real, i: nat, j: nat)
    requires i < |PANELS| && j < |PANELS| && i != j
    ensures Opacity(PANELS[i], p) == 0.0 || Opacity(PANELS[j], p) == 0.0
  {
    PanelsMatchFrameVariant();
    AtMostOneVisible(PANELS, p, i, j);
  }
}
