/**
 * The transport state of the player as plain values: the volume slider, the
 * track bar and the player's own display state, one function per event
 * handler, and the properties the handlers keep.  The classes in module
 * Widgets update the same state in place and are specified by these
 * functions.
 */
module Transport {

  import opened Wrappers
  import opened PyNum
  import opened ClockFormat
  import Backend

  // ---------------------------------------------------------------------------
  // Volume slider
  // ---------------------------------------------------------------------------

  /** Width of the volume slider, in pixels. */
  const SliderWidth: real := 100.0

  /**
   * The slider's state: the backend volume, the volume saved by the last
   * mute, the width of the dark fill bar and the x of the round handle.
   */
  datatype SliderView = SliderView(volume: real, previousVolume: real, fill: real, handle: real)

  /** Both volumes lie in [0, 1], and bar and handle both show the volume. */
  predicate SliderConsistent(s: SliderView) {
    && 0.0 <= s.volume <= 1.0
    && 0.0 <= s.previousVolume <= 1.0
    && s.fill == SliderWidth * s.volume
    && s.handle == s.fill
  }

  /** A pointer x that `change_volume` accepts. */
  predicate OnSlider(x: real) {
    0.0 <= x <= SliderWidth
  }

  /**
   * change_volume: a pointer at x inside the slider sets the volume to
   * x / 100 and moves bar and handle to x.  A pointer outside the slider is
   * ignored (not clamped).
   */
  function ChangeVolume(s: SliderView, x: real): (r: SliderView)
    ensures OnSlider(x) ==> 0.0 <= r.volume <= 1.0 && r.volume * SliderWidth == x
    ensures OnSlider(x) ==> r.fill == x && r.handle == x
    ensures !OnSlider(x) ==> r == s
    ensures r.previousVolume == s.previousVolume
    ensures SliderConsistent(s) ==> SliderConsistent(r)
  {
    if OnSlider(x) then SliderView(x / SliderWidth, s.previousVolume, x, x) else s
  }

  /** mute: saves the volume, then silences the backend and empties the bar. */
  function Mute(s: SliderView): (r: SliderView)
    ensures r.previousVolume == s.volume
    ensures r.volume == 0.0 && r.fill == 0.0 && r.handle == 0.0
    ensures SliderConsistent(s) ==> SliderConsistent(r)
  {
    SliderView(0.0, s.volume, 0.0, 0.0)
  }

  /** unmute: restores the saved volume and redraws bar and handle for it. */
  function Unmute(s: SliderView): (r: SliderView)
    ensures r.volume == s.previousVolume && r.previousVolume == s.previousVolume
    ensures r.fill == SliderWidth * r.volume && r.handle == r.fill
    ensures SliderConsistent(s) ==> SliderConsistent(r)
  {
    SliderView(s.previousVolume, s.previousVolume, SliderWidth * s.previousVolume, SliderWidth * s.previousVolume)
  }

  /**
   * Mute followed by unmute gives back the volume exactly; on a consistent
   * slider the only trace left is the saved volume.
   */
  lemma UnmuteAfterMute(s: SliderView)
    ensures Unmute(Mute(s)).volume == s.volume
    ensures SliderConsistent(s) ==> Unmute(Mute(s)) == s.(previousVolume := s.volume)
  {
  }

  /** Further right on the slider never means quieter. */
  lemma ChangeVolumeMonotone(s: SliderView, x: real, y: real)
    requires OnSlider(x) && OnSlider(y) && x <= y
    ensures ChangeVolume(s, x).volume <= ChangeVolume(s, y).volume
  {
  }

  // ---------------------------------------------------------------------------
  // Track bar
  // ---------------------------------------------------------------------------

  /**
   * The track bar's state: its width in pixels, the track duration in
   * milliseconds, and the width of the dark fill bar.
   */
  datatype TrackView = TrackView(width: real, duration: real, fill: real)

  /** canvas_resized: records the new width; the fill is not redrawn. */
  function CanvasResized(t: TrackView, width: real): (r: TrackView)
    ensures r.width == width && r.duration == t.duration && r.fill == t.fill
  {
    t.(width := width)
  }

  /**
   * The position in milliseconds for a pointer at x, `int(duration * x /
   * width)`.  Within the bar it lies in [0, duration].
   */
  function SeekTarget(duration: real, x: real, width: real): (p: int)
    requires width != 0.0
    ensures 0.0 < width && 0.0 <= duration && 0.0 <= x <= width ==> 0 <= p && p as real <= duration
  {
    var q := duration * x / width;
    assert 0.0 < width && 0.0 <= duration && 0.0 <= x <= width ==> 0.0 <= q <= duration by {
      if 0.0 < width && 0.0 <= duration && 0.0 <= x <= width {
        RatioWithin(duration, x, width);
      }
    }
    Trunc(q)
  }

  lemma RatioWithin(d: real, x: real, w: real)
    requires 0.0 < w && 0.0 <= d && 0.0 <= x <= w
    ensures 0.0 <= d * x / w <= d
  {
    var q := x / w;
    assert q * w == x;
    assert q <= 1.0;
    assert d * x / w == d * q;
    assert d * q <= d * 1.0;
  }

  /**
   * find_position: the fill follows the pointer, clamped to the bar, and
   * the unclamped seek target is handed on.  A bar of width 0 makes the
   * division raise, and then nothing changes and nothing is handed on.
   */
  function FindPosition(t: TrackView, x: real): (r: (TrackView, Option<int>))
    ensures r.0.width == t.width && r.0.duration == t.duration
    ensures t.width == 0.0 <==> r.1.None?
    ensures t.width == 0.0 ==> r.0 == t
    ensures t.width > 0.0 ==> 0.0 <= r.0.fill <= t.width
    ensures t.width != 0.0 && 0.0 <= x <= t.width ==> r.0.fill == x
    ensures t.width > 0.0 && x > t.width ==> r.0.fill == t.width
    ensures t.width > 0.0 && x < 0.0 ==> r.0.fill == 0.0
    ensures r.1.Some? ==> r.1.value == SeekTarget(t.duration, x, t.width)
  {
    if t.width == 0.0 then
      (t, None)
    else
      (t.(fill := Max(0.0, Min(x, t.width))), Some(SeekTarget(t.duration, x, t.width)))
  }

  /**
   * The seek target is not clamped: dragging past either end of the bar asks
   * for a position before the start or after the end of the track, while the
   * fill stops at the ends of the bar.
   */
  lemma SeekTargetUnclamped(t: TrackView)
    requires t.width > 0.0 && t.duration >= 1.0
    ensures FindPosition(t, 2.0 * t.width).1.value as real > t.duration
    ensures FindPosition(t, 2.0 * t.width).0.fill == t.width
    ensures FindPosition(t, -t.width).1.value < 0
    ensures FindPosition(t, -t.width).0.fill == 0.0
  {
    SeekPastEnd(t.duration, t.width);
    SeekBeforeStart(t.duration, t.width);
  }

  lemma SeekPastEnd(d: real, w: real)
    requires w > 0.0 && d >= 1.0
    ensures SeekTarget(d, 2.0 * w, w) as real > d
  {
    var x := 2.0 * w;
    assert d * x == (2.0 * d) * w;
    QuotientOf(d * x, 2.0 * d, w);
    assert SeekTarget(d, x, w) == Trunc(2.0 * d);
  }

  lemma SeekBeforeStart(d: real, w: real)
    requires w > 0.0 && d >= 1.0
    ensures SeekTarget(d, -w, w) < 0
  {
    var x := -w;
    assert d * x == (-d) * w;
    QuotientOf(d * x, -d, w);
    assert SeekTarget(d, x, w) == Trunc(-d);
  }

  lemma QuotientOf(a: real, b: real, w: real)
    requires w != 0.0 && a == b * w
    ensures a / w == b
  {
  }

  // ---------------------------------------------------------------------------
  // Player
  // ---------------------------------------------------------------------------

  /**
   * The text of a backend notification: empty (no data), a number `float()`
   * reads, or text it rejects with ValueError.
   */
  datatype Payload = Empty | Numeric(value: real) | Unparsable

  /**
   * Everything the player's handlers read or write: the slider and the track
   * bar, the calls made on the backend, the last reported position, the
   * `pos / dur` text, the mute icon (true when it shows VOLUME_OFF) and the
   * visibility of the controls.
   */
  datatype PlayerView = PlayerView(
    slider: SliderView,
    track: TrackView,
    commands: seq<Backend.Command>,
    position: real,
    display: string,
    iconMuted: bool,
    playVisible: bool,
    pauseVisible: bool,
    trackVisible: bool,
    sliderVisible: bool,
    iconVisible: bool)

  /**
   * The state of a freshly built player, before the backend has loaded: full
   * volume with 1 saved to restore, no call made on the backend, position 0,
   * a track of duration 1 on a 100-wide bar, and every control hidden.
   */
  function Initial(): (r: PlayerView)
    ensures r.slider.volume == 1.0 && r.slider.previousVolume == 1.0 && !r.iconMuted
    ensures r.commands == [] && r.position == 0.0 && r.track.duration == 1.0
    ensures !r.playVisible && !r.pauseVisible && !r.trackVisible && !r.sliderVisible && !r.iconVisible
  {
    PlayerView(SliderView(1.0, 1.0, SliderWidth, SliderWidth), TrackView(100.0, 1.0, 0.0), [],
               0.0, "", false, false, false, false, false, false)
  }

  /** The `pos / dur` text under the track bar. */
  function PositionText(position: real, duration: real): string {
    ConvertMillis(Some(position)) + " / " + ConvertMillis(Some(duration))
  }

  /**
   * The `pos / dur` text is the position's clock text, the separator, then
   * the duration's clock text, each reading back as its minutes and seconds
   * fields.
   */
  lemma PositionTextReadsBack(position: real, duration: real)
    ensures var r, k := PositionText(position, duration), |ConvertMillis(Some(position))|;
      k + 3 <= |r| && r[k..k + 3] == " / " &&
      ParseClock(r[..k]) == Some(Clock(MinutesField(position), SecondsField(position))) &&
      ParseClock(r[k + 3..]) == Some(Clock(MinutesField(duration), SecondsField(duration)))
  {
    var a, b := ConvertMillis(Some(position)), ConvertMillis(Some(duration));
    var r := PositionText(position, duration);
    assert r[..|a|] == a && r[|a|..|a| + 3] == " / " && r[|a| + 3..] == b;
    ConvertMillisReadsBack(Some(position));
    ConvertMillisReadsBack(Some(duration));
  }

  /**
   * The slider volume as a whole percentage, `int(volume * 100)`: within
   * 0..100 for a volume in [0, 1], and 0 exactly when the volume is less than
   * 1 percent away from 0.
   */
  function Percent(volume: real): (p: int)
    ensures 0.0 <= volume <= 1.0 ==> 0 <= p <= 100
    ensures p == 0 <==> -0.01 < volume < 0.01
  {
    Trunc(volume * 100.0)
  }

  /**
   * audio_loaded: the reported duration, raised to at least 1, becomes the
   * track duration; the text shows position 0; the play button, the bar, the
   * slider and the icon appear.  The pause button is left as it was.
   */
  function AudioLoaded(v: PlayerView, reported: real): (r: PlayerView)
    ensures r.track.duration >= 1.0 && r.track.duration >= reported
    ensures reported >= 1.0 ==> r.track.duration == reported
    ensures reported < 1.0 ==> r.track.duration == 1.0
    ensures r.display == PositionText(0.0, r.track.duration)
    ensures r.playVisible && r.trackVisible && r.sliderVisible && r.iconVisible
    ensures r == v.(track := v.track.(duration := r.track.duration), display := r.display,
                    playVisible := true, trackVisible := true, sliderVisible := true, iconVisible := true)
  {
    var duration := Max(reported, 1.0);
    v.(track := v.track.(duration := duration), display := PositionText(0.0, duration),
       playVisible := true, trackVisible := true, sliderVisible := true, iconVisible := true)
  }

  /**
   * on_duration_changed: a number becomes the duration (even one below 1),
   * an empty notification sets it to 1, and the text is refreshed.  Text
   * `float()` rejects raises before anything changes.
   */
  function DurationChanged(v: PlayerView, data: Payload): (r: PlayerView)
    ensures data.Numeric? ==> r.track.duration == data.value
    ensures data.Empty? ==> r.track.duration == 1.0
    ensures data.Unparsable? ==> r == v
    ensures !data.Unparsable? ==>
      r == v.(track := v.track.(duration := r.track.duration), display := PositionText(v.position, r.track.duration))
  {
    match data
    case Unparsable => v
    case Empty => v.(track := v.track.(duration := 1.0), display := PositionText(v.position, 1.0))
    case Numeric(d) => v.(track := v.track.(duration := d), display := PositionText(v.position, d))
  }

  /**
   * play: resumes when the last reported position is not 0 and starts from
   * the beginning otherwise; then only the pause button is shown.
   */
  function Play(v: PlayerView): (r: PlayerView)
    ensures |r.commands| == |v.commands| + 1 && r.commands[..|v.commands|] == v.commands
    ensures r.commands[|v.commands|] == Backend.Resume <==> v.position != 0.0
    ensures r.commands[|v.commands|] == Backend.Play <==> v.position == 0.0
    ensures !r.playVisible && r.pauseVisible
    ensures r == v.(commands := r.commands, playVisible := false, pauseVisible := true)
  {
    var c := if v.position != 0.0 then Backend.Resume else Backend.Play;
    assert (v.commands + [c])[..|v.commands|] == v.commands;
    v.(commands := v.commands + [c], playVisible := false, pauseVisible := true)
  }

  /** pause: pauses the backend; then only the play button is shown. */
  function Pause(v: PlayerView): (r: PlayerView)
    ensures r.commands == v.commands + [Backend.Pause]
    ensures r.playVisible && !r.pauseVisible
    ensures r == v.(commands := r.commands, playVisible := true, pauseVisible := false)
  {
    v.(commands := v.commands + [Backend.Pause], playVisible := true, pauseVisible := false)
  }

  /** state_changed: on "completed" only the play button is shown; any other state is ignored. */
  function StateChanged(v: PlayerView, status: string): (r: PlayerView)
    ensures status == "completed" ==> r.playVisible && !r.pauseVisible
    ensures status != "completed" ==> r == v
    ensures r == v.(playVisible := r.playVisible, pauseVisible := r.pauseVisible)
  {
    if status == "completed" then v.(playVisible := true, pauseVisible := false) else v
  }

  /** seek_position: asks the backend to seek; the position itself waits for the backend's report. */
  function SeekPosition(v: PlayerView, millis: int): (r: PlayerView)
    ensures r.commands == v.commands + [Backend.Seek(millis)]
    ensures r == v.(commands := r.commands)
  {
    v.(commands := v.commands + [Backend.Seek(millis)])
  }

  /**
   * `p / d * w`: the width w scaled by the ratio p / d, so a position at the
   * start gives an empty bar and one at the end a full bar.
   */
  function Scaled(p: real, d: real, w: real): (r: real)
    requires d > 0.0
    ensures p == 0.0 ==> r == 0.0
    ensures p == d ==> r == w
  {
    assert p == d ==> p / d == 1.0;
    p / d * w
  }

  /** The scaled value is to w as p is to d. */
  lemma ScaledProportion(p: real, d: real, w: real)
    requires d > 0.0
    ensures Scaled(p, d, w) * d == p * w
  {
    var q := p / d;
    assert q * d == p;
    assert q * w * d == q * d * w;
  }

  lemma ScaledWithin(p: real, d: real, w: real)
    requires d > 0.0 && w >= 0.0 && 0.0 <= p <= d
    ensures 0.0 <= Scaled(p, d, w) <= w
  {
    var q := p / d;
    assert q * d == p;
    RatioWithin(1.0, p, d);
    assert 1.0 * p / d == q;
    assert q * w <= 1.0 * w;
    assert Scaled(p, d, w) == q * w;
  }

  /**
   * change_position: a number becomes the position and an empty notification
   * sets it to 0; the text is refreshed; when the duration is positive the
   * fill is redrawn in proportion, fill / width == position / duration.
   * Text `float()` rejects raises before anything changes.
   */
  function ChangePosition(v: PlayerView, data: Payload): (r: PlayerView)
    ensures data.Unparsable? ==> r == v
    ensures data.Numeric? ==> r.position == data.value
    ensures data.Empty? ==> r.position == 0.0
    ensures !data.Unparsable? ==> r.display == PositionText(r.position, v.track.duration)
    ensures !data.Unparsable? && v.track.duration > 0.0 ==>
      r.track.fill == Scaled(r.position, v.track.duration, v.track.width)
    ensures v.track.duration <= 0.0 ==> r.track.fill == v.track.fill
    ensures r == v.(position := r.position, display := r.display, track := v.track.(fill := r.track.fill))
  {
    if data.Unparsable? then
      v
    else
      var position := if data.Numeric? then data.value else 0.0;
      var t := v.track;
      var fill := if t.duration > 0.0 then Scaled(position, t.duration, t.width) else t.fill;
      v.(position := position, display := PositionText(position, t.duration), track := t.(fill := fill))
  }

  /**
   * For a position within the track, the redrawn fill lies within the bar.
   */
  lemma ChangePositionFillInBar(v: PlayerView, p: real)
    requires v.track.duration > 0.0 && v.track.width >= 0.0
    requires 0.0 <= p <= v.track.duration
    ensures 0.0 <= ChangePosition(v, Numeric(p)).track.fill <= v.track.width
  {
    ScaledWithin(p, v.track.duration, v.track.width);
  }

  /** volume_icon_clicked: flips the icon, muting when it showed VOLUME_UP and unmuting otherwise. */
  function VolumeIconClicked(v: PlayerView): (r: PlayerView)
    ensures r.iconMuted == !v.iconMuted
    ensures !v.iconMuted ==> r.slider == Mute(v.slider)
    ensures v.iconMuted ==> r.slider == Unmute(v.slider)
    ensures r == v.(iconMuted := r.iconMuted, slider := r.slider)
  {
    if !v.iconMuted then v.(iconMuted := true, slider := Mute(v.slider))
    else v.(iconMuted := false, slider := Unmute(v.slider))
  }

  /**
   * check_mute: a volume below 1 percent with the icon at VOLUME_UP mutes
   * and switches the icon off; a volume of at least 1 percent with the icon
   * at VOLUME_OFF unmutes and switches it on; otherwise nothing changes.
   */
  function CheckMute(v: PlayerView): (r: PlayerView)
    ensures Percent(v.slider.volume) == 0 && !v.iconMuted ==> r.iconMuted && r.slider == Mute(v.slider)
    ensures Percent(v.slider.volume) != 0 && v.iconMuted ==> !r.iconMuted && r.slider == Unmute(v.slider)
    ensures (Percent(v.slider.volume) == 0) == v.iconMuted ==> r == v
    ensures r == v.(iconMuted := r.iconMuted, slider := r.slider)
  {
    var level := Percent(v.slider.volume);
    if level == 0 && !v.iconMuted then
      v.(iconMuted := true, slider := Mute(v.slider))
    else if level != 0 && v.iconMuted then
      v.(iconMuted := false, slider := Unmute(v.slider))
    else
      v
  }

  /**
   * A pan on the volume slider: change_volume, then, when the pointer was
   * on the slider, its on_change_volume callback check_mute.  Dragging to at
   * least 1 while muted therefore snaps the volume back to the saved one
   * instead of keeping the dragged value, and dragging below 1 while not
   * muted mutes and saves the dragged value.
   */
  function VolumeDragged(v: PlayerView, x: real): (r: PlayerView)
    ensures !OnSlider(x) ==> r == v
    ensures OnSlider(x) && v.iconMuted && x >= 1.0 ==>
      !r.iconMuted && r.slider.volume == v.slider.previousVolume
    ensures OnSlider(x) && v.iconMuted && x < 1.0 ==>
      r.iconMuted && r.slider.volume == x / SliderWidth
    ensures OnSlider(x) && !v.iconMuted && x < 1.0 ==>
      r.iconMuted && r.slider.volume == 0.0 && r.slider.previousVolume == x / SliderWidth
    ensures OnSlider(x) && !v.iconMuted && x >= 1.0 ==>
      !r.iconMuted && r.slider.volume == x / SliderWidth
    ensures OnSlider(x) ==> r.slider.fill == SliderWidth * r.slider.volume && r.slider.handle == r.slider.fill
    ensures !(!v.iconMuted && x < 1.0) ==> r.slider.previousVolume == v.slider.previousVolume
    ensures r == v.(iconMuted := r.iconMuted, slider := r.slider)
  {
    if OnSlider(x) then
      var dragged := v.(slider := ChangeVolume(v.slider, x));
      assert Percent(dragged.slider.volume) == Trunc(x) by {
        assert dragged.slider.volume * 100.0 == x;
      }
      CheckMute(dragged)
    else
      v
  }

  /**
   * A pan on the track bar: find_position, then its on_change_position
   * callback seek_position with the target.  The fill stays within the bar;
   * the target does not (see SeekTargetUnclamped).
   */
  function TrackDragged(v: PlayerView, x: real): (r: PlayerView)
    ensures v.track.width == 0.0 ==> r == v
    ensures v.track.width != 0.0 ==>
      r.commands == v.commands + [Backend.Seek(SeekTarget(v.track.duration, x, v.track.width))]
    ensures v.track.width > 0.0 ==> 0.0 <= r.track.fill <= r.track.width
    ensures v.track.width > 0.0 && 0.0 <= x <= v.track.width ==> r.track.fill == x
    ensures v.track.width > 0.0 && x > v.track.width ==> r.track.fill == v.track.width
    ensures v.track.width > 0.0 && x < 0.0 ==> r.track.fill == 0.0
    ensures r.track == FindPosition(v.track, x).0
    ensures r == v.(commands := r.commands, track := v.track.(fill := r.track.fill))
  {
    var (t, target) := FindPosition(v.track, x);
    match target
    case None => v
    case Some(p) => SeekPosition(v.(track := t), p)
  }

  /** canvas_resized, seen from the player: only the bar's width changes. */
  function TrackResized(v: PlayerView, width: real): (r: PlayerView)
    ensures r == v.(track := v.track.(width := width))
  {
    v.(track := CanvasResized(v.track, width))
  }

  // ---------------------------------------------------------------------------
  // Events
  // ---------------------------------------------------------------------------

  /** The events the player reacts to, from the pointer and from the backend. */
  datatype Event =
    | Loaded(reportedDuration: real)
    | DurationNotice(duration: Payload)
    | PositionNotice(position: Payload)
    | StateNotice(status: string)
    | PlayClick
    | PauseClick
    | IconClick
    | VolumePan(volumeX: real)
    | TrackPan(trackX: real)
    | TrackResize(width: real)

  /**
   * The handler an event is bound to.  Every event issues at most one
   * playback command (play, resume, pause or seek) and never rewrites earlier
   * ones; only the play and pause buttons and a pan on the track bar issue
   * one, and only the icon and a pan on the volume slider touch the slider,
   * the backend volume or the icon.
   */
  function Step(v: PlayerView, e: Event): (r: PlayerView)
    ensures |v.commands| <= |r.commands| <= |v.commands| + 1
    ensures r.commands[..|v.commands|] == v.commands
    ensures !(e.PlayClick? || e.PauseClick? || e.TrackPan?) ==> r.commands == v.commands
    ensures !(e.IconClick? || e.VolumePan?) ==> r.slider == v.slider && r.iconMuted == v.iconMuted
  {
    match e
    case Loaded(d) => AudioLoaded(v, d)
    case DurationNotice(data) => DurationChanged(v, data)
    case PositionNotice(data) => ChangePosition(v, data)
    case StateNotice(status) => StateChanged(v, status)
    case PlayClick => Play(v)
    case PauseClick => Pause(v)
    case IconClick => VolumeIconClicked(v)
    case VolumePan(x) => VolumeDragged(v, x)
    case TrackPan(x) => TrackDragged(v, x)
    case TrackResize(w) => TrackResized(v, w)
  }

  /**
   * The state after a sequence of events, handled one at a time in order.
   * The log of playback commands only grows, by at most one command per
   * event, and the commands issued before are kept as they were.
   */
  function Run(v: PlayerView, events: seq<Event>): (r: PlayerView)
    ensures |v.commands| <= |r.commands| <= |v.commands| + |events|
    ensures r.commands[..|v.commands|] == v.commands
    decreases |events|
  {
    if events == [] then
      assert v.commands[..|v.commands|] == v.commands;
      v
    else
      var next := Step(v, events[0]);
      var r := Run(next, events[1..]);
      assert r.commands[..|v.commands|] == r.commands[..|next.commands|][..|v.commands|];
      r
  }

  // ---------------------------------------------------------------------------
  // Properties kept by every event
  // ---------------------------------------------------------------------------

  /** The icon shows VOLUME_OFF only while the volume is below 1 percent. */
  predicate MuteIconHonest(v: PlayerView) {
    v.iconMuted ==> Percent(v.slider.volume) == 0
  }

  predicate Invariant(v: PlayerView) {
    SliderConsistent(v.slider) && MuteIconHonest(v)
  }

  lemma InitialInvariant()
    ensures Invariant(Initial())
    ensures !Initial().playVisible && !Initial().pauseVisible
  {
  }

  /** Every handler keeps the slider consistent and the mute icon honest. */
  lemma StepKeepsInvariant(v: PlayerView, e: Event)
    requires Invariant(v)
    ensures Invariant(Step(v, e))
  {
    match e
    case IconClick =>
      assert Percent(0.0) == 0;
    case VolumePan(x) =>
      assert Percent(0.0) == 0;
    case _ =>
  }

  lemma {:induction false} RunKeepsInvariant(v: PlayerView, events: seq<Event>)
    requires Invariant(v)
    ensures Invariant(Run(v, events))
    decreases |events|
  {
    if events != [] {
      StepKeepsInvariant(v, events[0]);
      RunKeepsInvariant(Step(v, events[0]), events[1..]);
    }
  }

  /**
   * The converse of MuteIconHonest is not kept: dragging to 0 mutes and
   * saves 0 as the volume to restore, so clicking the icon afterwards shows
   * VOLUME_UP while the backend stays silent.
   */
  lemma UnmuteAfterDragToZeroStaysSilent(v: PlayerView)
    requires SliderConsistent(v.slider) && !v.iconMuted
    ensures Run(v, [VolumePan(0.0), IconClick]).slider.volume == 0.0
    ensures !Run(v, [VolumePan(0.0), IconClick]).iconMuted
  {
    var a := Step(v, VolumePan(0.0));
    assert a.iconMuted && a.slider.previousVolume == 0.0;
    assert [VolumePan(0.0), IconClick][1..] == [IconClick];
    assert Run(v, [VolumePan(0.0), IconClick]) == Run(a, [IconClick]);
    assert Run(a, [IconClick]) == Step(a, IconClick);
  }

  /** Exactly one of the play and pause buttons is shown. */
  predicate OneButtonShown(v: PlayerView) {
    v.playVisible != v.pauseVisible
  }

  /** Every handler other than audio_loaded keeps exactly one button shown. */
  lemma StepKeepsOneButton(v: PlayerView, e: Event)
    requires OneButtonShown(v) && !e.Loaded?
    ensures OneButtonShown(Step(v, e))
  {
    match e
    case Loaded(_) => assert false;
    case DurationNotice(_) =>
    case PositionNotice(_) =>
    case StateNotice(_) =>
    case PlayClick =>
    case PauseClick =>
    case IconClick =>
    case VolumePan(_) =>
    case TrackPan(_) =>
    case TrackResize(_) =>
  }

  /** audio_loaded shows only the play button when the pause button is hidden. */
  lemma LoadShowsPlayOnly(v: PlayerView, reported: real)
    requires !v.pauseVisible
    ensures OneButtonShown(Step(v, Loaded(reported)))
    ensures Step(v, Loaded(reported)).playVisible
  {
  }

  /**
   * A load while playing shows the play button without hiding the pause
   * button, so audio_loaded is the one handler that can break the
   * one-button property.
   */
  lemma ReloadWhilePlayingShowsBoth(v: PlayerView, reported: real)
    requires !v.playVisible && v.pauseVisible
    ensures Step(v, Loaded(reported)).playVisible && Step(v, Loaded(reported)).pauseVisible
    ensures !OneButtonShown(Step(v, Loaded(reported)))
  {
  }

  lemma {:induction false} RunKeepsOneButton(v: PlayerView, events: seq<Event>)
    requires OneButtonShown(v)
    requires forall i :: 0 <= i < |events| ==> !events[i].Loaded?
    ensures OneButtonShown(Run(v, events))
    decreases |events|
  {
    if events != [] {
      StepKeepsOneButton(v, events[0]);
      RunKeepsOneButton(Step(v, events[0]), events[1..]);
    }
  }

  /**
   * Once the backend has loaded, exactly one of play and pause is shown,
   * whatever events follow (as long as the backend does not load again).
   */
  lemma OneButtonAfterLoad(reported: real, after: seq<Event>)
    requires forall i :: 0 <= i < |after| ==> !after[i].Loaded?
    ensures OneButtonShown(Run(Initial(), [Loaded(reported)] + after))
  {
    var events := [Loaded(reported)] + after;
    assert events[0] == Loaded(reported) && events[1..] == after;
    LoadShowsPlayOnly(Initial(), reported);
    RunKeepsOneButton(Step(Initial(), Loaded(reported)), after);
  }

  /**
   * The duration is at least 1 from audio_loaded on, and only a numeric
   * duration notification can bring it lower.
   */
  lemma DurationStaysPositive(v: PlayerView, e: Event)
    requires v.track.duration >= 1.0
    requires !(e.DurationNotice? && e.duration.Numeric?)
    ensures Step(v, e).track.duration >= 1.0
  {
    match e
    case Loaded(d) =>
      assert Step(v, e).track.duration == Max(d, 1.0);
    case DurationNotice(data) =>
      assert data.Empty? || data.Unparsable?;
    case _ =>
      assert Step(v, e).track.duration == v.track.duration;
  }

  /**
   * Dragging to the middle of a 100-pixel bar for a 3-minute track asks the
   * backend to seek to 90 s; the text and the fill follow once the backend
   * reports that position.
   */
  lemma SeekThenReport(v: PlayerView)
    requires v.track.width == 100.0 && v.track.duration == 180000.0
    ensures Run(v, [TrackPan(50.0), PositionNotice(Numeric(90000.0))]).commands == v.commands + [Backend.Seek(90000)]
    ensures Run(v, [TrackPan(50.0), PositionNotice(Numeric(90000.0))]).display == "1:30 / 3:00"
    ensures Run(v, [TrackPan(50.0), PositionNotice(Numeric(90000.0))]).track.fill == 50.0
  {
    var events := [TrackPan(50.0), PositionNotice(Numeric(90000.0))];
    assert events[1..][1..] == [];
    assert SeekTarget(180000.0, 50.0, 100.0) == 90000 by {
      assert 180000.0 * 50.0 / 100.0 == 90000.0;
    }
    var a := Step(v, TrackPan(50.0));
    assert a.track == v.track.(fill := 50.0);
    var b := Step(a, PositionNotice(Numeric(90000.0)));
    assert Run(v, events) == b;
    assert b.track.fill == 50.0 by {
      ScaledProportion(90000.0, 180000.0, 100.0);
    }
    ConvertMillisTrackExamples();
  }
}
