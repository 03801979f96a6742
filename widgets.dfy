/**
 * The player's controls as objects whose fields the event handlers update in
 * place: the volume slider, the track bar and the player that wires them to
 * the playback backend.  Canvas shapes are reduced to the numbers that move
 * (fill widths, handle x).  Each handler is specified by the function of the
 * same name in module Transport, applied to the state before the call.
 */
module Widgets {

  import opened Wrappers
  import opened PyNum
  import opened Backend
  import Transport

  class VolumeSlider {
    /** The backend whose volume the slider drives (shared with the player). */
    const audio: Audio
    var previousVolume: real
    /** Width of the dark bar (`shapes[1].width`). */
    var fill: real
    /** x of the round handle (`shapes[2].x`). */
    var handle: real
    var visible: bool

    function View(): Transport.SliderView
      reads this, audio
    {
      Transport.SliderView(audio.volume, previousVolume, fill, handle)
    }

    /** A hidden slider, full bar, handle at the right end, 1 saved as the volume to restore. */
    constructor (audio: Audio)
      ensures this.audio == audio && !visible
      ensures View() == Transport.SliderView(audio.volume, 1.0, Transport.SliderWidth, Transport.SliderWidth)
      ensures audio.volume == 1.0 ==> Transport.SliderConsistent(View())
    {
      this.audio := audio;
      visible := false;
      previousVolume := 1.0;
      fill := Transport.SliderWidth;
      handle := Transport.SliderWidth;
    }

    method ChangeAudioVolume(volume: real)
      modifies audio`volume
      ensures audio.volume == volume
    {
      audio.volume := volume;
    }

    /**
     * change_volume; `notified` tells whether the on_change_volume callback
     * runs, which it does exactly when the pointer is on the slider.
     */
    method ChangeVolume(x: real) returns (notified: bool)
      modifies `fill, `handle, audio`volume
      ensures notified == Transport.OnSlider(x)
      ensures View() == Transport.ChangeVolume(old(View()), x)
    {
      notified := false;
      if 0.0 <= x <= Transport.SliderWidth {
        ChangeAudioVolume(x / Transport.SliderWidth);
        fill := x;
        handle := x;
        notified := true;
      }
    }

    method Mute()
      modifies `previousVolume, `fill, `handle, audio`volume
      ensures View() == Transport.Mute(old(View()))
    {
      previousVolume := audio.volume;
      fill := 0.0;
      handle := 0.0;
      audio.volume := 0.0;
    }

    method Unmute()
      modifies `fill, `handle, audio`volume
      ensures View() == Transport.Unmute(old(View()))
    {
      audio.volume := previousVolume;
      fill := Transport.SliderWidth * audio.volume;
      handle := Transport.SliderWidth * audio.volume;
    }
  }

  class Track {
    /** The measured width of the bar (`track_width`). */
    var width: real
    /** The track duration in milliseconds (`audio_duration`). */
    var duration: real
    /** Width of the dark bar (`shapes[1].width`). */
    var fill: real
    var visible: bool

    function View(): Transport.TrackView
      reads this
    {
      Transport.TrackView(width, duration, fill)
    }

    /** A hidden bar, 100 wide and empty, for a track of duration 1. */
    constructor ()
      ensures View() == Transport.TrackView(100.0, 1.0, 0.0) && !visible
    {
      visible := false;
      duration := 1.0;
      width := 100.0;
      fill := 0.0;
    }

    method CanvasResized(newWidth: real)
      modifies `width
      ensures View() == Transport.CanvasResized(old(View()), newWidth)
    {
      width := newWidth;
    }

    /**
     * find_position; `target` is the position handed to the
     * on_change_position callback, None when the division by a zero width
     * raises.
     */
    method FindPosition(x: real) returns (target: Option<int>)
      modifies `fill
      ensures (View(), target) == Transport.FindPosition(old(View()), x)
    {
      if width == 0.0 {
        return None;
      }
      var position := Trunc(duration * x / width);
      assert position == Transport.SeekTarget(duration, x, width);
      fill := Max(0.0, Min(x, width));
      target := Some(position);
    }
  }

  class AudioPlayer {
    const audio: Audio
    const track: Track
    const slider: VolumeSlider
    /** The last position the backend reported, in milliseconds. */
    var position: real
    /** The `pos / dur` text. */
    var display: string
    /** The volume icon shows VOLUME_OFF. */
    var iconMuted: bool
    var iconVisible: bool
    var playVisible: bool
    var pauseVisible: bool

    /** The slider drives this player's backend. */
    ghost predicate Valid()
      reads this, slider
    {
      slider.audio == audio
    }

    function View(): Transport.PlayerView
      reads this, audio, track, slider
    {
      Transport.PlayerView(
        Transport.SliderView(audio.volume, slider.previousVolume, slider.fill, slider.handle),
        track.View(), audio.commands, position, display,
        iconMuted, playVisible, pauseVisible, track.visible, slider.visible, iconVisible)
    }

    /** A player whose backend is at full volume and whose controls are all hidden. */
    constructor ()
      ensures Valid() && View() == Transport.Initial()
      ensures fresh(audio) && fresh(track) && fresh(slider)
    {
      var a := new Audio(1.0);
      audio := a;
      position := 0.0;
      track := new Track();
      playVisible := false;
      pauseVisible := false;
      display := "";
      slider := new VolumeSlider(a);
      iconMuted := false;
      iconVisible := false;
    }

    /** audio_loaded; `reported` is what the backend's get_duration returns. */
    method AudioLoaded(reported: real)
      requires Valid()
      modifies this, track, slider
      ensures Valid() && View() == Transport.AudioLoaded(old(View()), reported)
    {
      track.visible := true;
      track.duration := Max(reported, 1.0);
      display := Transport.PositionText(0.0, track.duration);
      playVisible := true;
      slider.visible := true;
      iconVisible := true;
    }

    /** on_duration_changed; `raised` tells that `float()` rejected the data. */
    method DurationChanged(data: Transport.Payload) returns (raised: bool)
      requires Valid()
      modifies track, this
      ensures raised == data.Unparsable?
      ensures Valid() && View() == Transport.DurationChanged(old(View()), data)
    {
      if data.Unparsable? {
        return true;
      }
      track.duration := if data.Numeric? then data.value else 1.0;
      display := Transport.PositionText(position, track.duration);
      raised := false;
    }

    method Play()
      requires Valid()
      modifies this, audio`commands
      ensures Valid() && View() == Transport.Play(old(View()))
    {
      if position != 0.0 {
        audio.Issue(Command.Resume);
      } else {
        audio.Issue(Command.Play);
      }
      playVisible := false;
      pauseVisible := true;
    }

    method Pause()
      requires Valid()
      modifies this, audio`commands
      ensures Valid() && View() == Transport.Pause(old(View()))
    {
      audio.Issue(Command.Pause);
      playVisible := true;
      pauseVisible := false;
    }

    method StateChanged(status: string)
      requires Valid()
      modifies this
      ensures Valid() && View() == Transport.StateChanged(old(View()), status)
    {
      if status == "completed" {
        playVisible := true;
        pauseVisible := false;
      }
    }

    method SeekPosition(millis: int)
      requires Valid()
      modifies audio`commands
      ensures Valid() && View() == Transport.SeekPosition(old(View()), millis)
    {
      audio.Issue(Command.Seek(millis));
    }

    /** change_position; `raised` tells that `float()` rejected the data. */
    method ChangePosition(data: Transport.Payload) returns (raised: bool)
      requires Valid()
      modifies this, track
      ensures raised == data.Unparsable?
      ensures Valid() && View() == Transport.ChangePosition(old(View()), data)
    {
      if data.Unparsable? {
        return true;
      }
      var reported := if data.Numeric? then data.value else 0.0;
      var duration, width := track.duration, track.width;
      position := reported;
      display := Transport.PositionText(reported, duration);
      if duration > 0.0 {
        track.fill := Transport.Scaled(reported, duration, width);
      }
      raised := false;
    }

    method VolumeIconClicked()
      requires Valid()
      modifies this, slider, audio`volume
      ensures Valid() && View() == Transport.VolumeIconClicked(old(View()))
    {
      if !iconMuted {
        iconMuted := true;
        slider.Mute();
      } else {
        iconMuted := false;
        slider.Unmute();
      }
    }

    method CheckMute()
      requires Valid()
      modifies this, slider, audio`volume
      ensures Valid() && View() == Transport.CheckMute(old(View()))
    {
      if Trunc(audio.volume * 100.0) == 0 && !iconMuted {
        iconMuted := true;
        slider.Mute();
      } else if Trunc(audio.volume * 100.0) != 0 && iconMuted {
        iconMuted := false;
        slider.Unmute();
      }
    }

    /** A pan on the volume slider, whose on_change_volume callback is CheckMute. */
    method VolumeDragged(x: real)
      requires Valid()
      modifies this, slider, audio`volume
      ensures Valid() && View() == Transport.VolumeDragged(old(View()), x)
    {
      var notified := slider.ChangeVolume(x);
      if notified {
        CheckMute();
      }
    }

    /** A pan on the track bar, whose on_change_position callback is SeekPosition. */
    method TrackDragged(x: real)
      requires Valid()
      modifies track, audio`commands
      ensures Valid() && View() == Transport.TrackDragged(old(View()), x)
    {
      var target := track.FindPosition(x);
      if target.Some? {
        SeekPosition(target.value);
      }
    }

    /**
     * Routes one event to the handler it is bound to, so that every property
     * proved of Transport.Run holds of the objects after any sequence of
     * events.
     */
    method Handle(e: Transport.Event)
      requires Valid()
      modifies this, audio, track, slider
      ensures Valid() && View() == Transport.Step(old(View()), e)
    {
      match e
      case Loaded(d) => AudioLoaded(d);
      case DurationNotice(data) => var _ := DurationChanged(data);
      case PositionNotice(data) => var _ := ChangePosition(data);
      case StateNotice(status) => StateChanged(status);
      case PlayClick => Play();
      case PauseClick => Pause();
      case IconClick => VolumeIconClicked();
      case VolumePan(x) => VolumeDragged(x);
      case TrackPan(x) => TrackDragged(x);
      case TrackResize(w) => track.CanvasResized(w);
    }
  }
}
