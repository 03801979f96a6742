# Audio player transport state, in Dafny

This project models the transport logic of a single-screen Flet audio player
(`main.py`). It covers:

- the `M:SS` formatter `convertMillis`;
- the drag-driven volume slider (`VolumeSlider`) with its mute and unmute bookkeeping;
- the scrubbable track bar (`Track`);
- the player (`AudioPlayer`). The player keeps the backend, the two bars,
  the `pos / dur` text, the mute icon and the play and pause buttons in step.

Layout:

- `wrappers.dfy`: `Option`.
- `py_num.dfy`: Python's `int()` on floats (truncation toward zero), `min` and `max`.
  Python's `%` by 60 is floor-modulo. Dafny's Euclidean `%` gives the same result
  for a positive divisor, so it is used directly.
- `clock_format.dfy`: `convertMillis` and the decimal rendering it relies on. It also
  has a reader for the `<digits>:<two digits>` shape, used to state the output format.
- `backend.dfy`: the `ft.Audio` control as seen by the player. It is a volume
  property plus a record of the `play`, `resume`, `pause` and `seek` calls made on it.
- `transport.dfy`: the whole transport state as plain values.
  - It has one function per event handler, with the same name as the handler's method.
  - It has a closed set of events, with `Step` and `Run` over sequences of them.
  - It has the properties the handlers keep.
- `widgets.dfy`: the three classes. Each class updates its fields in place, and each
  method is proved to leave `View() == Transport.<Handler>(old(View()), …)`. A
  property proved about `Transport.Run` therefore holds for the objects after any
  sequence of events delivered through `AudioPlayer.Handle`.

Event payloads (`e.data`) are a `Payload`. A payload is `Empty` when falsy and
`Numeric(v)` when `float()` reads it. It is `Unparsable` when `float()` raises
`ValueError`. That exception is not caught in `on_duration_changed` or
`change_position`, so such a handler stops before changing anything. The argument of
`convertMillis` is an `Option<real>`; `None` stands for a value `float()` rejects with
`ValueError`. Other exceptions, such as the `TypeError` of `float(None)`, are not caught
there and are not modelled.

Some behaviours of the code a reader might not expect:

- A volume drag outside `[0, 100]` is ignored, not clamped to the nearest end.
- The seek position is `int(duration * x / width)`, with no clamp; only the fill bar is
  clamped. A bar of width 0 makes the division raise (the handler stops). It does not
  yield 0.
- A duration notification carrying a number sets the duration to that number, even
  `0` or a negative one. Only `audio_loaded` (`max(reported, 1)`) and an empty
  notification (`1`) give at least 1. The `duration > 0` guard in `change_position` is
  therefore needed.
- The position is whatever the backend reports. Nothing keeps it within `[0, duration]`.
- A drag while muted does not keep the dragged value. `check_mute` calls `unmute`,
  which snaps the volume back to the saved one as soon as the drag reaches 1 %.
- Dragging to 0 mutes and saves 0 as the volume to restore. Clicking the icon then
  shows VOLUME_UP while the backend stays silent.

## Model

| member | source | states |
|---|---|---|
| `PyNum.Trunc` | main.py:12 | `int()` of a float rounds toward zero: the result is within 1 of x on x's side of 0 |
| `PyNum.Min` | main.py:99 | `min` gives one of its arguments, no larger than either |
| `PyNum.Max` | main.py:154 | `max` gives one of its arguments, no smaller than either |
| `ClockFormat.SecondsField` | main.py:12 | `int(millis / 1000) % 60` lies in 0..59 |
| `ClockFormat.MinutesField` | main.py:14 | `int(millis / 60000) % 60` lies in 0..59 |
| `ClockFormat.Decimal` | main.py:15 | `str()` of a non-negative int: at least one digit, all digits, no leading zero, one digit exactly below 10 |
| `ClockFormat.DecimalReadsBack` | main.py:15 | reading the decimal text back gives the number |
| `ClockFormat.TwoDigits` | main.py:13 | seconds below 60 are written as exactly two digits that read back as the seconds (a `0` is prefixed below 10) |
| `ClockFormat.ConvertMillis` | main.py:6-15 | the result is the fallback `"00:00"` exactly when `float()` rejects the input with `ValueError`; no number is ever shown as `"00:00"` |
| `ClockFormat.ConvertMillisReadsBack` | main.py:12-15 | every result has the shape `^\d+:\d{2}$`; for a number it reads back as (minutes field, seconds field), both below 60; the fallback reads as 0:00 |
| `ClockFormat.HourWrapsAround` | main.py:14 | adding one hour to a non-negative time leaves the text unchanged (minutes wrap at 60) |
| `ClockFormat.ConvertMillisExamples` | main.py:12-15 | 0 ms is `0:00` and 65000 ms is `1:05` |
| `ClockFormat.ConvertMillisTrackExamples` | main.py:12-15 | 90000 ms is `1:30` and 180000 ms is `3:00` |
| `ClockFormat.ConvertMillisHourExamples` | main.py:12-15 | 3600000 ms is `0:00` and 3700000 ms is `1:40` |
| `ClockFormat.ConvertMillisEdgeExamples` | main.py:7-15 | -1 ms is `0:00`, -65000 ms is `59:55`, and input `float()` rejects with `ValueError` is `00:00` |
| `Transport.PositionTextReadsBack` | main.py:196 | the `pos / dur` text is the position's clock text, ` / `, then the duration's clock text, each reading back as its minutes and seconds fields |
| `Transport.Percent` | main.py:213 | `int(volume * 100)` lies in 0..100 for a volume in [0, 1], and is 0 exactly when the volume is within 1 % of 0 |
| `Transport.Initial` | main.py:109-128 | a new player has made no backend call, sits at position 0 with full volume and 1 saved to restore, a track of duration 1, the icon at VOLUME_UP, and every control hidden |
| `Transport.Step` | main.py:116-128 | each event goes to the handler it is bound to; it issues at most one playback command (play, resume, pause or seek) and keeps the earlier ones; only play, pause and a track pan issue one; only the icon and a volume pan touch the slider, the backend volume or the icon |
| `Transport.Run` | main.py:116-128 | after any sequence of events the log of playback commands keeps every earlier command and grows by at most one command per event |
| `Transport.ChangeVolume` | main.py:47-53 | on the slider, volume becomes x/100 in [0, 1] and bar and handle move to x; off the slider nothing changes; the saved volume is untouched; slider consistency is kept |
| `Transport.Mute` | main.py:55-59 | saves the current volume, sets volume, bar and handle to 0, keeps the slider consistent |
| `Transport.Unmute` | main.py:61-64 | restores the saved volume and sets bar and handle to 100 × volume, keeping the slider consistent |
| `Transport.UnmuteAfterMute` | main.py:55-64 | mute then unmute gives back the volume exactly; on a consistent slider only the saved volume differs afterwards |
| `Transport.ChangeVolumeMonotone` | main.py:47-51 | on the slider, a pointer further right never gives a lower volume |
| `Transport.CanvasResized` | main.py:91-95 | the width becomes the new canvas width; duration and fill are unchanged |
| `Transport.SeekTarget` | main.py:98 | `int(duration * x / width)` lies in [0, duration] when the pointer is within a bar of positive width |
| `Transport.FindPosition` | main.py:97-101 | on a bar of positive width the fill is x inside the bar, width past the right end and 0 past the left end, and the seek target is handed on; a zero width raises, so nothing changes and nothing is handed on |
| `Transport.SeekTargetUnclamped` | main.py:97-101 | at twice the width the target exceeds the duration, and at minus the width it is negative, while the fill stops at width and at 0 |
| `Transport.AudioLoaded` | main.py:150-159 | duration becomes max(reported, 1); the text shows position 0 and the duration; play button, bar, slider and icon become visible; nothing else changes |
| `Transport.DurationChanged` | main.py:161-168 | a number becomes the duration, an empty notification sets 1, and the text is refreshed; unreadable data changes nothing |
| `Transport.Play` | main.py:170-177 | issues `resume` exactly when the position is not 0 and `play` exactly when it is 0; then only the pause button is visible |
| `Transport.Pause` | main.py:179-183 | issues `pause`; then only the play button is visible |
| `Transport.StateChanged` | main.py:185-188 | on `"completed"` only the play button is visible; any other state changes nothing |
| `Transport.SeekPosition` | main.py:190-192 | issues one `seek` to the given position and changes nothing else (the position waits for the backend's report) |
| `Transport.Scaled` | main.py:198-200 | the fill `position / duration * width` is empty at position 0 and full when the position equals the duration |
| `Transport.ScaledProportion` | main.py:198-200 | the redrawn fill `position / duration * width` is to the width as the position is to the duration |
| `Transport.ChangePosition` | main.py:194-201 | position becomes the reported number, or 0 when empty; the text is refreshed; with a positive duration the fill is redrawn in proportion, otherwise it is kept; unreadable data changes nothing |
| `Transport.ChangePositionFillInBar` | main.py:197-200 | for 0 ≤ position ≤ duration with a positive duration, the redrawn fill lies in [0, width] |
| `Transport.VolumeIconClicked` | main.py:203-210 | flips the icon, muting when it showed VOLUME_UP and unmuting when it showed VOLUME_OFF |
| `Transport.CheckMute` | main.py:212-220 | below 1 % with VOLUME_UP it mutes and shows VOLUME_OFF; at 1 % or more with VOLUME_OFF it unmutes and shows VOLUME_UP; otherwise nothing changes |
| `Transport.VolumeDragged` | main.py:47-53 | a drag off the slider changes nothing. While muted, a drag to x ≥ 1 unmutes and restores the saved volume, not x/100; a drag below 1 stays muted at x/100. While not muted, a drag below 1 mutes and saves x/100; a drag to x ≥ 1 sets x/100. After any drag on the slider, bar and handle sit at 100 × the resulting volume, and the saved volume changes only when a drag below 1 mutes |
| `Transport.TrackDragged` | main.py:97-101 | on a bar of positive width, the fill moves as in find_position (x inside the bar, width past the right end, 0 past the left end) and exactly one `seek` to `int(duration * x / width)` is issued; on a zero-width bar nothing happens |
| `Transport.TrackResized` | main.py:91-95 | a resize changes only the bar's width |
| `Transport.InitialInvariant` | main.py:109-128 | a new player has a consistent slider and an honest mute icon, and both buttons are hidden |
| `Transport.StepKeepsInvariant` | main.py:203-220 | every handler keeps the slider consistent (volumes in [0, 1], bar and handle at 100 × volume) and the icon shows VOLUME_OFF only while the volume is below 1 % |
| `Transport.RunKeepsInvariant` | main.py:203-220 | the same holds after any sequence of events |
| `Transport.UnmuteAfterDragToZeroStaysSilent` | main.py:212-220 | a drag to 0 followed by an icon click leaves volume 0 with the icon at VOLUME_UP |
| `Transport.StepKeepsOneButton` | main.py:170-188 | every handler except audio_loaded keeps exactly one of play and pause visible |
| `Transport.LoadShowsPlayOnly` | main.py:150-159 | audio_loaded shows only the play button when the pause button is hidden |
| `Transport.ReloadWhilePlayingShowsBoth` | main.py:150-159 | a load while only the pause button is shown makes both buttons visible, so the one-button property does not survive a reload |
| `Transport.RunKeepsOneButton` | main.py:170-188 | exactly one button stays visible through any sequence of events without a load |
| `Transport.OneButtonAfterLoad` | main.py:150-188 | from a new player, once the backend has loaded, exactly one of play and pause is visible after any later events other than another load |
| `Transport.DurationStaysPositive` | main.py:150-168 | a duration of at least 1 stays so under every event except a numeric duration notification |
| `Transport.SeekThenReport` | main.py:190-200 | a drag to x=50 on a 100-pixel bar of a 180000 ms track seeks to 90000; after the report the text is `1:30 / 3:00` and the fill is 50 |
| `Backend.Audio.constructor` | main.py:111-121 | the `ft.Audio` control starts at the given volume with no call made on it |
| `Backend.Audio.Issue` | main.py:170-191 | each `play`, `resume`, `pause` or `seek` call is appended to the call log, and nothing else changes |
| `Widgets.VolumeSlider.constructor` | main.py:19-38 | hidden, bar and handle at 100, 1 saved as the volume to restore; consistent when the backend volume is 1 |
| `Widgets.VolumeSlider.ChangeAudioVolume` | main.py:40-41 | sets the backend volume |
| `Widgets.VolumeSlider.ChangeVolume` | main.py:47-53 | updates backend volume, bar and handle as `Transport.ChangeVolume`; fires the callback exactly when the pointer is on the slider |
| `Widgets.VolumeSlider.Mute` | main.py:55-59 | updates the fields as `Transport.Mute` |
| `Widgets.VolumeSlider.Unmute` | main.py:61-65 | updates the fields as `Transport.Unmute` |
| `Widgets.Track.constructor` | main.py:69-89 | hidden, width 100, duration 1, empty fill |
| `Widgets.Track.CanvasResized` | main.py:91-95 | updates the width as `Transport.CanvasResized` |
| `Widgets.Track.FindPosition` | main.py:97-101 | updates the fill and returns the callback's argument as `Transport.FindPosition` |
| `Widgets.AudioPlayer.constructor` | main.py:109-140 | builds the state `Transport.Initial` over a fresh backend at volume 1 shared with the slider |
| `Widgets.AudioPlayer.AudioLoaded` | main.py:150-159 | updates the state as `Transport.AudioLoaded` |
| `Widgets.AudioPlayer.DurationChanged` | main.py:161-168 | updates the state as `Transport.DurationChanged`; reports whether `float()` raised |
| `Widgets.AudioPlayer.Play` | main.py:170-177 | updates the state and the backend calls as `Transport.Play` |
| `Widgets.AudioPlayer.Pause` | main.py:179-183 | updates the state and the backend calls as `Transport.Pause` |
| `Widgets.AudioPlayer.StateChanged` | main.py:185-188 | updates the buttons as `Transport.StateChanged` |
| `Widgets.AudioPlayer.SeekPosition` | main.py:190-192 | records the seek as `Transport.SeekPosition` |
| `Widgets.AudioPlayer.ChangePosition` | main.py:194-201 | updates the state as `Transport.ChangePosition`; reports whether `float()` raised |
| `Widgets.AudioPlayer.VolumeIconClicked` | main.py:203-210 | updates icon and slider as `Transport.VolumeIconClicked` |
| `Widgets.AudioPlayer.CheckMute` | main.py:212-220 | updates icon and slider as `Transport.CheckMute` |
| `Widgets.AudioPlayer.VolumeDragged` | main.py:36-38 | a slider pan runs change_volume and then its callback check_mute, as `Transport.VolumeDragged` |
| `Widgets.AudioPlayer.TrackDragged` | main.py:86-89 | a track pan runs find_position and then its callback seek_position, as `Transport.TrackDragged` |
| `Widgets.AudioPlayer.Handle` | main.py:111-128 | delivers each event to the handler it is bound to, moving the state exactly as `Transport.Step` |

## Left out

- Rendering: the widget tree, colours, heights and border radii, cursor changes on hover, and every `update()` / `page.update()`. The background bar's width (`shapes[0].width`) always equals `track_width`, so it is not a separate field.
- The playback backend's own behaviour: decoding, output and the timing of its notifications. Its calls are recorded as a sequence of commands. The duration `get_duration` returns is a parameter of `AudioLoaded`, and a `None` there (which would make `max` raise) is not modelled.
- `did_mount` / `will_unmount` (overlay management), `time.sleep(0.1)` in `audio_loaded`, the `print` calls and the `on_seek_complete` print. These are I/O and timing.
- File picking, `resultat_selection_fichier`, `main` and `ft.app`. These are application start-up.
- `Track` keeps a reference to the backend that it never uses, so the model does not keep it.
- IEEE floating point. All arithmetic is on exact reals. For example, `int(0.29 * 100)` is 28 in binary floating point but 29 here. Likewise `infinity` and `nan` payloads, and the exceptions `int()` raises for them, are not modelled.
- What Flet does with an exception escaping a handler. The model only records that the handler stops before changing any state.
