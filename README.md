# Music player playback control, modelled in Dafny

This project models the playback-control core of a desktop music player (one
Python file, `main.py`, class `MusicPlayer`). The model covers the playlist
of file paths, the selected index, the playing and paused flags, the shuffle
and repeat modes, and the position and duration in seconds. It also covers
the operations that change them: play at an index, play the current song,
stop, play/pause, previous, next, the two mode toggles, clearing the list,
loading picked files, seeking, and one pass of the one-second monitor loop.
It also models the `mm:ss` time formatter.

Modules:

- `Navigation` (`navigation.dfy`): the wrap-around index arithmetic of next
  and previous. Python's `%` and Dafny's `%` agree for a positive divisor.
- `AudioFiles` (`audio_files.dfy`): the case-insensitive `.mp3`/`.m4a` test
  and the order-preserving filter applied to picked files.
- `TimeFormat` (`time_format.dfy`): `format_time`, with a decimal reader
  that inverts it. The label reads back as the number of seconds it shows.
- `Transitions` (`transitions.dfy`): the player state as a value
  (`PlayerState`) with its invariant `Valid()`. There is one function per
  operation from the state before to the state after. Lemmas relate several
  operations.
- `Player` (`player.dfy`): class `MusicPlayer`. Its fields are updated in
  place by methods that follow the Python bodies statement by statement.
  Each method keeps `Valid()` and ends in the state that the matching
  `Transitions` function gives for the state before the call.

The media engine is not modelled as an object. What it reports comes in as
arguments:

- `LoadOutcome`: the track started with some length in seconds, or an engine
  call raised.
- `enginePlaying`: its answer to "still playing?" during a monitor pass.

The commands sent to the engine (load, play, pause, stop, seek) have no
modelled effect. The random index drawn in shuffle mode is the argument
`pick`. It must be an index of the playlist whenever shuffle is on and the
playlist is non-empty.

The invariant `Valid()` says:

- on an empty playlist the index is 0;
- on a non-empty one the index lies within it;
- only a playing song can be paused;
- nothing plays from an empty playlist.

The constructor establishes it, and every operation keeps it.

Behaviour of the code worth noting:

- Clearing the list sets the index to 0, not to "no selection".
- When the engine raises while a song is being started, the player is left
  stopped. `stop_playback` has already run by then, so this is not the state
  before the call.
- Seeking is honoured while a song is paused too, because the code tests
  `is_playing`, which stays true while paused.
- Play/pause on a stopped player always starts the track at the current
  index. The index is always defined, so there is no separate "select track
  0" case.

## Model

| member | source | states |
|---|---|---|
| `Navigation.NextIndex` | main.py:386 | the next index is always inside `[0, n)`; from an index in range it is the following one, wrapping from the last to 0 |
| `Navigation.PrevIndex` | main.py:373 | the previous index is always inside `[0, n)` (Python's modulo of `i - 1`); from an index in range it is the one before, wrapping from 0 to `n - 1` |
| `Navigation.PrevUndoesNext` | main.py:370-386 | stepping back after stepping forward returns to the starting index |
| `Navigation.NextUndoesPrev` | main.py:370-386 | stepping forward after stepping back returns to the starting index |
| `Navigation.NextIter` | main.py:383-386 | any number of forward steps from a valid index stays inside the playlist |
| `Navigation.NextIterOffset` | main.py:383-386 | up to one full lap, `k` forward steps from `i` reach `i + k`, wrapped once past the end |
| `Navigation.FullLapReturns` | main.py:383-386 | `n` forward steps around `n` tracks return to the starting index |
| `AudioFiles.IsAudioPath` | main.py:249 | a path is accepted exactly when its lower-cased form ends with `.mp3` or `.m4a`; the lemma below spells this out character by character |
| `AudioFiles.IsAudioPathByLastFour` | main.py:249 | a path is accepted exactly when its last four characters, lower-cased, are `.mp3` or `.m4a` |
| `AudioFiles.FilterAudio` | main.py:247-250 | the kept paths are no more than the input and every one of them has an accepted extension |
| `AudioFiles.FilterAudioCounts` | main.py:247-250 | no deduplication: an accepted path occurs as often as in the input, a rejected one never |
| `AudioFiles.FilterAudioAppend` | main.py:248-250 | filtering distributes over concatenation, so the kept paths keep the input order |
| `AudioFiles.FilterAudioExample` | main.py:248-250 | `a.mp3, b.txt, c.m4a` yields exactly `a.mp3, c.m4a` in that order |
| `AudioFiles.UpperCaseAccepted` | main.py:249 | upper-case extensions such as `.MP3` and `.M4A` are accepted |
| `TimeFormat.ValueOfDigits` | main.py:223 | the decimal digits of `n` read back as `n` |
| `TimeFormat.Pad2` | main.py:223 | the `:02d` field is all digits, at least two long, exactly two long below 100, and without a leading zero from 10 on; its value is stated by the lemma below |
| `TimeFormat.Pad2Value` | main.py:223 | zero-padding to two digits keeps the value |
| `TimeFormat.FormatTime` | main.py:219-223 | the label is at least five characters long, with the colon third from the end |
| `TimeFormat.FormatTimeReadsBack` | main.py:219-223 | the minutes field times 60 plus the seconds field gives back the seconds; the seconds field is below 60; both fields are digits; below 6000 seconds the label has length 5; from 600 seconds on it has no leading zero |
| `TimeFormat.FormatTimeExamples` | main.py:219-223 | 0 seconds shows as `00:00`, 754 seconds as `12:34` and 6000 seconds as `100:00` |
| `Transitions.InitialValid` | main.py:15-24 | the initial state (empty list, index 0, stopped, both modes off) satisfies the invariant |
| `Transitions.Stop` | main.py:334-340 | stopping clears the playing and paused flags and zeroes the position; list, index, modes and duration are unchanged |
| `Transitions.PlayCurrent` | main.py:297-332 | no change on an empty list; otherwise index, list and modes are kept, the position is 0, nothing is paused, and the song plays with the reported length exactly when the engine started it |
| `Transitions.PlayAt` | main.py:290-295 | an out-of-range index changes nothing; an in-range index becomes current and its song is started: position 0, unpaused, playing and with the reported length exactly when the engine started it, the old length kept when it raised |
| `Transitions.TogglePlayPause` | main.py:346-363 | no change on an empty list; while playing only the paused flag flips; when stopped the current song starts |
| `Transitions.Previous` | main.py:365-376 | no change on an empty list; otherwise the new index is the random pick in shuffle mode and the wrapped previous index otherwise, and that song is started: position 0, unpaused, playing with the reported length exactly when the engine started it, the old length kept when it raised; list and modes are kept |
| `Transitions.Next` | main.py:378-389 | no change on an empty list; otherwise the new index is the random pick in shuffle mode and the wrapped next index otherwise, and that song is started: position 0, unpaused, playing with the reported length exactly when the engine started it, the old length kept when it raised; list and modes are kept |
| `Transitions.ToggleShuffle` | main.py:391-393 | flips the shuffle flag and nothing else |
| `Transitions.ToggleRepeat` | main.py:398-400 | flips the repeat flag and nothing else |
| `Transitions.Clear` | main.py:277-282 | from any state, the result is stopped and unpaused at position 0, with an empty list and index 0; modes and duration are kept |
| `Transitions.Load` | main.py:246-250 | the accepted files are appended after the existing entries; index, flags and everything else are unchanged |
| `Transitions.Seek` | main.py:419-424 | the position becomes the target exactly when a song is loaded (paused or not) and its length is positive; nothing else changes |
| `Transitions.Tick` | main.py:441-452 | no change unless playing unpaused; otherwise the position advances by one; when the engine reports the end after the first second, repeat restarts the same index exactly as `PlayCurrent` does (position 0, unpaused, new or kept length), and otherwise the next-song rule applies |
| `Transitions.PreviousAfterNext` | main.py:365-389 | in sequential mode previous right after next restores the index |
| `Transitions.NextAfterPrevious` | main.py:365-389 | in sequential mode next right after previous restores the index |
| `Transitions.Nexts` | main.py:378-389 | sequential next presses, each with its own engine outcome, keep the list and the invariant, and reach the index of as many forward steps |
| `Transitions.NextsFullLap` | main.py:378-389 | pressing next once per track returns to the starting index, whatever the engine does on each press |
| `Transitions.ShuffleMayRepeatTrack` | main.py:383-384 | in shuffle mode the pick may be the current track, so the same track can play again |
| `Transitions.TogglePlayPauseTwice` | main.py:351-359 | while playing, play/pause twice restores the whole state |
| `Transitions.ModeTogglesAreInvolutions` | main.py:391-400 | each mode toggle applied twice is the identity |
| `Transitions.LoadTwice` | main.py:246-250 | loading two batches equals loading their concatenation |
| `Transitions.TrackEndWithRepeat` | main.py:448-450 | at the end of a track in repeat mode the same index is selected again |
| `Transitions.LastTrackEndWraps` | main.py:448-452 | at the end of the last track with repeat and shuffle off, playback continues at index 0 |
| `Transitions.ThreeTrackScenario` | main.py:378-389 | with three tracks from index 0, next visits 1, 2, 0, 1, and previous goes to 2 |
| `Player.MusicPlayer.constructor` | main.py:13-24 | the new player is in the initial state |
| `Player.MusicPlayer.StopPlayback` | main.py:334-340 | keeps the invariant; new state is `Stop` of the old |
| `Player.MusicPlayer.PlayCurrentSong` | main.py:297-332 | keeps the invariant; new state is `PlayCurrent` of the old |
| `Player.MusicPlayer.PlaySongAtIndex` | main.py:290-295 | keeps the invariant; new state is `PlayAt` of the old |
| `Player.MusicPlayer.TogglePlayPause` | main.py:346-363 | keeps the invariant; new state is `TogglePlayPause` of the old |
| `Player.MusicPlayer.PreviousSong` | main.py:365-376 | keeps the invariant; new state is `Previous` of the old |
| `Player.MusicPlayer.NextSong` | main.py:378-389 | keeps the invariant; new state is `Next` of the old |
| `Player.MusicPlayer.ToggleShuffle` | main.py:391-393 | keeps the invariant; only the shuffle flag flips |
| `Player.MusicPlayer.ToggleRepeat` | main.py:398-400 | keeps the invariant; only the repeat flag flips |
| `Player.MusicPlayer.ClearPlaylist` | main.py:277-282 | keeps the invariant; new state is `Clear` of the old |
| `Player.MusicPlayer.LoadSongs` | main.py:246-250 | appending one accepted file at a time ends with the old list followed by the filtered input; nothing else changes |
| `Player.MusicPlayer.OnProgressChange` | main.py:419-424 | keeps the invariant; new state is `Seek` of the old |
| `Player.MusicPlayer.MonitorTick` | main.py:441-452 | keeps the invariant; new state is `Tick` of the old |

## Left out

- Volume (`on_volume_change`): it converts a float slider value to an integer percentage and picks an icon by float thresholds. The code does not clamp the value; the slider's range bounds it.
- Song metadata (`get_song_info`): tags are read by a foreign library, with a fallback to the file name stem and a placeholder artist. No modelled state depends on it.
- Everything drawn on screen: the widgets, icons, labels, highlight colours (`update_playlist_ui`), the progress bar's `min(position, duration)`, the file-picker dialog and `page.update()`.
- The monitor thread and its one-second sleep: one pass of the loop is modelled as `MonitorTick`. The loop runs until `stop_update` becomes true, which the program never sets. Concurrent access from the user-interface thread is not modelled.
- The fields `current_song`, `volume`, `update_thread` and `stop_update`: no modelled operation reads them.
- Time as floats: position and duration are whole seconds (`nat`). `Started` carries whatever whole number of seconds the caller picks for the engine's length in milliseconds divided by 1000. To keep "duration > 0" as in the code, a positive length below one second must be given as 1 (rounded up), and an unavailable length (a failed query or a negative report) as 0.
- A cancelled file dialog (`result.files` empty or absent) is the empty list of files given to `LoadSongs`.
- The 0.1-second wait before the length is queried: the length is the value carried by `LoadOutcome.Started`.
- `Player.MusicPlayer.StopPlayback`: does not model the path where the engine's `stop` raises and the flags are left as they were. The engine is assumed to stop without error.
- `AudioFiles.IsAudioPath`: lower-cases only the ASCII letters A-Z. Python's `str.lower` also changes other letters, but none of those turns into a character of `.mp3` or `.m4a`, so the test gives the same answer.
- `Player.MusicPlayer.PlayCurrentSong`: an exception raised after the engine has started (while updating labels) is not modelled; only failures of the engine calls are.
