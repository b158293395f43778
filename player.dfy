/** The music player object: the fields its controls update in place, and
    one method per control. Every method keeps `Valid()` and leaves the
    player in the state the matching function of module Transitions gives
    for the state before the call. The media engine is not an object here:
    what it reports comes in as arguments, and the commands sent to it have
    no modelled effect. */
module Player {
  import opened AudioFiles
  import opened Transitions

  class MusicPlayer {
    var playlist: seq<string>
    var currentIndex: int
    var isPlaying: bool
    var isPaused: bool
    var shuffleMode: bool
    var repeatMode: bool
    var position: nat
    var duration: nat

    /** The fields as one value. */
    function State(): PlayerState
      reads this
    {
      PlayerState(playlist, currentIndex, isPlaying, isPaused, shuffleMode, repeatMode, position, duration)
    }

    predicate Valid()
      reads this
    {
      State().Valid()
    }

    constructor ()
      ensures Valid() && State() == Initial
    {
      playlist := [];
      currentIndex := 0;
      isPlaying, isPaused := false, false;
      shuffleMode, repeatMode := false, false;
      position, duration := 0, 0;
    }

    method StopPlayback()
      requires Valid()
      modifies this
      ensures Valid() && State() == Stop(old(State()))
    {
      isPlaying := false;
      isPaused := false;
      position := 0;
    }

    method PlayCurrentSong(outcome: LoadOutcome)
      requires Valid()
      modifies this
      ensures Valid() && State() == PlayCurrent(old(State()), outcome)
    {
      if playlist == [] {
        return;
      }
      StopPlayback();
      var songPath := playlist[currentIndex];  // the lookup is within bounds
      match outcome {
        case EngineError =>
          // the exception is caught; the player stays as StopPlayback left it
          return;
        case Started(seconds) =>
          isPlaying := true;
          isPaused := false;
          duration := seconds;
      }
    }

    method PlaySongAtIndex(index: int, outcome: LoadOutcome)
      requires Valid()
      modifies this
      ensures Valid() && State() == PlayAt(old(State()), index, outcome)
    {
      if 0 <= index < |playlist| {
        currentIndex := index;
        PlayCurrentSong(outcome);
      }
    }

    method TogglePlayPause(outcome: LoadOutcome)
      requires Valid()
      modifies this
      ensures Valid() && State() == Transitions.TogglePlayPause(old(State()), outcome)
    {
      if playlist == [] {
        return;
      }
      if isPlaying {
        isPaused := !isPaused;
      } else {
        PlayCurrentSong(outcome);
      }
    }

    /** `pick` stands for the random index drawn in shuffle mode. */
    method PreviousSong(pick: int, outcome: LoadOutcome)
      requires Valid() && PickInRange(State(), pick)
      modifies this
      ensures Valid() && State() == Previous(old(State()), pick, outcome)
    {
      if playlist == [] {
        return;
      }
      if shuffleMode {
        currentIndex := pick;
      } else {
        currentIndex := (currentIndex - 1) % |playlist|;
      }
      PlayCurrentSong(outcome);
    }

    /** `pick` stands for the random index drawn in shuffle mode. */
    method NextSong(pick: int, outcome: LoadOutcome)
      requires Valid() && PickInRange(State(), pick)
      modifies this
      ensures Valid() && State() == Next(old(State()), pick, outcome)
    {
      if playlist == [] {
        return;
      }
      if shuffleMode {
        currentIndex := pick;
      } else {
        currentIndex := (currentIndex + 1) % |playlist|;
      }
      PlayCurrentSong(outcome);
    }

    method ToggleShuffle()
      requires Valid()
      modifies this
      ensures Valid() && State() == Transitions.ToggleShuffle(old(State()))
    {
      shuffleMode := !shuffleMode;
    }

    method ToggleRepeat()
      requires Valid()
      modifies this
      ensures Valid() && State() == Transitions.ToggleRepeat(old(State()))
    {
      repeatMode := !repeatMode;
    }

    method ClearPlaylist()
      requires Valid()
      modifies this
      ensures Valid() && State() == Clear(old(State()))
    {
      StopPlayback();
      playlist := [];
      currentIndex := 0;
    }

    /** The file-picker callback: each picked path with an accepted
        extension is appended, one at a time. */
    method LoadSongs(files: seq<string>)
      requires Valid()
      modifies this
      ensures Valid() && State() == Load(old(State()), files)
    {
      for i := 0 to |files|
        invariant playlist == old(playlist) + FilterAudio(files[..i])
        invariant State().(playlist := old(playlist)) == old(State())
      {
        if IsAudioPath(files[i]) {
          playlist := playlist + [files[i]];
        }
        assert files[..i + 1] == files[..i] + [files[i]];
        FilterAudioAppend(files[..i], [files[i]]);
      }
      assert files[..|files|] == files;
    }

    /** The progress slider moved to `target` seconds. */
    method OnProgressChange(target: nat)
      requires Valid()
      modifies this
      ensures Valid() && State() == Seek(old(State()), target)
    {
      if isPlaying && duration > 0 {
        position := target;
      }
    }

    /** One pass of the monitor loop. `enginePlaying` is what the engine
        answers when asked whether it is still playing. */
    method MonitorTick(enginePlaying: bool, pick: int, outcome: LoadOutcome)
      requires Valid() && PickInRange(State(), pick)
      modifies this
      ensures Valid() && State() == Tick(old(State()), enginePlaying, pick, outcome)
    {
      if isPlaying && !isPaused {
        position := position + 1;
        if !enginePlaying && position > 1 {
          if repeatMode {
            PlayCurrentSong(outcome);
          } else {
            NextSong(pick, outcome);
          }
        }
      }
    }
  }
}
