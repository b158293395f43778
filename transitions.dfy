/** The playback-control state machine of the music player as values: one
    function per operation, from the state before to the state after. The
    class in module Player runs the same operations in place and is proved
    against these functions. */
module Transitions {
  import opened Navigation
  import opened AudioFiles

  /** What the media engine does when told to load and start a track: it
      starts and reports a length in whole seconds (0 when it cannot tell),
      or one of its calls raises. */
  datatype LoadOutcome = Started(durationSeconds: nat) | EngineError

  /** The player's fields that the controls read and write. */
  datatype PlayerState = PlayerState(
    playlist: seq<string>,
    currentIndex: int,
    isPlaying: bool,
    isPaused: bool,
    shuffleMode: bool,
    repeatMode: bool,
    position: nat,
    duration: nat)
  {
    /** The index points into a non-empty playlist and is 0 on an empty one;
        only a playing song can be paused; nothing plays from an empty
        playlist. */
    predicate Valid()
    {
      (playlist == [] ==> currentIndex == 0) &&
      (playlist != [] ==> 0 <= currentIndex < |playlist|) &&
      (isPaused ==> isPlaying) &&
      (isPlaying ==> playlist != [])
    }
  }

  /** The state of a freshly constructed player. */
  const Initial := PlayerState([], 0, false, false, false, false, 0, 0)

  lemma InitialValid()
    ensures Initial.Valid() && Initial.playlist == [] && !Initial.isPlaying
  {
  }

  /** `stop_playback`: stopped, unpaused, back at position 0; nothing else
      changes. */
  function Stop(s: PlayerState): (r: PlayerState)
    ensures !r.isPlaying && !r.isPaused && r.position == 0
    ensures r.playlist == s.playlist && r.currentIndex == s.currentIndex
    ensures r.shuffleMode == s.shuffleMode && r.repeatMode == s.repeatMode
    ensures r.duration == s.duration
    ensures s.Valid() ==> r.Valid()
  {
    s.(isPlaying := false, isPaused := false, position := 0)
  }

  /** `play_current_song`: nothing on an empty playlist; otherwise stop, then
      start the track at the current index. If the engine raises, the player
      stays as the stop left it. */
  function PlayCurrent(s: PlayerState, o: LoadOutcome): (r: PlayerState)
    requires s.Valid()
    ensures r.Valid()
    ensures s.playlist == [] ==> r == s
    ensures s.playlist != [] ==>
      r.playlist == s.playlist && r.currentIndex == s.currentIndex &&
      r.shuffleMode == s.shuffleMode && r.repeatMode == s.repeatMode &&
      r.position == 0 && !r.isPaused && (r.isPlaying <==> o.Started?) &&
      r.duration == (if o.Started? then o.durationSeconds else s.duration)
  {
    if s.playlist == [] then s
    else
      var stopped := Stop(s);
      match o
      case Started(d) => stopped.(isPlaying := true, isPaused := false, duration := d)
      case EngineError => stopped
  }

  /** `play_song_at_index`: an index outside the playlist changes nothing;
      otherwise the index is selected and its track started. */
  function PlayAt(s: PlayerState, index: int, o: LoadOutcome): (r: PlayerState)
    requires s.Valid()
    ensures r.Valid()
    ensures !(0 <= index < |s.playlist|) ==> r == s
    ensures 0 <= index < |s.playlist| ==>
      r.currentIndex == index && r.playlist == s.playlist &&
      r.shuffleMode == s.shuffleMode && r.repeatMode == s.repeatMode &&
      r.position == 0 && !r.isPaused && (r.isPlaying <==> o.Started?) &&
      r.duration == (if o.Started? then o.durationSeconds else s.duration)
  {
    if 0 <= index < |s.playlist| then PlayCurrent(s.(currentIndex := index), o) else s
  }

  /** `toggle_play_pause`: nothing on an empty playlist; while playing only
      the pause flag flips; otherwise the current track starts. */
  function TogglePlayPause(s: PlayerState, o: LoadOutcome): (r: PlayerState)
    requires s.Valid()
    ensures r.Valid()
    ensures s.playlist == [] ==> r == s
    ensures s.isPlaying ==> r.isPaused == !s.isPaused && r.(isPaused := s.isPaused) == s
    ensures s.playlist != [] && !s.isPlaying ==> r == PlayCurrent(s, o)
  {
    if s.playlist == [] then s
    else if s.isPlaying then s.(isPaused := !s.isPaused)
    else PlayCurrent(s, o)
  }

  /** The precondition shared by the navigation operations: in shuffle mode
      the caller supplies the random pick, an index of the playlist. */
  predicate PickInRange(s: PlayerState, pick: int)
  {
    s.shuffleMode && s.playlist != [] ==> 0 <= pick < |s.playlist|
  }

  /** `previous_song`: nothing on an empty playlist; otherwise the index moves
      back one place with wrap-around (or to the random pick in shuffle mode)
      and that track starts. */
  function Previous(s: PlayerState, pick: int, o: LoadOutcome): (r: PlayerState)
    requires s.Valid() && PickInRange(s, pick)
    ensures r.Valid()
    ensures s.playlist == [] ==> r == s
    ensures s.playlist != [] ==>
      r.currentIndex == (if s.shuffleMode then pick else PrevIndex(s.currentIndex, |s.playlist|)) &&
      r.playlist == s.playlist && r.shuffleMode == s.shuffleMode && r.repeatMode == s.repeatMode &&
      r.position == 0 && !r.isPaused && (r.isPlaying <==> o.Started?) &&
      r.duration == (if o.Started? then o.durationSeconds else s.duration)
  {
    if s.playlist == [] then s
    else
      var i := if s.shuffleMode then pick else PrevIndex(s.currentIndex, |s.playlist|);
      PlayCurrent(s.(currentIndex := i), o)
  }

  /** `next_song`: as `Previous`, one place forward. */
  function Next(s: PlayerState, pick: int, o: LoadOutcome): (r: PlayerState)
    requires s.Valid() && PickInRange(s, pick)
    ensures r.Valid()
    ensures s.playlist == [] ==> r == s
    ensures s.playlist != [] ==>
      r.currentIndex == (if s.shuffleMode then pick else NextIndex(s.currentIndex, |s.playlist|)) &&
      r.playlist == s.playlist && r.shuffleMode == s.shuffleMode && r.repeatMode == s.repeatMode &&
      r.position == 0 && !r.isPaused && (r.isPlaying <==> o.Started?) &&
      r.duration == (if o.Started? then o.durationSeconds else s.duration)
  {
    if s.playlist == [] then s
    else
      var i := if s.shuffleMode then pick else NextIndex(s.currentIndex, |s.playlist|);
      PlayCurrent(s.(currentIndex := i), o)
  }

  /** `toggle_shuffle`: flips the shuffle flag and nothing else. */
  function ToggleShuffle(s: PlayerState): (r: PlayerState)
    ensures r.shuffleMode == !s.shuffleMode && r.(shuffleMode := s.shuffleMode) == s
    ensures s.Valid() ==> r.Valid()
  {
    s.(shuffleMode := !s.shuffleMode)
  }

  /** `toggle_repeat`: flips the repeat flag and nothing else. */
  function ToggleRepeat(s: PlayerState): (r: PlayerState)
    ensures r.repeatMode == !s.repeatMode && r.(repeatMode := s.repeatMode) == s
    ensures s.Valid() ==> r.Valid()
  {
    s.(repeatMode := !s.repeatMode)
  }

  /** `clear_playlist`: from any state, stopped on an empty playlist at index
      0; the modes and the last duration are kept. */
  function Clear(s: PlayerState): (r: PlayerState)
    ensures r.Valid()
    ensures r.playlist == [] && r.currentIndex == 0
    ensures !r.isPlaying && !r.isPaused && r.position == 0
    ensures r.shuffleMode == s.shuffleMode && r.repeatMode == s.repeatMode
    ensures r.duration == s.duration
  {
    Stop(s).(playlist := [], currentIndex := 0)
  }

  /** The file-picker callback of `load_songs`: the accepted files are
      appended in order; nothing else changes. */
  function Load(s: PlayerState, files: seq<string>): (r: PlayerState)
    requires s.Valid()
    ensures r.Valid()
    ensures r.playlist == s.playlist + FilterAudio(files)
    ensures r.(playlist := s.playlist) == s
  {
    s.(playlist := s.playlist + FilterAudio(files))
  }

  /** `on_progress_change`: the position jumps to the slider's value only
      while a song is loaded for playing (paused or not) and its length is
      known; otherwise nothing changes. */
  function Seek(s: PlayerState, target: nat): (r: PlayerState)
    requires s.Valid()
    ensures r.Valid()
    ensures r.(position := s.position) == s
    ensures r.position == (if s.isPlaying && s.duration > 0 then target else s.position)
  {
    if s.isPlaying && s.duration > 0 then s.(position := target) else s
  }

  /** One pass of the monitor loop in `start_update_thread`: while a song
      plays unpaused the position advances by one second; once the engine
      reports it is no longer playing after the first second, the same track
      restarts in repeat mode and the next one starts otherwise. */
  function Tick(s: PlayerState, enginePlaying: bool, pick: int, o: LoadOutcome): (r: PlayerState)
    requires s.Valid() && PickInRange(s, pick)
    ensures r.Valid()
    ensures !(s.isPlaying && !s.isPaused) ==> r == s
    ensures s.isPlaying && !s.isPaused && (enginePlaying || s.position == 0) ==>
      r == s.(position := s.position + 1)
    ensures s.isPlaying && !s.isPaused && !enginePlaying && s.position > 0 && s.repeatMode ==>
      r.currentIndex == s.currentIndex && r.playlist == s.playlist && r.position == 0 &&
      r.shuffleMode == s.shuffleMode && r.repeatMode && !r.isPaused && (r.isPlaying <==> o.Started?) &&
      r.duration == (if o.Started? then o.durationSeconds else s.duration) &&
      r == PlayCurrent(s.(position := s.position + 1), o)
    ensures s.isPlaying && !s.isPaused && !enginePlaying && s.position > 0 && !s.repeatMode ==>
      r == Next(s.(position := s.position + 1), pick, o)
  {
    if s.isPlaying && !s.isPaused then
      var advanced := s.(position := s.position + 1);
      if !enginePlaying && advanced.position > 1 then
        if s.repeatMode then PlayCurrent(advanced, o) else Next(advanced, pick, o)
      else advanced
    else s
  }

  // ---------------------------------------------------------------------
  // Properties relating several operations

  /** In sequential mode `previous_song` right after `next_song` returns to
      the track it started from, whatever the engine did. */
  lemma PreviousAfterNext(s: PlayerState, o1: LoadOutcome, o2: LoadOutcome)
    requires s.Valid() && !s.shuffleMode && s.playlist != []
    ensures Previous(Next(s, 0, o1), 0, o2).currentIndex == s.currentIndex
  {
  }

  /** And `next_song` right after `previous_song`. */
  lemma NextAfterPrevious(s: PlayerState, o1: LoadOutcome, o2: LoadOutcome)
    requires s.Valid() && !s.shuffleMode && s.playlist != []
    ensures Next(Previous(s, 0, o1), 0, o2).currentIndex == s.currentIndex
  {
  }

  /** Presses of next in sequential mode, one per engine outcome in `os`,
      in order: each press may see the engine behave differently. */
  function Nexts(s: PlayerState, os: seq<LoadOutcome>): (r: PlayerState)
    requires s.Valid() && !s.shuffleMode
    ensures r.Valid() && !r.shuffleMode && r.playlist == s.playlist
    ensures s.playlist != [] ==> r.currentIndex == NextIter(s.currentIndex, |s.playlist|, |os|)
    decreases |os|
  {
    if os == [] then s else Next(Nexts(s, os[..|os| - 1]), 0, os[|os| - 1])
  }

  /** Pressing next once per track brings the player back to the track it
      started from, whatever the engine does on each press. */
  lemma NextsFullLap(s: PlayerState, os: seq<LoadOutcome>)
    requires s.Valid() && !s.shuffleMode && s.playlist != []
    requires |os| == |s.playlist|
    ensures Nexts(s, os).currentIndex == s.currentIndex
  {
    FullLapReturns(s.currentIndex, |s.playlist|);
  }

  /** In shuffle mode the pick may be the current track itself. */
  lemma ShuffleMayRepeatTrack(s: PlayerState, o: LoadOutcome)
    requires s.Valid() && s.shuffleMode && s.playlist != []
    ensures Next(s, s.currentIndex, o).currentIndex == s.currentIndex
    ensures Previous(s, s.currentIndex, o).currentIndex == s.currentIndex
  {
  }

  /** While playing, pressing play/pause twice restores the state. */
  lemma TogglePlayPauseTwice(s: PlayerState, o1: LoadOutcome, o2: LoadOutcome)
    requires s.Valid() && s.isPlaying
    ensures TogglePlayPause(TogglePlayPause(s, o1), o2) == s
  {
  }

  /** Each mode toggle undoes itself. */
  lemma ModeTogglesAreInvolutions(s: PlayerState)
    ensures ToggleShuffle(ToggleShuffle(s)) == s
    ensures ToggleRepeat(ToggleRepeat(s)) == s
  {
  }

  /** Loading in two batches is loading their concatenation. */
  lemma LoadTwice(s: PlayerState, a: seq<string>, b: seq<string>)
    requires s.Valid()
    ensures Load(Load(s, a), b) == Load(s, a + b)
  {
    FilterAudioAppend(a, b);
  }

  /** End of track in repeat mode restarts the same index. */
  lemma TrackEndWithRepeat(s: PlayerState, pick: int, o: LoadOutcome)
    requires s.Valid() && PickInRange(s, pick)
    requires s.isPlaying && !s.isPaused && s.position > 0 && s.repeatMode
    ensures Tick(s, false, pick, o).currentIndex == s.currentIndex
  {
  }

  /** End of the last track without repeat or shuffle continues at index 0. */
  lemma LastTrackEndWraps(s: PlayerState, o: LoadOutcome)
    requires s.Valid() && s.isPlaying && !s.isPaused && s.position > 0
    requires !s.repeatMode && !s.shuffleMode && s.currentIndex == |s.playlist| - 1
    ensures Tick(s, false, 0, o).currentIndex == 0
  {
  }

  /** Three tracks, sequential: next from index 0 visits 1, 2, 0, 1, and
      previous from index 0 goes to 2. */
  lemma ThreeTrackScenario(os: seq<LoadOutcome>, o: LoadOutcome)
    requires |os| == 4
    ensures var s := Initial.(playlist := ["A", "B", "C"]);
      Nexts(s, os[..1]).currentIndex == 1 && Nexts(s, os[..2]).currentIndex == 2 &&
      Nexts(s, os[..3]).currentIndex == 0 && Nexts(s, os).currentIndex == 1 &&
      Previous(s, 0, o).currentIndex == 2
  {
  }
}
