/** Which picked files the player accepts into its playlist: those whose
    lower-cased path ends with ".mp3" or ".m4a". */
module AudioFiles {

  /** Lower-cases one character; only the ASCII letters A-Z change. */
  function LowerChar(c: char): char
  {
    if 'A' <= c <= 'Z' then (c as int - 'A' as int + 'a' as int) as char else c
  }

  /** Lower-cases a string character by character. */
  function Lower(s: string): (r: string)
    ensures |r| == |s|
    ensures forall i :: 0 <= i < |s| ==> r[i] == LowerChar(s[i])
  {
    seq(|s|, i requires 0 <= i < |s| => LowerChar(s[i]))
  }

  predicate EndsWith(s: string, suffix: string)
  {
    |suffix| <= |s| && s[|s| - |suffix|..] == suffix
  }

  /** The extension test applied to each picked file. */
  predicate IsAudioPath(path: string): (accepted: bool)
    ensures accepted ==> |path| >= 4 && LowerChar(path[|path| - 4]) == '.'
  {
    EndsWith(Lower(path), ".mp3") || EndsWith(Lower(path), ".m4a")
  }

  /** Case-insensitive: only the last four characters decide, each compared
      after lower-casing. */
  lemma IsAudioPathByLastFour(path: string)
    ensures IsAudioPath(path) <==>
      |path| >= 4 && LowerChar(path[|path| - 4]) == '.' && LowerChar(path[|path| - 3]) == 'm' &&
      ((LowerChar(path[|path| - 2]) == 'p' && LowerChar(path[|path| - 1]) == '3') ||
       (LowerChar(path[|path| - 2]) == '4' && LowerChar(path[|path| - 1]) == 'a'))
  {
  }

  /** The accepted paths of `paths`, in their order, duplicates kept. */
  function FilterAudio(paths: seq<string>): (r: seq<string>)
    ensures |r| <= |paths|
    ensures forall k :: 0 <= k < |r| ==> IsAudioPath(r[k])
  {
    if paths == [] then []
    else
      assert paths == [paths[0]] + paths[1..];
      (if IsAudioPath(paths[0]) then [paths[0]] else []) + FilterAudio(paths[1..])
  }

  /** Nothing is deduplicated: an accepted path occurs in the result exactly
      as often as in the input, a rejected one not at all. */
  lemma {:induction false} FilterAudioCounts(paths: seq<string>, p: string)
    ensures multiset(FilterAudio(paths))[p] == (if IsAudioPath(p) then multiset(paths)[p] else 0)
    decreases |paths|
  {
    if paths != [] {
      var head := if IsAudioPath(paths[0]) then [paths[0]] else [];
      assert paths == [paths[0]] + paths[1..];
      assert multiset(paths) == multiset{paths[0]} + multiset(paths[1..]);
      assert multiset(FilterAudio(paths)) == multiset(head) + multiset(FilterAudio(paths[1..]));
      FilterAudioCounts(paths[1..], p);
    }
  }

  /** Filtering distributes over concatenation, so the result keeps the
      input order. */
  lemma {:induction false} FilterAudioAppend(a: seq<string>, b: seq<string>)
    ensures FilterAudio(a + b) == FilterAudio(a) + FilterAudio(b)
    decreases |a|
  {
    if a == [] {
      assert a + b == b;
    } else {
      var head := if IsAudioPath(a[0]) then [a[0]] else [];
      assert (a + b)[0] == a[0] && (a + b)[1..] == a[1..] + b;
      assert FilterAudio(a + b) == head + FilterAudio(a[1..] + b);
      FilterAudioAppend(a[1..], b);
      assert FilterAudio(a) == head + FilterAudio(a[1..]);
    }
  }

  /** A text file among two audio files is dropped and the other two keep
      their order. */
  lemma FilterAudioExample()
    ensures FilterAudio(["a.mp3", "b.txt", "c.m4a"]) == ["a.mp3", "c.m4a"]
  {
    IsAudioPathByLastFour("a.mp3");
    IsAudioPathByLastFour("b.txt");
    IsAudioPathByLastFour("c.m4a");
    assert ["a.mp3", "b.txt", "c.m4a"][1..] == ["b.txt", "c.m4a"];
    assert ["b.txt", "c.m4a"][1..] == ["c.m4a"];
    assert ["c.m4a"][1..] == [];
  }

  /** Upper-case extensions are accepted too. */
  lemma UpperCaseAccepted()
    ensures IsAudioPath("SONG.MP3") && IsAudioPath("Track.M4A")
  {
  }
}
