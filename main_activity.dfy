/**
 * MainActivity's own state and its event handlers, with the platform calls
 * replaced by field updates: the preference file is a map, the private files
 * directory a set of paths, the recorder and the players handles bound to a
 * clip index. Each method is proved to move the object exactly as the
 * corresponding function of module Memory moves a `State`; the four event
 * handlers are also proved to keep `Memory.Inv`.
 */
module Activity {
  import opened Options
  import opened FileNames
  import Memory

  class MainActivity {
    /** `filesDir.absolutePath`. */
    const dir: string
    /** The "memory_sp" preference file. */
    var prefs: map<string, int>
    var isRecording: bool
    var isPlaying: bool
    /** `mRecorder`. */
    var recorder: Option<Memory.Capture>
    /** The list the completion listener captured; its head is the player that is playing. */
    var mediaPlayers: seq<Memory.Player>
    /** The files in `dir`. */
    var files: set<string>
    /** The clip indices handed to `MediaPlayer.start()`, in order. */
    var started: seq<int>

    function Model(): Memory.State
      reads this
    {
      Memory.State(dir, prefs, isRecording, isPlaying, recorder, mediaPlayers, files, started)
    }

    ghost predicate Valid()
      reads this
    {
      Memory.Inv(Model())
    }

    /** Launch over what earlier runs stored: a counter not below -1 and no clip above it. */
    constructor (dir: string, prefs: map<string, int>, files: set<string>)
      requires Memory.LastTrack(prefs) >= Memory.NoTrack
      requires Memory.NoClipAbove(dir, files, Memory.LastTrack(prefs))
      ensures Model() == Memory.Launch(dir, prefs, files)
      ensures Valid()
    {
      this.dir := dir;
      this.prefs := prefs;
      this.files := files;
      isRecording, isPlaying := false, false;
      recorder := None;
      mediaPlayers, started := [], [];
    }

    /** `getLastTrack`. */
    method GetLastTrack() returns (track: int)
      ensures track == Memory.LastTrack(prefs)
      ensures Memory.LatestTrack !in prefs ==> track == Memory.NoTrack
    {
      track := if Memory.LatestTrack in prefs then prefs[Memory.LatestTrack] else Memory.NoTrack;
    }

    /** `saveLatestTrackNum`. */
    method SaveLatestTrackNum(track: int)
      modifies this
      ensures prefs == Memory.SaveLatestTrackNum(old(prefs), track)
      ensures Memory.LastTrack(prefs) == track
      ensures files == old(files) && recorder == old(recorder)
      ensures isRecording == old(isRecording) && isPlaying == old(isPlaying)
      ensures mediaPlayers == old(mediaPlayers) && started == old(started)
    {
      prefs := prefs[Memory.LatestTrack := track];
    }

    /** `startRecording`; `prepared` is whether the recorder's `prepare()` succeeds. */
    method StartRecording(prepared: bool)
      modifies this
      ensures Model() == Memory.StartRecording(old(Model()), prepared)
      ensures Memory.LastTrack(prefs) == Memory.LastTrack(old(prefs)) + 1
    {
      var nextTrack := GetLastTrack();
      nextTrack := nextTrack + 1;
      var name := FileNameForIndex(dir, nextTrack);
      SaveLatestTrackNum(nextTrack);
      if prepared {
        files := files + {name};
      }
      recorder := Some(Memory.Capture(nextTrack, prepared));
    }

    /** `stopRecording`. */
    method StopRecording()
      modifies this
      ensures Model() == Memory.StopRecording(old(Model()))
    {
      recorder := None;
    }

    /** The record button's click listener. */
    method OnRecordClick(prepared: bool)
      requires Valid()
      modifies this
      ensures Model() == Memory.RecordClick(old(Model()), prepared)
      ensures Valid()
    {
      ghost var before := Model();
      if isPlaying {
        return;
      }
      if isRecording {
        StopRecording();
      } else {
        StartRecording(prepared);
      }
      isRecording := !isRecording;
      Memory.RecordClickKeepsInv(before, prepared);
    }

    /** `deleteAllFiles`. */
    method DeleteAllFiles()
      requires Valid()
      modifies this
      ensures Model() == Memory.DeleteAllFiles(old(Model()))
      ensures Valid()
    {
      ghost var before := Model();
      var lastTrack := GetLastTrack();
      if lastTrack == Memory.NoTrack {
        return;
      }
      for i := 0 to lastTrack + 1
        invariant files == before.files - Memory.ClipNames(dir, i - 1)
        invariant Model() == before.(files := files)
      {
        files := files - {FileNameForIndex(dir, i)};
      }
      SaveLatestTrackNum(Memory.NoTrack);
      Memory.DeleteAllFilesKeepsInv(before);
    }

    /** `createMediaPlayer`: its `prepare()` succeeds exactly when the clip's file exists. */
    method CreateMediaPlayer(index: int) returns (player: Memory.Player)
      ensures player == Memory.PlayerFor(dir, files, index)
      ensures player.index == index
      ensures player.prepared <==> FileNameForIndex(dir, index) in files
    {
      var name := FileNameForIndex(dir, index);
      player := Memory.Player(index, name in files);
    }

    /** The listen button, `startPlaying()`. */
    method StartPlaying()
      requires Valid()
      modifies this
      ensures Model() == Memory.StartPlaying(old(Model()))
      ensures Valid()
    {
      ghost var before := Model();
      if isPlaying {
        return;
      }
      isPlaying := true;
      var list: seq<Memory.Player> := [];
      var lastTrack := GetLastTrack();
      if lastTrack == Memory.NoTrack {
        isPlaying := false;
        return;
      }
      for i := lastTrack + 1 downto 0
        invariant |list| == lastTrack + 1 - i
        invariant forall k :: 0 <= k < |list| ==> list[k] == Memory.PlayerFor(dir, files, lastTrack - k)
        invariant Model() == before.(isPlaying := true)
      {
        var player := CreateMediaPlayer(i);
        list := list + [player];
      }
      assert list == Memory.PlayersFor(dir, files, Memory.Countdown(lastTrack));
      StartChain(list);
      Memory.StartPlayingKeepsInv(before);
    }

    /** `startPlaying(list)`: attach the completion listener to the head and start it. */
    method StartChain(list: seq<Memory.Player>)
      modifies this
      ensures Model() == Memory.Begin(old(Model()), list)
    {
      mediaPlayers := list;
      if |mediaPlayers| > 0 {
        var first := mediaPlayers[0];
        started := started + [first.index];
      } else {
        isPlaying := false;
      }
    }

    /** The completion listener, called when the head of the list finishes. */
    method OnCompletion()
      requires Valid() && mediaPlayers != []
      modifies this
      ensures Model() == Memory.Completion(old(Model()))
      ensures Valid()
    {
      ghost var before := Model();
      mediaPlayers := mediaPlayers[1..];
      if |mediaPlayers| > 0 {
        var next := mediaPlayers[0];
        started := started + [next.index];
      } else {
        isPlaying := false;
      }
      Memory.CompletionKeepsInv(before);
    }
  }
}
