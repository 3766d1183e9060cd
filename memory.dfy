/**
 * The state machine inside MainActivity, as values. A `State` holds everything
 * the activity's handlers read or write: the "memory_sp" preference file with
 * its "last_track" counter, the `isRecording` and `isPlaying` flags, the
 * recorder handle, the list of media players of the current playback, and the
 * files in the app's private directory. Each UI event is one function from the
 * state before to the state after; `Inv` is what holds between events.
 *
 * Platform handles are abstracted to the clip index they are bound to, plus
 * whether their `prepare()` succeeded. `started` is the log of clip indices
 * handed to `MediaPlayer.start()`, in order: the audible output of the app.
 */
module Memory {
  import opened Options
  import opened FileNames

  /** Key of the persisted counter in the "memory_sp" preferences. */
  const LatestTrack: string := "last_track"

  /** What the counter reads when no clip exists (also `getInt`'s default). */
  const NoTrack: int := -1

  /** `mRecorder`: a MediaRecorder writing clip `index`; `prepared` is false when `prepare()` threw. */
  datatype Capture = Capture(index: int, prepared: bool)

  /** A MediaPlayer built for clip `index`; `prepared` is false when setting it up threw. */
  datatype Player = Player(index: int, prepared: bool)

  datatype State = State(
    dir: string,
    prefs: map<string, int>,
    isRecording: bool,
    isPlaying: bool,
    recorder: Option<Capture>,
    queue: seq<Player>,
    files: set<string>,
    started: seq<int>)

  /** The activity right after launch, over the preferences and files earlier runs left behind. */
  function Launch(dir: string, prefs: map<string, int>, files: set<string>): State
  {
    State(dir, prefs, false, false, None, [], files, [])
  }

  // ---------------------------------------------------------------- track counter

  /** `getLastTrack`: the stored counter, or -1 when none was ever stored. */
  function LastTrack(prefs: map<string, int>): (track: int)
    ensures LatestTrack !in prefs ==> track == NoTrack
  {
    if LatestTrack in prefs then prefs[LatestTrack] else NoTrack
  }

  /** `saveLatestTrackNum`: store `track` under "last_track"; every other key keeps its value. */
  function SaveLatestTrackNum(prefs: map<string, int>, track: int): (r: map<string, int>)
    ensures LastTrack(r) == track
    ensures forall key :: key != LatestTrack ==> (key in r <==> key in prefs)
    ensures forall key :: key in prefs && key != LatestTrack ==> r[key] == prefs[key]
  {
    prefs[LatestTrack := track]
  }

  // ---------------------------------------------------------------- recording

  /**
   * `startRecording`: bind a recorder to the next index, store that index as the
   * counter, then prepare. A successful `prepare()` creates the clip's file; after
   * a failed one the counter has advanced anyway (the `start()` that follows,
   * which would throw, is taken to return).
   */
  function StartRecording(s: State, prepared: bool): (r: State)
    ensures LastTrack(r.prefs) == LastTrack(s.prefs) + 1
    ensures r.recorder == Some(Capture(LastTrack(r.prefs), prepared))
    ensures r.isRecording == s.isRecording && r.isPlaying == s.isPlaying && r.queue == s.queue
  {
    var next := LastTrack(s.prefs) + 1;
    s.(recorder := Some(Capture(next, prepared)),
       prefs := SaveLatestTrackNum(s.prefs, next),
       files := if prepared then s.files + {FileNameForIndex(s.dir, next)} else s.files)
  }

  /** `stopRecording`: stop and release the recorder, if any. */
  function StopRecording(s: State): (r: State)
    ensures r.recorder == None
    ensures r.prefs == s.prefs && r.files == s.files && r.isRecording == s.isRecording
  {
    s.(recorder := None)
  }

  /**
   * The record button. Ignored while playing; otherwise stops or starts a
   * recording and flips `isRecording`. `prepared` is the outcome of the
   * recorder's `prepare()` in case a recording starts.
   */
  function RecordClick(s: State, prepared: bool): (r: State)
    ensures s.isPlaying ==> r == s
    ensures !s.isPlaying ==> r.isRecording == !s.isRecording && r.isPlaying == s.isPlaying && r.queue == s.queue
  {
    if s.isPlaying then s
    else if s.isRecording then StopRecording(s).(isRecording := false)
    else StartRecording(s, prepared).(isRecording := true)
  }

  // ---------------------------------------------------------------- delete all

  /** The names of clips `0..last`, inclusive (none when `last` is negative). */
  function ClipNames(dir: string, last: int): set<string>
  {
    set i | 0 <= i <= last :: FileNameForIndex(dir, i)
  }

  /** `deleteAllFiles`: nothing when the counter is -1; else delete clips `0..last` and reset the counter. */
  function DeleteAllFiles(s: State): (r: State)
    ensures LastTrack(r.prefs) == NoTrack
    ensures r.files <= s.files
    ensures r.isRecording == s.isRecording && r.isPlaying == s.isPlaying && r.queue == s.queue
  {
    var last := LastTrack(s.prefs);
    if last == NoTrack then s
    else s.(files := s.files - ClipNames(s.dir, last), prefs := SaveLatestTrackNum(s.prefs, NoTrack))
  }

  // ---------------------------------------------------------------- playback

  /** Kotlin's `last downTo 0`. */
  function Countdown(last: int): (r: seq<int>)
    ensures |r| == if last < 0 then 0 else last + 1
    ensures forall k :: 0 <= k < |r| ==> r[k] == last - k
    decreases if last < 0 then 0 else last + 1
  {
    if last < 0 then [] else [last] + Countdown(last - 1)
  }

  /** `createMediaPlayer`: a player for clip `index`, prepared exactly when the clip's file exists. */
  function PlayerFor(dir: string, files: set<string>, index: int): (p: Player)
    ensures p.index == index
    ensures p.prepared <==> FileNameForIndex(dir, index) in files
  {
    Player(index, FileNameForIndex(dir, index) in files)
  }

  /** One player per index, in the same order. */
  function PlayersFor(dir: string, files: set<string>, indices: seq<int>): seq<Player>
  {
    seq(|indices|, k requires 0 <= k < |indices| => PlayerFor(dir, files, indices[k]))
  }

  /** The clip indices the players are bound to. */
  function Indices(players: seq<Player>): seq<int>
  {
    seq(|players|, k requires 0 <= k < |players| => players[k].index)
  }

  /** `startPlaying(list)`: start the head of the list, or end the session at once if it is empty. */
  function Begin(s: State, list: seq<Player>): (r: State)
    ensures r.queue == list
    ensures |list| == 0 ==> !r.isPlaying && r.started == s.started
    ensures |list| > 0 ==> r.isPlaying == s.isPlaying && r.started == s.started + [list[0].index]
  {
    if |list| > 0 then s.(queue := list, started := s.started + [list[0].index])
    else s.(isPlaying := false, queue := list)
  }

  /**
   * The listen button, `startPlaying()`: refused while playing; nothing to play
   * when the counter is -1; otherwise one player per clip from the newest down to
   * clip 0, and the chain starts. `isRecording` is not consulted.
   */
  function StartPlaying(s: State): (r: State)
    ensures s.isPlaying ==> r == s
    ensures r.prefs == s.prefs && r.files == s.files && r.isRecording == s.isRecording
  {
    if s.isPlaying then s
    else
      var last := LastTrack(s.prefs);
      if last == NoTrack then s
      else Begin(s.(isPlaying := true), PlayersFor(s.dir, s.files, Countdown(last)))
  }

  /**
   * The completion listener. It fires for the head of the list, the one player
   * that was started: release and remove it, then start the new head, or end
   * the session when none is left.
   */
  function Completion(s: State): (r: State)
    requires s.queue != []
    ensures r.queue == s.queue[1..]
    ensures r.prefs == s.prefs && r.files == s.files && r.isRecording == s.isRecording
  {
    var rest := s.queue[1..];
    if |rest| > 0 then s.(queue := rest, started := s.started + [rest[0].index])
    else s.(queue := rest, isPlaying := false)
  }

  /** `n` completions in a row. */
  function Completions(s: State, n: nat): State
    requires n <= |s.queue|
    decreases n
  {
    if n == 0 then s else Completions(Completion(s), n - 1)
  }

  // ---------------------------------------------------------------- events

  datatype Event = RecordTap(prepared: bool) | ListenTap | DeleteTap | PlaybackCompleted

  /**
   * The platform only reports a completion while a player is in flight. The
   * head's completion is taken to arrive even when its `prepare()` failed.
   */
  predicate Enabled(s: State, e: Event)
  {
    e.PlaybackCompleted? ==> s.queue != []
  }

  function Step(s: State, e: Event): State
    requires Enabled(s, e)
  {
    match e
    case RecordTap(prepared) => RecordClick(s, prepared)
    case ListenTap => StartPlaying(s)
    case DeleteTap => DeleteAllFiles(s)
    case PlaybackCompleted => Completion(s)
  }

  /** `events` can be delivered one after another from `s`. */
  predicate Trace(s: State, events: seq<Event>)
    decreases |events|
  {
    events == [] || (Enabled(s, events[0]) && Trace(Step(s, events[0]), events[1..]))
  }

  function Run(s: State, events: seq<Event>): State
    requires Trace(s, events)
    decreases |events|
  {
    if events == [] then s else Run(Step(s, events[0]), events[1..])
  }

  // ---------------------------------------------------------------- invariant

  /** The player list is `k-1 downTo 0` for its length `k`: a suffix of a full playback. */
  predicate IsCountdownQueue(q: seq<Player>)
  {
    forall k :: 0 <= k < |q| ==> q[k].index == |q| - 1 - k
  }

  /** No clip file has an index above the counter. */
  ghost predicate NoClipAbove(dir: string, files: set<string>, last: int)
  {
    forall i :: 0 <= i && FileNameForIndex(dir, i) in files ==> i <= last
  }

  /** What holds between any two UI events. */
  ghost predicate Inv(s: State)
  {
    && LastTrack(s.prefs) >= NoTrack
    && (s.isRecording <==> s.recorder.Some?)
    && (s.isPlaying <==> s.queue != [])
    && IsCountdownQueue(s.queue)
    && NoClipAbove(s.dir, s.files, LastTrack(s.prefs))
  }

  // ---------------------------------------------------------------- lemmas: counter

  /** On a fresh install the counter reads -1, and the first recording gets clip 0. */
  lemma FreshInstall(dir: string, prepared: bool)
    ensures Inv(Launch(dir, map[], {}))
    ensures LastTrack(Launch(dir, map[], {}).prefs) == NoTrack
    ensures RecordClick(Launch(dir, map[], {}), prepared).recorder == Some(Capture(0, prepared))
  {
  }

  /**
   * Every event leaves the counter where it was, advances it by exactly one
   * (a recording starts), or resets it to -1 (delete-all with clips present).
   */
  lemma {:induction false} CounterSteps(s: State, e: Event)
    requires Inv(s) && Enabled(s, e)
    ensures var before, after := LastTrack(s.prefs), LastTrack(Step(s, e).prefs);
      && (after == before + 1 <==> e.RecordTap? && !s.isPlaying && !s.isRecording)
      && (after != before ==> after == before + 1 || (after == NoTrack && e.DeleteTap?))
  {
  }

  // ---------------------------------------------------------------- lemmas: recording

  /** A record tap while playing changes nothing at all. */
  lemma RecordTapWhilePlaying(s: State, prepared: bool)
    requires s.isPlaying
    ensures RecordClick(s, prepared) == s
  {
  }

  /**
   * A record tap while not playing flips `isRecording`. Stopping releases the
   * recorder and keeps counter and files; starting binds a recorder to the
   * counter plus one, stores that value, and creates the new clip's file
   * exactly when `prepare()` succeeds. Playback state is untouched either way.
   */
  lemma RecordTapToggles(s: State, prepared: bool)
    requires Inv(s) && !s.isPlaying
    ensures var t := RecordClick(s, prepared);
      && t.isRecording == !s.isRecording
      && t.isPlaying == s.isPlaying && t.queue == s.queue && t.started == s.started
      && (s.isRecording ==> t.recorder == None && t.prefs == s.prefs && t.files == s.files)
      && (!s.isRecording ==>
            var next := LastTrack(s.prefs) + 1;
            && next >= 0
            && t.recorder == Some(Capture(next, prepared))
            && LastTrack(t.prefs) == next
            && FileNameForIndex(s.dir, next) !in s.files
            && (FileNameForIndex(s.dir, next) in t.files <==> prepared)
            && t.files - {FileNameForIndex(s.dir, next)} == s.files)
  {
  }

  /** Clips `0..last` all exist and no other clip does. */
  ghost predicate ClipsContiguous(s: State)
  {
    forall i :: 0 <= i ==> (FileNameForIndex(s.dir, i) in s.files <==> i <= LastTrack(s.prefs))
  }

  /** A recording whose `prepare()` succeeds keeps the clips contiguous. */
  lemma SuccessfulRecordingKeepsClipsContiguous(s: State)
    requires Inv(s) && ClipsContiguous(s) && !s.isPlaying && !s.isRecording
    ensures ClipsContiguous(RecordClick(s, true))
  {
    var t := RecordClick(s, true);
    var next := LastTrack(s.prefs) + 1;
    forall i | 0 <= i
      ensures FileNameForIndex(s.dir, i) in t.files <==> i <= LastTrack(t.prefs)
    {
      FileNameInjective(s.dir, i, next);
    }
  }

  /** Every record tap in `events` had its recorder's `prepare()` succeed. */
  predicate AllPrepared(events: seq<Event>)
  {
    forall k :: 0 <= k < |events| && events[k].RecordTap? ==> events[k].prepared
  }

  /** Any event keeps the clips contiguous, provided a record tap's `prepare()` succeeds. */
  lemma StepKeepsClipsContiguous(s: State, e: Event)
    requires Inv(s) && ClipsContiguous(s) && Enabled(s, e)
    requires e.RecordTap? ==> e.prepared
    ensures ClipsContiguous(Step(s, e))
  {
    match e
    case RecordTap(prepared) =>
      if !s.isPlaying && !s.isRecording {
        SuccessfulRecordingKeepsClipsContiguous(s);
      }
    case ListenTap =>
    case DeleteTap => DeleteAllFilesClears(s);
    case PlaybackCompleted =>
  }

  /**
   * Along any run in which every recording's `prepare()` succeeds, the clip
   * files stay exactly `0..last` for the current counter.
   */
  lemma {:induction false} RunKeepsClipsContiguous(s: State, events: seq<Event>)
    requires Inv(s) && ClipsContiguous(s) && Trace(s, events) && AllPrepared(events)
    ensures ClipsContiguous(Run(s, events))
    decreases |events|
  {
    if events != [] {
      StepKeepsClipsContiguous(s, events[0]);
      StepKeepsInv(s, events[0]);
      assert AllPrepared(events[1..]) by {
        forall k | 0 <= k < |events[1..]| && events[1..][k].RecordTap?
          ensures events[1..][k].prepared
        {
          assert events[1..][k] == events[k + 1];
        }
      }
      RunKeepsClipsContiguous(Step(s, events[0]), events[1..]);
    }
  }

  /**
   * A recording whose `prepare()` fails still consumes an index: the counter
   * names a clip that has no file, and a later playback builds an unprepared
   * player for it.
   */
  lemma FailedPrepareLeavesGap(s: State)
    requires Inv(s) && !s.isPlaying && !s.isRecording
    ensures var t := RecordClick(s, false);
      && LastTrack(t.prefs) == LastTrack(s.prefs) + 1
      && FileNameForIndex(t.dir, LastTrack(t.prefs)) !in t.files
      && t.files == s.files
    ensures var t := RecordClick(s, false);
      var u := StartPlaying(RecordClick(t, false));
      && u.queue != []
      && u.queue[0] == Player(LastTrack(t.prefs), false)
  {
    var t := RecordClick(s, false);
    var stopped := RecordClick(t, false);
    assert !stopped.isPlaying && stopped.files == t.files && stopped.prefs == t.prefs;
    var last := LastTrack(t.prefs);
    assert StartPlaying(stopped).queue == PlayersFor(t.dir, t.files, Countdown(last));
  }

  // ---------------------------------------------------------------- lemmas: delete all

  /**
   * Delete-all leaves the counter at -1 and no clip file behind; it removes
   * exactly the clips `0..last` and keeps every other file, and touches neither
   * the flags, the recorder nor a playback in progress.
   */
  lemma DeleteAllFilesClears(s: State)
    requires Inv(s)
    ensures var t := DeleteAllFiles(s);
      && LastTrack(t.prefs) == NoTrack
      && (forall i :: 0 <= i ==> FileNameForIndex(s.dir, i) !in t.files)
      && (forall f :: f in t.files <==> f in s.files && f !in ClipNames(s.dir, LastTrack(s.prefs)))
      && t.isRecording == s.isRecording && t.isPlaying == s.isPlaying
      && t.recorder == s.recorder && t.queue == s.queue && t.started == s.started
  {
  }

  /** Delete-all with no clips recorded is a no-op. */
  lemma DeleteAllFilesWhenEmpty(s: State)
    requires LastTrack(s.prefs) == NoTrack
    ensures DeleteAllFiles(s) == s
  {
  }

  /** Deleting twice is the same as deleting once. */
  lemma DeleteAllFilesIdempotent(s: State)
    ensures DeleteAllFiles(DeleteAllFiles(s)) == DeleteAllFiles(s)
  {
  }

  // ---------------------------------------------------------------- lemmas: playback

  /** Listen while already playing is refused and changes nothing. */
  lemma ListenWhilePlaying(s: State)
    requires s.isPlaying
    ensures StartPlaying(s) == s
  {
  }

  /** Listen with no clips builds no player and leaves playback idle. */
  lemma ListenWithNothingToPlay(s: State)
    requires Inv(s) && !s.isPlaying && LastTrack(s.prefs) == NoTrack
    ensures StartPlaying(s).queue == [] && !StartPlaying(s).isPlaying
    ensures StartPlaying(s).started == s.started
  {
  }

  lemma IndicesOfPlayersFor(dir: string, files: set<string>, indices: seq<int>)
    ensures Indices(PlayersFor(dir, files, indices)) == indices
  {
  }

  /**
   * Listen when idle with clips `0..last` recorded: the list holds one player per
   * clip, `last` first and clip 0 last, strictly descending with no gap, each
   * prepared exactly when its file exists; the newest clip starts. A recording
   * in progress does not prevent it.
   */
  lemma StartPlayingQueue(s: State)
    requires Inv(s) && !s.isPlaying && LastTrack(s.prefs) >= 0
    ensures var t, last := StartPlaying(s), LastTrack(s.prefs);
      && t.isPlaying
      && Indices(t.queue) == Countdown(last)
      && |t.queue| == last + 1
      && t.queue[0].index == last && t.queue[last].index == 0
      && (forall k :: 0 <= k < last ==> t.queue[k].index == t.queue[k + 1].index + 1)
      && (forall k :: 0 <= k <= last ==> t.queue[k].prepared == (FileNameForIndex(s.dir, t.queue[k].index) in s.files))
      && t.started == s.started + [last]
      && t.prefs == s.prefs && t.files == s.files
      && t.isRecording == s.isRecording && t.recorder == s.recorder
  {
  }

  /**
   * A completion removes exactly the head: the rest keeps its order, the new
   * head is started if there is one, and `isPlaying` drops exactly when the list
   * runs empty. Nothing else changes.
   */
  lemma CompletionPopsHead(s: State)
    requires Inv(s) && s.queue != []
    ensures var t := Completion(s);
      && t.queue == s.queue[1..]
      && |t.queue| == |s.queue| - 1
      && (t.isPlaying <==> t.queue != [])
      && t.started == s.started + (if t.queue == [] then [] else [t.queue[0].index])
      && t.prefs == s.prefs && t.files == s.files
      && t.isRecording == s.isRecording && t.recorder == s.recorder
  {
  }

  /**
   * After `n` completions of a running chain, the first `n` players are gone,
   * each following one has been started as its predecessor completed, and the
   * session is over exactly when the whole list has completed.
   */
  lemma {:induction false} ChainProgress(s: State, n: nat)
    requires Inv(s) && s.isPlaying && n <= |s.queue|
    ensures var t := Completions(s, n);
      && Inv(t)
      && t.queue == s.queue[n..]
      && (t.isPlaying <==> n < |s.queue|)
      && t.started == s.started + Indices(s.queue[1..if n < |s.queue| then n + 1 else n])
      && t.prefs == s.prefs && t.files == s.files
      && t.isRecording == s.isRecording && t.recorder == s.recorder
    decreases n
  {
    if n > 0 {
      var c := Completion(s);
      CompletionKeepsInv(s);
      if c.isPlaying {
        ChainProgress(c, n - 1);
        var m := if n < |s.queue| then n + 1 else n;
        assert c.queue[1..if n - 1 < |c.queue| then n else n - 1] == s.queue[2..m];
        assert Indices(s.queue[1..m]) == [s.queue[1].index] + Indices(s.queue[2..m]);
      } else {
        assert n == 1 && |s.queue| == 1;
        assert Indices(s.queue[1..1]) == [];
      }
    } else {
      assert Indices(s.queue[1..1]) == [];
    }
  }

  /**
   * A whole playback: from idle with clips `0..last`, listen and then
   * `last + 1` completions start the clips in the order `last` down to 0, each
   * once, and end idle with no player left; the counter, the files and the
   * recording state are as before. One completion fewer leaves it still playing.
   */
  lemma WholePlayback(s: State)
    requires Inv(s) && !s.isPlaying && LastTrack(s.prefs) >= 0
    ensures var last, t := LastTrack(s.prefs), StartPlaying(s);
      && (forall n :: 0 <= n <= last ==> Completions(t, n).isPlaying)
      && var u := Completions(t, last + 1);
      && u.started == s.started + Countdown(last)
      && !u.isPlaying && u.queue == []
      && u.prefs == s.prefs && u.files == s.files
      && u.isRecording == s.isRecording && u.recorder == s.recorder
  {
    var last, t := LastTrack(s.prefs), StartPlaying(s);
    StartPlayingQueue(s);
    StartPlayingKeepsInv(s);
    forall n | 0 <= n <= last ensures Completions(t, n).isPlaying {
      ChainProgress(t, n);
    }
    ChainProgress(t, last + 1);
    IndicesOfPlayersFor(s.dir, s.files, Countdown(last));
    assert Indices(t.queue[1..]) == Countdown(last)[1..];
    assert [last] + Countdown(last)[1..] == Countdown(last);
  }

  /** The code does not refuse listen while recording: playback starts alongside the recorder. */
  lemma ListenWhileRecording(s: State)
    requires Inv(s) && s.isRecording && !s.isPlaying && LastTrack(s.prefs) >= 0
    ensures StartPlaying(s).isPlaying && StartPlaying(s).isRecording
  {
  }

  // ---------------------------------------------------------------- lemmas: invariant

  lemma RecordClickKeepsInv(s: State, prepared: bool)
    requires Inv(s)
    ensures Inv(RecordClick(s, prepared))
  {
    if !s.isPlaying && !s.isRecording {
      var t := RecordClick(s, prepared);
      var next := LastTrack(s.prefs) + 1;
      forall i | 0 <= i && FileNameForIndex(s.dir, i) in t.files
        ensures i <= LastTrack(t.prefs)
      {
        FileNameInjective(s.dir, i, next);
      }
    }
  }

  lemma DeleteAllFilesKeepsInv(s: State)
    requires Inv(s)
    ensures Inv(DeleteAllFiles(s))
  {
  }

  lemma StartPlayingKeepsInv(s: State)
    requires Inv(s)
    ensures Inv(StartPlaying(s))
  {
  }

  lemma CompletionKeepsInv(s: State)
    requires Inv(s) && s.queue != []
    ensures Inv(Completion(s))
  {
  }

  lemma StepKeepsInv(s: State, e: Event)
    requires Inv(s) && Enabled(s, e)
    ensures Inv(Step(s, e))
  {
    match e
    case RecordTap(prepared) => RecordClickKeepsInv(s, prepared);
    case ListenTap => StartPlayingKeepsInv(s);
    case DeleteTap => DeleteAllFilesKeepsInv(s);
    case PlaybackCompleted => CompletionKeepsInv(s);
  }

  /**
   * In every state reachable from a launch over well-formed stored data, the
   * invariant holds; in particular the counter is never below -1.
   */
  lemma {:induction false} RunKeepsInv(s: State, events: seq<Event>)
    requires Inv(s) && Trace(s, events)
    ensures Inv(Run(s, events))
    ensures LastTrack(Run(s, events).prefs) >= NoTrack
    decreases |events|
  {
    if events != [] {
      StepKeepsInv(s, events[0]);
      RunKeepsInv(Step(s, events[0]), events[1..]);
    }
  }
}
