# Memory: a model of the recorder app's state machine

The app records short audio clips one after another, plays all of them back
newest first, and deletes them all on request. Its only persistent state is an
integer, `last_track` in the `memory_sp` preferences: the index of the newest
clip, or -1 when there is none. Clip `i` is stored as `<files dir>/i.mp4`.
Three buttons drive it:

- record/stop toggles a recording, and is refused while a playback runs;
- listen builds one media player per clip, from `last_track` down to 0, and
  chains them: each completion releases and removes the head of the list and
  starts the next, until the list is empty;
- delete-all removes clips `0..last_track` and resets the counter to -1.

The project models this in three layers:

- `file_names.dfy` (module `FileNames`): `getFileNameForIndex` and the
  decimal rendering of a Kotlin `Int`. It also has a reader that takes a
  path back to a clip index. The reader refuses any path whose middle is not
  an optionally signed run of digits. The model proves that a clip name reads
  back as its index, so distinct indices name distinct files.
- `memory.dfy` (module `Memory`): a `State` value holding the preferences (a
  map), the two flags, the recorder handle, the list of players, the files in
  the private directory, and the log of clips handed to `MediaPlayer.start()`.
  There is one function per event (`RecordClick`, `StartRecording`,
  `StopRecording`, `DeleteAllFiles`, `StartPlaying`, `Completion`) and an
  invariant `Inv`. The lemmas state the app's guarantees over these
  functions, including whole runs of events and whole playbacks.
- `main_activity.dfy` (module `Activity`): class `MainActivity` with the
  activity's own fields and one method per handler. The handlers keep the
  source's loops (the `for` over `0..lastTrack` in delete-all, the `downTo`
  loop that fills the player list). Each method is proved to move the object
  exactly as the matching `Memory` function moves a `State`. The four
  handlers (`OnRecordClick`, `DeleteAllFiles`, `StartPlaying`, `OnCompletion`)
  are also proved to keep `Inv`. The helpers they call (`StartRecording`,
  `StopRecording`, and the rest) are not, since they run before the handler
  has finished, for instance before `isRecording` flips.
- `options.dfy` (module `Options`): `Option`, standing for Kotlin's nullable
  `mRecorder`.

Platform handles become values bound to a clip index. Each carries a
`prepared` flag that says whether `prepare()` succeeded. The recorder's
outcome is a parameter of the record tap. A player is prepared exactly when its
clip's file exists. The model assumes that a clip file comes into being
exactly when the recorder's `prepare()` succeeds (see "Left out").

Three behaviours of the code may be unexpected:

- One might expect listen to be refused while a recording runs.
  `startPlaying` never reads `isRecording`, so the model does not either.
  `Memory.ListenWhileRecording` proves that playback then starts alongside
  the recorder.
- One might expect a clip to come into being when its recording stops. The
  model creates the file when `prepare()` succeeds, which is taken to be when
  the recorder opens its output file.
- One might expect the counter to advance only once a recording has really
  started. `startRecording` stores the new index before `prepare()` runs, and
  a failing `prepare()` does not undo that, so the counter advances in any
  case. `Memory.FailedPrepareLeavesGap` proves that this leaves the counter
  naming a clip with no file. After a failed `prepare()` the code goes on to
  call `start()` on the recorder. The model treats that call as returning
  normally (see "Left out").

## Model

| member | source | states |
|---|---|---|
| `FileNames.NatToDecimal` | app/src/main/java/com/vagabond/memory/MainActivity.kt:205 | the rendering of a non-negative index is a non-empty string of decimal digits with no leading zero |
| `FileNames.IntToDecimal` | app/src/main/java/com/vagabond/memory/MainActivity.kt:205 | the rendering of an `Int` is non-empty and starts with a minus sign exactly when the value is negative |
| `FileNames.NatDecimalRoundTrip` | app/src/main/java/com/vagabond/memory/MainActivity.kt:205 | reading the digits of a natural number back gives the number |
| `FileNames.IntDecimalRoundTrip` | app/src/main/java/com/vagabond/memory/MainActivity.kt:205 | reading Kotlin's rendering of any `Int`, sign included, back gives the number |
| `FileNames.FileNameForIndex` | app/src/main/java/com/vagabond/memory/MainActivity.kt:204-206 | `getFileNameForIndex`; its shape is stated by `FileNames.FileNameShape`, its inverse by `FileNames.FileNameRoundTrip` and its injectivity by `FileNames.FileNameInjective` |
| `FileNames.FileNameShape` | app/src/main/java/com/vagabond/memory/MainActivity.kt:204-206 | a clip's path is the directory, "/", the index's rendering (an optionally signed run of digits, digits only for a non-negative index) and ".mp4" |
| `FileNames.FileNameRoundTrip` | app/src/main/java/com/vagabond/memory/MainActivity.kt:204-206 | the strict reader takes a clip's path back to the clip's own index |
| `FileNames.NonClipNameHasNoIndex` | app/src/main/java/com/vagabond/memory/MainActivity.kt:204-206 | every path `dir/<m>.mp4` whose middle `m` is not an optionally signed run of digits (the empty middle included) reads as no index |
| `FileNames.FileNameInjective` | app/src/main/java/com/vagabond/memory/MainActivity.kt:204-206 | two indices give the same path in a directory if and only if they are equal |
| `Memory.LastTrack` | app/src/main/java/com/vagabond/memory/MainActivity.kt:200-202 | with no "last_track" stored the counter reads -1; read-after-write is stated by `Memory.SaveLatestTrackNum` |
| `Memory.SaveLatestTrackNum` | app/src/main/java/com/vagabond/memory/MainActivity.kt:197-202 | after a store, `getLastTrack` reads the stored value; every other preference key keeps its presence and value |
| `Memory.StartRecording` | app/src/main/java/com/vagabond/memory/MainActivity.kt:114-131 | the counter becomes the old one plus one whatever `prepare()` does, and the recorder is bound to that index; flags and playback are untouched; the file part is stated by `Memory.RecordTapToggles` |
| `Memory.StopRecording` | app/src/main/java/com/vagabond/memory/MainActivity.kt:133-137 | the recorder is released; counter, files and `isRecording` are untouched |
| `Memory.RecordClick` | app/src/main/java/com/vagabond/memory/MainActivity.kt:71-88 | a tap while playing changes nothing; otherwise `isRecording` flips and playback is untouched; the branches are stated by `Memory.RecordTapToggles` |
| `Memory.DeleteAllFiles` | app/src/main/java/com/vagabond/memory/MainActivity.kt:100-110 | the counter ends at -1, files are only removed, and flags and playback are untouched; which files go is stated by `Memory.DeleteAllFilesClears` |
| `Memory.PlayerFor` | app/src/main/java/com/vagabond/memory/MainActivity.kt:187-196 | a player is bound to the given clip and is prepared exactly when that clip's file exists |
| `Memory.Begin` | app/src/main/java/com/vagabond/memory/MainActivity.kt:176-183 | the list becomes the session's list; an empty list ends the session with nothing started, otherwise the head is started |
| `Memory.StartPlaying` | app/src/main/java/com/vagabond/memory/MainActivity.kt:139-157 | a listen tap while playing changes nothing, and no listen changes the counter, the files or `isRecording`; the list built is stated by `Memory.StartPlayingQueue` and `Memory.WholePlayback` |
| `Memory.Completion` | app/src/main/java/com/vagabond/memory/MainActivity.kt:161-171 | the list loses exactly its head, and counter, files and `isRecording` are untouched; the rest is stated by `Memory.CompletionPopsHead` |
| `Memory.Countdown` | app/src/main/java/com/vagabond/memory/MainActivity.kt:152 | `last downTo 0` has `last + 1` elements (none when `last` is negative) and its k-th element is `last - k` |
| `Memory.FreshInstall` | app/src/main/java/com/vagabond/memory/MainActivity.kt:114-120 | on a fresh install the invariant holds, the counter reads -1, and the first recording is bound to clip 0 |
| `Memory.CounterSteps` | app/src/main/java/com/vagabond/memory/MainActivity.kt:109 | every event leaves the counter unchanged, raises it by exactly one (exactly when a record tap starts a recording), or sets it to -1 (only delete-all) |
| `Memory.RecordTapWhilePlaying` | app/src/main/java/com/vagabond/memory/MainActivity.kt:72-75 | a record tap during playback leaves the whole state unchanged: no index taken, flags, counter and files as they were |
| `Memory.RecordTapToggles` | app/src/main/java/com/vagabond/memory/MainActivity.kt:76-85 | otherwise the tap flips `isRecording`; stopping releases the recorder and keeps counter and files; starting binds the recorder to old counter + 1, stores that value, and creates that clip's file (new, not overwriting one) exactly when prepare succeeds; playback state is untouched |
| `Memory.SuccessfulRecordingKeepsClipsContiguous` | app/src/main/java/com/vagabond/memory/MainActivity.kt:118-127 | if the clip files are exactly `0..last`, a recording whose prepare succeeds keeps them exactly `0..last` for the new counter |
| `Memory.StepKeepsClipsContiguous` | app/src/main/java/com/vagabond/memory/MainActivity.kt:71-110 | if the clip files are exactly `0..last`, every deliverable event keeps them so, provided a record tap's `prepare()` succeeds |
| `Memory.RunKeepsClipsContiguous` | app/src/main/java/com/vagabond/memory/MainActivity.kt:71-171 | along any run of events in which every recording's `prepare()` succeeds, the clip files stay exactly `0..last` for the current counter |
| `Memory.FailedPrepareLeavesGap` | app/src/main/java/com/vagabond/memory/MainActivity.kt:118-127 | a recording whose prepare fails still raises the counter by one, and the clip it names has no file; after the stop, a listen builds an unprepared player for that clip at the head of the list |
| `Memory.DeleteAllFilesClears` | app/src/main/java/com/vagabond/memory/MainActivity.kt:100-110 | after delete-all the counter reads -1, no clip file of any index remains, exactly the clips `0..last` are removed and every other file is kept; flags, recorder and playback are untouched |
| `Memory.DeleteAllFilesWhenEmpty` | app/src/main/java/com/vagabond/memory/MainActivity.kt:101-104 | with the counter at -1 delete-all changes nothing |
| `Memory.DeleteAllFilesIdempotent` | app/src/main/java/com/vagabond/memory/MainActivity.kt:100-110 | from any state, deleting twice gives the same state as deleting once |
| `Memory.ListenWhilePlaying` | app/src/main/java/com/vagabond/memory/MainActivity.kt:140-143 | listen during playback leaves the state unchanged, the running list included |
| `Memory.ListenWithNothingToPlay` | app/src/main/java/com/vagabond/memory/MainActivity.kt:144-151 | listen with the counter at -1 builds no player, starts nothing and ends with `isPlaying` false |
| `Memory.IndicesOfPlayersFor` | app/src/main/java/com/vagabond/memory/MainActivity.kt:152-154 | building one player per index keeps the indices and their order |
| `Memory.StartPlayingQueue` | app/src/main/java/com/vagabond/memory/MainActivity.kt:144-156 | listen when idle with counter `last >= 0` builds exactly `[last, ..., 0]`: `last + 1` players, strictly descending by one, ending at 0, each prepared exactly when its file exists; the newest clip is started; counter, files and recording state are unchanged |
| `Memory.CompletionPopsHead` | app/src/main/java/com/vagabond/memory/MainActivity.kt:161-171 | a completion removes exactly the head and keeps the rest in order, starts the new head if there is one, and clears `isPlaying` exactly when the list becomes empty; nothing else changes |
| `Memory.ChainProgress` | app/src/main/java/com/vagabond/memory/MainActivity.kt:159-183 | after n completions of a running chain the list is its suffix from n, players 1..n have been started in list order, and the session has ended exactly when n reaches the list's length |
| `Memory.WholePlayback` | app/src/main/java/com/vagabond/memory/MainActivity.kt:139-183 | listen followed by `last + 1` completions starts the clips in the order `last` down to 0, each once, and ends idle with no player left; after fewer completions it is still playing; counter, files and recording state are unchanged |
| `Memory.ListenWhileRecording` | app/src/main/java/com/vagabond/memory/MainActivity.kt:139-157 | listen is not refused while recording: the playback starts and the recording goes on |
| `Memory.RecordClickKeepsInv` | app/src/main/java/com/vagabond/memory/MainActivity.kt:71-88 | a record tap keeps the invariant: counter at least -1, `isRecording` exactly when a recorder is held, `isPlaying` exactly when a player list exists, list of the form `k-1 downTo 0`, no clip file above the counter |
| `Memory.DeleteAllFilesKeepsInv` | app/src/main/java/com/vagabond/memory/MainActivity.kt:100-110 | delete-all keeps the invariant |
| `Memory.StartPlayingKeepsInv` | app/src/main/java/com/vagabond/memory/MainActivity.kt:139-157 | listen keeps the invariant |
| `Memory.CompletionKeepsInv` | app/src/main/java/com/vagabond/memory/MainActivity.kt:161-171 | a completion keeps the invariant |
| `Memory.StepKeepsInv` | app/src/main/java/com/vagabond/memory/MainActivity.kt:71-97 | every event the UI or the player can deliver keeps the invariant |
| `Memory.RunKeepsInv` | app/src/main/java/com/vagabond/memory/MainActivity.kt:68-97 | along any sequence of deliverable events the invariant holds in every state; in particular the counter never drops below -1 |
| `Activity.MainActivity.constructor` | app/src/main/java/com/vagabond/memory/MainActivity.kt:25-28 | the activity starts neither recording nor playing, with no recorder and no players, over the stored preferences and files, and satisfies the invariant |
| `Activity.MainActivity.GetLastTrack` | app/src/main/java/com/vagabond/memory/MainActivity.kt:200-202 | returns the stored counter, and -1 when none was ever stored |
| `Activity.MainActivity.SaveLatestTrackNum` | app/src/main/java/com/vagabond/memory/MainActivity.kt:197-199 | stores the counter and changes nothing else of the activity |
| `Activity.MainActivity.StartRecording` | app/src/main/java/com/vagabond/memory/MainActivity.kt:114-131 | the counter becomes old counter + 1 whatever prepare does; the new state is `Memory.StartRecording` of the old one |
| `Activity.MainActivity.StopRecording` | app/src/main/java/com/vagabond/memory/MainActivity.kt:133-137 | the recorder is released; nothing else changes |
| `Activity.MainActivity.OnRecordClick` | app/src/main/java/com/vagabond/memory/MainActivity.kt:71-88 | the new state is `Memory.RecordClick` of the old one, and the invariant is kept |
| `Activity.MainActivity.DeleteAllFiles` | app/src/main/java/com/vagabond/memory/MainActivity.kt:100-110 | the loop over `0..lastTrack` leaves the state `Memory.DeleteAllFiles` describes, and the invariant is kept |
| `Activity.MainActivity.CreateMediaPlayer` | app/src/main/java/com/vagabond/memory/MainActivity.kt:187-196 | the player is bound to the given clip and is prepared exactly when that clip's file exists |
| `Activity.MainActivity.StartPlaying` | app/src/main/java/com/vagabond/memory/MainActivity.kt:139-157 | the `downTo` loop builds the list `Memory.StartPlaying` describes and starts its head, and the invariant is kept |
| `Activity.MainActivity.StartChain` | app/src/main/java/com/vagabond/memory/MainActivity.kt:176-183 | the list becomes the session's list and its head is started; with an empty list `isPlaying` is cleared |
| `Activity.MainActivity.OnCompletion` | app/src/main/java/com/vagabond/memory/MainActivity.kt:161-171 | the new state is `Memory.Completion` of the old one, and the invariant is kept |

## Left out

- The permission request and its result (`checkForPermissionsAndStartApp`, `onRequestPermissionsResult`): a platform callback with no app logic. The model starts with the listeners installed.
- Layout, button colours and labels, and Toasts: user interface only. A refused tap is modelled as an unchanged state.
- MediaRecorder and MediaPlayer internals: audio source, encoder, format, `start`, `stop` and `release`. Each handle is only its clip index and whether `prepare()` succeeded.
- Memory.RecordClick: after a failed `prepare()` the code calls `start()` on the unprepared recorder, and Android throws there. The exception is not caught, so the listener never reaches the line that flips `isRecording`. The model carries on as if `start()` returned and that line ran: it ends with `isRecording` true and a recorder held. The same holds for `Memory.StartRecording` and `Activity.MainActivity.OnRecordClick`.
- What the platform does with `start()` or `stop()` on a handle whose `prepare()` failed is not modelled. Android raises an exception or reports an error for these, and that code is not part of this model.
- The 30-second `setMaxDuration` cap is not modelled. The platform enforces it, and this code registers no callback for it, so `isRecording` stays true until the next tap in the model too.
- Memory.StartRecording: the counter is an unbounded integer. The Kotlin `Int` would wrap to a negative value once it passes 2^31 - 1, which is far beyond any real use.
- Activity.MainActivity.StartRecording: the same unbounded counter as `Memory.StartRecording`.
- Memory.StartRecording: the clip file is assumed to exist exactly when the recorder's `prepare()` succeeds. MediaRecorder may open its output file before a native step of `prepare()` that can still throw, so a failed `prepare()` could leave an empty file behind. The model never creates one. The platform code is not part of this model.
- Memory.WholePlayback: its "ends idle" rests on `Memory.Enabled`, which delivers a completion for the head of the list whether or not that player's `prepare()` succeeded. On Android an unprepared player's `start()` fails and its completion listener may never fire, so the chain could stall at that player.
- Whether `prepare()` of a player succeeds is reduced to whether its file exists. A clip file that exists but is unreadable is not modelled.
- The preference store is modelled as a map written at once. The asynchronous `apply()` and what a crash does to it are not modelled.
- `File.delete()` is modelled as always succeeding. Its result is not inspected by the code.
- Concurrency is not modelled. Handlers run one at a time on the UI thread, and each is modelled as one atomic step.
- The activity lifecycle is not modelled. A recreated activity would lose `isRecording`, `isPlaying` and the player list, and the model has a single activity instance.
