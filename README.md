# Loop sequencer model

A Dafny model of the core of a small Java loop sequencer. A `Loop` holds a
fixed number of measures and an insertion-ordered list of `LoopNote`s. A
`LoopSequencer` plays it pass after pass on a background thread. It calls the
audio engine's `noteOn` at each note's start time and `noteOff` at its end
time, and turns off whatever is still sounding when a pass ends or a pause
cuts it short. `LoopJsonStorage` writes a loop out as a hand-built JSON
document. The value types `Pitch`, `Velocity`, `Measures`, `Tempo`,
`BeatPosition` and `BeatDuration` are validated wrappers with a little
arithmetic.

Layout, one module per Java file:

- `java.dfy` (`JavaSemantics`): the pieces of Java the rest relies on. These
  are 32-bit `int` wrap-around, `Math.round`, `String.trim`, and exceptions
  as `Result` values.
- `pitch.dfy`, `velocity.dfy`, `measures.dfy`, `tempo.dfy`,
  `beat_position.dfy`, `beat_duration.dfy`: the value types. Each is a
  datatype whose invariant is its field's subset type. Each constructor and
  operation is a function returning `Result`.
- `loop_note.dfy`: `LoopNote`, a class with four constant fields. Equality is
  reference equality, as in the source, which does not override `equals`.
- `loop.dfy`: `Loop`, a class whose `notes` field is reassigned by
  `AddNote` and `RemoveNote`.
- `loop_sequencer.dfy`: `LoopSequencer`, a class with the `playing` flag,
  the threads started so far, the trace `sent` of calls made on the audio
  engine, the clock reading of each call (`sentAt`), and an abstract
  millisecond clock. The playback thread runs sequentially. A concurrent
  `pause()` may land at every point where the routine reads `playing`
  (`MaybePause`, a nondeterministic `Pause`). Every property therefore holds
  however the stops fall.
- `loop_json_storage.dfy`: `buildJson` as a loop over a string builder,
  specified by the function `JsonDocument`, and the argument guards of
  `saveLoop`.

The main results:

- A pass sends, for each note in list order, `noteOn(pitch, velocity)` and
  then `noteOff(pitch)`. A pass cut short by a pause sends a prefix of that
  which still ends with the `noteOff` of every note it turned on
  (`PlayPass`, `PassCallsShape`, `PassCallsPrefix`).
- Consecutive passes leave nothing sounding that was not sounding before
  (`RunPlaybackLoop` with `PassesSilence`).
- Every call is stamped in `sentAt` with the clock reading at which it was
  made. Each `noteOn`, and each `noteOff` sent by the walk over the notes,
  is stamped no earlier than its pass start plus the rounded offset of the
  note's start or end (`OnSchedule`). The cleanup `noteOff` of a pass cut
  short by a pause is sent at the stop, which may be before the note's
  scheduled end. It is only held to come no earlier than its pass start.
- The pass loop returns, for each pass `k`, the position `bases[k]` at which
  its calls begin in the stamps. No call from that position on was made
  before pass `k` started (`Timeline`). Each pass starts no earlier than
  the previous pass's start plus the rounded loop length.
- The JSON document has a fixed frame and field order, and its note objects
  are separated by commas, with none after the last.

## Behaviour of this revision of the code

The model follows the code as it stands, including these points:

- A pass builds no sorted timeline of note-on and note-off events. It walks
  the notes in list order, turning each one on and then off before the
  next. A note that starts before the previous one ends therefore fires
  late, not out of order.
- The sequencer fixes `bpm` when it is built. The playback routine computes
  the beat length and beat total once per call, and reads the note list
  again at the start of every pass.
- `Tempo` only rejects values that are not positive. It has no upper bound
  and clamps nothing.
- `pause` sends nothing itself, because `stopAllNotes` is empty. Only the
  playback thread's cleanup sends `noteOff`.
- `LoopNote` holds a raw `int` pitch and velocity and a raw `double` start
  and duration, and validates none of them.

## Model

| member | source | states |
|---|---|---|
| JavaSemantics.Wrap32 | src/main/java/model/Pitch.java:26 | a Java `int` sum agrees with the true sum in range and differs from it by exactly 2^32 just outside it |
| JavaSemantics.JavaRound | src/main/java/model/Velocity.java:27 | `Math.round` gives the integer within half a unit below/above, ties up, saturating at the `long` bounds |
| JavaSemantics.TrimEmptyIffBlank | src/main/java/model/persistence/LoopJsonStorage.java:50 | `s.trim().isEmpty()` holds exactly when every character of `s` is at most U+0020 |
| Pitches.NewPitch | src/main/java/model/Pitch.java:11-16 | construction succeeds iff 0 <= n <= 127, keeps n, and otherwise throws `IllegalArgumentException` |
| Pitches.Transpose | src/main/java/model/Pitch.java:25-27 | succeeds iff the true sum is in [0, 127] and then returns it; an overflowing `int` sum is rejected too |
| Pitches.TransposeInverse | src/main/java/model/Pitch.java:25-27 | transposing by `-s` undoes a successful transposition by `s` |
| Velocities.NewVelocity | src/main/java/model/Velocity.java:11-16 | construction succeeds iff 0 <= v <= 127, keeps v, and otherwise throws |
| Velocities.ScaledAsWritten | src/main/java/model/Velocity.java:26-30 | the code as written never throws and yields the clamp of the `(int)`-narrowed rounded product |
| Velocities.Scaled | src/main/java/model/Velocity.java:22-30 | the documented scaling: 127 above the range, 0 below it, otherwise the rounded product |
| Velocities.ScaledAsWrittenAgreesInIntRange | src/main/java/model/Velocity.java:27-28 | the code agrees with the documented scaling whenever the rounded product fits in an `int` |
| Velocities.ScaledAsWrittenWrapsLargeProduct | src/main/java/model/Velocity.java:27-28 | velocity 1 scaled by 2^31 gives 0 as written and 127 as documented |
| MeasureCounts.NewMeasures | src/main/java/model/Measures.java:11-16 | construction succeeds iff the value is positive, keeps it, and otherwise throws |
| MeasureCounts.Add | src/main/java/model/Measures.java:25-27 | succeeds iff the true sum is in [1, 2^31-1] and then returns it; a wrapped sum is rejected |
| MeasureCounts.Subtract | src/main/java/model/Measures.java:32-34 | succeeds iff the true difference is in [1, 2^31-1] and then returns it |
| MeasureCounts.AddThenSubtract | src/main/java/model/Measures.java:25-34 | subtracting what was added restores the count |
| Tempos.NewTempo | src/main/java/model/Tempo.java:11-16 | construction fails iff bpm <= 0, with no upper bound, and keeps bpm |
| Tempos.Add | src/main/java/model/Tempo.java:25-27 | returns bpm + delta, failing iff that is not positive; a non-negative delta never fails and never slows |
| Tempos.Subtract | src/main/java/model/Tempo.java:32-34 | returns bpm - delta, failing iff that is not positive; a non-positive delta never fails and never slows |
| Tempos.AddThenSubtract | src/main/java/model/Tempo.java:25-34 | in exact arithmetic, subtracting what was added restores the tempo |
| BeatPositions.NewBeatPosition | src/main/java/model/BeatPosition.java:11-16 | construction fails iff the value is negative (zero is accepted) and keeps the value |
| BeatDurations.NewBeatDuration | src/main/java/model/BeatDuration.java:10-15 | construction fails iff the value is not positive (zero is rejected) and keeps the value |
| LoopNotes.LoopNote.constructor | src/main/java/model/LoopNote.java:14-35 | any arguments are accepted and each field returns its own argument |
| Loops.RemoveFirstAbsent | src/main/java/model/Loop.java:32-34 | removing a note not in the list, `null` included, leaves it unchanged |
| Loops.RemoveFirstDropsFirstOccurrence | src/main/java/model/Loop.java:32-34 | removal drops exactly the first occurrence of that object and keeps the rest in order |
| Loops.RemoveFirstMultiset | src/main/java/model/Loop.java:32-34 | removal of a present note takes out one copy of it and nothing else |
| Loops.Loop.GetNotes | src/main/java/model/Loop.java:40-42 | the notes in insertion order, as a value a caller cannot change the loop through |
| Loops.Loop.Init | src/main/java/model/Loop.java:16-21 | a new loop keeps its measure count and has no notes |
| Loops.Loop.New | src/main/java/model/Loop.java:16-21 | the constructor throws iff measures <= 0, otherwise yields a fresh empty loop |
| Loops.Loop.GetMeasures | src/main/java/model/Loop.java:23-25 | returns the constructor's positive argument, which never changes |
| Loops.Loop.AddNote | src/main/java/model/Loop.java:27-30 | `null` is ignored; any other note is appended and earlier notes are unchanged |
| Loops.Loop.RemoveNote | src/main/java/model/Loop.java:32-34 | the list becomes the first-occurrence removal; unchanged for an absent note; one copy fewer otherwise |
| Loops.RemovalIsByIdentity | src/main/java/model/LoopNote.java:7-46 | two notes with equal fields are distinct, and removing one keeps the other |
| Sequencer.PassCalls | src/main/java/controller/engine/LoopSequencer.java:78-114 | a pass over n notes makes 2n calls |
| Sequencer.OffCalls | src/main/java/controller/engine/LoopSequencer.java:117-119 | the cleanup makes one call per pitch |
| Sequencer.PassCallsShape | src/main/java/controller/engine/LoopSequencer.java:97-113 | call 2k is note k's `noteOn(pitch, velocity)` and call 2k+1 its `noteOff(pitch)`: list order, on before off |
| Sequencer.PassCallsNext | src/main/java/controller/engine/LoopSequencer.java:78-114 | getting past one more note appends its two calls |
| Sequencer.PassCallsPrefix | src/main/java/controller/engine/LoopSequencer.java:78-114 | a pass cut short after m notes sends the first 2m calls of the full pass |
| Sequencer.PassSilences | src/main/java/controller/engine/LoopSequencer.java:116-120 | after a pass, no pitch it turned on is sounding and nothing new is sounding |
| Sequencer.PassesSilence | src/main/java/controller/engine/LoopSequencer.java:74-131 | any run of complete or cut-short passes leaves nothing sounding that was not before |
| Sequencer.HistoryExtended | src/main/java/controller/engine/LoopSequencer.java:74-131 | a pass started while playing extends the timing history of the pass loop |
| Sequencer.PassesNext | src/main/java/controller/engine/LoopSequencer.java:74-131 | the calls of one more pass follow those of the passes before it |
| Sequencer.SingleOrder | src/main/java/controller/engine/LoopSequencer.java:117-119 | iterating a one-pitch set turns off exactly that pitch |
| Sequencer.BeatMs | src/main/java/controller/engine/LoopSequencer.java:69 | a beat lasts a positive number of milliseconds, and `bpm` beats make exactly one minute |
| Sequencer.TotalBeats | src/main/java/controller/engine/LoopSequencer.java:70 | the beat total is the product of measures and beats per measure when that fits in an `int`, and otherwise differs from it by a multiple of 2^32 |
| Sequencer.OnDelayMs | src/main/java/controller/engine/LoopSequencer.java:83 | a note's on offset is within half a millisecond of its start beat times the beat length, ties up, and is never negative for a non-negative start |
| Sequencer.OffDelayMs | src/main/java/controller/engine/LoopSequencer.java:84-86 | a note's off offset is within half a millisecond of its end beat times the beat length, ties up, and is never negative for a non-negative end |
| Sequencer.LoopDurationMs | src/main/java/controller/engine/LoopSequencer.java:126 | the pass length is within half a millisecond of the beat total times the beat length, ties up, and is never negative for a non-negative total |
| Sequencer.OnScheduleNext | src/main/java/controller/engine/LoopSequencer.java:83-113 | a `noteOn` stamped no earlier than the note's on time, and then its `noteOff` stamped no earlier than its off time, extend a pass's on-schedule record by that note |
| Sequencer.OnScheduleCleanup | src/main/java/controller/engine/LoopSequencer.java:116-119 | the cleanup `noteOff` of a cut-short pass keeps the pass on schedule if it is stamped no earlier than the pass start; it is not held to the note's off time |
| Sequencer.PlayedNone | src/main/java/controller/engine/LoopSequencer.java:68-74 | before the first pass no pass is recorded and nothing has been sent |
| Sequencer.LayoutExtended | src/main/java/controller/engine/LoopSequencer.java:74-131 | one more pass's calls begin where the earlier passes' calls end; only the last pass may be cut short |
| Sequencer.SchedulesExtended | src/main/java/controller/engine/LoopSequencer.java:74-131 | earlier passes stay on schedule, and a new pass on schedule from its start joins them |
| Sequencer.StartsExtended | src/main/java/controller/engine/LoopSequencer.java:74-131 | a pass that starts no earlier than any earlier pass, with every call stamped after its start, keeps each pass's calls after that pass's start |
| Sequencer.TimelineExtended | src/main/java/controller/engine/LoopSequencer.java:74-131 | a pass started while playing extends the layout, the schedules and the start order together |
| Sequencer.PlayedExtended | src/main/java/controller/engine/LoopSequencer.java:74-131 | a pass started at the current clock extends the timing history, the timeline, the trace and the stamps together |
| Sequencer.JavaRoundMonotonic | src/main/java/controller/engine/LoopSequencer.java:83-86 | rounding preserves order |
| Sequencer.OffNotBeforeOn | src/main/java/controller/engine/LoopSequencer.java:83-89 | a note with non-negative duration is scheduled off no earlier than on |
| Sequencer.OneNoteAt120Bpm | src/main/java/controller/engine/LoopSequencer.java:69-128 | at 120 BPM a one-beat note on beat 0 is on at 0 ms and off at 500 ms, and a 4-beat loop lasts 2000 ms |
| Sequencer.LoopSequencer.constructor | src/main/java/controller/engine/LoopSequencer.java:26-30 | a new sequencer is stopped, has started no thread and has sent nothing |
| Sequencer.LoopSequencer.Play | src/main/java/controller/engine/LoopSequencer.java:36-51 | ignored while playing or for `null`; otherwise sets `playing` and starts exactly one thread for the loop; sends nothing |
| Sequencer.LoopSequencer.Pause | src/main/java/controller/engine/LoopSequencer.java:56-66 | afterwards stopped; sends nothing (`stopAllNotes` is empty) |
| Sequencer.LoopSequencer.MaybePause | src/main/java/controller/engine/LoopSequencer.java:79-81 | a check point can only stop playback, never restart it |
| Sequencer.LoopSequencer.Send | src/main/java/controller/engine/LoopSequencer.java:102-112 | one audio-engine call is appended to the trace, stamped with the current clock |
| Sequencer.LoopSequencer.SleepUntil | src/main/java/controller/engine/LoopSequencer.java:139-159 | time never goes back; still playing implies the target was reached; a passed target or a stopped sequencer returns at once |
| Sequencer.LoopSequencer.TurnOffAll | src/main/java/controller/engine/LoopSequencer.java:116-120 | one `noteOff` per pitch of the set, in some order of the set, each stamped in `sentAt` with the current clock |
| Sequencer.LoopSequencer.DispatchNote | src/main/java/controller/engine/LoopSequencer.java:83-113 | on then off for one note, each stamped in `sentAt` no earlier than the pass start plus its rounded offset; a stop cuts the pair short |
| Sequencer.LoopSequencer.WalkStep | src/main/java/controller/engine/LoopSequencer.java:78-114 | one note's iteration extends the pass's trace and its `sentAt` stamps on schedule, or leaves exactly its `noteOff` missing |
| Sequencer.LoopSequencer.WalkNotes | src/main/java/controller/engine/LoopSequencer.java:74-114 | the walk sends the pass prefix in list order, stamped on schedule from the pass start; `activePitches` is empty or the one note caught between on and off |
| Sequencer.LoopSequencer.PlayPass | src/main/java/controller/engine/LoopSequencer.java:75-120 | a pass and its cleanup send exactly the calls of the notes it started, each turned off, all of them while playing; every `noteOn` and every walk `noteOff` stamped no earlier than scheduled, the cleanup's no earlier than the pass start |
| Sequencer.LoopSequencer.PassThenWait | src/main/java/controller/engine/LoopSequencer.java:74-131 | as for a pass, and still playing afterwards means it was complete and the clock is past its start plus the loop length |
| Sequencer.LoopSequencer.PlaybackStep | src/main/java/controller/engine/LoopSequencer.java:74-131 | one iteration of the pass loop records one more pass and keeps the trace, the stamps and the timing history |
| Sequencer.LoopSequencer.RunPlaybackLoop | src/main/java/controller/engine/LoopSequencer.java:68-134 | the trace is the passes' calls; all but the last pass complete; passes spaced by at least the rounded loop length; pass `k`'s calls begin at `bases[k]` in the stamps, are on schedule from its start, and none precedes it |
| JsonStorage.NoteObject | src/main/java/model/persistence/LoopJsonStorage.java:84-91 | a note object opens with `{` on a line of its own and ends with its closing `}`, with no comma or line break after it |
| JsonStorage.JsonDocument | src/main/java/model/persistence/LoopJsonStorage.java:73-99 | the document is exactly the header followed by the footer if and only if the loop has no notes |
| JsonStorage.NoteObjects | src/main/java/model/persistence/LoopJsonStorage.java:82-91 | one object per note, in list order |
| JsonStorage.JoinIsTerminatedThenLast | src/main/java/model/persistence/LoopJsonStorage.java:92-95 | joined parts are every part but the last with its separator, then the last alone |
| JsonStorage.TerminatedNext | src/main/java/model/persistence/LoopJsonStorage.java:83-95 | terminating one more part appends it and its separator |
| JsonStorage.EntryAppended | src/main/java/model/persistence/LoopJsonStorage.java:83-96 | an object other than the last, with its comma and line break, extends the terminated objects |
| JsonStorage.LastEntryAppended | src/main/java/model/persistence/LoopJsonStorage.java:83-96 | the last object with its line break alone completes the joined objects |
| JsonStorage.BuildJson | src/main/java/model/persistence/LoopJsonStorage.java:73-102 | the built text is the loop's document: header, comma-separated note objects, footer |
| JsonStorage.SaveLoop | src/main/java/model/persistence/LoopJsonStorage.java:46-60 | a `null` loop throws first, then a `null` or blank file name; otherwise the document is what is written |
| JsonStorage.JsonFraming | src/main/java/model/persistence/LoopJsonStorage.java:75-99 | the document starts with `{` and a line break and ends with `  ]`, `}` and line breaks |
| JsonStorage.JsonFieldOrder | src/main/java/model/persistence/LoopJsonStorage.java:75-80 | `measures`, then `tempoBPM`, then the opening of `notes` |
| JsonStorage.EmptyLoopJson | src/main/java/model/persistence/LoopJsonStorage.java:80-98 | a loop without notes yields the `notes` line followed directly by its closing line |
| JsonStorage.OneObjectPerNote | src/main/java/model/persistence/LoopJsonStorage.java:82-99 | each object but the last is followed by a comma and a line break, the last by a line break alone |

## Left out

- Threads: `new Thread`, `setDaemon`, `start`, `interrupt`, `synchronized` and `volatile` are not modelled. A started thread is recorded in `playbackThreads`, and the playback routine is modelled as a sequential method with nondeterministic pauses at its checks.
- `Thread.sleep`, `Thread.yield` and `System.nanoTime` become an abstract millisecond clock that advances by at least one tick per wait. Nanosecond arithmetic and `long` overflow of target times are not modelled.
- Sequencer.LoopSequencer.RunPlaybackLoop: the source loops until a stop. The model plays at most `maxPasses` passes and says nothing about passes after that.
- Sequencer.LoopSequencer.RunPlaybackLoop: the no-stuck-notes property across passes is stated by the lemma `PassesSilence` about the trace, not repeated in the method's own contract.
- Sequencer.LoopSequencer.constructor: requires a positive `bpm`. The source accepts any double, and a zero or negative tempo would give an infinite or negative beat length.
- Tempos.AddThenSubtract: holds for exact reals only. With doubles, `new Tempo(0.1).add(1e20)` stores 1e20, `subtract(1e20)` then computes 0.0, and `new Tempo(0.0)` throws (src/main/java/model/Tempo.java:12).
- Floating point: doubles are exact reals. The rounding of `note.getStartBeat() * beatDurationMs` before `Math.round`, NaN and infinities are not modelled.
- `Double.toString` and `Integer.toString` in the JSON are the parameters `showReal` and `showInt`.
- The loop's tempo in the JSON is the parameter `tempoBpm`. `Loop` has no `getTempoBPM`, and `LoopNote` has no `getMidiNumber` or `getValue` on its fields, so the raw fields are used.
- File I/O: the `LoopJsonStorage` constructor, `ensureDirectoryExists`, `Path.resolve`, `Files.write`, `IOException` and the file name's use as a path are not modelled. `SaveLoop` returns the text it would write.
- Logging to `System.out` and `System.err` is not modelled.
- `getNotes` returns an unmodifiable view. The model returns the sequence value, which a caller cannot use to change the loop. Edits to a loop during playback are not modelled: a pass walks the notes as they were when it started.
- `toString` of every class, the audio engine, the MIDI instrument, the controller, the views and the experimentation code are not part of this model.
- `stopAllNotes` is empty in the source, so `Pause` sends nothing.

## Findings

| source | as written | input that shows it | evidently intended | confidence | as-written member | corrected member |
|---|---|---|---|---|---|---|
| src/main/java/model/Velocity.java:27-28 | `(int) Math.round(value * factor)` narrows the `long` to `int` before the clamp, so a product past 2^31-1 wraps | velocity 1, factor 2147483648.0: the rounded product 2^31 wraps to -2^31 and is clamped to 0 | clamp the rounded product to [0, 127], giving 127 ("clamped to [0, 127]") | not executed | Velocities.ScaledAsWrittenWrapsLargeProduct | Velocities.Scaled |
