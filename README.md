# Chord jam session engine — a Dafny model

The application is a single-page React app for practising chord progressions together.

- A *conductor* device drives a shared session: play/stop, tempo, the current progression and the current chord index.
- *Participant* devices are meant to follow that session through snapshots of one document in a session document store. The only store in the program, the in-memory mock, delivers no snapshots. A participant therefore always falls back to a fixed simulated session, `MockSession`, and never sees what the conductor writes.
- A metronome advances the chord index on every beat.
- A lobby creates sessions under random four-letter codes and joins them by a typed code.
- A harmonic navigator suggests four-chord progressions between two chords.

This project models the sequential engine under the React code, all of it in `App.jsx`:

- `progressions.dfy`: the chord-advance rule and the derived views (`currentChord`, `nextChord`, `progressPercentage`), plus the previous/next stepping rules. All of these are pure functions over (index, chords, loop).
- `session_provider.dfy`: the session controller (`SessionProvider`) as a class.
  - Its fields are the provider's state cells.
  - Each handler updates local state unconditionally.
  - Each handler then goes through `saveToFirestore`. That writes only for a conductor with a session id and a store, and a failing write only sets `syncError`.
  - The function `AfterSave` states the effect of one save on the store and on `syncError`.
- `document_store.dfy`: the in-memory mock store, a dictionary from session id to document.
  - Its `setDoc` replaces the whole entry, even though the caller asks for a merge.
  - `Merge` is the field-level merge the caller asked for. It is kept only to state the difference.
- `metronome.dfy`: when the recurring timer runs, its period `floor(60000 / bpm)`, and the rule that every re-run of the effect replaces the timer.
- `control_panel.dfy`: the conductor's start/stop, previous, next and reset buttons.
- `participant.dfy`: the participant's state machine over `remoteSession`, `isConnected` and `connectionError`, driven by snapshot and error callbacks, and the view `getSessionData` derives.
- `lobby.dfy`: session-code generation (a loop over four letter picks), join-code normalisation, session creation and joining.
- `navigator.dfy`: the suggestion builder (a transition table, a reverse lookup, a fallback) and the custom-progression builders.
- `js_strings.dfy`: the JavaScript string operations the engine uses: `trim`, ASCII `toUpperCase` and `split` on one character (with `pop`). The engine never calls `join`. `Join` is a reference definition, used only to prove that `Split` loses nothing (`JoinSplit`).
- `wrappers.dfy`: `Option` and `Result`.

Several parts of the model are exact where JavaScript is loose:

- A document is a `map<string, Value>`, so object spread and field replacement are exact.
- A JavaScript number in the progress view is `JsNumber`. A zero-length progression gives Infinity or NaN, as JavaScript does.
- The metronome's write carries a function value, `VUpdater`, as `currentChordIndex`; participants cannot read it as an index.

Where the code does not do what its own calls ask for, or what it seems meant to do, the model follows the code:

- The conductor's save passes `{merge: true}` (App.jsx:328), but the store's write ignores it and replaces the entry instead of merging field by field (App.jsx:16-19; `Store.SetDoc`, `OverwriteForgetsEarlierFields`, `TempoThenChordScenario`). So a conductor's tempo write is lost on the next chord write, and the entry a tick writes holds neither progression nor index (`TickWriteView`). Were that entry delivered as a snapshot, participants would be shown no chord.
- A participant that receives "not found" or an error keeps its last snapshot and keeps showing it (`Mirror.OnSnapshot`, `Mirror.OnError`).
- With the in-memory store, `Mirror.Connect` always runs with `liveSnapshots` false: the mock has no `onSnapshot` (App.jsx:13-32), so the program never calls `Mirror.OnSnapshot` or `Mirror.OnError`. Both are modelled for a store that does deliver snapshots.
- The navigator's transition table is keyed by chord names such as "Am-G", but the chord selects produce chord ids such as "am" and "g7". No selectable pair is in the table, so the first suggestion always takes its middle chords from the fallback list (`SelectablePairsUseFallback`).
- Tempo values are not validated by the handler. The only callers are the slider (60–200) and three preset buttons, which the type `Bpm` records.
- All handlers run by one click belong to the same render and see the state from before the click. Start and reset therefore write the index from before the click, not 0, right after moving the local index to 0 (`TogglePlay`, `Reset`, `ResetPublishesPreviousIndex`).

## Model

| member | source | states |
|---|---|---|
| Progressions.Advance | App.jsx:290-301 | the next index is index+1 while that is below the length; past the end it is 0 on a looping progression and the old index otherwise; a valid index stays valid |
| Progressions.Trace | App.jsx:289-302 | one entry per tick |
| Progressions.Ticks | App.jsx:289-302 | the index after n ticks, the tick rule applied n times; its closed forms are TicksLooping and TicksHolding |
| Progressions.TicksStayInRange | App.jsx:290-301 | any number of ticks keeps a valid index in [0, length) |
| Progressions.TicksLooping | App.jsx:293-296 | on a looping progression n ticks from index i give (i + n) mod length |
| Progressions.TicksHolding | App.jsx:293-298 | on a non-looping progression n ticks give i + n, capped at the last index |
| Progressions.TerminalHold | App.jsx:297-298 | at the last chord of a non-looping progression ticks never move the index |
| Progressions.TraceIsTicks | App.jsx:289-302 | the k-th traced index is the index after k+1 ticks |
| Progressions.LoopingScenario | App.jsx:290-301 | four looping chords from index 0 show 1, 2, 3, 0 |
| Progressions.HoldingScenario | App.jsx:290-301 | three non-looping chords from index 1 show 2, 2, 2 |
| Progressions.CatalogIsPlayable | App.jsx:138-163 | every catalog progression loops and has at least one chord, all with non-empty ids |
| Progressions.CurrentChord | App.jsx:410 | a chord exactly when there is a progression and the index is in range, and then it is chords[index] |
| Progressions.NextChord | App.jsx:411-413 | chords[index+1] when it exists and is a non-empty id, else chords[0] on a looping non-empty progression, else nothing; nothing without a progression |
| Progressions.NextChordIsAdvance | App.jsx:290-301 | with non-empty ids, nextChord names the chord the next tick moves to, except at the last chord of a non-looping progression, where it is null while the tick holds |
| Progressions.Percentage | App.jsx:414-415 | finite exactly when the length is non-zero, and then numerator/length·100; for length 0, +Infinity for a positive numerator, −Infinity for a negative one, NaN for 0/0 |
| Progressions.ProgressPercentage | App.jsx:414-415 | 0 without a progression; (index+1)/length·100 for a non-empty progression, JavaScript's infinity or NaN for an empty one; for a valid index a value in (0, 100] that is exactly 100 at the last index |
| Progressions.ShareBounds | App.jsx:415 | k/n·100 lies in (0, 100] and equals 100 exactly when k = n |
| Progressions.ProgressAtStart | App.jsx:415 | at index 0 the progress is one chord's share, 100/length |
| Progressions.ProgressMonotone | App.jsx:415 | progress strictly grows with the index |
| Progressions.PreviousIndex | App.jsx:842 | max(0, index − 1) |
| Progressions.PreviousEnabled | App.jsx:843 | "previous" is disabled exactly at index 0 (a definition; its effect is StepsStayInRange and ControlPanel.Previous) |
| Progressions.NextEnabled | App.jsx:850 | "next" is disabled without a progression or at or past the last chord (a definition; its effect is StepsStayInRange and ControlPanel.Next) |
| Progressions.StepsStayInRange | App.jsx:842-850 | enabled previous/next steps keep a valid index valid, and an enabled previous is one step back |
| SessionProvider.Stamp | App.jsx:327-330 | the payload gains `lastUpdated` equal to the timestamp; every other field is kept |
| SessionProvider.AfterSave | App.jsx:320-335 | nothing changes unless it persists; a successful write sets that entry to the stamped payload with its id, and no other entry is added or changed; a failed write changes only the error, to the sync message |
| SessionProvider.ChordUpdate | App.jsx:343-346 | exactly the index and the playing flag |
| SessionProvider.PlayUpdate | App.jsx:368-371 | exactly the playing flag and the index |
| SessionProvider.ProgressionUpdate | App.jsx:382-385 | exactly the progression and index 0 |
| SessionProvider.BpmUpdate | App.jsx:356-358 | exactly the tempo |
| SessionProvider.Session.Persists | App.jsx:321 | the write guard; when it holds there is a store and the session key is non-empty |
| SessionProvider.Session.constructor | App.jsx:310-317 | the provider's initial state: stopped, 120 BPM, the first catalog progression, index 0, no session, not conductor, no error |
| SessionProvider.Session.SaveToStore | App.jsx:320-335 | the store and `syncError` change as AfterSave says, gated on conductor, session id and store |
| SessionProvider.Session.ChordChange | App.jsx:338-348 | the index is set unconditionally; the write happens only for a conductor who is playing |
| SessionProvider.Session.Tick | App.jsx:289-302 | the index advances by the tick rule and stays valid, isPlaying is unchanged, and a playing conductor writes the updater value as the index |
| SessionProvider.Session.BpmChange | App.jsx:351-360 | the tempo is set; a conductor writes exactly the tempo |
| SessionProvider.Session.PlayChange | App.jsx:363-373 | isPlaying is set; a conductor writes the flag with the render's index |
| SessionProvider.Session.ProgressionChange | App.jsx:376-387 | the progression is set and the index reset to 0; a conductor writes both |
| SessionProvider.Session.SetSessionId | App.jsx:315 | only the session id changes |
| SessionProvider.Session.SetIsConductor | App.jsx:316 | only the conductor flag changes |
| SessionProvider.Session.SetIsParticipantMode | App.jsx:314 | only the participant-mode flag changes |
| SessionProvider.ProgressionWriteContents | App.jsx:376-387 | after a conductor's progression change the entry holds exactly the progression, index 0, `lastUpdated` and the id |
| SessionProvider.FailedWriteKeepsStore | App.jsx:331-334 | a failed write never changes the store, and when it persists it sets the sync error |
| SessionProvider.TempoThenChordScenario | App.jsx:16-19 | a tempo write followed by a chord write leaves the index and loses the tempo |
| Metronome.TimerRuns | App.jsx:286 | the timer runs exactly when playing, a progression is loaded, and not a conductor without a session id (a definition; Scheduler.Reschedule uses it) |
| Metronome.Period | App.jsx:288 | the period is floor(60000 / bpm): ms·bpm ≤ 60000 < (ms+1)·bpm, between 300 and 1000 ms |
| Metronome.Scheduler.constructor | App.jsx:285-305 | no timer running, none started |
| Metronome.Scheduler.Reschedule | App.jsx:285-305 | the old timer is cleared; a new one at the current period is started exactly when playing and not a conductor without a session id |
| Metronome.TempoScenario | App.jsx:288 | 120 BPM gives 500 ms and 180 BPM gives 333 ms |
| ControlPanel.TogglePlay | App.jsx:822-830 | stopping keeps the index; starting moves it to 0 without writing the chord; the play write carries the index from before the click |
| ControlPanel.Previous | App.jsx:842-843 | enabled off index 0: one step back, never below 0, written as a chord change; disabled: nothing changes |
| ControlPanel.Next | App.jsx:849-850 | enabled before the last chord: one step forward, written as a chord change; disabled: nothing changes |
| ControlPanel.Reset | App.jsx:858-861 | index 0 and stopped; a chord write while playing, then a play write carrying the index from before the click |
| ControlPanel.ResetPublishesPreviousIndex | App.jsx:858-861 | after a conductor's reset the entry holds the stopped flag and the pre-reset index, and nothing but those, the stamp and the id |
| DocumentStore.MakeRef | App.jsx:31 | the reference carries the id and the path collection/id |
| DocumentStore.LastSegment | App.jsx:15 | the suffix after the last slash: a suffix with no slash, preceded by a slash when shorter than the path |
| DocumentStore.KeyOf | App.jsx:15 | the id when non-empty, otherwise the last path segment or "unknown"; never empty |
| DocumentStore.KeyOfSessionRef | App.jsx:15 | a session reference names its own id, or "unknown" for an empty id |
| DocumentStore.Put | App.jsx:16-19 | the entry becomes the data with its id, whatever was there; other entries are kept |
| DocumentStore.OverwriteForgetsEarlierFields | App.jsx:16-19 | a field written first and not repeated is gone after the second write, where a merge would keep it |
| DocumentStore.Snapshot.Data | App.jsx:25-28 | data is present exactly when the document exists |
| DocumentStore.Store.constructor | App.jsx:11 | the store starts empty |
| DocumentStore.Store.SetDoc | App.jsx:14-21 | the dictionary becomes Put of the entry named by the reference; the merge option is ignored |
| DocumentStore.Store.GetDoc | App.jsx:22-29 | found exactly when the key is present, with that entry's data |
| Participant.MockSession | App.jsx:223-230 | the simulated session shows the Turnaround at index 0: current chord "am", next chord "d7", progress 25 |
| Participant.MockIsInitialSession | App.jsx:223-230 | the simulated session is the initial session document with one made-up participant |
| Participant.ProgressionOf | App.jsx:261 | a progression exactly when the document holds one, and then it is the stored progression |
| Participant.IndexOf | App.jsx:262 | an index exactly when the document holds a number, and then it is the stored number |
| Participant.View | App.jsx:256-268 | the snapshot plus the provider's derivations at a numeric index; without a numeric index no chord, NaN progress, and as next chord the first chord of a looping non-empty progression or nothing; null, null and 0 without a progression |
| Participant.Mirror.constructor | App.jsx:177-180 | no snapshot, not connected, no error |
| Participant.Mirror.Connect | App.jsx:181-248 | nothing without a session id or a store; otherwise the error is cleared, and without live snapshots the simulated session is shown as connected |
| Participant.Mirror.OnSnapshot | App.jsx:194-203 | an existing document replaces the snapshot, connects and clears the error; a missing one disconnects with "not found" and keeps the snapshot and the view |
| Participant.Mirror.OnError | App.jsx:205-209 | disconnects with the connection error and keeps the snapshot and the view |
| Participant.Mirror.GetSessionData | App.jsx:256-268 | null exactly before any snapshot; otherwise the View of the last snapshot: the snapshot with its current chord, next chord and progress |
| Participant.ProgressionWriteView | App.jsx:376-387 | a conductor's progression write shows that progression's first chord, its successor and one chord's share of progress |
| Participant.TickWriteView | App.jsx:290-345 | a conductor's tick write leaves an entry with neither progression nor numeric index; the view of that entry shows no chord and 0 progress |
| Lobby.LettersAreAlphabet | App.jsx:955 | the k-th letter of the alphabet string is the k-th upper-case ASCII letter |
| Lobby.GenerateSessionId | App.jsx:954-961 | four upper-case letters, the k-th being the letter picked k-th |
| Lobby.EveryCodeCanBeGenerated | App.jsx:954-961 | every code of four upper-case letters is produced by some picks |
| Lobby.NormalizeJoinCode | App.jsx:1003-1017 | refused exactly when the input is only whitespace, with the blank-code message; otherwise the code is the input upper-cased and trimmed |
| Lobby.NormalizedCodeShape | App.jsx:1017 | an accepted code is non-empty, has no lower-case letter and no whitespace at either end |
| Lobby.ToUpperOfNoLower | App.jsx:1017 | upper-casing a string with no lower-case letters changes nothing |
| Lobby.NormalizeIdempotent | App.jsx:1017 | normalising a normalised code gives it back |
| Lobby.NormalizeIgnoresCase | App.jsx:1017 | an input and its upper-cased form normalise alike |
| Lobby.GeneratedCodeJoins | App.jsx:954-961 | a generated code typed back exactly normalises to itself |
| Lobby.AnyCasingJoins | App.jsx:1017 | a four-letter code typed in any mix of upper and lower case normalises to that code |
| Lobby.TrimKeepsNoLower | App.jsx:1017 | trimming keeps a string free of lower-case letters |
| Lobby.InitialSession | App.jsx:978-985 | exactly six fields: 120 BPM, stopped, the Turnaround, index 0, the creation time, no participants; no id |
| Lobby.CreateSession | App.jsx:964-999 | refused when the store is not ready; a failed write leaves the store unchanged with the create error; otherwise the initial document is put under the code the picks spell, replacing any session already there |
| Lobby.CreateReplacesCollision | App.jsx:987 | creating under a code in use replaces that whole document and adds no key |
| Lobby.JoinSession | App.jsx:1002-1036 | blank input, then an unready store, then a failed read are refused in that order; the normalised code joins exactly when the store has it |
| Navigator.SelectablePairsUseFallback | App.jsx:1159-1175 | no pair of chord ids the selects offer is a key of the table in either order, so the middle chords are the fallback |
| Navigator.TableShape | App.jsx:1159-1172 | every table list and the fallback have at least three non-empty chords |
| Navigator.Middle | App.jsx:1169-1175 | forward entry, else reverse entry, else the fallback |
| Navigator.Suggest | App.jsx:1149-1196 | nothing without both chords; otherwise three four-chord suggestions from one chord to the other: the table's first two middle chords, then G7 C, then Dm7 G7; named "from → to", "from → to (Var. 1)" and "from → to (Var. 2)" |
| Navigator.CustomProgression | App.jsx:1204-1212 | a looping "custom" progression of the given chords at 120, named by default "from → to" |
| Navigator.TrimEach | App.jsx:1367 | every piece trimmed, the count kept |
| Navigator.ManualChords | App.jsx:1367 | from, the trimmed comma-separated pieces, to; one more piece than commas, none containing a comma |
| Navigator.ManualProgression | App.jsx:1341-1368 | offered exactly when all three fields are filled; looping, its chords exactly ManualChords (from, the trimmed pieces, to), named "from → to (Personalizada)" |
| Navigator.SuggestionCycles | App.jsx:1172-1212 | practising any suggestion loads a looping four-chord progression with non-empty ids, and n ticks from its first chord reach chord n mod 4 |
| JsStrings.UpperChar | App.jsx:1017 | each ASCII lower-case letter becomes its own upper-case letter (`a` to `A`, …, `z` to `Z`), every other character is kept |
| JsStrings.ToUpper | App.jsx:1017 | the length is kept and every character goes through UpperChar |
| JsStrings.Trim | App.jsx:1003 | `trim`, characterised by TrimIsInfix, TrimEmptyIff and TrimOfTrimmed |
| JsStrings.TrimIsInfix | App.jsx:1017 | trim keeps one contiguous piece that neither starts nor ends with whitespace; everything around it is whitespace |
| JsStrings.TrimEnds | App.jsx:1017 | the trimmed string neither starts nor ends with whitespace |
| JsStrings.TrimKeepsAbsent | App.jsx:1367 | trimming never introduces a character |
| JsStrings.TrimEmptyIff | App.jsx:1003 | trim gives "" exactly for an all-whitespace input |
| JsStrings.TrimOfTrimmed | App.jsx:1017 | trim changes nothing on a string without whitespace at its ends |
| JsStrings.TrimToUpperEmptyIff | App.jsx:1003-1017 | upper-casing does not change whether the trimmed input is empty |
| JsStrings.Split | App.jsx:1367 | one piece more than occurrences of the separator |
| JsStrings.SplitShape | App.jsx:1367 | no piece contains the separator |
| JsStrings.JoinSplit | App.jsx:1367 | joining the pieces again with the separator gives back the input |

## Left out

- Rendering is left out: JSX, tabs, styling, the app-level navigation and the page reload. These are UI.
- React scheduling is left out: effect re-runs, cleanup ordering and batching, except the one stale-render effect modelled in `TogglePlay` and `Reset`. Each handler otherwise reads the current fields, and a metronome tick is one abstract step (`Session.Tick`).
- Real time is left out: `setInterval`, `setTimeout`, the 100 ms store-ready poll, the 800 ms navigator delay and the 30 s simulated network failure in the participant fallback. `Scheduler` records which timer is live, not when it fires.
- Randomness is left out: the four letter indices of `generateSessionId` are a parameter (`picks`), each in [0, 26) as `Math.floor(Math.random() * 26)` is.
- Clocks are left out: timestamps from `new Date().toISOString()` are an opaque `now` parameter, one per handler call.
- Asynchrony is left out: whether a store write or read fails is a parameter (`writeOk`, `readOk`). Writes complete before the next step, so out-of-order completion is not modelled.
- The failure paths are modelled for a store that can fail. With the program's only store they never run. The mock's `setDoc` and `getDoc` cannot throw (App.jsx:14-29), and the store is always set (App.jsx:37). So `writeOk` and `readOk` are always true, and `syncError`, the create error and the join read error are never set.
- DocumentStore.Store.GetDoc: JavaScript's `sessionId in mockCollections` (App.jsx:25) is also true for keys inherited from `Object.prototype`, such as "toString". The model's map lookup is not. Every such inherited key contains a lower-case letter, and no code the lobby looks up does (`NormalizedCodeShape`, `GenerateSessionId`). So only a hand-built reference could tell the two apart.
- Store readiness and live-snapshot support are parameters (`dbReady`, `dbPresent`, `liveSnapshots`).
- The live subscription itself is left out: which snapshots arrive, and in what order, is up to the caller of `Mirror.OnSnapshot`.
- Floating point is left out: `progressPercentage` is exact rational arithmetic on `real`.
- The chord catalog is left out, apart from the chord ids the progressions and the navigator's selects use (`SelectableChords`).
- The busy flags `isCreating`, `isJoining` and `isLoading`, and console logging, are left out. They only affect the UI.
- JsStrings.UpperChar: upper-cases only ASCII letters, not the full Unicode case mapping of `toUpperCase`.
- Participant.IndexOf: a stored index that is not a number counts as missing, as the tick's function value does in JavaScript. A numeric string such as "2" would index the chords in JavaScript and is not modelled.
- Participant.ProgressionOf: a stored progression field that is not a progression object counts as absent.
- Metronome.Scheduler.Reschedule: the guard's "a progression is loaded" is always true, because the provider always holds a progression.
- Metronome.Scheduler.Reschedule: when the effect re-runs is not modelled. It depends on `isPlaying`, `bpm`, the progression, `isConductor`, `sessionId` and `handleChordChange` (App.jsx:305), and `handleChordChange` is a new function on every provider render (App.jsx:338), so the timer is restarted after every render, each tick's included. Real time is left out, so the model states only what one re-run does.
- SessionProvider.Session.BpmChange: takes only tempos in [60, 200], the range the slider and preset buttons produce. The handler itself does not check it.
