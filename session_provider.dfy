/**
 * The session controller behind the play-along screens: the provider's
 * state cells, its four handlers and the conductor-only persistence path.
 * Every handler updates local state first and unconditionally; only a
 * conductor with a session id and a store writes, and a failed write only
 * sets `syncError`.
 */
module SessionProvider {
  import opened Wrappers
  import opened Progressions
  import opened DocumentStore

  /** The tempo range the BPM slider and its preset buttons produce. */
  type Bpm = x: int | 60 <= x <= 200 witness 120

  const SyncErrorMessage := "Erro ao sincronizar com a sessão"

  /** `sessionId` is truthy: present and not the empty string. */
  predicate HasSessionId(id: Option<string>)
  {
    id.Some? && id.value != ""
  }

  /** The replicated documents together with the local `syncError` cell. */
  datatype Sync = Sync(docs: map<string, Doc>, error: string)

  /** `{...updates, lastUpdated: now}`. */
  function Stamp(updates: Doc, now: string): (d: Doc)
    ensures d.Keys == updates.Keys + {LastUpdatedField}
    ensures d[LastUpdatedField] == VStr(now)
    ensures forall f | f in updates && f != LastUpdatedField :: d[f] == updates[f]
  {
    updates[LastUpdatedField := VStr(now)]
  }

  /**
   * The effect of `saveToFirestore(updates)` on the store and on `syncError`:
   * nothing unless it persists; the stamped entry when the write succeeds;
   * only the error message when it fails.
   */
  function AfterSave(st: Sync, persists: bool, key: string, updates: Doc, now: string, writeOk: bool): (r: Sync)
    ensures !persists || !writeOk ==> r.docs == st.docs
    ensures r.error == st.error || (persists && !writeOk && r.error == SyncErrorMessage)
    ensures persists && !writeOk ==> r.error == SyncErrorMessage
    ensures persists && writeOk ==> key in r.docs && r.docs[key] == Stamp(updates, now)[IdField := VStr(key)]
    ensures persists && writeOk ==> r.docs.Keys == st.docs.Keys + {key}
    ensures forall k | k in st.docs && k != key :: k in r.docs && r.docs[k] == st.docs[k]
  {
    if !persists then st
    else if writeOk then Sync(Put(st.docs, key, Stamp(updates, now)), st.error)
    else Sync(st.docs, SyncErrorMessage)
  }

  /** The payload of a chord change. */
  function ChordUpdate(index: Value, isPlaying: bool): (d: Doc)
    ensures d.Keys == {IndexField, IsPlayingField} && d[IndexField] == index && d[IsPlayingField] == VBool(isPlaying)
  {
    map[IndexField := index, IsPlayingField := VBool(isPlaying)]
  }

  /** The payload of a play/stop change. */
  function PlayUpdate(isPlaying: bool, index: int): (d: Doc)
    ensures d.Keys == {IsPlayingField, IndexField} && d[IsPlayingField] == VBool(isPlaying) && d[IndexField] == VInt(index)
  {
    map[IsPlayingField := VBool(isPlaying), IndexField := VInt(index)]
  }

  /** The payload of a progression change. */
  function ProgressionUpdate(p: Progression): (d: Doc)
    ensures d.Keys == {ProgressionField, IndexField} && d[ProgressionField] == VProgression(p) && d[IndexField] == VInt(0)
  {
    map[ProgressionField := VProgression(p), IndexField := VInt(0)]
  }

  /** The payload of a tempo change. */
  function BpmUpdate(bpm: int): (d: Doc)
    ensures d.Keys == {BpmField} && d[BpmField] == VInt(bpm)
  {
    map[BpmField := VInt(bpm)]
  }

  class Session {
    var isPlaying: bool
    var bpm: Bpm
    var currentProgression: Progression
    var currentChordIndex: int
    var isParticipantMode: bool
    var sessionId: Option<string>
    var isConductor: bool
    var syncError: string
    /** The module-level store handle; null when no store is available. */
    const db: Store?

    constructor (db: Store?)
      ensures !isPlaying && bpm == 120 && currentProgression == Turnaround && currentChordIndex == 0
      ensures !isParticipantMode && sessionId == None && !isConductor && syncError == ""
      ensures this.db == db
    {
      isPlaying, bpm, currentProgression, currentChordIndex := false, 120, Turnaround, 0;
      isParticipantMode, sessionId, isConductor, syncError := false, None, false, "";
      this.db := db;
    }

    /** The guard of `saveToFirestore`: conductor, with a session id and a store. */
    predicate Persists()
      reads this
      ensures Persists() ==> db != null && Key() != ""
    {
      isConductor && HasSessionId(sessionId) && db != null
    }

    /** The store entry this session writes to. */
    function Key(): string
      reads this
    {
      if sessionId.Some? then sessionId.value else ""
    }

    /** The stored documents and the local sync error. */
    function SyncState(): Sync
      reads this, db
    {
      Sync(if db == null then map[] else db.docs, syncError)
    }

    /** The current index names a chord of the current progression. */
    predicate IndexInRange()
      reads this
    {
      0 <= currentChordIndex < |currentProgression.chords|
    }

    /** `saveToFirestore(updates)`. */
    method SaveToStore(updates: Doc, now: string, writeOk: bool)
      modifies this`syncError, db
      ensures SyncState() == AfterSave(old(SyncState()), Persists(), Key(), updates, now, writeOk)
    {
      if !isConductor || !HasSessionId(sessionId) || db == null {
        return;
      }
      if writeOk {
        KeyOfSessionRef(sessionId.value);
        db.SetDoc(MakeRef(Sessions, sessionId.value), Stamp(updates, now), true);
      } else {
        syncError := SyncErrorMessage;
      }
    }

    /** `handleChordChange(newIndex)`: written only by a conductor who is playing. */
    method ChordChange(newIndex: int, now: string, writeOk: bool)
      modifies this`currentChordIndex, this`syncError, db
      ensures currentChordIndex == newIndex
      ensures SyncState() == AfterSave(old(SyncState()), isConductor && isPlaying && Persists(), Key(),
                                       ChordUpdate(VInt(newIndex), isPlaying), now, writeOk)
    {
      currentChordIndex := newIndex;
      if isConductor && isPlaying {
        SaveToStore(ChordUpdate(VInt(newIndex), isPlaying), now, writeOk);
      }
    }

    /**
     * One metronome tick: `handleChordChange` with the updater function.
     * Locally the updater advances the index; the conductor's write carries
     * the function value itself as `currentChordIndex`.
     */
    method Tick(now: string, writeOk: bool)
      modifies this`currentChordIndex, this`syncError, db
      ensures currentChordIndex == Advance(old(currentChordIndex), |currentProgression.chords|, currentProgression.loop)
      ensures old(IndexInRange()) ==> IndexInRange()
      ensures isPlaying == old(isPlaying)
      ensures SyncState() == AfterSave(old(SyncState()), isConductor && isPlaying && Persists(), Key(),
                                       ChordUpdate(VUpdater, isPlaying), now, writeOk)
    {
      var prevIndex := currentChordIndex;
      currentChordIndex := Advance(prevIndex, |currentProgression.chords|, currentProgression.loop);
      if isConductor && isPlaying {
        SaveToStore(ChordUpdate(VUpdater, isPlaying), now, writeOk);
      }
    }

    /** `handleBpmChange(newBpm)`. */
    method BpmChange(newBpm: Bpm, now: string, writeOk: bool)
      modifies this`bpm, this`syncError, db
      ensures bpm == newBpm
      ensures SyncState() == AfterSave(old(SyncState()), isConductor && Persists(), Key(),
                                       BpmUpdate(newBpm), now, writeOk)
    {
      bpm := newBpm;
      if isConductor {
        SaveToStore(BpmUpdate(newBpm), now, writeOk);
      }
    }

    /**
     * `handlePlayChange(newIsPlaying)`: the write also carries an index, the
     * one of the render the handler belongs to (`renderedIndex`). That is
     * the current index, unless an earlier call in the same click already
     * changed it.
     */
    method PlayChange(newIsPlaying: bool, renderedIndex: int, now: string, writeOk: bool)
      modifies this`isPlaying, this`syncError, db
      ensures isPlaying == newIsPlaying
      ensures SyncState() == AfterSave(old(SyncState()), isConductor && Persists(), Key(),
                                       PlayUpdate(newIsPlaying, renderedIndex), now, writeOk)
    {
      isPlaying := newIsPlaying;
      if isConductor {
        SaveToStore(PlayUpdate(newIsPlaying, renderedIndex), now, writeOk);
      }
    }

    /** `handleProgressionChange(p)`: load the progression and go back to its first chord. */
    method ProgressionChange(p: Progression, now: string, writeOk: bool)
      modifies this`currentProgression, this`currentChordIndex, this`syncError, db
      ensures currentProgression == p && currentChordIndex == 0
      ensures p.chords != [] ==> IndexInRange()
      ensures SyncState() == AfterSave(old(SyncState()), isConductor && Persists(), Key(),
                                       ProgressionUpdate(p), now, writeOk)
    {
      currentProgression := p;
      currentChordIndex := 0;
      if isConductor {
        SaveToStore(ProgressionUpdate(p), now, writeOk);
      }
    }

    /** The plain state setter `setSessionId`. */
    method SetSessionId(id: Option<string>)
      modifies this`sessionId
      ensures sessionId == id
    {
      sessionId := id;
    }

    /** The plain state setter `setIsConductor`. */
    method SetIsConductor(b: bool)
      modifies this`isConductor
      ensures isConductor == b
    {
      isConductor := b;
    }

    /** The plain state setter `setIsParticipantMode`. */
    method SetIsParticipantMode(b: bool)
      modifies this`isParticipantMode
      ensures isParticipantMode == b
    {
      isParticipantMode := b;
    }
  }

  /** A conductor's progression change leaves exactly the progression, index 0, the stamp and the id in its entry. */
  lemma ProgressionWriteContents(st: Sync, key: string, p: Progression, now: string)
    ensures var r := AfterSave(st, true, key, ProgressionUpdate(p), now, true);
      r.docs[key].Keys == {ProgressionField, IndexField, LastUpdatedField, IdField} &&
      r.docs[key][ProgressionField] == VProgression(p) && r.docs[key][IndexField] == VInt(0) &&
      r.docs[key][LastUpdatedField] == VStr(now) && r.docs[key][IdField] == VStr(key)
  {
  }

  /** A failed write never touches the store, whatever the payload. */
  lemma FailedWriteKeepsStore(st: Sync, persists: bool, key: string, updates: Doc, now: string)
    ensures AfterSave(st, persists, key, updates, now, false).docs == st.docs
    ensures persists ==> AfterSave(st, persists, key, updates, now, false).error == SyncErrorMessage
  {
  }

  /**
   * A tempo write of 90 followed by a chord write of index 2: the entry ends
   * up with the index and without the tempo, because each write replaces the entry.
   */
  lemma TempoThenChordScenario(st: Sync, key: string, now: string)
    ensures var r := AfterSave(AfterSave(st, true, key, BpmUpdate(90), now, true),
                               true, key, ChordUpdate(VInt(2), true), now, true);
      r.docs[key][IndexField] == VInt(2) && BpmField !in r.docs[key]
  {
  }
}
