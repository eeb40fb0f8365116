/**
 * The conductor tab's buttons: start/stop, previous, next and reset.
 * Each one calls the session's handlers; a disabled button does nothing.
 * All handlers of one click belong to the same render, so they see the
 * state as it was before the click.
 */
module ControlPanel {
  import opened Wrappers
  import opened Progressions
  import opened DocumentStore
  import opened SessionProvider

  /**
   * Start/stop: stopping keeps the index; starting restarts the progression
   * from its first chord, but what is written is the index from before the click.
   */
  method TogglePlay(s: Session, now: string, writeOk: bool)
    modifies s`isPlaying, s`currentChordIndex, s`syncError, s.db
    ensures s.isPlaying == !old(s.isPlaying)
    ensures old(s.isPlaying) ==> s.currentChordIndex == old(s.currentChordIndex)
    ensures !old(s.isPlaying) ==> s.currentChordIndex == 0
    ensures s.SyncState() == AfterSave(old(s.SyncState()), s.isConductor && s.Persists(), s.Key(),
                                       PlayUpdate(s.isPlaying, old(s.currentChordIndex)), now, writeOk)
  {
    var renderedIndex := s.currentChordIndex;
    if s.isPlaying {
      s.PlayChange(false, renderedIndex, now, writeOk);
    } else {
      // not playing yet, so this chord change is not written
      s.ChordChange(0, now, writeOk);
      s.PlayChange(true, renderedIndex, now, writeOk);
    }
  }

  /** "Previous": one chord back, never below 0; disabled at index 0. */
  method Previous(s: Session, now: string, writeOk: bool)
    modifies s`currentChordIndex, s`syncError, s.db
    ensures PreviousEnabled(old(s.currentChordIndex)) ==>
              s.currentChordIndex == PreviousIndex(old(s.currentChordIndex)) &&
              s.SyncState() == AfterSave(old(s.SyncState()), s.isConductor && s.isPlaying && s.Persists(), s.Key(),
                                         ChordUpdate(VInt(s.currentChordIndex), s.isPlaying), now, writeOk)
    ensures !PreviousEnabled(old(s.currentChordIndex)) ==>
              s.currentChordIndex == old(s.currentChordIndex) && s.SyncState() == old(s.SyncState())
    ensures old(s.IndexInRange()) ==> s.IndexInRange()
  {
    if PreviousEnabled(s.currentChordIndex) {
      s.ChordChange(PreviousIndex(s.currentChordIndex), now, writeOk);
    }
  }

  /** "Next": one chord forward; disabled at the last chord. */
  method Next(s: Session, now: string, writeOk: bool)
    modifies s`currentChordIndex, s`syncError, s.db
    ensures NextEnabled(Some(s.currentProgression), old(s.currentChordIndex)) ==>
              s.currentChordIndex == old(s.currentChordIndex) + 1 &&
              s.SyncState() == AfterSave(old(s.SyncState()), s.isConductor && s.isPlaying && s.Persists(), s.Key(),
                                         ChordUpdate(VInt(s.currentChordIndex), s.isPlaying), now, writeOk)
    ensures !NextEnabled(Some(s.currentProgression), old(s.currentChordIndex)) ==>
              s.currentChordIndex == old(s.currentChordIndex) && s.SyncState() == old(s.SyncState())
    ensures old(s.IndexInRange()) ==> s.IndexInRange()
  {
    if NextEnabled(Some(s.currentProgression), s.currentChordIndex) {
      s.ChordChange(s.currentChordIndex + 1, now, writeOk);
    }
  }

  /**
   * "Reset": back to the first chord and stopped. A conductor writes twice,
   * and the second write carries the index from before the click.
   */
  method Reset(s: Session, now: string, chordWriteOk: bool, playWriteOk: bool)
    modifies s`isPlaying, s`currentChordIndex, s`syncError, s.db
    ensures s.currentChordIndex == 0 && !s.isPlaying
    ensures s.currentProgression.chords != [] ==> s.IndexInRange()
    ensures s.SyncState() ==
              AfterSave(AfterSave(old(s.SyncState()), s.isConductor && old(s.isPlaying) && s.Persists(), s.Key(),
                                  ChordUpdate(VInt(0), old(s.isPlaying)), now, chordWriteOk),
                        s.isConductor && s.Persists(), s.Key(), PlayUpdate(false, old(s.currentChordIndex)), now,
                        playWriteOk)
  {
    var renderedIndex := s.currentChordIndex;
    s.ChordChange(0, now, chordWriteOk);
    s.PlayChange(false, renderedIndex, now, playWriteOk);
  }

  /**
   * After a conductor's successful reset the session's entry holds the
   * stopped flag and the index from before the reset, not 0: the second
   * write replaces the first.
   */
  lemma ResetPublishesPreviousIndex(st: Sync, key: string, wasPlaying: bool, index: int, now: string, chordWriteOk: bool)
    ensures var r := AfterSave(AfterSave(st, wasPlaying, key, ChordUpdate(VInt(0), wasPlaying), now, chordWriteOk),
                               true, key, PlayUpdate(false, index), now, true);
      r.docs[key][IndexField] == VInt(index) && r.docs[key][IsPlayingField] == VBool(false) &&
      r.docs[key].Keys == {IsPlayingField, IndexField, LastUpdatedField, IdField}
  {
  }
}
