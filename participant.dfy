/**
 * The participant's listening hook: three state cells driven by the
 * snapshot callbacks, and the display view derived from the last snapshot.
 * A missing document or an error clears `isConnected` but keeps the last
 * snapshot, so the view keeps showing it.
 */
module Participant {
  import opened Wrappers
  import opened Progressions
  import opened DocumentStore
  import opened SessionProvider
  import Lobby

  const NotFoundMessage := "Sessão não encontrada"
  const ConnectErrorMessage := "Erro ao conectar com a sessão"

  /** The session the fallback (a store without live snapshots) pretends to receive. */
  function MockSession(now: string): (d: Doc)
    ensures ProgressionOf(d) == Some(Turnaround) && IndexOf(d) == Some(0)
    ensures View(d).currentChord == Some("am") && View(d).nextChord == Some("d7")
    ensures View(d).progressPercentage == Finite(25.0)
  {
    map[BpmField := VInt(120), IsPlayingField := VBool(false), ProgressionField := VProgression(Turnaround),
        IndexField := VInt(0), CreatedAtField := VStr(now), ParticipantsField := VStrings(["mock-participant"])]
  }

  /** `doc.currentProgression` when it holds a progression. */
  function ProgressionOf(d: Doc): (p: Option<Progression>)
    ensures p.Some? <==> ProgressionField in d && d[ProgressionField].VProgression?
    ensures p.Some? ==> p.value == d[ProgressionField].p
  {
    if ProgressionField in d && d[ProgressionField].VProgression? then Some(d[ProgressionField].p) else None
  }

  /** `doc.currentChordIndex` when it holds a number. */
  function IndexOf(d: Doc): (i: Option<int>)
    ensures i.Some? <==> IndexField in d && d[IndexField].VInt?
    ensures i.Some? ==> i.value == d[IndexField].i
  {
    if IndexField in d && d[IndexField].VInt? then Some(d[IndexField].i) else None
  }

  /** What `getSessionData` returns: the snapshot plus the three derived fields. */
  datatype SessionData = SessionData(
    session: Doc, currentChord: Option<string>, nextChord: Option<string>, progressPercentage: JsNumber)

  /**
   * The derived view of one snapshot. With a numeric index it is the
   * provider's own derivation; with a missing or non-numeric index the
   * lookups are `undefined`, `index + 1` is NaN, and only a looping
   * progression's first chord is left for `nextChord`.
   */
  function View(d: Doc): (v: SessionData)
    ensures v.session == d
    ensures IndexOf(d).Some? ==>
              v.currentChord == CurrentChord(ProgressionOf(d), IndexOf(d).value) &&
              v.nextChord == NextChord(ProgressionOf(d), IndexOf(d).value) &&
              v.progressPercentage == ProgressPercentage(ProgressionOf(d), IndexOf(d).value)
    ensures IndexOf(d).None? ==> v.currentChord.None?
    ensures IndexOf(d).None? && ProgressionOf(d).Some? ==> v.progressPercentage.NaN?
    ensures IndexOf(d).None? && ProgressionOf(d).Some? ==>
              v.nextChord == (if ProgressionOf(d).value.loop && ProgressionOf(d).value.chords != []
                              then Some(ProgressionOf(d).value.chords[0]) else None)
    ensures ProgressionOf(d).None? ==> v.currentChord.None? && v.nextChord.None? && v.progressPercentage == Finite(0.0)
  {
    var p := ProgressionOf(d);
    match IndexOf(d)
    case Some(i) => SessionData(d, CurrentChord(p, i), NextChord(p, i), ProgressPercentage(p, i))
    case None =>
      SessionData(d, None,
        if p.Some? && p.value.loop && p.value.chords != [] then Some(p.value.chords[0]) else None,
        if p.Some? then NaN else Finite(0.0))
  }

  class Mirror {
    var remoteSession: Option<Doc>
    var isConnected: bool
    var connectionError: string

    constructor ()
      ensures remoteSession == None && !isConnected && connectionError == ""
    {
      remoteSession, isConnected, connectionError := None, false, "";
    }

    /**
     * The effect that subscribes: nothing without a session id or a store;
     * otherwise the error is cleared, and a store without live snapshots
     * falls back to the simulated session.
     */
    method Connect(hasSessionId: bool, dbPresent: bool, liveSnapshots: bool, now: string)
      modifies this
      ensures !hasSessionId || !dbPresent ==>
                remoteSession == old(remoteSession) && isConnected == old(isConnected) &&
                connectionError == old(connectionError)
      ensures hasSessionId && dbPresent ==> connectionError == ""
      ensures hasSessionId && dbPresent && liveSnapshots ==>
                remoteSession == old(remoteSession) && isConnected == old(isConnected)
      ensures hasSessionId && dbPresent && !liveSnapshots ==>
                remoteSession == Some(MockSession(now)) && isConnected
    {
      if !hasSessionId || !dbPresent {
        return;
      }
      connectionError := "";
      if !liveSnapshots {
        remoteSession := Some(MockSession(now));
        isConnected := true;
      }
    }

    /** The snapshot callback. */
    method OnSnapshot(snap: Snapshot)
      modifies this
      ensures snap.Exists() ==> remoteSession == snap.Data() && isConnected && connectionError == ""
      ensures !snap.Exists() ==>
                remoteSession == old(remoteSession) && !isConnected && connectionError == NotFoundMessage
      ensures !snap.Exists() ==> GetSessionData() == old(GetSessionData())
    {
      if snap.Exists() {
        var data := snap.Data();
        remoteSession := data;
        isConnected := true;
        connectionError := "";
      } else {
        connectionError := NotFoundMessage;
        isConnected := false;
      }
    }

    /** The error callback. */
    method OnError()
      modifies this
      ensures remoteSession == old(remoteSession) && !isConnected && connectionError == ConnectErrorMessage
      ensures GetSessionData() == old(GetSessionData())
    {
      connectionError := ConnectErrorMessage;
      isConnected := false;
    }

    /** `getSessionData()`: null before any snapshot, else the view of the last one. */
    function GetSessionData(): (r: Option<SessionData>)
      reads this
      ensures r.Some? <==> remoteSession.Some?
      ensures r.Some? ==> r.value.session == remoteSession.value && r.value == View(remoteSession.value)
    {
      match remoteSession
      case None => None
      case Some(d) => Some(View(d))
    }
  }

  /** The entry a conductor writes on a progression change shows that progression from its first chord. */
  lemma ProgressionWriteView(st: Sync, key: string, p: Progression, now: string)
    requires p.chords != []
    ensures var v := View(AfterSave(st, true, key, ProgressionUpdate(p), now, true).docs[key]);
      v.currentChord == Some(p.chords[0]) &&
      v.nextChord == NextChord(Some(p), 0) &&
      v.progressPercentage == Finite(100.0 / |p.chords| as real)
  {
  }

  /**
   * The entry a conductor writes on a metronome tick replaces the whole
   * document, whatever it held before: it keeps neither the progression
   * nor a numeric index. Were that entry delivered as a snapshot, its view
   * would show no chord at all. (The in-memory store delivers no snapshots.)
   */
  lemma TickWriteView(st: Sync, key: string, isPlaying: bool, now: string)
    ensures var d := AfterSave(st, true, key, ChordUpdate(VUpdater, isPlaying), now, true).docs[key];
      ProgressionOf(d).None? && IndexOf(d).None? &&
      View(d).currentChord.None? && View(d).nextChord.None? && View(d).progressPercentage == Finite(0.0)
  {
  }

  /** The simulated session is the document a new session starts with, with one made-up participant. */
  lemma MockIsInitialSession(now: string)
    ensures MockSession(now) == Lobby.InitialSession(now)[ParticipantsField := VStrings(["mock-participant"])]
  {
  }
}
