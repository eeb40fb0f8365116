/**
 * The metronome's scheduling rules: when a recurring timer runs, at what
 * period, and that every change of its inputs replaces the timer. A tick
 * itself is `Session.Tick`; real time is not modelled.
 */
module Metronome {
  import opened Wrappers
  import opened SessionProvider

  /** The effect's guard: playing, a progression loaded, and not a conductor without a session id. */
  predicate TimerRuns(isPlaying: bool, hasProgression: bool, isConductor: bool, hasSessionId: bool)
  {
    isPlaying && hasProgression && !(isConductor && !hasSessionId)
  }

  /** `Math.floor(60000 / bpm)` milliseconds between ticks. */
  function Period(bpm: Bpm): (ms: int)
    ensures ms * bpm <= 60000 < (ms + 1) * bpm
    ensures 300 <= ms <= 1000
  {
    60000 / bpm
  }

  /** A running `setInterval` timer; `serial` tells timers apart. */
  datatype Timer = Timer(period: int, serial: nat)

  /** The one interval timer the metronome effect owns. */
  class Scheduler {
    var timer: Option<Timer>
    /** How many timers have been started so far. */
    var started: nat

    ghost predicate Valid()
      reads this
    {
      timer.Some? ==> timer.value.serial < started
    }

    constructor ()
      ensures Valid() && timer == None && started == 0
    {
      timer, started := None, 0;
    }

    /**
     * Re-running the effect after one of its dependencies changed
     * (`isPlaying`, `bpm`, the progression, `isConductor`, `sessionId` or
     * `handleChordChange`, which is a new function on every render, so the
     * effect re-runs after every render, each tick's included): the cleanup
     * clears the old timer, and a new one is started at the current period
     * when the guard holds.
     */
    method Reschedule(s: Session)
      requires Valid()
      modifies this
      ensures Valid()
      ensures TimerRuns(s.isPlaying, true, s.isConductor, HasSessionId(s.sessionId)) ==>
                timer == Some(Timer(Period(s.bpm), old(started))) && started == old(started) + 1
      ensures !TimerRuns(s.isPlaying, true, s.isConductor, HasSessionId(s.sessionId)) ==>
                timer == None && started == old(started)
      ensures old(timer).Some? ==> timer != old(timer)
    {
      timer := None;
      if TimerRuns(s.isPlaying, true, s.isConductor, HasSessionId(s.sessionId)) {
        timer := Some(Timer(Period(s.bpm), started));
        started := started + 1;
      }
    }
  }

  /** At 120 BPM a beat is 500 ms, and after a change to 180 BPM it is 333 ms. */
  lemma TempoScenario()
    ensures Period(120) == 500 && Period(180) == 333
  {
  }
}
