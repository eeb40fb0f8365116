/**
 * The chord-advance rules of the play-along engine: the metronome's
 * next-index updater, the derived `currentChord`, `nextChord` and
 * `progressPercentage` views, and the control panel's stepping rules.
 * Everything here is a pure function of (index, chords, loop).
 */
module Progressions {
  import opened Wrappers

  /** A chord progression as the catalog and the navigator build it; chords are chord ids. */
  datatype Progression = Progression(
    id: string, name: string, chords: seq<string>, key: string, tempo: int, loop: bool)

  /** The first entry of the progression catalog, the initial progression of every session. */
  const Turnaround := Progression("turnaround", "Turnaround Clássico", ["am", "d7", "g", "d7"], "G major", 120, true)

  /** The progression catalog (only chord counts and `loop` matter to the engine). */
  const Catalog: seq<Progression> := [
    Turnaround,
    Progression("ii-v-i", "II-V-I", ["dm7", "g7", "cmaj7"], "C major", 140, true),
    Progression("blues-basic", "Blues Básico",
      ["c7", "c7", "f7", "f7", "c7", "c7", "g7", "f7", "c7", "g7"], "C major", 100, true)
  ]

  /** A JavaScript number as far as the progress view needs it. */
  datatype JsNumber = Finite(value: real) | PosInfinity | NegInfinity | NaN

  /** Every catalog progression loops and has at least one chord, all with non-empty ids. */
  lemma CatalogIsPlayable()
    ensures forall k | 0 <= k < |Catalog| :: Catalog[k].loop && Catalog[k].chords != [] && NonEmptyIds(Catalog[k])
  {
  }

  // ---------------------------------------------------------------- ticking

  /**
   * The metronome's updater: the next index, wrapping to 0 on a looping
   * progression and holding at the last chord on a non-looping one.
   */
  function Advance(index: int, length: int, loop: bool): (next: int)
    ensures 0 <= index < length ==> 0 <= next < length
    ensures index + 1 < length ==> next == index + 1
    ensures index + 1 >= length ==> next == (if loop then 0 else index)
  {
    var nextIndex := index + 1;
    if nextIndex >= length then (if loop then 0 else index) else nextIndex
  }

  /** The index after `n` metronome ticks. */
  function Ticks(index: int, length: int, loop: bool, n: nat): int
    decreases n
  {
    if n == 0 then index else Ticks(Advance(index, length, loop), length, loop, n - 1)
  }

  /** The indices shown after each of `n` ticks, in order. */
  function Trace(index: int, length: int, loop: bool, n: nat): (t: seq<int>)
    ensures |t| == n
    decreases n
  {
    if n == 0 then [] else
      var next := Advance(index, length, loop);
      [next] + Trace(next, length, loop, n - 1)
  }

  /** Ticking any number of times keeps a valid index valid. */
  lemma {:induction false} TicksStayInRange(index: int, length: int, loop: bool, n: nat)
    requires 0 <= index < length
    ensures 0 <= Ticks(index, length, loop, n) < length
    decreases n
  {
    if n > 0 {
      TicksStayInRange(Advance(index, length, loop), length, loop, n - 1);
    }
  }

  /** On a looping progression, `n` ticks move the index `n` places round the cycle. */
  lemma {:induction false} TicksLooping(index: int, length: int, n: nat)
    requires 0 <= index < length
    ensures Ticks(index, length, true, n) == (index + n) % length
    decreases n
  {
    if n == 0 {
      ModUnique(index, 0, index, length);
    } else if index + 1 < length {
      TicksLooping(index + 1, length, n - 1);
    } else {
      TicksLooping(0, length, n - 1);
      ModShift(n - 1, length);
    }
  }

  lemma ModShift(x: nat, m: int)
    requires m > 0
    ensures (x + m) % m == x % m
  {
    ModUnique(x + m, x / m + 1, x % m, m);
  }

  lemma ModUnique(y: int, k: int, r: int, m: int)
    requires m > 0 && 0 <= r < m && y == k * m + r
    ensures y % m == r
  {
    var q := y / m;
    assert (q - k) * m == r - y % m;
    if q - k >= 1 {
      MulAtLeast(q - k, m);
      assert false;
    } else if q - k <= -1 {
      MulAtLeast(k - q, m);
      assert false;
    }
  }

  lemma MulAtLeast(a: int, m: int)
    requires a >= 1 && m > 0
    ensures a * m >= m
  {
  }

  /** On a non-looping progression, `n` ticks move forward and then hold at the last chord. */
  lemma {:induction false} TicksHolding(index: int, length: int, n: nat)
    requires 0 <= index < length
    ensures Ticks(index, length, false, n) == if index + n < length then index + n else length - 1
    decreases n
  {
    if n > 0 {
      TicksHolding(Advance(index, length, false), length, n - 1);
    }
  }

  /** At the last chord of a non-looping progression, further ticks never move the index. */
  lemma {:induction false} TerminalHold(length: int, n: nat)
    requires length > 0
    ensures Ticks(length - 1, length, false, n) == length - 1
    decreases n
  {
    if n > 0 {
      TerminalHold(length, n - 1);
    }
  }

  /** Every entry of the trace is the index after that many ticks. */
  lemma {:induction false} TraceIsTicks(index: int, length: int, loop: bool, n: nat, k: nat)
    requires k < n
    ensures Trace(index, length, loop, n)[k] == Ticks(index, length, loop, k + 1)
    decreases k
  {
    if k > 0 {
      TraceIsTicks(Advance(index, length, loop), length, loop, n - 1, k - 1);
    }
  }

  /** Four chords, looping, from index 0: the indices are 1, 2, 3, 0. */
  lemma LoopingScenario()
    ensures Trace(0, 4, true, 4) == [1, 2, 3, 0]
  {
  }

  /** Three chords, not looping, from index 1: the indices are 2, 2, 2. */
  lemma HoldingScenario()
    ensures Trace(1, 3, false, 3) == [2, 2, 2]
  {
  }

  // ------------------------------------------------------------ derived views

  /** `currentChord`: the chord at the index; null without a progression, undefined off the end. */
  function CurrentChord(p: Option<Progression>, index: int): (c: Option<string>)
    ensures c.Some? <==> p.Some? && 0 <= index < |p.value.chords|
    ensures c.Some? ==> c.value == p.value.chords[index]
  {
    match p
    case None => None
    case Some(prog) => if 0 <= index < |prog.chords| then Some(prog.chords[index]) else None
  }

  /**
   * `nextChord`: `chords[index + 1] || (loop ? chords[0] : null)` -- the
   * following chord when it exists and is a non-empty id, otherwise the first
   * chord of a looping progression, otherwise null.
   */
  function NextChord(p: Option<Progression>, index: int): (c: Option<string>)
    ensures p.None? ==> c.None?
    ensures p.Some? && 0 <= index + 1 < |p.value.chords| && p.value.chords[index + 1] != "" ==>
              c == Some(p.value.chords[index + 1])
    ensures p.Some? && !(0 <= index + 1 < |p.value.chords| && p.value.chords[index + 1] != "") ==>
              c == (if p.value.loop && p.value.chords != [] then Some(p.value.chords[0]) else None)
  {
    match p
    case None => None
    case Some(prog) =>
      var cs := prog.chords;
      if 0 <= index + 1 < |cs| && cs[index + 1] != "" then Some(cs[index + 1])
      else if prog.loop then (if |cs| > 0 then Some(cs[0]) else None)
      else None
  }

  /** Every chord id of the progression is non-empty (true of the catalog and of the navigator's output). */
  predicate NonEmptyIds(p: Progression)
  {
    forall k | 0 <= k < |p.chords| :: p.chords[k] != ""
  }

  /**
   * `nextChord` shows the chord the next tick moves to, except at the last
   * chord of a non-looping progression: there it shows nothing while the
   * tick holds the index.
   */
  lemma NextChordIsAdvance(p: Progression, index: int)
    requires 0 <= index < |p.chords| && NonEmptyIds(p)
    ensures !p.loop && index == |p.chords| - 1 ==>
              NextChord(Some(p), index).None? && Advance(index, |p.chords|, p.loop) == index
    ensures p.loop || index < |p.chords| - 1 ==>
              NextChord(Some(p), index) == Some(p.chords[Advance(index, |p.chords|, p.loop)])
  {
  }

  /** `((index + 1) / length) * 100` in exact arithmetic, with JavaScript's results for a zero length. */
  function Percentage(numerator: int, denominator: int): (r: JsNumber)
    ensures denominator != 0 <==> r.Finite?
    ensures r.Finite? ==> r.value == numerator as real / denominator as real * 100.0
    ensures denominator == 0 ==> (r.PosInfinity? <==> numerator > 0) && (r.NegInfinity? <==> numerator < 0)
    ensures denominator == 0 && numerator == 0 <==> r.NaN?
  {
    if denominator != 0 then Finite(numerator as real / denominator as real * 100.0)
    else if numerator > 0 then PosInfinity
    else if numerator < 0 then NegInfinity
    else NaN
  }

  /** `progressPercentage`: 0 without a progression, else the share of chords reached so far. */
  function ProgressPercentage(p: Option<Progression>, index: int): (r: JsNumber)
    ensures p.None? ==> r == Finite(0.0)
    ensures p.Some? && p.value.chords != [] ==>
              r == Finite((index + 1) as real / |p.value.chords| as real * 100.0)
    ensures p.Some? && p.value.chords == [] ==> r == (if index + 1 > 0 then PosInfinity else if index + 1 < 0 then NegInfinity else NaN)
    ensures p.Some? && 0 <= index < |p.value.chords| ==> r.Finite? && 0.0 < r.value <= 100.0
    ensures p.Some? && 0 <= index < |p.value.chords| ==> (r == Finite(100.0) <==> index == |p.value.chords| - 1)
  {
    match p
    case None => Finite(0.0)
    case Some(prog) =>
      if 0 <= index < |prog.chords| then
        ShareBounds(index + 1, |prog.chords|);
        Percentage(index + 1, |prog.chords|)
      else Percentage(index + 1, |prog.chords|)
  }

  /** A share of k out of n chords, as a percentage, is positive, at most 100, and 100 only for k == n. */
  lemma ShareBounds(k: int, n: int)
    requires 0 < k <= n
    ensures 0.0 < k as real / n as real * 100.0 <= 100.0
    ensures k as real / n as real * 100.0 == 100.0 <==> k == n
  {
    var q := k as real / n as real;
    assert q * n as real == k as real;
    assert 0.0 < q <= 1.0;
    if q * 100.0 == 100.0 {
      assert q == 1.0;
    }
  }

  /** Progress after a reset to the first chord is one chord's share. */
  lemma ProgressAtStart(p: Progression)
    requires p.chords != []
    ensures ProgressPercentage(Some(p), 0) == Finite(100.0 / |p.chords| as real)
  {
  }

  /** Progress strictly grows as the index moves forward. */
  lemma ProgressMonotone(p: Progression, i: int, j: int)
    requires 0 <= i < j < |p.chords|
    ensures ProgressPercentage(Some(p), i).value < ProgressPercentage(Some(p), j).value
  {
    var n := |p.chords| as real;
    assert (i + 1) as real / n < (j + 1) as real / n;
  }

  // ------------------------------------------------------- control-panel steps

  /** The "previous" button is disabled at index 0. */
  predicate PreviousEnabled(index: int) { index != 0 }

  /** What "previous" sets: `Math.max(0, index - 1)`. */
  function PreviousIndex(index: int): (r: int)
    ensures r >= 0
    ensures index > 0 ==> r == index - 1
    ensures index <= 0 ==> r == 0
  {
    if index - 1 > 0 then index - 1 else 0
  }

  /** The "next" button is disabled without a progression or at (or past) the last chord. */
  predicate NextEnabled(p: Option<Progression>, index: int)
  {
    p.Some? && index < |p.value.chords| - 1
  }

  /** Stepping with an enabled button keeps a valid index valid. */
  lemma StepsStayInRange(p: Progression, index: int)
    requires 0 <= index < |p.chords|
    ensures 0 <= PreviousIndex(index) < |p.chords|
    ensures NextEnabled(Some(p), index) ==> 0 <= index + 1 < |p.chords|
    ensures PreviousEnabled(index) ==> PreviousIndex(index) == index - 1
  {
  }
}
