/**
 * The harmonic navigator: three four-chord suggestions between two chords
 * (a fixed transition table with a fallback list), and the custom
 * progressions built from a suggestion or from a typed middle section.
 */
module Navigator {
  import opened Wrappers
  import opened JsStrings
  import opened Progressions

  /** The transition table, keyed by "from-to". */
  const Transitions: map<string, seq<string>> := map[
    "Am-G" := ["D7", "F", "C", "Em"],
    "G-Am" := ["D7", "F", "C", "Em"],
    "Dm7-G7" := ["C", "Cmaj7", "Am"],
    "G7-C" := ["F", "Dm7", "Am"],
    "Am-C" := ["G", "F", "Dm7"],
    "G-D7" := ["Am", "C", "Em"],
    "F-G7" := ["C", "Am", "Dm7"]
  ]

  /** The middle chords used when neither direction is in the table. */
  const Fallback: seq<string> := ["D7", "F", "C", "G7", "Am"]

  const Arrow := " → "

  datatype Suggestion = Suggestion(id: string, name: string, chords: seq<string>, description: string)

  function TransitionKey(from: string, to: string): string
  {
    from + "-" + to
  }

  /** The chord ids the "from" and "to" selects offer. */
  const SelectableChords: set<string> := {"am", "d7", "g", "dm7", "g7", "cmaj7", "c7", "f7"}

  /**
   * The table is keyed by chord names ("Am", "G7") while the selects
   * produce chord ids ("am", "g7"): no selectable pair hits the table, so
   * every first suggestion takes its middle chords from the fallback.
   */
  lemma SelectablePairsUseFallback(from: string, to: string)
    requires from in SelectableChords && to in SelectableChords
    ensures TransitionKey(from, to) !in Transitions && TransitionKey(to, from) !in Transitions
    ensures Middle(from, to) == Fallback
  {
    SelectableStartsLower(from);
    SelectableStartsLower(to);
    LowerKeyMisses(TransitionKey(from, to));
    LowerKeyMisses(TransitionKey(to, from));
  }

  lemma SelectableStartsLower(c: string)
    requires c in SelectableChords
    ensures |c| > 0 && IsLower(c[0])
  {
  }

  lemma LowerKeyMisses(key: string)
    requires |key| > 0 && IsLower(key[0])
    ensures key !in Transitions
  {
    forall k | k in Transitions ensures |k| > 0 && IsUpperLetter(k[0]) {
    }
  }

  /** Every list in the table, and the fallback, has at least three chords, all non-empty. */
  lemma TableShape()
    ensures forall k | k in Transitions :: |Transitions[k]| >= 3 && forall j | 0 <= j < |Transitions[k]| :: Transitions[k][j] != ""
    ensures |Fallback| >= 3 && forall j | 0 <= j < |Fallback| :: Fallback[j] != ""
  {
  }

  /** The middle chords: the forward entry, else the reverse entry, else the fallback. */
  function Middle(from: string, to: string): (m: seq<string>)
    ensures |m| >= 3 && forall j | 0 <= j < |m| :: m[j] != ""
    ensures TransitionKey(from, to) in Transitions ==> m == Transitions[TransitionKey(from, to)]
    ensures TransitionKey(from, to) !in Transitions && TransitionKey(to, from) in Transitions ==>
              m == Transitions[TransitionKey(to, from)]
    ensures m == Fallback <== TransitionKey(from, to) !in Transitions && TransitionKey(to, from) !in Transitions
  {
    TableShape();
    var key := TransitionKey(from, to);
    var reverseKey := TransitionKey(to, from);
    if key in Transitions then Transitions[key]
    else if reverseKey in Transitions then Transitions[reverseKey]
    else Fallback
  }

  /**
   * `suggestProgressions`: nothing without both chords; otherwise the
   * suggested progression and its two fixed variations, each going from
   * `from` to `to` in four chords.
   */
  function Suggest(from: string, to: string): (r: Option<seq<Suggestion>>)
    ensures r.None? <==> from == "" || to == ""
    ensures r.Some? ==> |r.value| == 3 && forall k | 0 <= k < 3 ::
              |r.value[k].chords| == 4 && r.value[k].chords[0] == from && r.value[k].chords[3] == to
    ensures r.Some? ==> r.value[0].chords[1..3] == Middle(from, to)[..2]
    ensures r.Some? ==> r.value[1].chords[1..3] == ["G7", "C"] && r.value[2].chords[1..3] == ["Dm7", "G7"]
    ensures r.Some? ==> [r.value[0].id, r.value[1].id, r.value[2].id] == ["suggested1", "variation1", "variation2"]
    ensures r.Some? ==> r.value[0].name == from + Arrow + to && r.value[1].name == from + Arrow + to + " (Var. 1)" &&
                        r.value[2].name == from + Arrow + to + " (Var. 2)"
  {
    if from == "" || to == "" then None
    else
      var suggestedMiddle := Middle(from, to);
      Some([
        Suggestion("suggested1", from + Arrow + to, [from] + suggestedMiddle[..2] + [to],
                   "Progressão harmônica sugerida"),
        Suggestion("variation1", from + Arrow + to + " (Var. 1)", [from, "G7", "C", to],
                   "Com dominant secondary"),
        Suggestion("variation2", from + Arrow + to + " (Var. 2)", [from, "Dm7", "G7", to],
                   "Com ii-V simples")
      ])
  }

  /** `handleCreateCustomProgression(chords, name)`: a looping progression, named by default "from → to". */
  function CustomProgression(chords: seq<string>, name: string, from: string, to: string): (p: Progression)
    ensures p.chords == chords && p.loop
    ensures p.id == "custom" && p.key == "Custom" && p.tempo == 120
    ensures name != "" ==> p.name == name
    ensures name == "" ==> p.name == from + Arrow + to
  {
    Progression("custom", if name != "" then name else from + Arrow + to, chords, "Custom", 120, true)
  }

  /** `pieces.map(c => c.trim())`. */
  function TrimEach(pieces: seq<string>): (r: seq<string>)
    ensures |r| == |pieces|
    ensures forall k | 0 <= k < |r| :: r[k] == Trim(pieces[k])
  {
    seq(|pieces|, i requires 0 <= i < |pieces| => Trim(pieces[i]))
  }

  /** `[from, ...middle.split(',').map(c => c.trim()), to]`. */
  function ManualChords(from: string, middle: string, to: string): (cs: seq<string>)
    ensures |cs| == Count(middle, ',') + 3
    ensures cs[0] == from && cs[|cs| - 1] == to
    ensures cs[1..|cs| - 1] == TrimEach(Split(middle, ','))
    ensures forall k | 1 <= k < |cs| - 1 :: ',' !in cs[k]
  {
    var trimmed := TrimEach(Split(middle, ','));
    SplitShape(middle, ',');
    forall k | 0 <= k < |trimmed| ensures ',' !in trimmed[k] {
      TrimKeepsAbsent(Split(middle, ',')[k], ',');
    }
    var cs := [from] + trimmed + [to];
    assert cs[1..|cs| - 1] == trimmed;
    cs
  }

  /** The typed custom progression, offered only when all three fields are filled in. */
  function ManualProgression(from: string, middle: string, to: string): (p: Option<Progression>)
    ensures p.Some? <==> from != "" && middle != "" && to != ""
    ensures p.Some? ==> p.value.loop && p.value.chords == ManualChords(from, middle, to)
    ensures p.Some? ==> |p.value.chords| == Count(middle, ',') + 3
    ensures p.Some? ==> p.value.name == from + Arrow + to + " (Personalizada)"
  {
    if middle != "" && from != "" && to != "" then
      Some(CustomProgression(ManualChords(from, middle, to), from + Arrow + to + " (Personalizada)", from, to))
    else None
  }

  /**
   * Practising any suggestion loads a looping four-chord progression from
   * `from` to `to`, and the metronome then cycles through its chords in order.
   */
  lemma SuggestionCycles(from: string, to: string, k: nat, n: nat)
    requires from != "" && to != "" && k < 3
    ensures var s := Suggest(from, to).value[k];
      var p := CustomProgression(s.chords, s.name, from, to);
      p.loop && |p.chords| == 4 && NonEmptyIds(p) && Ticks(0, |p.chords|, p.loop, n) == n % |p.chords|
  {
    TicksLooping(0, 4, n);
  }
}
