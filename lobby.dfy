/**
 * The lobby: four-letter session codes, creating a session document and
 * joining an existing one by a typed code (upper-cased and trimmed).
 */
module Lobby {
  import opened Wrappers
  import opened JsStrings
  import opened Progressions
  import opened DocumentStore

  const Letters := "ABCDEFGHIJKLMNOPQRSTUVWXYZ"

  const BlankCodeMessage := "Por favor, digite um código de sessão."
  const DbNotReadyMessage := "Aguardando conexão com o banco de dados..."
  const NotFoundMessage := "Sessão não encontrada. Verifique o código e tente novamente."
  const JoinFailedMessage := "Erro ao conectar com a sessão. Tente novamente."
  const CreateFailedMessage := "Erro ao criar sessão. Tente novamente."

  /** A session code: four upper-case ASCII letters. */
  predicate IsSessionCode(s: string)
  {
    |s| == 4 && forall i | 0 <= i < 4 :: IsUpperLetter(s[i])
  }

  /** The k-th letter of the alphabet string is the k-th ASCII upper-case letter. */
  lemma LettersAreAlphabet(k: int)
    requires 0 <= k < |Letters|
    ensures Letters[k] == ('A' as int + k) as char && IsUpperLetter(Letters[k])
  {
  }

  /**
   * `generateSessionId`: four letters picked by index; the indices stand
   * for `Math.floor(Math.random() * 26)`, which is always in [0, 26).
   */
  method GenerateSessionId(picks: seq<int>) returns (code: string)
    requires |picks| == 4 && forall i | 0 <= i < 4 :: 0 <= picks[i] < |Letters|
    ensures IsSessionCode(code)
    ensures forall i | 0 <= i < 4 :: code[i] == Letters[picks[i]]
  {
    code := "";
    var i := 0;
    while i < 4
      invariant 0 <= i <= 4 && |code| == i
      invariant forall j | 0 <= j < i :: code[j] == Letters[picks[j]] && IsUpperLetter(code[j])
    {
      LettersAreAlphabet(picks[i]);
      code := code + [Letters[picks[i]]];
      i := i + 1;
    }
  }

  /** Every session code is the output of some choice of letter indices. */
  lemma EveryCodeCanBeGenerated(code: string)
    requires IsSessionCode(code)
    ensures var picks := seq(4, i requires 0 <= i < 4 => code[i] as int - 'A' as int);
      (forall i | 0 <= i < 4 :: 0 <= picks[i] < |Letters| && Letters[picks[i]] == code[i])
  {
    forall i | 0 <= i < 4 ensures Letters[code[i] as int - 'A' as int] == code[i] {
      LettersAreAlphabet(code[i] as int - 'A' as int);
    }
  }

  /** Trimming a string without lower-case letters leaves none. */
  lemma TrimKeepsNoLower(s: string)
    requires NoLower(s)
    ensures NoLower(Trim(s))
  {
    var lo, hi := TrimIsInfix(s);
    forall i | 0 <= i < |Trim(s)| ensures !IsLower(Trim(s)[i]) {
      assert Trim(s)[i] == s[lo + i];
    }
  }

  /**
   * The code a typed join input names: blank input (only whitespace) is
   * refused; otherwise the input upper-cased and trimmed.
   */
  function NormalizeJoinCode(input: string): (r: Result<string, string>)
    ensures r.Err? <==> AllWhitespace(input)
    ensures r.Err? ==> r.error == BlankCodeMessage
    ensures r.Ok? ==> r.value == Trim(ToUpper(input))
  {
    TrimEmptyIff(input);
    if Trim(input) == [] then Err(BlankCodeMessage) else Ok(Trim(ToUpper(input)))
  }

  /** An accepted code is non-empty, has no lower-case letter and no whitespace at either end. */
  lemma NormalizedCodeShape(input: string)
    requires NormalizeJoinCode(input).Ok?
    ensures var code := NormalizeJoinCode(input).value;
      code != [] && NoLower(code) && !IsWhitespace(code[0]) && !IsWhitespace(code[|code| - 1])
  {
    var up := ToUpper(input);
    assert Trim(up) != [] by {
      TrimEmptyIff(input);
      TrimToUpperEmptyIff(input);
    }
    TrimEnds(up);
    assert NoLower(up) by {
      forall i | 0 <= i < |up| ensures !IsLower(up[i]) {
        assert up[i] == UpperChar(input[i]);
      }
    }
    TrimKeepsNoLower(up);
  }

  /** Upper-casing a string with no lower-case letter leaves it unchanged. */
  lemma ToUpperOfNoLower(s: string)
    requires NoLower(s)
    ensures ToUpper(s) == s
  {
  }

  /** Normalising an already normalised code gives it back: normalisation is idempotent. */
  lemma NormalizeIdempotent(input: string)
    requires NormalizeJoinCode(input).Ok?
    ensures NormalizeJoinCode(NormalizeJoinCode(input).value) == NormalizeJoinCode(input)
  {
    var code := NormalizeJoinCode(input).value;
    NormalizedCodeShape(input);
    ToUpperOfNoLower(code);
    TrimOfTrimmed(code);
    assert !AllWhitespace(code) by {
      assert !IsWhitespace(code[0]);
    }
    assert NormalizeJoinCode(code).value == Trim(ToUpper(code)) == code;
  }

  /** Joining is case-insensitive: an input and its upper-cased form name the same code. */
  lemma NormalizeIgnoresCase(input: string)
    ensures NormalizeJoinCode(ToUpper(input)) == NormalizeJoinCode(input)
  {
    var up := ToUpper(input);
    assert ToUpper(up) == up;
    TrimEmptyIff(input);
    TrimEmptyIff(up);
    TrimToUpperEmptyIff(input);
  }

  /** A generated code, typed back exactly, joins that very code. */
  lemma GeneratedCodeJoins(code: string)
    requires IsSessionCode(code)
    ensures NormalizeJoinCode(code) == Ok(code)
  {
    assert NoLower(code);
    ToUpperOfNoLower(code);
    TrimOfTrimmed(code);
    TrimEmptyIff(code);
  }

  /** A code typed in any mix of cases joins that code: `abCd` names `ABCD`. */
  lemma AnyCasingJoins(input: string, code: string)
    requires IsSessionCode(code) && |input| == 4
    requires forall i | 0 <= i < 4 :: UpperChar(input[i]) == code[i]
    ensures NormalizeJoinCode(input) == Ok(code)
  {
    assert ToUpper(input) == code;
    assert !AllWhitespace(input) by {
      assert !IsWhitespace(code[0]);
    }
    TrimOfTrimmed(code);
  }

  /** The document a new session starts with. */
  function InitialSession(now: string): (d: Doc)
    ensures d.Keys == {BpmField, IsPlayingField, ProgressionField, IndexField, CreatedAtField, ParticipantsField}
    ensures d[IndexField] == VInt(0) && d[IsPlayingField] == VBool(false) && d[ProgressionField] == VProgression(Turnaround)
    ensures d[BpmField] == VInt(120) && d[CreatedAtField] == VStr(now) && d[ParticipantsField] == VStrings([])
  {
    map[BpmField := VInt(120), IsPlayingField := VBool(false), ProgressionField := VProgression(Turnaround),
        IndexField := VInt(0), CreatedAtField := VStr(now), ParticipantsField := VStrings([])]
  }

  /**
   * `handleCreateSession`: generate a code and write the initial document
   * under it. No check is made that the code is free: an existing
   * session with the same code is replaced.
   */
  method CreateSession(store: Store, dbReady: bool, picks: seq<int>, now: string, writeOk: bool)
    returns (r: Result<string, string>)
    requires |picks| == 4 && forall i | 0 <= i < 4 :: 0 <= picks[i] < |Letters|
    modifies store
    ensures !dbReady ==> r == Err(DbNotReadyMessage) && store.docs == old(store.docs)
    ensures dbReady && !writeOk ==> r == Err(CreateFailedMessage) && store.docs == old(store.docs)
    ensures dbReady && writeOk ==>
              r.Ok? && IsSessionCode(r.value) && store.docs == Put(old(store.docs), r.value, InitialSession(now))
    ensures dbReady && writeOk ==> forall i | 0 <= i < 4 :: r.value[i] == Letters[picks[i]]
  {
    if !dbReady {
      return Err(DbNotReadyMessage);
    }
    var sessionId := GenerateSessionId(picks);
    if writeOk {
      KeyOfSessionRef(sessionId);
      store.SetDoc(MakeRef(Sessions, sessionId), InitialSession(now), false);
      r := Ok(sessionId);
    } else {
      r := Err(CreateFailedMessage);
    }
  }

  /** Creating a session under a code already in use replaces that session's whole document. */
  lemma CreateReplacesCollision(docs: map<string, Doc>, code: string, now: string)
    requires code in docs
    ensures Put(docs, code, InitialSession(now))[code] == InitialSession(now)[IdField := VStr(code)]
    ensures Put(docs, code, InitialSession(now)).Keys == docs.Keys
  {
  }

  /**
   * `handleJoinSession`: blank input and an unready store are refused first;
   * then the normalised code joins when the store has that entry.
   */
  method JoinSession(store: Store, input: string, dbReady: bool, readOk: bool) returns (r: Result<string, string>)
    ensures AllWhitespace(input) ==> r == Err(BlankCodeMessage)
    ensures !AllWhitespace(input) && !dbReady ==> r == Err(DbNotReadyMessage)
    ensures !AllWhitespace(input) && dbReady && !readOk ==> r == Err(JoinFailedMessage)
    ensures !AllWhitespace(input) && dbReady && readOk ==>
              var code := NormalizeJoinCode(input).value;
              r == if code in store.docs then Ok(code) else Err(NotFoundMessage)
    ensures r.Ok? ==> r.value in store.docs && r.value != []
  {
    var normalized := NormalizeJoinCode(input);
    if normalized.Err? {
      return Err(BlankCodeMessage);
    }
    if !dbReady {
      return Err(DbNotReadyMessage);
    }
    if !readOk {
      return Err(JoinFailedMessage);
    }
    var sessionId := normalized.value;
    NormalizedCodeShape(input);
    KeyOfSessionRef(sessionId);
    var sessionDoc := store.GetDoc(MakeRef(Sessions, sessionId));
    if sessionDoc.Exists() {
      r := Ok(sessionId);
    } else {
      r := Err(NotFoundMessage);
    }
  }
}
