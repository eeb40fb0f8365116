/**
 * The in-memory stand-in for the session document service: a dictionary
 * from session id to document with `doc`, `setDoc` and `getDoc`.
 * `setDoc` replaces the whole entry even when the caller asks for a merge.
 */
module DocumentStore {
  import opened Wrappers
  import opened Progressions

  /** A field value of a session document. */
  datatype Value =
    | VInt(i: int)
    | VBool(b: bool)
    | VStr(s: string)
    | VStrings(items: seq<string>)
    | VProgression(p: Progression)
    | VUpdater  // a JavaScript function value (the metronome's index updater)

  /** A document is a JavaScript object: field name to value. */
  type Doc = map<string, Value>

  const IdField := "id"
  const BpmField := "bpm"
  const IsPlayingField := "isPlaying"
  const ProgressionField := "currentProgression"
  const IndexField := "currentChordIndex"
  const CreatedAtField := "createdAt"
  const ParticipantsField := "participants"
  const LastUpdatedField := "lastUpdated"

  /** The collection all sessions live in. */
  const Sessions := "sessions"

  /** A document reference as `doc(collection, id)` builds it. */
  datatype DocRef = DocRef(id: string, path: string)

  /** `doc(collection, id)`: the id and the path `collection/id`. */
  function MakeRef(collection: string, id: string): (r: DocRef)
    ensures r.id == id && r.path == collection + "/" + id
  {
    DocRef(id, collection + "/" + id)
  }

  /** The index just after the last slash before `j` (0 when there is none). */
  function SegmentStart(path: string, j: nat): (i: nat)
    requires j <= |path|
    ensures i <= j
    ensures forall k | i <= k < j :: path[k] != '/'
    ensures i > 0 ==> path[i - 1] == '/'
    decreases j
  {
    if j == 0 || path[j - 1] == '/' then j else SegmentStart(path, j - 1)
  }

  /** `path.split('/').pop()`: what follows the last slash (the whole path when there is none). */
  function LastSegment(path: string): (r: string)
    ensures |r| <= |path| && r == path[|path| - |r|..]
    ensures '/' !in r
    ensures |r| < |path| ==> path[|path| - |r| - 1] == '/'
  {
    path[SegmentStart(path, |path|)..]
  }

  /** The entry a reference names: its id, else the last path segment, else "unknown". */
  function KeyOf(ref: DocRef): (k: string)
    ensures k != ""
    ensures ref.id != "" ==> k == ref.id
    ensures ref.id == "" && LastSegment(ref.path) != "" ==> k == LastSegment(ref.path)
    ensures ref.id == "" && LastSegment(ref.path) == "" ==> k == "unknown"
  {
    if ref.id != "" then ref.id
    else if LastSegment(ref.path) != "" then LastSegment(ref.path)
    else "unknown"
  }

  /** A session's reference names the session's own entry; an empty id falls back to "unknown". */
  lemma KeyOfSessionRef(id: string)
    ensures id != "" ==> KeyOf(MakeRef(Sessions, id)) == id
    ensures id == "" ==> KeyOf(MakeRef(Sessions, id)) == "unknown"
  {
    if id == "" {
      var path := Sessions + "/" + id;
      assert path[|path| - 1] == '/';
    }
  }

  /** The dictionary after `setDoc`: the entry is `{...data, id: key}`, whatever was there before. */
  function Put(docs: map<string, Doc>, key: string, data: Doc): (r: map<string, Doc>)
    ensures r.Keys == docs.Keys + {key}
    ensures r[key] == data[IdField := VStr(key)]
    ensures forall k | k in docs && k != key :: r[k] == docs[k]
  {
    docs[key := data[IdField := VStr(key)]]
  }

  /**
   * A field-level merge, which is what the caller's `{merge: true}` asks
   * for and the in-memory store does not do; kept only to state the difference.
   */
  function Merge(docs: map<string, Doc>, key: string, data: Doc): map<string, Doc>
  {
    var prior := if key in docs then docs[key] else map[];
    docs[key := (prior + data)[IdField := VStr(key)]]
  }

  /**
   * Two successive writes: the entry holds only the second write's fields,
   * so a field written first and not repeated is gone -- where a merge would have kept it.
   */
  lemma OverwriteForgetsEarlierFields(docs: map<string, Doc>, key: string, first: Doc, second: Doc, f: string)
    requires f in first && f !in second && f != IdField
    ensures f !in Put(Put(docs, key, first), key, second)[key]
    ensures f in Merge(Merge(docs, key, first), key, second)[key]
    ensures Merge(Merge(docs, key, first), key, second)[key][f] == first[f]
  {
  }

  /** The result of `getDoc`: `exists()` and `data()` of the snapshot. */
  datatype Snapshot = Found(data: Doc) | Missing
  {
    predicate Exists() { Found? }

    function Data(): (d: Option<Doc>)
      ensures d.Some? <==> Exists()
    {
      if Found? then Some(data) else None
    }
  }

  /** The mock's `mockCollections` dictionary and its two operations. */
  class Store {
    var docs: map<string, Doc>

    constructor ()
      ensures docs == map[]
    {
      docs := map[];
    }

    /** `setDoc(ref, data, options)`: the options (`{merge: true}`) are ignored. */
    method SetDoc(ref: DocRef, data: Doc, merge: bool)
      modifies this
      ensures docs == Put(old(docs), KeyOf(ref), data)
    {
      var sessionId := KeyOf(ref);
      docs := docs[sessionId := data[IdField := VStr(sessionId)]];
    }

    /** `getDoc(ref)`: found exactly when the key is present, with that entry's data. */
    method GetDoc(ref: DocRef) returns (snap: Snapshot)
      ensures snap.Exists() <==> KeyOf(ref) in docs
      ensures snap.Exists() ==> snap.Data() == Some(docs[KeyOf(ref)])
    {
      var sessionId := KeyOf(ref);
      var found := sessionId in docs;
      snap := if found then Found(docs[sessionId]) else Missing;
    }
  }
}
