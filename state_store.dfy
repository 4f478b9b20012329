/**
 * The run-state store (`_load_state`, `_save_state`): a mapping from job name
 * to the time of its last successful run, kept in a YAML file. YAML itself is
 * abstracted: a file holds the document the YAML loader would produce, and
 * the textual timestamp format (`isoformat`) and its parser
 * (`dateparser.parse`) are parameters.
 */
module StateStore {
  import opened Wrappers
  import opened Schedule
  import opened KeyOrder

  /** One `key: value` line of the state document; the value may be YAML null. */
  datatype Entry = Entry(key: string, value: Option<string>)

  /** A loaded state document: an empty document loads as null. */
  datatype StateDoc = Null | Mapping(entries: seq<Entry>)

  /** Job name to the time its last run completed. */
  type RunState = map<string, Timestamp>

  /** `dateparser.parse` applied to a stored timestamp. */
  type TimestampParser = string -> Option<Timestamp>

  /** `datetime.isoformat`. */
  type TimestampFormatter = Timestamp -> string

  /** `state.get(name)`. */
  function Get(state: RunState, name: string): Option<Timestamp> {
    if name in state then Some(state[name]) else None
  }

  /** `yaml.safe_load(...) or {}`: a null document has no entries. */
  function EntriesOf(doc: StateDoc): seq<Entry> {
    match doc
    case Null => []
    case Mapping(es) => es
  }

  /** The timestamp an entry contributes: only a non-empty value that parses. */
  function ParseEntry(e: Entry, parseTs: TimestampParser): (r: Option<Timestamp>)
    ensures r.Some? ==> e.value.Some? && e.value.value != ""
  {
    if e.value.Some? && e.value.value != "" then parseTs(e.value.value) else None
  }

  /** The state built from the entries in document order, skipping the invalid ones. */
  function Loaded(es: seq<Entry>, parseTs: TimestampParser): RunState
    decreases |es|
  {
    if es == [] then map[]
    else
      var prior := Loaded(es[..|es| - 1], parseTs);
      var e := es[|es| - 1];
      match ParseEntry(e, parseTs)
      case None => prior
      case Some(t) => prior[e.key := t]
  }

  /** The state loaded from `path`: empty when no file exists there. */
  function StateOnDisk(files: map<string, StateDoc>, path: string, parseTs: TimestampParser): RunState {
    if path in files then Loaded(EntriesOf(files[path]), parseTs) else map[]
  }

  /** No key occurs twice in a document (it was a dictionary). */
  predicate DistinctKeys(es: seq<Entry>) {
    forall i, j :: 0 <= i < j < |es| ==> es[i].key != es[j].key
  }

  /** A document the YAML loader can produce: a null document or a mapping, whose keys are distinct. */
  predicate IsDict(doc: StateDoc) {
    DistinctKeys(EntriesOf(doc))
  }

  /** The formatter's output is non-empty and parses back to the same timestamp. */
  ghost predicate RoundTrips(parseTs: TimestampParser, formatTs: TimestampFormatter) {
    forall t :: formatTs(t) != "" && parseTs(formatTs(t)) == Some(t)
  }

  /** The keys a document holds. */
  function KeysOf(doc: seq<Entry>): set<string> {
    set i | 0 <= i < |doc| :: doc[i].key
  }

  /** One entry per key of `keys`, in that order, holding the key's formatted timestamp. */
  function EntriesFor(keys: seq<string>, state: RunState, formatTs: TimestampFormatter): (doc: seq<Entry>)
    requires forall i :: 0 <= i < |keys| ==> keys[i] in state
    ensures |doc| == |keys|
    ensures forall i {:trigger doc[i]} :: 0 <= i < |doc| ==> doc[i] == Entry(keys[i], Some(formatTs(state[keys[i]])))
  {
    if keys == [] then [] else [Entry(keys[0], Some(formatTs(state[keys[0]])))] + EntriesFor(keys[1..], state, formatTs)
  }

  /** `{k: v.isoformat() for k, v in state.items()}` dumped with sorted keys. */
  function Serialise(state: RunState, formatTs: TimestampFormatter): (doc: seq<Entry>)
    ensures |doc| == |state|
  {
    EntriesFor(SortedKeys(state.Keys), state, formatTs)
  }

  /**
   * The written document has one entry per key of the state and no other
   * key, each holding its formatted timestamp, in ascending key order.
   */
  lemma SerialisedDocument(state: RunState, formatTs: TimestampFormatter)
    ensures var doc := Serialise(state, formatTs);
      && (forall i :: 0 <= i < |doc| ==> doc[i].key in state && doc[i].value == Some(formatTs(state[doc[i].key])))
      && KeysOf(doc) == state.Keys
      && (forall i, j :: 0 <= i < j < |doc| ==> Precedes(doc[i].key, doc[j].key))
  {
    EntriesForKeys(SortedKeys(state.Keys), state, formatTs);
  }

  /** The document written for `keys` holds exactly those keys. */
  lemma EntriesForKeys(keys: seq<string>, state: RunState, formatTs: TimestampFormatter)
    requires forall i :: 0 <= i < |keys| ==> keys[i] in state
    ensures forall k :: k in KeysOf(EntriesFor(keys, state, formatTs)) <==> k in keys
  {
    var doc := EntriesFor(keys, state, formatTs);
    forall k | k in keys
      ensures k in KeysOf(doc)
    {
      var i :| 0 <= i < |keys| && keys[i] == k;
      assert doc[i].key == k;
    }
  }

  /** The files the state store reads and writes, by path. */
  class FileSystem {
    var files: map<string, StateDoc>
    /**
     * The writes that raise, each numbered by how many writes succeeded
     * before it.
     */
    const failingWrites: set<nat>
    /**
     * The failing writes that raise only after opening the file, so that
     * the file is already truncated (a full disk, say); a failing write not
     * in this set raises on opening and leaves the file as it was (a
     * read-only file, say).
     */
    const truncatingWrites: set<nat>
    /** Every successful write, in order. */
    var writes: seq<(string, StateDoc)>

    constructor (files: map<string, StateDoc>, failingWrites: set<nat>, truncatingWrites: set<nat>)
      ensures this.files == files && this.failingWrites == failingWrites
      ensures this.truncatingWrites == truncatingWrites && writes == []
    {
      this.files := files;
      this.failingWrites := failingWrites;
      this.truncatingWrites := truncatingWrites;
      writes := [];
    }

    /**
     * `path.write_text(...)`: overwrites the whole file, or raises; a write
     * that raises after truncating leaves an empty file, which loads as the
     * null document.
     */
    method Write(path: string, doc: StateDoc) returns (ok: bool)
      modifies this
      ensures ok <==> |old(writes)| !in failingWrites
      ensures files == if ok then old(files)[path := doc]
                       else if |old(writes)| in truncatingWrites then old(files)[path := StateDoc.Null]
                       else old(files)
      ensures writes == if ok then old(writes) + [(path, doc)] else old(writes)
    {
      ok := |writes| !in failingWrites;
      if ok {
        files := files[path := doc];
        writes := writes + [(path, doc)];
      } else if |writes| in truncatingWrites {
        files := files[path := StateDoc.Null];
      }
    }
  }

  /** `_load_state`: a missing file gives the empty state; invalid entries are dropped one by one. */
  method LoadState(fs: FileSystem, path: string, parseTs: TimestampParser) returns (state: RunState)
    requires path in fs.files ==> IsDict(fs.files[path])
    ensures state == StateOnDisk(fs.files, path, parseTs)
  {
    if path !in fs.files {
      return map[];
    }
    var data := EntriesOf(fs.files[path]);
    state := map[];
    for i := 0 to |data|
      invariant state == Loaded(data[..i], parseTs)
    {
      assert data[..i + 1][..i] == data[..i];
      var e := data[i];
      var parsed := if e.value.Some? && e.value.value != "" then parseTs(e.value.value) else None;
      if parsed.Some? {
        state := state[e.key := parsed.value];
      }
    }
    assert data[..|data|] == data;
  }

  /** `_save_state`: overwrites the file with the whole state, keys sorted. */
  method SaveState(fs: FileSystem, path: string, state: RunState, formatTs: TimestampFormatter) returns (ok: bool)
    modifies fs
    ensures ok <==> |old(fs.writes)| !in fs.failingWrites
    ensures fs.files == if ok then old(fs.files)[path := Mapping(Serialise(state, formatTs))]
                        else if |old(fs.writes)| in fs.truncatingWrites then old(fs.files)[path := StateDoc.Null]
                        else old(fs.files)
    ensures fs.writes == if ok then old(fs.writes) + [(path, Mapping(Serialise(state, formatTs)))] else old(fs.writes)
  {
    ok := fs.Write(path, Mapping(Serialise(state, formatTs)));
  }

  /** A missing file, and a file holding an empty document, both load as the empty state. */
  lemma NothingToLoad(files: map<string, StateDoc>, path: string, parseTs: TimestampParser)
    requires path !in files || files[path] == StateDoc.Null || files[path] == Mapping([])
    ensures StateOnDisk(files, path, parseTs) == map[]
  {
  }

  /** Every loaded job name is a key of the document whose entry holds that timestamp. */
  lemma {:induction false} LoadedKeyHasEntry(es: seq<Entry>, k: string, parseTs: TimestampParser)
    requires k in Loaded(es, parseTs)
    ensures exists i :: 0 <= i < |es| && es[i].key == k && ParseEntry(es[i], parseTs) == Some(Loaded(es, parseTs)[k])
    decreases |es|
  {
    var init := es[..|es| - 1];
    var last := es[|es| - 1];
    if k == last.key && ParseEntry(last, parseTs).Some? {
      assert es[|es| - 1].key == k;
    } else {
      LoadedKeyHasEntry(init, k, parseTs);
      var i :| 0 <= i < |init| && init[i].key == k && ParseEntry(init[i], parseTs) == Some(Loaded(init, parseTs)[k]);
      assert es[i] == init[i];
    }
  }

  /** Loading keeps only keys of the document whose entry holds a valid timestamp. */
  lemma LoadedKeysAreValidEntries(es: seq<Entry>, parseTs: TimestampParser)
    ensures forall k :: k in Loaded(es, parseTs) ==>
      exists i :: 0 <= i < |es| && es[i].key == k && ParseEntry(es[i], parseTs) == Some(Loaded(es, parseTs)[k])
  {
    forall k | k in Loaded(es, parseTs)
      ensures exists i :: 0 <= i < |es| && es[i].key == k && ParseEntry(es[i], parseTs) == Some(Loaded(es, parseTs)[k])
    {
      LoadedKeyHasEntry(es, k, parseTs);
    }
  }

  lemma {:induction false} LoadedEntry(es: seq<Entry>, i: nat, parseTs: TimestampParser)
    requires DistinctKeys(es) && i < |es|
    ensures es[i].key in Loaded(es, parseTs) <==> ParseEntry(es[i], parseTs).Some?
    ensures es[i].key in Loaded(es, parseTs) ==> Loaded(es, parseTs)[es[i].key] == ParseEntry(es[i], parseTs).value
    decreases |es|
  {
    var init := es[..|es| - 1];
    var last := es[|es| - 1];
    assert DistinctKeys(init) by {
      forall a, b | 0 <= a < b < |init|
        ensures init[a].key != init[b].key
      {
        assert init[a] == es[a] && init[b] == es[b];
      }
    }
    if i == |es| - 1 {
      forall j | 0 <= j < |init|
        ensures init[j].key != last.key
      {
        assert init[j] == es[j];
      }
      if last.key in Loaded(init, parseTs) {
        LoadedKeyHasEntry(init, last.key, parseTs);
        assert false;
      }
    } else {
      assert es[i] == init[i];
      LoadedEntry(init, i, parseTs);
    }
  }

  /**
   * In a document without repeated keys, an entry's key is loaded exactly
   * when its value is non-empty and parses, and then maps to the parsed value.
   */
  lemma LoadedExactlyValidEntries(es: seq<Entry>, parseTs: TimestampParser)
    requires DistinctKeys(es)
    ensures forall i :: 0 <= i < |es| ==>
      (es[i].key in Loaded(es, parseTs) <==> ParseEntry(es[i], parseTs).Some?) &&
      (es[i].key in Loaded(es, parseTs) ==> Loaded(es, parseTs)[es[i].key] == ParseEntry(es[i], parseTs).value)
  {
    forall i | 0 <= i < |es|
      ensures es[i].key in Loaded(es, parseTs) <==> ParseEntry(es[i], parseTs).Some?
      ensures es[i].key in Loaded(es, parseTs) ==> Loaded(es, parseTs)[es[i].key] == ParseEntry(es[i], parseTs).value
    {
      LoadedEntry(es, i, parseTs);
    }
  }

  /** Dropping an invalid entry from the document does not change what loads from it. */
  lemma {:induction false} InvalidEntryIgnored(es: seq<Entry>, i: nat, parseTs: TimestampParser)
    requires i < |es| && ParseEntry(es[i], parseTs).None?
    ensures Loaded(es, parseTs) == Loaded(es[..i] + es[i + 1..], parseTs)
    decreases |es|
  {
    var without := es[..i] + es[i + 1..];
    if i == |es| - 1 {
      assert without == es[..|es| - 1];
    } else {
      var init := es[..|es| - 1];
      var last := es[|es| - 1];
      var initWithout := init[..i] + init[i + 1..];
      InvalidEntryIgnored(init, i, parseTs);
      assert es == init + [last];
      assert without == initWithout + [last];
      LoadedSnoc(init, last, parseTs);
      LoadedSnoc(initWithout, last, parseTs);
    }
  }

  /** Loading a document with one more entry at the end. */
  lemma LoadedSnoc(es: seq<Entry>, e: Entry, parseTs: TimestampParser)
    ensures Loaded(es + [e], parseTs) ==
      match ParseEntry(e, parseTs)
      case None => Loaded(es, parseTs)
      case Some(t) => Loaded(es, parseTs)[e.key := t]
  {
    assert (es + [e])[..|es|] == es;
  }

  /** A serialised state names no job twice. */
  lemma SerialisedKeysDistinct(state: RunState, formatTs: TimestampFormatter)
    ensures DistinctKeys(Serialise(state, formatTs))
  {
    var doc := Serialise(state, formatTs);
    SerialisedDocument(state, formatTs);
    forall i, j | 0 <= i < j < |doc|
      ensures doc[i].key != doc[j].key
    {
      Irreflexive(doc[i].key);
    }
  }

  lemma SerialisedEntryLoads(state: RunState, k: string, parseTs: TimestampParser, formatTs: TimestampFormatter)
    requires k in state
    requires formatTs(state[k]) != "" && parseTs(formatTs(state[k])) == Some(state[k])
    ensures k in Loaded(Serialise(state, formatTs), parseTs)
    ensures Loaded(Serialise(state, formatTs), parseTs)[k] == state[k]
  {
    var doc := Serialise(state, formatTs);
    SerialisedDocument(state, formatTs);
    SerialisedKeysDistinct(state, formatTs);
    assert k in KeysOf(doc);
    var i :| 0 <= i < |doc| && doc[i].key == k;
    assert doc[i].value == Some(formatTs(state[k]));
    assert ParseEntry(doc[i], parseTs) == Some(state[k]);
    LoadedEntry(doc, i, parseTs);
    var loaded := Loaded(doc, parseTs);
    assert k in loaded && loaded[k] == state[k];
  }

  lemma SerialisedAddsNoKey(state: RunState, k: string, parseTs: TimestampParser, formatTs: TimestampFormatter)
    requires k in Loaded(Serialise(state, formatTs), parseTs)
    ensures k in state
  {
    var doc := Serialise(state, formatTs);
    LoadedKeyHasEntry(doc, k, parseTs);
  }

  /** Saving a state and loading it back gives the same state. */
  lemma SaveLoadRoundTrip(state: RunState, parseTs: TimestampParser, formatTs: TimestampFormatter)
    requires RoundTrips(parseTs, formatTs)
    ensures Loaded(Serialise(state, formatTs), parseTs) == state
  {
    var loaded := Loaded(Serialise(state, formatTs), parseTs);
    forall k | k in state
      ensures k in loaded && loaded[k] == state[k]
    {
      var t := state[k];
      assert formatTs(t) != "" && parseTs(formatTs(t)) == Some(t);
      SerialisedEntryLoads(state, k, parseTs, formatTs);
    }
    forall k | k in loaded
      ensures k in state
    {
      SerialisedAddsNoKey(state, k, parseTs, formatTs);
    }
  }
}
