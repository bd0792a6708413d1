/**
  The slice of Android's SharedPreferences that the session record uses: a
  store of typed values under keys, edited through an editor that collects
  pending changes and commits them all at once, and typed getters with a
  default for a missing key.
 */
module Preferences {
  import opened Wrappers
  import opened JavaTypes

  /**
    Preference keys. The six session keys are the constants the record
    persists under; their string values are not part of this model, only that
    they are pairwise distinct and distinct from every other key of the store.
   */
  datatype Key =
    | AuthTokenKey
    | NoteStoreUrlKey
    | WebApiUrlPrefixKey
    | EvernoteHostKey
    | UserIdKey
    | IsAppLinkedNotebookKey
    | Other(name: string)

  const SessionKeys: set<Key> :=
    {AuthTokenKey, NoteStoreUrlKey, WebApiUrlPrefixKey, EvernoteHostKey, UserIdKey, IsAppLinkedNotebookKey}

  /** A stored value; the kinds SharedPreferences can hold (a float as its IEEE bit pattern). */
  datatype Value =
    | StringValue(s: string)
    | IntValue(i: int32)
    | LongValue(l: int64)
    | FloatValue(bits: bv32)
    | BooleanValue(b: bool)
    | StringSetValue(ss: set<string>)

  type Entries = map<Key, Value>

  /**
    The changes an editor has collected and not yet committed: Some(v) puts
    v, None removes the key. A later change to the same key replaces an
    earlier one.
   */
  type Edits = map<Key, Option<Value>>

  /** The pending change `putString` records: a put of the string, or a removal for null. */
  function StringPut(v: Option<string>): Option<Value> {
    if v.Some? then Some(StringValue(v.value)) else None
  }

  /** `Editor.putString`; putting null is a removal. */
  function PutString(edits: Edits, k: Key, v: Option<string>): (r: Edits)
    ensures r.Keys == edits.Keys + {k}
    ensures r[k] == StringPut(v)
    ensures forall k' :: k' in edits && k' != k ==> r[k'] == edits[k']
  {
    edits[k := StringPut(v)]
  }

  /** `Editor.putInt`. */
  function PutInt(edits: Edits, k: Key, v: int32): (r: Edits)
    ensures r.Keys == edits.Keys + {k}
    ensures r[k] == Some(IntValue(v))
    ensures forall k' :: k' in edits && k' != k ==> r[k'] == edits[k']
  {
    edits[k := Some(IntValue(v))]
  }

  /** `Editor.putBoolean`. */
  function PutBoolean(edits: Edits, k: Key, v: bool): (r: Edits)
    ensures r.Keys == edits.Keys + {k}
    ensures r[k] == Some(BooleanValue(v))
    ensures forall k' :: k' in edits && k' != k ==> r[k'] == edits[k']
  {
    edits[k := Some(BooleanValue(v))]
  }

  /** `Editor.remove`. */
  function Remove(edits: Edits, k: Key): (r: Edits)
    ensures r.Keys == edits.Keys + {k}
    ensures r[k] == None
    ensures forall k' :: k' in edits && k' != k ==> r[k'] == edits[k']
  {
    edits[k := None]
  }

  /**
    `Editor.apply`, committed at once: a key with a pending put holds the put
    value, a key with a pending removal is absent, and every key without a
    pending change keeps its entry (or its absence).
   */
  function Commit(entries: Entries, edits: Edits): (r: Entries)
    ensures forall k :: k in r <==> if k in edits then edits[k].Some? else k in entries
    ensures forall k :: k in r && k in edits ==> r[k] == edits[k].value
    ensures forall k :: k in r && k !in edits ==> r[k] == entries[k]
  {
    map k | k in entries.Keys + edits.Keys && (k in edits ==> edits[k].Some?) ::
      if k in edits then edits[k].value else entries[k]
  }

  /**
    `getString(k, def)`: the default when `k` is absent, the stored string when
    it holds one, and a ClassCastException (Failure(k)) when it holds another kind.
   */
  function GetString(entries: Entries, k: Key, def: Option<string>): (r: Result<Option<string>, Key>)
    ensures r.Failure? <==> k in entries && !entries[k].StringValue?
    ensures r.Failure? ==> r.error == k
    ensures r.Success? ==> r.value == if k in entries then Some(entries[k].s) else def
  {
    if k !in entries then Success(def)
    else match entries[k]
      case StringValue(s) => Success(Some(s))
      case _ => Failure(k)
  }

  /** `getInt(k, def)`, with the same three outcomes as GetString. */
  function GetInt(entries: Entries, k: Key, def: int32): (r: Result<int32, Key>)
    ensures r.Failure? <==> k in entries && !entries[k].IntValue?
    ensures r.Failure? ==> r.error == k
    ensures r.Success? ==> r.value == if k in entries then entries[k].i else def
  {
    if k !in entries then Success(def)
    else match entries[k]
      case IntValue(i) => Success(i)
      case _ => Failure(k)
  }

  /** `getBoolean(k, def)`, with the same three outcomes as GetString. */
  function GetBoolean(entries: Entries, k: Key, def: bool): (r: Result<bool, Key>)
    ensures r.Failure? <==> k in entries && !entries[k].BooleanValue?
    ensures r.Failure? ==> r.error == k
    ensures r.Success? ==> r.value == if k in entries then entries[k].b else def
  {
    if k !in entries then Success(def)
    else match entries[k]
      case BooleanValue(b) => Success(b)
      case _ => Failure(k)
  }

  /** A preferences file, shared by reference between the code that reads and writes it. */
  class SharedPreferences {
    var entries: Entries

    constructor (entries: Entries)
      ensures this.entries == entries
    {
      this.entries := entries;
    }

    /** Commits an editor's pending changes. */
    method Apply(edits: Edits)
      modifies this
      ensures entries == Commit(old(entries), edits)
    {
      entries := Commit(entries, edits);
    }
  }
}
