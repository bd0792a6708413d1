/**
  AuthenticationResult: the session record left by a successful OAuth
  authorization. Six fields are persisted to, restored from and cleared out of
  the preferences store; four business-account fields live only in memory.
 */
module Authentication {
  import opened Wrappers
  import opened JavaTypes
  import opened UrlPrefix
  import opened Preferences

  /** The six persisted fields, as one value. */
  datatype Session = Session(
    authToken: Option<string>,
    noteStoreUrl: Option<string>,
    webApiUrlPrefix: Option<string>,
    evernoteHost: Option<string>,
    userId: int32,
    isAppLinkedNotebook: bool)

  /** The four business-account fields, which are never persisted. */
  datatype Business<User> = Business(
    noteStoreUrl: Option<string>,
    authToken: Option<string>,
    authTokenExpiration: int64,
    user: Option<User>)

  /** What restore reads from a store holding none of the session keys. */
  const RestoreDefaults: Session := Session(None, None, None, None, -1, false)

  /** The business fields of a new record: Java's null and 0 defaults. */
  function NoBusiness<User>(): Business<User> {
    Business(None, None, 0, None)
  }

  /** The kind of value each session key is written and read with. */
  predicate KindFits(k: Key, v: Value) {
    match k
    case UserIdKey => v.IntValue?
    case IsAppLinkedNotebookKey => v.BooleanValue?
    case Other(_) => true
    case _ => v.StringValue?
  }

  /** Every session key present in the store holds a value of its own kind. */
  predicate SessionEntriesWellTyped(entries: Entries) {
    forall k :: k in entries ==> KindFits(k, entries[k])
  }

  /** The editor chain of `persist`: six puts, one per session key. */
  function PersistEdits(s: Session): (r: Edits)
    ensures r.Keys == SessionKeys
  {
    var e0: Edits := map[];
    var e1 := PutString(e0, AuthTokenKey, s.authToken);
    var e2 := PutString(e1, NoteStoreUrlKey, s.noteStoreUrl);
    var e3 := PutString(e2, WebApiUrlPrefixKey, s.webApiUrlPrefix);
    var e4 := PutString(e3, EvernoteHostKey, s.evernoteHost);
    var e5 := PutInt(e4, UserIdKey, s.userId);
    PutBoolean(e5, IsAppLinkedNotebookKey, s.isAppLinkedNotebook)
  }

  /**
    The persist chain puts each string field (a removal for null), the user ID
    as an int and the flag as a boolean; none of the six puts is overridden by
    a later one.
   */
  lemma PersistEditsPutEveryField(s: Session)
    ensures PersistEdits(s)[AuthTokenKey] == StringPut(s.authToken)
    ensures PersistEdits(s)[NoteStoreUrlKey] == StringPut(s.noteStoreUrl)
    ensures PersistEdits(s)[WebApiUrlPrefixKey] == StringPut(s.webApiUrlPrefix)
    ensures PersistEdits(s)[EvernoteHostKey] == StringPut(s.evernoteHost)
    ensures PersistEdits(s)[UserIdKey] == Some(IntValue(s.userId))
    ensures PersistEdits(s)[IsAppLinkedNotebookKey] == Some(BooleanValue(s.isAppLinkedNotebook))
  {
  }

  /** The editor chain of `clear`: six removals, one per session key. */
  function ClearEdits(): (r: Edits)
    ensures r.Keys == SessionKeys
    ensures forall k :: k in r ==> r[k] == None
  {
    var e0: Edits := map[];
    var e1 := Remove(e0, AuthTokenKey);
    var e2 := Remove(e1, NoteStoreUrlKey);
    var e3 := Remove(e2, WebApiUrlPrefixKey);
    var e4 := Remove(e3, EvernoteHostKey);
    var e5 := Remove(e4, UserIdKey);
    Remove(e5, IsAppLinkedNotebookKey)
  }

  /**
    What `restore` does to the persisted fields `s`, reading the session keys
    in source order: each getter's result is assigned before the next is
    called, so when a getter throws (Some(k) in the second component) the
    fields read before key k already hold their new values and the rest keep
    their old ones.
   */
  function RestoreFrom(entries: Entries, s: Session): (r: (Session, Option<Key>))
    ensures r.1 == None <==> SessionEntriesWellTyped(entries)
    ensures r.1.Some? ==> r.1.value in SessionKeys && r.1.value in entries && !KindFits(r.1.value, entries[r.1.value])
    ensures r.1 == None ==> r.0 == Session(
      if AuthTokenKey in entries then Some(entries[AuthTokenKey].s) else None,
      if NoteStoreUrlKey in entries then Some(entries[NoteStoreUrlKey].s) else None,
      if WebApiUrlPrefixKey in entries then Some(entries[WebApiUrlPrefixKey].s) else None,
      if EvernoteHostKey in entries then Some(entries[EvernoteHostKey].s) else None,
      if UserIdKey in entries then entries[UserIdKey].i else -1,
      if IsAppLinkedNotebookKey in entries then entries[IsAppLinkedNotebookKey].b else false)
  {
    match GetString(entries, AuthTokenKey, None)
    case Failure(k) => (s, Some(k))
    case Success(authToken) =>
      var s := s.(authToken := authToken);
      match GetString(entries, NoteStoreUrlKey, None)
      case Failure(k) => (s, Some(k))
      case Success(noteStoreUrl) =>
        var s := s.(noteStoreUrl := noteStoreUrl);
        match GetString(entries, WebApiUrlPrefixKey, None)
        case Failure(k) => (s, Some(k))
        case Success(webApiUrlPrefix) =>
          var s := s.(webApiUrlPrefix := webApiUrlPrefix);
          match GetString(entries, EvernoteHostKey, None)
          case Failure(k) => (s, Some(k))
          case Success(evernoteHost) =>
            var s := s.(evernoteHost := evernoteHost);
            match GetInt(entries, UserIdKey, -1)
            case Failure(k) => (s, Some(k))
            case Success(userId) =>
              var s := s.(userId := userId);
              match GetBoolean(entries, IsAppLinkedNotebookKey, false)
              case Failure(k) => (s, Some(k))
              case Success(isAppLinkedNotebook) =>
                (s.(isAppLinkedNotebook := isAppLinkedNotebook), None)
  }

  /** The session keys in the order `restore` reads them. */
  const RestoreOrder: seq<Key> :=
    [AuthTokenKey, NoteStoreUrlKey, WebApiUrlPrefixKey, EvernoteHostKey, UserIdKey, IsAppLinkedNotebookKey]

  /** Key `k` is absent or holds a value of its own kind, so its getter does not throw. */
  predicate Readable(entries: Entries, k: Key) {
    k !in entries || KindFits(k, entries[k])
  }

  /** The field stored under key `k` is the same in `a` and `b`. */
  predicate SameField(a: Session, b: Session, k: Key) {
    match k
    case AuthTokenKey => a.authToken == b.authToken
    case NoteStoreUrlKey => a.noteStoreUrl == b.noteStoreUrl
    case WebApiUrlPrefixKey => a.webApiUrlPrefix == b.webApiUrlPrefix
    case EvernoteHostKey => a.evernoteHost == b.evernoteHost
    case UserIdKey => a.userId == b.userId
    case IsAppLinkedNotebookKey => a.isAppLinkedNotebook == b.isAppLinkedNotebook
    case Other(_) => true
  }

  /** The field of `a` stored under a readable key `k` holds what its getter returns: the stored value or the default. */
  predicate HoldsRead(a: Session, entries: Entries, k: Key)
    requires Readable(entries, k)
  {
    match k
    case AuthTokenKey => a.authToken == (if k in entries then Some(entries[k].s) else None)
    case NoteStoreUrlKey => a.noteStoreUrl == (if k in entries then Some(entries[k].s) else None)
    case WebApiUrlPrefixKey => a.webApiUrlPrefix == (if k in entries then Some(entries[k].s) else None)
    case EvernoteHostKey => a.evernoteHost == (if k in entries then Some(entries[k].s) else None)
    case UserIdKey => a.userId == (if k in entries then entries[k].i else -1)
    case IsAppLinkedNotebookKey => a.isAppLinkedNotebook == (if k in entries then entries[k].b else false)
    case Other(_) => true
  }

  /**
    When restore throws at the i-th key of the reading order, that key is the
    first unreadable one: every earlier key is readable and its field holds the
    value read, while the failing key's field and every later one keep their
    old values.
   */
  lemma RestoreStopsAtFirstUnreadable(entries: Entries, s: Session, i: nat)
    requires i < |RestoreOrder| && RestoreFrom(entries, s).1 == Some(RestoreOrder[i])
    ensures !Readable(entries, RestoreOrder[i])
    ensures forall j :: 0 <= j < i ==>
      Readable(entries, RestoreOrder[j]) && HoldsRead(RestoreFrom(entries, s).0, entries, RestoreOrder[j])
    ensures forall j :: i <= j < |RestoreOrder| ==> SameField(RestoreFrom(entries, s).0, s, RestoreOrder[j])
  {
  }

  /** A restore that does not throw overwrites all six fields: its outcome does not depend on their old values. */
  lemma RestoreOverwritesAllOnSuccess(entries: Entries, s: Session, s': Session)
    requires RestoreFrom(entries, s).1 == None
    ensures RestoreFrom(entries, s') == RestoreFrom(entries, s)
  {
  }

  /** Persisting leaves every session key holding a value of its own kind, whatever the store held before. */
  lemma PersistedStoreWellTyped(entries: Entries, s: Session)
    ensures SessionEntriesWellTyped(Commit(entries, PersistEdits(s)))
  {
  }

  /** Persisting changes no key outside the six session keys. */
  lemma PersistOnlyTouchesSessionKeys(entries: Entries, s: Session)
    ensures Commit(entries, PersistEdits(s)) - SessionKeys == entries - SessionKeys
  {
    var after := Commit(entries, PersistEdits(s));
    assert (after - SessionKeys).Keys == (entries - SessionKeys).Keys;
  }

  /** Clearing removes exactly the six session keys. */
  lemma ClearRemovesExactlySessionKeys(entries: Entries)
    ensures Commit(entries, ClearEdits()) == entries - SessionKeys
  {
  }

  /** Persist followed by restore gives back all six persisted fields, whatever the store held before and whatever the restoring record held. */
  lemma PersistThenRestore(entries: Entries, s: Session, prior: Session)
    ensures RestoreFrom(Commit(entries, PersistEdits(s)), prior) == (s, None)
  {
  }

  /** Clear followed by restore yields the defaults: no token, URL, prefix or host, user ID -1, flag false. */
  lemma ClearThenRestore(entries: Entries, prior: Session)
    ensures RestoreFrom(Commit(entries, ClearEdits()), prior) == (RestoreDefaults, None)
  {
  }

  class AuthenticationResult<User> {
    var authToken: Option<string>
    var noteStoreUrl: Option<string>
    var webApiUrlPrefix: Option<string>
    var evernoteHost: Option<string>
    var userId: int32
    var isAppLinkedNotebook: bool

    var businessNoteStoreUrl: Option<string>
    var businessAuthToken: Option<string>
    var businessAuthTokenExpiration: int64
    var businessUser: Option<User>

    /** The persisted fields as one value. */
    function Persisted(): Session
      reads this
    {
      Session(authToken, noteStoreUrl, webApiUrlPrefix, evernoteHost, userId, isAppLinkedNotebook)
    }

    /** The business fields as one value. */
    function BusinessFields(): Business<User>
      reads this
    {
      Business(businessNoteStoreUrl, businessAuthToken, businessAuthTokenExpiration, businessUser)
    }

    /** The web-API prefix and the host are the ones derived from the NoteStore URL. */
    predicate DerivedFromNoteStoreUrl(parseHost: string -> Option<string>)
      reads this
    {
      noteStoreUrl.Some? &&
      webApiUrlPrefix == Some(ParseWebApiUrlPrefix(noteStoreUrl.value)) &&
      evernoteHost == parseHost(noteStoreUrl.value)
    }

    /** The six-argument constructor: stores its arguments verbatim. */
    constructor (authToken: Option<string>, noteStoreUrl: Option<string>, webApiUrlPrefix: Option<string>,
                 evernoteHost: Option<string>, userId: int32, isAppLinkedNotebook: bool)
      ensures Persisted() == Session(authToken, noteStoreUrl, webApiUrlPrefix, evernoteHost, userId, isAppLinkedNotebook)
      ensures BusinessFields() == NoBusiness()
    {
      this.authToken := authToken;
      this.noteStoreUrl := noteStoreUrl;
      this.webApiUrlPrefix := webApiUrlPrefix;
      this.evernoteHost := evernoteHost;
      this.userId := userId;
      this.isAppLinkedNotebook := isAppLinkedNotebook;
      this.businessNoteStoreUrl := None;
      this.businessAuthToken := None;
      this.businessAuthTokenExpiration := 0;
      this.businessUser := None;
    }

    /**
      The three-argument constructor: derives the web-API prefix and the host
      from the NoteStore URL and leaves the user ID unknown (-1). `parseHost`
      stands for Android's URI host parser.
     */
    constructor FromNoteStoreUrl(authToken: Option<string>, noteStoreUrl: string, isAppLinkedNotebook: bool,
                                 parseHost: string -> Option<string>)
      ensures Persisted() == Session(authToken, Some(noteStoreUrl), Some(ParseWebApiUrlPrefix(noteStoreUrl)),
                                     parseHost(noteStoreUrl), -1, isAppLinkedNotebook)
      ensures DerivedFromNoteStoreUrl(parseHost)
      ensures BusinessFields() == NoBusiness()
    {
      this.authToken := authToken;
      this.noteStoreUrl := Some(noteStoreUrl);
      this.webApiUrlPrefix := Some(ParseWebApiUrlPrefix(noteStoreUrl));
      this.evernoteHost := parseHost(noteStoreUrl);
      this.userId := -1;
      this.isAppLinkedNotebook := isAppLinkedNotebook;
      this.businessNoteStoreUrl := None;
      this.businessAuthToken := None;
      this.businessAuthTokenExpiration := 0;
      this.businessUser := None;
    }

    /**
      The constructor that restores from preferences: a record with Java's
      default field values on which restore is run. When restore throws, no
      record is produced and the key whose value has the wrong kind is returned.
     */
    static method FromPreferences(pref: SharedPreferences) returns (r: Result<AuthenticationResult<User>, Key>)
      ensures r.Failure? <==> !SessionEntriesWellTyped(pref.entries)
      ensures r.Failure? ==> r.error in SessionKeys && r.error in pref.entries && !KindFits(r.error, pref.entries[r.error])
      ensures r.Success? ==> fresh(r.value) && r.value.BusinessFields() == NoBusiness()
      ensures r.Success? ==> r.value.Persisted() == RestoreFrom(pref.entries, RestoreDefaults).0
    {
      var result := new AuthenticationResult(None, None, None, None, 0, false);
      var thrown := result.Restore(pref);
      if thrown.Some? {
        return Failure(thrown.value);
      }
      RestoreOverwritesAllOnSuccess(pref.entries, Session(None, None, None, None, 0, false), RestoreDefaults);
      return Success(result);
    }

    /** Writes the six persisted fields under the six session keys, as one committed edit. */
    method Persist(pref: SharedPreferences)
      modifies pref
      ensures pref.entries == Commit(old(pref.entries), PersistEdits(Persisted()))
    {
      var editor: Edits := map[];
      editor := PutString(editor, AuthTokenKey, authToken);
      editor := PutString(editor, NoteStoreUrlKey, noteStoreUrl);
      editor := PutString(editor, WebApiUrlPrefixKey, webApiUrlPrefix);
      editor := PutString(editor, EvernoteHostKey, evernoteHost);
      editor := PutInt(editor, UserIdKey, userId);
      editor := PutBoolean(editor, IsAppLinkedNotebookKey, isAppLinkedNotebook);
      pref.Apply(editor);
    }

    /**
      Reads the six persisted fields back, with defaults for missing keys.
      Returns the key whose getter threw, if one did; the business fields are
      never touched.
     */
    method Restore(pref: SharedPreferences) returns (thrown: Option<Key>)
      modifies this`authToken, this`noteStoreUrl, this`webApiUrlPrefix, this`evernoteHost, this`userId,
               this`isAppLinkedNotebook
      ensures (Persisted(), thrown) == RestoreFrom(pref.entries, old(Persisted()))
      ensures BusinessFields() == old(BusinessFields())
    {
      var token := GetString(pref.entries, AuthTokenKey, None);
      if token.Failure? { return Some(token.error); }
      authToken := token.value;
      var url := GetString(pref.entries, NoteStoreUrlKey, None);
      if url.Failure? { return Some(url.error); }
      noteStoreUrl := url.value;
      var prefix := GetString(pref.entries, WebApiUrlPrefixKey, None);
      if prefix.Failure? { return Some(prefix.error); }
      webApiUrlPrefix := prefix.value;
      var host := GetString(pref.entries, EvernoteHostKey, None);
      if host.Failure? { return Some(host.error); }
      evernoteHost := host.value;
      var id := GetInt(pref.entries, UserIdKey, -1);
      if id.Failure? { return Some(id.error); }
      userId := id.value;
      var linked := GetBoolean(pref.entries, IsAppLinkedNotebookKey, false);
      if linked.Failure? { return Some(linked.error); }
      isAppLinkedNotebook := linked.value;
      return None;
    }

    /** Removes the six session keys from the store, as one committed edit. */
    method Clear(pref: SharedPreferences)
      modifies pref
      ensures pref.entries == Commit(old(pref.entries), ClearEdits())
    {
      var editor: Edits := map[];
      editor := Remove(editor, AuthTokenKey);
      editor := Remove(editor, NoteStoreUrlKey);
      editor := Remove(editor, WebApiUrlPrefixKey);
      editor := Remove(editor, EvernoteHostKey);
      editor := Remove(editor, UserIdKey);
      editor := Remove(editor, IsAppLinkedNotebookKey);
      pref.Apply(editor);
    }

    method SetBusinessNoteStoreUrl(businessNoteStoreUrl: Option<string>)
      modifies this`businessNoteStoreUrl
      ensures BusinessFields() == old(BusinessFields()).(noteStoreUrl := businessNoteStoreUrl)
      ensures Persisted() == old(Persisted())
    {
      this.businessNoteStoreUrl := businessNoteStoreUrl;
    }

    method SetBusinessUser(user: Option<User>)
      modifies this`businessUser
      ensures BusinessFields() == old(BusinessFields()).(user := user)
      ensures Persisted() == old(Persisted())
    {
      this.businessUser := user;
    }

    method SetBusinessAuthToken(authToken: Option<string>)
      modifies this`businessAuthToken
      ensures BusinessFields() == old(BusinessFields()).(authToken := authToken)
      ensures Persisted() == old(Persisted())
    {
      this.businessAuthToken := authToken;
    }

    method SetBusinessAuthTokenExpiration(businessAuthTokenExpiration: int64)
      modifies this`businessAuthTokenExpiration
      ensures BusinessFields() == old(BusinessFields()).(authTokenExpiration := businessAuthTokenExpiration)
      ensures Persisted() == old(Persisted())
    {
      this.businessAuthTokenExpiration := businessAuthTokenExpiration;
    }
  }
}
