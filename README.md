# AuthenticationResult of the Evernote Android SDK, in Dafny

This project models `AuthenticationResult`, the session record that the
Evernote Android SDK keeps after a successful OAuth authorization, and proves
what it promises.

The record holds six persisted fields: the auth token, the NoteStore URL, the
web-API URL prefix, the Evernote host, the numeric user ID (-1 when unknown)
and the app-linked-notebook flag. It also holds four business-account fields
that live only in memory: the business NoteStore URL, the business auth token,
its expiration time and the business user.

- `url_prefix.dfy` (module `UrlPrefix`): `parseWebApiUrlPrefix`, with Java's
  `String.indexOf` as a recursive search. The prefix is everything before the
  first `"notestore"` when that occurrence is at an index above 0. Otherwise
  the URL is returned unchanged.
- `preferences.dfy` (module `Preferences`): the part of Android's
  SharedPreferences the record uses. The store is a `map<Key, Value>` inside a
  `SharedPreferences` object. An editor's pending changes are a map from key to
  `Option<Value>`, where `None` means removal. `putString(k, null)` is a
  removal, as on Android. The typed getters return the default for a missing
  key. They fail with the key (Java's `ClassCastException`) when the key holds
  a value of another kind.
- `authentication_result.dfy` (module `Authentication`): the class
  `AuthenticationResult` with its fields, its three constructors, `persist`,
  `restore`, `clear` and the four business setters. `RestoreFrom` is the
  specification of `restore`: the six getters in source order, each result
  assigned before the next getter runs. The lemmas beside it give the
  persist/restore round trip, the clear/restore defaults and the frame of each
  edit.
- `wrappers.dfy`, `java_types.dfy`: `Option` (a Java reference that may be
  null), `Result`, and Java's `int` and `long` as bounded integer newtypes.

`parseHost` delegates to Android's `Uri` parser. It is a parameter
`parseHost: string -> Option<string>` of the three-argument constructor, and
the model claims nothing about its output.

Two points of the code a reader might not expect:

- The prefix is cut only when `"notestore"` occurs at an index greater than 0.
  A URL that starts with `"notestore"` is returned unchanged.
- `clear` removes the six keys from the store. It does not reset the record's
  in-memory fields.

## Model

| member | source | states |
|---|---|---|
| UrlPrefix.IndexOfFrom | library/src/main/java/com/evernote/client/android/AuthenticationResult.java:224 | the result is -1 when the pattern occurs nowhere from `from` on; otherwise it is an occurrence at or after `from` with no occurrence between `from` and it |
| UrlPrefix.IndexOf | library/src/main/java/com/evernote/client/android/AuthenticationResult.java:224 | -1 exactly when the pattern does not occur; otherwise the first occurrence |
| UrlPrefix.ParseWebApiUrlPrefix | library/src/main/java/com/evernote/client/android/AuthenticationResult.java:223-230 | the result is a prefix of the URL (so never longer), and if it still contains "notestore" it is the whole URL |
| UrlPrefix.PrefixBeforeFirstIsFree | library/src/main/java/com/evernote/client/android/AuthenticationResult.java:225-226 | the text before the first occurrence of a non-empty pattern does not contain it |
| UrlPrefix.PrefixStopsAtFirstMarker | library/src/main/java/com/evernote/client/android/AuthenticationResult.java:224-226 | when the first "notestore" is at index i > 0 the result is exactly the first i characters, and it contains no "notestore" |
| UrlPrefix.UnchangedIffNoMarkerOrMarkerFirst | library/src/main/java/com/evernote/client/android/AuthenticationResult.java:224-229 | the URL comes back unchanged if and only if "notestore" does not occur in it or occurs at index 0 |
| UrlPrefix.ParseWebApiUrlPrefixIdempotent | library/src/main/java/com/evernote/client/android/AuthenticationResult.java:223-230 | applying the prefix derivation twice equals applying it once |
| UrlPrefix.CapitalisedMarkerIsNotMatched | library/src/main/java/com/evernote/client/android/AuthenticationResult.java:224 | the match is case-sensitive: the concrete URL `"https://x/NoteStore"` comes back unchanged |
| UrlPrefix.LowerCaseMarkerIsCut | library/src/main/java/com/evernote/client/android/AuthenticationResult.java:224-226 | the concrete URL `"https://x/notestore"` is cut to `"https://x/"` |
| Preferences.PutString | library/src/main/java/com/evernote/client/android/AuthenticationResult.java:91-94 | records a pending string put, or a pending removal for null, for one key and keeps the other pending changes |
| Preferences.PutInt | library/src/main/java/com/evernote/client/android/AuthenticationResult.java:95 | records a pending int put for one key and keeps the other pending changes |
| Preferences.PutBoolean | library/src/main/java/com/evernote/client/android/AuthenticationResult.java:96 | records a pending boolean put for one key and keeps the other pending changes |
| Preferences.Remove | library/src/main/java/com/evernote/client/android/AuthenticationResult.java:113-118 | records a pending removal for one key and keeps the other pending changes |
| Preferences.Commit | library/src/main/java/com/evernote/client/android/AuthenticationResult.java:97 | after the commit a key with a pending put holds the put value, a key with a pending removal is absent, and every other key keeps its entry or its absence |
| Preferences.SharedPreferences.Apply | library/src/main/java/com/evernote/client/android/AuthenticationResult.java:119 | the store's new entries are the old ones with the editor's changes committed |
| Preferences.GetString | library/src/main/java/com/evernote/client/android/AuthenticationResult.java:102-105 | fails with the key exactly when the key holds a non-string value; otherwise gives the stored string, or the default when the key is absent |
| Preferences.GetInt | library/src/main/java/com/evernote/client/android/AuthenticationResult.java:106 | fails with the key exactly when the key holds a non-int value; otherwise gives the stored int, or the default when the key is absent |
| Preferences.GetBoolean | library/src/main/java/com/evernote/client/android/AuthenticationResult.java:107 | fails with the key exactly when the key holds a non-boolean value; otherwise gives the stored boolean, or the default when the key is absent |
| Authentication.RestoreFrom | library/src/main/java/com/evernote/client/android/AuthenticationResult.java:100-108 | restore throws if and only if some session key holds a value of the wrong kind, and the key it reports is such a key; a restore that does not throw gives each field its stored value or its default (null, -1, false) |
| Authentication.PersistEdits | library/src/main/java/com/evernote/client/android/AuthenticationResult.java:90-96 | the editor chain of persist has a pending change for exactly the six session keys |
| Authentication.PersistEditsPutEveryField | library/src/main/java/com/evernote/client/android/AuthenticationResult.java:91-96 | the persist chain puts each string field as a string (a removal for null), the user ID as an int and the flag as a boolean, so a written -1 or false is a put and not a removal |
| Authentication.ClearEdits | library/src/main/java/com/evernote/client/android/AuthenticationResult.java:112-118 | the editor chain of clear has a pending removal for exactly the six session keys |
| Authentication.RestoreStopsAtFirstUnreadable | library/src/main/java/com/evernote/client/android/AuthenticationResult.java:102-107 | when restore throws at the i-th key of the reading order, every earlier key is absent or well-typed and its field holds the value read, the failing key holds a value of the wrong kind, and its field and all later fields keep their old values |
| Authentication.RestoreOverwritesAllOnSuccess | library/src/main/java/com/evernote/client/android/AuthenticationResult.java:100-108 | a restore that does not throw sets all six fields, whatever they held before |
| Authentication.PersistedStoreWellTyped | library/src/main/java/com/evernote/client/android/AuthenticationResult.java:88-98 | after persist every session key that is present holds a value of its own kind, so a later restore cannot throw |
| Authentication.PersistOnlyTouchesSessionKeys | library/src/main/java/com/evernote/client/android/AuthenticationResult.java:90-97 | persist leaves every key outside the six session keys as it was |
| Authentication.ClearRemovesExactlySessionKeys | library/src/main/java/com/evernote/client/android/AuthenticationResult.java:112-119 | the store after clear is the store before it minus the six session keys |
| Authentication.PersistThenRestore | library/src/main/java/com/evernote/client/android/AuthenticationResult.java:88-108 | restore after persist gives back the same token, NoteStore URL, prefix, host, user ID and flag, and does not throw |
| Authentication.ClearThenRestore | library/src/main/java/com/evernote/client/android/AuthenticationResult.java:100-120 | restore after clear gives no token, URL, prefix or host, user ID -1 and flag false, and does not throw |
| Authentication.AuthenticationResult.constructor | library/src/main/java/com/evernote/client/android/AuthenticationResult.java:79-86 | the six-argument constructor stores its arguments verbatim; the business fields hold Java's null and 0 defaults |
| Authentication.AuthenticationResult.FromNoteStoreUrl | library/src/main/java/com/evernote/client/android/AuthenticationResult.java:61-63 | the three-argument constructor sets the user ID to -1, the prefix to the derived prefix of the URL, the host to parseHost of the URL, and stores token, URL and flag verbatim |
| Authentication.AuthenticationResult.FromPreferences | library/src/main/java/com/evernote/client/android/AuthenticationResult.java:57-59 | constructing from preferences fails exactly when a session key holds the wrong kind, and reports a session key present in the store that holds the wrong kind; otherwise the new record holds the restored fields and no business fields |
| Authentication.AuthenticationResult.Persist | library/src/main/java/com/evernote/client/android/AuthenticationResult.java:88-98 | the store afterwards is the old store with the six-key persist edit committed |
| Authentication.AuthenticationResult.Restore | library/src/main/java/com/evernote/client/android/AuthenticationResult.java:100-108 | the six fields and the thrown key are those of the restore specification applied to the old fields; the business fields are unchanged |
| Authentication.AuthenticationResult.Clear | library/src/main/java/com/evernote/client/android/AuthenticationResult.java:110-120 | the store afterwards is the old store with the six removals committed |
| Authentication.AuthenticationResult.SetBusinessNoteStoreUrl | library/src/main/java/com/evernote/client/android/AuthenticationResult.java:177-179 | only the business NoteStore URL changes |
| Authentication.AuthenticationResult.SetBusinessUser | library/src/main/java/com/evernote/client/android/AuthenticationResult.java:191-193 | only the business user changes |
| Authentication.AuthenticationResult.SetBusinessAuthToken | library/src/main/java/com/evernote/client/android/AuthenticationResult.java:205-207 | only the business auth token changes |
| Authentication.AuthenticationResult.SetBusinessAuthTokenExpiration | library/src/main/java/com/evernote/client/android/AuthenticationResult.java:219-221 | only the business token expiration changes |

## Left out

- Getters (`getAuthToken` through `getBusinessAuthTokenExpiration`): they only return a field, and Dafny fields are readable directly, so they have no members of their own.
- The body of `parseHost`: it calls Android's `Uri.parse(...).getHost()`, a foreign library. It is a parameter and nothing is claimed about its output.
- `Log.d` calls: logging without effect on the state.
- `Editor.apply()` commits asynchronously to disk on Android. The model commits the in-memory map at once and has no disk.
- The preference key strings of `SessionPreferences` are not part of this model. The six session keys are distinct constructors of `Key`, so they are distinct from each other and from every other key.
- The business user (`com.evernote.edam.type.User`) is the type parameter `User`; its contents are not modelled.
- A null NoteStore URL passed to the three-argument constructor throws a NullPointerException in `parseWebApiUrlPrefix`. The model takes a non-null URL.
- Java strings are sequences of UTF-16 code units. The model's strings are sequences of Unicode characters, so `indexOf` and `substring` on surrogate pairs are not modelled.
- Float preference values are kept only as their bit pattern; no float arithmetic is involved.
- `demo/src/main/java/com/evernote/android/demo/activity/LoginActivity.java` is not part of this model: it is UI code around an activity result and a remote user-info call.
