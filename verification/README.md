# ParseACL in Dafny

A model of `ParseACL`, the access-control list of the Parse Android SDK, as
its JUnit suite `ParseACLTest.java` pins it down. An ACL is a value object:

- a permission table from identity keys (a user id, a role key, the public
  key `*`, or the placeholder `*unresolved`) to a `(read, write)` pair;
  the setters drop a row granting nothing, though a decoded table may
  still hold one;
- at most one tracked "unresolved" user: a lazy (anonymous, not yet saved)
  user whose grants wait under `*unresolved` until it is saved and gets an id;
- the `shared` flag;
- the save listeners the ACL has put on users, kept as a log of
  register/unregister events per user reference.

The modules are:

- `Wrappers`: `Option` (Java's nullable reference) and `Result` (a value or
  an error: an accessor's invalid argument or a malformed document).
- `SaveListeners`: the listener event log and counting over it.
- `ParseAcl`: the table, the key/public/role/user accessors, the lazy-user
  state machine (`SetUnresolvedAccess`, `ResolveUser`, `OnUserSaved`),
  `Copy` and `SetShared`.
- `Json` and `AclJson`: a small JSON value type, `toJSONObject`
  (`ToJson`) and `createACLFromJSONObject` (`FromJson`), with round trips in
  both directions. The `ParseEncoder`/`ParseDecoder` are function parameters.
- `AclProperties`: lemmas that relate several operations, one per group of
  tests.

Users are values `User(ref, objectId, isLazy)`: `ref` stands for the Java
object's identity, so "the same reference" (`assertSame`) is equality of
`ref`, and the user observed after a save is the same `ref` with an id.
Mutation is modelled functionally: each setter returns the new ACL, so a
copy and its original can never affect each other's tables.

Where ParseACLTest.java is silent, the model chooses:

- While one lazy user is tracked, a grant to a different lazy user also
  goes under `*unresolved`; the first user stays tracked and no second
  listener is registered. As a consequence such a grant does not read back
  for the second user: it reads false, while the tracked user reads the
  flag as granted (`SecondLazyUserSharesPlaceholder`).
- Reading access for a user checks, in this order: the tracked user reads
  the placeholder row; any other lazy user reads false; a user with no id is
  refused; otherwise the id's row. Setting checks the id first, then
  laziness. The test at ParseACLTest.java:201-218 fixes this order: a lazy
  user that has just been given an id reads false.
- `ResolveUser` with the tracked user that still has no id changes nothing.
- The save listener of an ACL unregisters itself when it fires. After a
  failed save it leaves the table and the tracked user alone. It only fires
  for an ACL that registered it, so a decoded ACL, which registers nothing,
  never resolves its user.
- A role's key is `role:` followed by its name; the proofs use only that it
  is neither `*` nor `*unresolved`.
- Only a null key is refused (`None`); the tests never show an empty one.

## Model

| member | source | states |
|---|---|---|
| `SaveListeners.Count` | Parse/src/test/java/com/parse/ParseACLTest.java:96 | the number of times an event was logged (its multiplicity in the log), zero exactly when it never was; used for "registered exactly once" |
| `ParseAcl.Store` | Parse/src/test/java/com/parse/ParseACLTest.java:244-254 | storing a row makes it readable; a row granting nothing leaves the key absent; no other key changes; a pruned table stays pruned |
| `ParseAcl.NewAcl` | Parse/src/test/java/com/parse/ParseACLTest.java:55-60 | a new ACL has zero rows, no tracked user, is not shared and holds no listener |
| `ParseAcl.WithOwner` | Parse/src/test/java/com/parse/ParseACLTest.java:62-70 | constructing with a saved user yields exactly one row, read and write, under its id, and no listener; with a lazy user the row is under the placeholder, the user is tracked and exactly one listener is registered and active; an unsaved non-lazy owner is refused with `UnsavedUser`; the new ACL is not shared |
| `ParseAcl.GetAccess` | Parse/src/test/java/com/parse/ParseACLTest.java:428-449 | a null key is refused; otherwise the flag is true exactly when the key has a row with that flag |
| `ParseAcl.SetAccess` | Parse/src/test/java/com/parse/ParseACLTest.java:224-254 | a null key is refused; otherwise the flag reads as set, the other flag is kept, the key is present exactly when some flag is true, no other key, the tracked user, the shared flag or the listeners change, and pruning is preserved |
| `ParseAcl.GetPublicAccess` | Parse/src/test/java/com/parse/ParseACLTest.java:459-465 | public access is key access on `*`, which never fails |
| `ParseAcl.SetPublicAccess` | Parse/src/test/java/com/parse/ParseACLTest.java:256-293 | public grants are key grants on `*` and read back as set |
| `ParseAcl.RoleKey` | Parse/src/test/java/com/parse/ParseACLTest.java:320-331 | a role's key is neither the public key nor the placeholder |
| `ParseAcl.GetRoleAccess` | Parse/src/test/java/com/parse/ParseACLTest.java:484-522 | a role without an id is refused; a saved role reads its key's row |
| `ParseAcl.SetRoleAccess` | Parse/src/test/java/com/parse/ParseACLTest.java:311-353 | a role without an id is refused; a saved role is granted through its key |
| `ParseAcl.SetUnresolvedAccess` | Parse/src/test/java/com/parse/ParseACLTest.java:363-411 | a lazy grant sets the placeholder row's flag and nothing else in the table, and the placeholder key remains exactly when some flag is still true, whatever the input table; the first lazy user becomes tracked with exactly one new registration; later lazy grants register nothing |
| `ParseAcl.SetUserAccess` | Parse/src/test/java/com/parse/ParseACLTest.java:355-423 | a saved user is granted by id, a lazy user without id through the placeholder, an unsaved non-lazy user is refused |
| `ParseAcl.GetUserAccess` | Parse/src/test/java/com/parse/ParseACLTest.java:524-598 | the tracked user reads the placeholder; another lazy user reads false without error; an unsaved non-lazy user is refused; a saved user reads its id's row |
| `ParseAcl.HasUnresolvedUser` | Parse/src/test/java/com/parse/ParseACLTest.java:612-622 | true exactly when some user object is tracked; a lazy grant sets it (`LazyGrant`) |
| `AclProperties.SecondLazyUserSharesPlaceholder` | Parse/src/test/java/com/parse/ParseACLTest.java:363-411 | the consequence of the model's own pooling choice for a second lazy user, which the tests never exercise (they grant to one lazy user): while one lazy user is tracked, a grant to a second keeps the tracked user and listeners, reads true for the tracked user and false for the second |
| `ParseAcl.ResolveUser` | Parse/src/test/java/com/parse/ParseACLTest.java:188-218 | a user other than the tracked one changes nothing; the tracked user with an id gets the placeholder row under its id, the placeholder disappears, no other row changes and no user is tracked afterwards |
| `ParseAcl.OnUserSaved` | Parse/src/test/java/com/parse/ParseACLTest.java:113-133 | the listener fires only for an ACL holding one; it unregisters itself (one fewer active listener); a successful save resolves the user, a failed one keeps rows and tracked user |
| `ParseAcl.Copy` | Parse/src/test/java/com/parse/ParseACLTest.java:76-97 | a copy has the same rows, the same tracked user object and shared flag; its own listener log is exactly one registration on the tracked user, or empty when none is tracked |
| `ParseAcl.SetShared` | Parse/src/test/java/com/parse/ParseACLTest.java:604-610 | the shared flag reads back as set; rows, tracked user and listeners are untouched |
| `AclJson.PermToJson` | Parse/src/test/java/com/parse/ParseACLTest.java:164-168 | a row becomes an object whose `read` and `write` booleans read back as the row's flags |
| `AclJson.PermFromJson` | Parse/src/test/java/com/parse/ParseACLTest.java:164-168 | only an object is a row; its flags are its `read`/`write` booleans, false when missing |
| `AclJson.PermRoundTrip` | Parse/src/test/java/com/parse/ParseACLTest.java:139-182 | decoding an encoded row gives the row back, and the encoding is canonical |
| `AclJson.PermCanonicalRoundTrip` | Parse/src/test/java/com/parse/ParseACLTest.java:139-182 | encoding a decoded canonical row gives the same JSON |
| `AclJson.ToJson` | Parse/src/test/java/com/parse/ParseACLTest.java:139-156 | the document has exactly the table's keys with their rows, plus `unresolvedUser` holding the encoder's output when a user is tracked |
| `AclJson.FromJson` | Parse/src/test/java/com/parse/ParseACLTest.java:162-182 | decoding succeeds exactly when every field but `unresolvedUser` is an object; every such field becomes a row; `unresolvedUser` becomes the decoded tracked user; no listener, not shared |
| `AclJson.AclRoundTrip` | Parse/src/test/java/com/parse/ParseACLTest.java:139-182 | decoding the encoded ACL gives back its rows and tracked user |
| `AclJson.UnresolvedUserRowIsMisread` | Parse/src/test/java/com/parse/ParseACLTest.java:139-182 | a row keyed `unresolvedUser` in an ACL tracking no user does not survive encoding and decoding: it comes back as the tracked user and the table is empty |
| `AclJson.DocumentRoundTrip` | Parse/src/test/java/com/parse/ParseACLTest.java:139-182 | encoding the decoded document gives back the document when its rows are canonical and the user codec round-trips |
| `AclProperties.NewAclGrantsNothing` | Parse/src/test/java/com/parse/ParseACLTest.java:428-433 | every key and the public key read false on a new ACL |
| `AclProperties.SetClearRoundTrip` | Parse/src/test/java/com/parse/ParseACLTest.java:224-254 | granting a flag on an absent key adds exactly one row with only that flag; clearing it restores the ACL exactly |
| `AclProperties.ClearAbsentKeyIsNoop` | Parse/src/test/java/com/parse/ParseACLTest.java:224-232 | clearing a flag on an absent key leaves the ACL unchanged |
| `AclProperties.InvalidArgumentsRejected` | Parse/src/test/java/com/parse/ParseACLTest.java:295-361 | a null key, a role without id and an untracked unsaved non-lazy user are refused by both setter and getter |
| `AclProperties.LazyGrant` | Parse/src/test/java/com/parse/ParseACLTest.java:363-411 | a lazy grant adds exactly the placeholder row, tracks that user object, registers one listener on it, and the user reads the granted flag true and the other false |
| `AclProperties.LazyGrantBothRegistersOnce` | Parse/src/test/java/com/parse/ParseACLTest.java:80-86 | granting read then write to one lazy user registers a single listener and leaves one placeholder row with both flags |
| `AclProperties.ResolveKeepsSize` | Parse/src/test/java/com/parse/ParseACLTest.java:213-217 | moving the placeholder row to a new id keeps the number of rows |
| `AclProperties.ResolveTrackedUser` | Parse/src/test/java/com/parse/ParseACLTest.java:201-218 | after grant and resolve, exactly one row under the id, no placeholder, no tracked user, and the still-lazy user reads false |
| `AclProperties.CopyResolvesOnSave` | Parse/src/test/java/com/parse/ParseACLTest.java:99-133 | the copy reads like the original; when its listener fires with the saved user, the row moves to the id, the user reads its old flags, the listener is unregistered once, and the row count and shared flag are kept |
| `AclProperties.OriginalAndCopyResolveAlike` | Parse/src/test/java/com/parse/ParseACLTest.java:99-133 | the original and its copy resolve independently to the same table |
| `AclProperties.FailedSaveKeepsGrants` | Parse/src/test/java/com/parse/ParseACLTest.java:113-125 | a failed save removes the listener and keeps every row and the tracked user |
| `AclProperties.DecodedAclIsInert` | Parse/src/test/java/com/parse/ParseACLTest.java:162-182 | a decoded ACL holds no listener, so saving its user changes nothing |
| `AclProperties.MutatorsKeepInvariants` | Parse/src/test/java/com/parse/ParseACLTest.java:224-293 | every mutator (key, public, role and user grants, `ResolveUser`, the save callback, `Copy`, `SetShared`) keeps the table pruned and keeps a placeholder row only while a user is tracked |

## Left out

- ParseACL.java is not modelled line by line; only what ParseACLTest.java asserts is pinned.
- Mockito mocks, `registerSubclass`/`unregisterSubclass` set-up and tear-down (lines 41-51): test harness.
- The user save pipeline and the thread the save callback runs on: the callback is the explicit event `OnUserSaved`.
- The internals of the JSON library, `ParseEncoder` and `ParseDecoder`: function parameters; string-valued flags are not decoded, only JSON booleans count.
- A null role object: the model's roles are never null; only a role without an id is refused.
- `testGetPublicReadAccess` (lines 451-457): it exercises write access and repeats the public-write test.
- Copy independence under later mutation holds by value semantics and needs no statement.
- "A user is tracked exactly when the placeholder row exists" is not an invariant: a decoded ACL tracks a user whose row is under its id. Only the direction "placeholder row implies a tracked user" is kept (`MutatorsKeepInvariants`).
- AclJson.AclRoundTrip: holds only when no table key is `unresolvedUser`. With a tracked user, the user's field overwrites that row; with none, the row is written out, read back as the tracked user and lost from the table (`UnresolvedUserRowIsMisread`). The `shared` flag and the listeners are not serialised.
- AclProperties.MutatorsKeepInvariants: assumes no raw key or user id equals `*unresolved`; a raw key grant on the placeholder itself can add a placeholder row with no tracked user.
