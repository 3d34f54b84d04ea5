/** Properties of the ACL model that relate several operations: the
    set/clear round trip, the lazy-user life cycle (grant, resolve, copy,
    save callback) and the placeholder invariant the operations keep. */
module AclProperties {
  import opened Wrappers
  import opened SaveListeners
  import opened Json
  import opened ParseAcl
  import opened AclJson

  /** A fresh ACL grants nothing to anyone. */
  lemma NewAclGrantsNothing(key: string, a: Access)
    ensures GetAccess(NewAcl(), Some(key), a) == Success(false)
    ensures GetPublicAccess(NewAcl(), a) == false
  {
  }

  /** Granting a flag on an absent key adds exactly that key, with only that
      flag; clearing it again restores the ACL exactly. */
  lemma SetClearRoundTrip(acl: Acl, key: string, a: Access)
    requires key !in acl.permissions
    ensures SetAccess(acl, Some(key), a, true).Success?
    ensures
      var granted := SetAccess(acl, Some(key), a, true).value;
      && granted.permissions.Keys == acl.permissions.Keys + {key}
      && |granted.permissions| == |acl.permissions| + 1
      && GetAccess(granted, Some(key), a) == Success(true)
      && GetAccess(granted, Some(key), Other(a)) == Success(false)
      && SetAccess(granted, Some(key), a, false) == Success(acl)
  {
    var granted := SetAccess(acl, Some(key), a, true).value;
    assert granted.permissions.Keys == acl.permissions.Keys + {key} by {
      assert granted.permissions - {key} == acl.permissions - {key};
      assert (granted.permissions - {key}).Keys == granted.permissions.Keys - {key};
    }
    var cleared := SetAccess(granted, Some(key), a, false).value;
    assert cleared.permissions == acl.permissions by {
      assert key !in cleared.permissions;
      assert cleared.permissions == cleared.permissions - {key};
      assert acl.permissions == acl.permissions - {key};
    }
  }

  /** Clearing a flag on a key the table does not hold changes nothing. */
  lemma ClearAbsentKeyIsNoop(acl: Acl, key: string, a: Access)
    requires key !in acl.permissions
    ensures SetAccess(acl, Some(key), a, false) == Success(acl)
  {
    var r := SetAccess(acl, Some(key), a, false).value;
    assert r.permissions == r.permissions - {key};
    assert acl.permissions == acl.permissions - {key};
  }

  /** A null key, a role without an id and an unsaved non-lazy user are
      refused by both the setter and the getter. */
  lemma InvalidArgumentsRejected(acl: Acl, role: Role, u: User, a: Access, allowed: bool)
    requires role.objectId.None?
    requires u.objectId.None? && !u.isLazy && !IsTracked(acl, u)
    ensures SetAccess(acl, None, a, allowed) == Failure(NullUserId)
    ensures GetAccess(acl, None, a) == Failure(NullUserId)
    ensures SetRoleAccess(acl, role, a, allowed) == Failure(UnsavedRole)
    ensures GetRoleAccess(acl, role, a) == Failure(UnsavedRole)
    ensures SetUserAccess(acl, u, a, allowed) == Failure(UnsavedUser)
    ensures GetUserAccess(acl, u, a) == Failure(UnsavedUser)
  {
  }

  /** Granting a flag to a lazy user while no user is tracked stores one
      new row under the placeholder, tracks that user object, registers one
      save listener on it, and the user then reads the flag as granted. */
  lemma LazyGrant(acl: Acl, u: User, a: Access)
    requires acl.unresolved.None? && UnresolvedKey !in acl.permissions
    requires u.objectId.None? && u.isLazy
    ensures SetUserAccess(acl, u, a, true).Success?
    ensures
      var r := SetUserAccess(acl, u, a, true).value;
      && r.unresolved == Some(u)
      && HasUnresolvedUser(r)
      && r.permissions.Keys == acl.permissions.Keys + {UnresolvedKey}
      && |r.permissions| == |acl.permissions| + 1
      && Count(r.listeners, Registered(u.ref)) == Count(acl.listeners, Registered(u.ref)) + 1
      && GetUserAccess(r, u, a) == Success(true)
      && GetUserAccess(r, u, Other(a)) == Success(false)
  {
  }

  /** Granting read and then write to the same lazy user registers a single
      save listener and leaves one placeholder row with both flags. */
  lemma LazyGrantBothRegistersOnce(acl: Acl, u: User)
    requires acl.unresolved.None? && UnresolvedKey !in acl.permissions
    requires u.objectId.None? && u.isLazy
    ensures
      var r := SetUserAccess(SetUserAccess(acl, u, Read, true).value, u, Write, true).value;
      && r.unresolved == Some(u)
      && r.permissions == acl.permissions[UnresolvedKey := Perm(true, true)]
      && Count(r.listeners, Registered(u.ref)) == Count(acl.listeners, Registered(u.ref)) + 1
  {
  }

  /** While one lazy user is tracked, a grant to a second lazy user lands
      in the shared placeholder row: the tracked user then reads the flag
      as granted, while the second user, not being tracked, still reads
      false. */
  lemma SecondLazyUserSharesPlaceholder(acl: Acl, other: User, a: Access)
    requires acl.unresolved.Some? && !IsTracked(acl, other)
    requires other.objectId.None? && other.isLazy
    ensures SetUserAccess(acl, other, a, true).Success?
    ensures
      var r := SetUserAccess(acl, other, a, true).value;
      && r.unresolved == acl.unresolved
      && r.listeners == acl.listeners
      && GetUserAccess(r, acl.unresolved.value, a) == Success(true)
      && GetUserAccess(r, other, a) == Success(false)
  {
  }

  /** Moving the placeholder row to a fresh id keeps the number of rows. */
  lemma ResolveKeepsSize(acl: Acl, u: User)
    requires IsTracked(acl, u) && u.objectId.Some?
    requires UnresolvedKey in acl.permissions
    requires u.objectId.value !in acl.permissions
    ensures |ResolveUser(acl, u).permissions| == |acl.permissions|
  {
  }

  /** The life cycle of one lazy user: granted read and write while lazy,
      then saved under `id` and resolved. Its rows now live under `id`, no
      user is tracked, and because the user object is still marked lazy it
      reads as having no access. */
  lemma ResolveTrackedUser(u: User, id: string, a: Access)
    requires u.objectId.None? && u.isLazy
    requires id != UnresolvedKey
    ensures
      var granted := SetUserAccess(SetUserAccess(NewAcl(), u, Read, true).value, u, Write, true).value;
      var saved := u.(objectId := Some(id));
      var r := ResolveUser(granted, saved);
      && HasUnresolvedUser(granted)
      && r.unresolved.None?
      && r.permissions == map[id := Perm(true, true)]
      && |r.permissions| == 1
      && UnresolvedKey !in r.permissions
      && GetUserAccess(r, saved, a) == Success(false)
  {
  }

  /** A copy of an ACL tracking a lazy user reads the same for that user.
      When the copy's own listener then fires for the saved user, the copy
      moves the placeholder row to the user's id, stops tracking the user
      and removes its listener. */
  lemma CopyResolvesOnSave(acl: Acl, saved: User, a: Access)
    requires acl.unresolved.Some? && saved.ref == acl.unresolved.value.ref
    requires UnresolvedKey in acl.permissions
    requires saved.objectId.Some? && saved.objectId.value != UnresolvedKey && !saved.isLazy
    ensures GetUserAccess(Copy(acl), acl.unresolved.value, a) == GetUserAccess(acl, acl.unresolved.value, a)
    ensures
      var c := OnUserSaved(Copy(acl), saved, false);
      && c.unresolved.None?
      && UnresolvedKey !in c.permissions
      && GetUserAccess(c, saved, a) == Success(Flag(acl, UnresolvedKey, a))
      && Count(c.listeners, Unregistered(saved.ref)) == 1
      && !Listening(c.listeners, saved.ref)
      && c.shared == acl.shared
      && (saved.objectId.value !in acl.permissions ==> |c.permissions| == |acl.permissions|)
  {
  }

  /** The original and its copy each resolve on their own listener, to the
      same table. */
  lemma OriginalAndCopyResolveAlike(acl: Acl, saved: User)
    requires acl.unresolved.Some? && saved.ref == acl.unresolved.value.ref
    requires Listening(acl.listeners, saved.ref)
    ensures OnUserSaved(acl, saved, false).permissions == OnUserSaved(Copy(acl), saved, false).permissions
    ensures OnUserSaved(acl, saved, false).unresolved == OnUserSaved(Copy(acl), saved, false).unresolved
  {
  }

  /** A failed save removes the listener but loses no grant. */
  lemma FailedSaveKeepsGrants(acl: Acl, saved: User)
    requires Listening(acl.listeners, saved.ref)
    ensures OnUserSaved(acl, saved, true).permissions == acl.permissions
    ensures OnUserSaved(acl, saved, true).unresolved == acl.unresolved
    ensures Active(OnUserSaved(acl, saved, true).listeners, saved.ref) == Active(acl.listeners, saved.ref) - 1
  {
  }

  /** A decoded ACL holds no save listener, so saving its tracked user
      changes nothing. */
  lemma DecodedAclIsInert(o: JsonObject, decode: Json -> User, saved: User, failed: bool)
    requires FromJson(o, decode).Success?
    ensures OnUserSaved(FromJson(o, decode).value, saved, failed) == FromJson(o, decode).value
  {
  }

  // ---------------------------------------------------------------------
  // The placeholder invariant.

  /** A placeholder row is only ever present while some user is tracked.
      The converse does not hold: a decoded ACL may track a user whose
      grants already sit under its id. */
  predicate PlaceholderTracked(acl: Acl)
  {
    UnresolvedKey in acl.permissions ==> acl.unresolved.Some?
  }

  /** Every mutator keeps the placeholder invariant and the pruned table,
      as long as no user id or raw key is the placeholder key itself. */
  lemma MutatorsKeepInvariants(acl: Acl, key: string, role: Role, u: User, a: Access, allowed: bool, failed: bool)
    requires PlaceholderTracked(acl) && Pruned(acl.permissions)
    requires key != UnresolvedKey
    requires u.objectId != Some(UnresolvedKey)
    ensures
      var r := SetAccess(acl, Some(key), a, allowed).value;
      PlaceholderTracked(r) && Pruned(r.permissions)
    ensures
      var r := SetPublicAccess(acl, a, allowed);
      PlaceholderTracked(r) && Pruned(r.permissions)
    ensures role.objectId.Some? ==>
      var r := SetRoleAccess(acl, role, a, allowed).value;
      PlaceholderTracked(r) && Pruned(r.permissions)
    ensures SetUserAccess(acl, u, a, allowed).Success? ==>
      var r := SetUserAccess(acl, u, a, allowed).value;
      PlaceholderTracked(r) && Pruned(r.permissions)
    ensures
      var r := ResolveUser(acl, u);
      PlaceholderTracked(r) && Pruned(r.permissions)
    ensures
      var r := OnUserSaved(acl, u, failed);
      PlaceholderTracked(r) && Pruned(r.permissions)
    ensures
      var r := Copy(acl);
      PlaceholderTracked(r) && Pruned(r.permissions)
    ensures
      var r := SetShared(acl, allowed);
      PlaceholderTracked(r) && Pruned(r.permissions)
  {
    KeyGrantKeepsInvariants(acl, key, a, allowed);
    KeyGrantKeepsInvariants(acl, PublicKey, a, allowed);
    KeyGrantKeepsInvariants(acl, RoleKey(role), a, allowed);
    if u.objectId.Some? {
      KeyGrantKeepsInvariants(acl, u.objectId.value, a, allowed);
    }
    SaveKeepsInvariants(acl, u, failed);
  }

  lemma KeyGrantKeepsInvariants(acl: Acl, key: string, a: Access, allowed: bool)
    requires PlaceholderTracked(acl) && Pruned(acl.permissions)
    requires key != UnresolvedKey
    ensures
      var r := SetAccess(acl, Some(key), a, allowed).value;
      PlaceholderTracked(r) && Pruned(r.permissions)
  {
    var r := SetAccess(acl, Some(key), a, allowed).value;
    assert UnresolvedKey in r.permissions ==> UnresolvedKey in acl.permissions by {
      if UnresolvedKey in r.permissions {
        assert UnresolvedKey in r.permissions - {key};
      }
    }
  }

  lemma SaveKeepsInvariants(acl: Acl, u: User, failed: bool)
    requires PlaceholderTracked(acl) && Pruned(acl.permissions)
    requires u.objectId != Some(UnresolvedKey)
    ensures
      var r := OnUserSaved(acl, u, failed);
      PlaceholderTracked(r) && Pruned(r.permissions)
  {
  }
}
