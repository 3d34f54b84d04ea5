/** The ParseACL value object: a table from identity keys (user ids, role
    keys, the public key `*`, and the placeholder `*unresolved`) to a pair of
    read/write flags, the one lazy user whose grants wait under the
    placeholder, the `shared` flag, and the save listeners the ACL holds. */
module ParseAcl {
  import opened Wrappers
  import opened SaveListeners

  /** Key of the grants that apply to every caller. */
  const PublicKey := "*"
  /** Key under which a lazy user's grants are kept until it has an id. */
  const UnresolvedKey := "*unresolved"
  /** Prefix distinguishing role keys from user ids. */
  const RolePrefix := "role:"

  datatype Access = Read | Write

  function Other(a: Access): (b: Access)
    ensures b != a
  {
    match a
    case Read => Write
    case Write => Read
  }

  /** One row of the table. A row with both flags false is never stored by
      the setters. */
  datatype Perm = Perm(read: bool, write: bool)
  {
    function Get(a: Access): bool
    {
      match a
      case Read => read
      case Write => write
    }

    /** This row with flag `a` set to `allowed` and the other flag kept. */
    function With(a: Access, allowed: bool): (p: Perm)
      ensures p.Get(a) == allowed
      ensures p.Get(Other(a)) == Get(Other(a))
    {
      match a
      case Read => Perm(allowed, write)
      case Write => Perm(read, allowed)
    }

    predicate IsEmpty()
    {
      !read && !write
    }
  }

  const NoPerm := Perm(false, false)

  type Table = map<string, Perm>

  /** A user as the ACL sees it: `ref` is the object's identity (two values
      with the same `ref` are the same Java object, possibly observed before
      and after a save), `objectId` its server id once saved, `isLazy`
      whether it is an anonymous user pending creation. */
  datatype User = User(ref: nat, objectId: Option<string>, isLazy: bool)

  /** A role: its name and its server id once saved. */
  datatype Role = Role(name: string, objectId: Option<string>)

  /** The invalid-argument failures the accessors raise. */
  datatype AclError = NullUserId | UnsavedRole | UnsavedUser

  datatype Acl = Acl(
    permissions: Table,
    unresolved: Option<User>,
    shared: bool,
    listeners: seq<ListenerEvent>)

  /** The row stored under `key`, or no permission when absent. */
  function Lookup(t: Table, key: string): Perm
  {
    if key in t then t[key] else NoPerm
  }

  /** Flag `a` of `key` in the ACL's table; false for an absent key. */
  function Flag(acl: Acl, key: string, a: Access): bool
  {
    Lookup(acl.permissions, key).Get(a)
  }

  /** No row has both flags false. */
  predicate Pruned(t: Table)
  {
    forall k :: k in t ==> !t[k].IsEmpty()
  }

  /** Stores `p` under `key`, dropping the key when `p` grants nothing. */
  function Store(t: Table, key: string, p: Perm): (r: Table)
    ensures Lookup(r, key) == p
    ensures key in r <==> !p.IsEmpty()
    ensures r - {key} == t - {key}
    ensures Pruned(t) ==> Pruned(r)
  {
    if p.IsEmpty() then t - {key} else t[key := p]
  }

  /** `new ParseACL()`. */
  function NewAcl(): (acl: Acl)
    ensures |acl.permissions| == 0
    ensures acl.unresolved.None? && !acl.shared && acl.listeners == []
  {
    Acl(map[], None, false, [])
  }

  // ---------------------------------------------------------------------
  // Access by key (`setReadAccess(String, …)` and friends). `None` is null.

  function GetAccess(acl: Acl, key: Option<string>, a: Access): (r: Result<bool, AclError>)
    ensures r.Failure? <==> key.None?
    ensures r.Failure? ==> r.error == NullUserId
    ensures r.Success? ==>
      (r.value <==> key.value in acl.permissions && acl.permissions[key.value].Get(a))
  {
    if key.None? then Failure(NullUserId)
    else Success(Flag(acl, key.value, a))
  }

  function SetAccess(acl: Acl, key: Option<string>, a: Access, allowed: bool): (r: Result<Acl, AclError>)
    ensures r.Failure? <==> key.None?
    ensures r.Failure? ==> r.error == NullUserId
    ensures r.Success? ==>
      var k := key.value;
      && Flag(r.value, k, a) == allowed
      && Flag(r.value, k, Other(a)) == Flag(acl, k, Other(a))
      && (k in r.value.permissions <==> allowed || Flag(acl, k, Other(a)))
      && r.value.permissions - {k} == acl.permissions - {k}
      && r.value.unresolved == acl.unresolved
      && r.value.shared == acl.shared
      && r.value.listeners == acl.listeners
    ensures r.Success? && Pruned(acl.permissions) ==> Pruned(r.value.permissions)
  {
    if key.None? then Failure(NullUserId)
    else
      var k := key.value;
      Success(acl.(permissions := Store(acl.permissions, k, Lookup(acl.permissions, k).With(a, allowed))))
  }

  // ---------------------------------------------------------------------
  // Public access: the key-based accessors on `*`; they cannot fail.

  function GetPublicAccess(acl: Acl, a: Access): (b: bool)
    ensures Success(b) == GetAccess(acl, Some(PublicKey), a)
  {
    Flag(acl, PublicKey, a)
  }

  function SetPublicAccess(acl: Acl, a: Access, allowed: bool): (r: Acl)
    ensures Success(r) == SetAccess(acl, Some(PublicKey), a, allowed)
    ensures GetPublicAccess(r, a) == allowed
  {
    SetAccess(acl, Some(PublicKey), a, allowed).value
  }

  // ---------------------------------------------------------------------
  // Role access: keyed by the role, refused for a role with no server id.

  /** The table key of a role. Nothing relies on its form beyond its being
      neither the public key nor the placeholder. */
  function RoleKey(role: Role): (k: string)
    ensures k != PublicKey && k != UnresolvedKey
  {
    var k := RolePrefix + role.name;
    assert k[0] == 'r';
    k
  }

  function GetRoleAccess(acl: Acl, role: Role, a: Access): (r: Result<bool, AclError>)
    ensures role.objectId.None? <==> r == Failure(UnsavedRole)
    ensures role.objectId.Some? ==> r == GetAccess(acl, Some(RoleKey(role)), a)
  {
    if role.objectId.None? then Failure(UnsavedRole)
    else GetAccess(acl, Some(RoleKey(role)), a)
  }

  function SetRoleAccess(acl: Acl, role: Role, a: Access, allowed: bool): (r: Result<Acl, AclError>)
    ensures role.objectId.None? <==> r == Failure(UnsavedRole)
    ensures role.objectId.Some? ==> r == SetAccess(acl, Some(RoleKey(role)), a, allowed)
  {
    if role.objectId.None? then Failure(UnsavedRole)
    else SetAccess(acl, Some(RoleKey(role)), a, allowed)
  }

  // ---------------------------------------------------------------------
  // User access: saved users by id, lazy users through the placeholder.

  /** `u` is the very object the ACL tracks as its unresolved user. */
  predicate IsTracked(acl: Acl, u: User)
  {
    acl.unresolved.Some? && acl.unresolved.value.ref == u.ref
  }

  /** `hasUnresolvedUser()`: some user object is tracked. */
  function HasUnresolvedUser(acl: Acl): (b: bool)
    ensures !b <==> forall u :: !IsTracked(acl, u)
  {
    assert acl.unresolved.Some? ==> IsTracked(acl, acl.unresolved.value);
    acl.unresolved.Some?
  }

  /** Grants to a lazy user without an id go under the placeholder. The
      first such user becomes the tracked user and gets one save listener;
      while a user is tracked, later lazy grants share the placeholder and
      register nothing. */
  function SetUnresolvedAccess(acl: Acl, u: User, a: Access, allowed: bool): (r: Acl)
    ensures r.unresolved == if acl.unresolved.None? then Some(u) else acl.unresolved
    ensures IsTracked(r, u) <==> acl.unresolved.None? || IsTracked(acl, u)
    ensures Flag(r, UnresolvedKey, a) == allowed
    ensures Flag(r, UnresolvedKey, Other(a)) == Flag(acl, UnresolvedKey, Other(a))
    ensures UnresolvedKey in r.permissions <==> allowed || Flag(acl, UnresolvedKey, Other(a))
    ensures r.permissions - {UnresolvedKey} == acl.permissions - {UnresolvedKey}
    ensures acl.unresolved.None? ==> r.listeners == acl.listeners + [Registered(u.ref)]
    ensures acl.unresolved.Some? ==> r.listeners == acl.listeners
    ensures r.shared == acl.shared
    ensures Pruned(acl.permissions) ==> Pruned(r.permissions)
  {
    var tracking :=
      if acl.unresolved.None?
      then acl.(unresolved := Some(u), listeners := acl.listeners + [Registered(u.ref)])
      else acl;
    SetAccess(tracking, Some(UnresolvedKey), a, allowed).value
  }

  function SetUserAccess(acl: Acl, u: User, a: Access, allowed: bool): (r: Result<Acl, AclError>)
    ensures r.Failure? <==> u.objectId.None? && !u.isLazy
    ensures r.Failure? ==> r.error == UnsavedUser
    ensures u.objectId.Some? ==> r == SetAccess(acl, u.objectId, a, allowed)
    ensures u.objectId.None? && u.isLazy ==> r == Success(SetUnresolvedAccess(acl, u, a, allowed))
  {
    if u.objectId.Some? then SetAccess(acl, u.objectId, a, allowed)
    else if u.isLazy then Success(SetUnresolvedAccess(acl, u, a, allowed))
    else Failure(UnsavedUser)
  }

  /** The tracked user reads through the placeholder; any other lazy user
      has been granted nothing; an unsaved non-lazy user is refused; a saved
      user reads by id. */
  function GetUserAccess(acl: Acl, u: User, a: Access): (r: Result<bool, AclError>)
    ensures r.Failure? <==> !IsTracked(acl, u) && !u.isLazy && u.objectId.None?
    ensures r.Failure? ==> r.error == UnsavedUser
    ensures IsTracked(acl, u) ==> r == Success(Flag(acl, UnresolvedKey, a))
    ensures !IsTracked(acl, u) && u.isLazy ==> r == Success(false)
    ensures !IsTracked(acl, u) && !u.isLazy && u.objectId.Some? ==> r == GetAccess(acl, u.objectId, a)
  {
    if IsTracked(acl, u) then Success(Flag(acl, UnresolvedKey, a))
    else if u.isLazy then Success(false)
    else if u.objectId.None? then Failure(UnsavedUser)
    else GetAccess(acl, u.objectId, a)
  }

  /** `new ParseACL(owner)`: read and write for the owner. */
  function WithOwner(owner: User): (r: Result<Acl, AclError>)
    ensures r.Failure? <==> owner.objectId.None? && !owner.isLazy
    ensures r.Failure? ==> r.error == UnsavedUser
    ensures r.Success? ==> !r.value.shared
    ensures owner.objectId.Some? ==>
      r.Success? && r.value.permissions == map[owner.objectId.value := Perm(true, true)]
      && r.value.unresolved.None?
      && r.value.listeners == []
    ensures owner.objectId.None? && owner.isLazy ==>
      r.Success? && r.value.permissions == map[UnresolvedKey := Perm(true, true)]
      && r.value.unresolved == Some(owner)
      && r.value.listeners == [Registered(owner.ref)]
      && Listening(r.value.listeners, owner.ref)
  {
    var readable := SetUserAccess(NewAcl(), owner, Read, true);
    if readable.Failure? then readable
    else
      var r := SetUserAccess(readable.value, owner, Write, true);
      assert r.Success? ==> r.value.permissions.Keys == readable.value.permissions.Keys;
      r
  }

  // ---------------------------------------------------------------------
  // Resolution of the tracked lazy user.

  /** Once the tracked user has an id, its placeholder row moves to that id
      (replacing any row there) and the ACL stops tracking it. Any other
      user, or the tracked user still without an id, changes nothing. */
  function ResolveUser(acl: Acl, u: User): (r: Acl)
    ensures !IsTracked(acl, u) || u.objectId.None? ==> r == acl
    ensures IsTracked(acl, u) && u.objectId.Some? ==>
      var id := u.objectId.value;
      && r.unresolved.None?
      && (UnresolvedKey in acl.permissions ==>
            && id in r.permissions
            && r.permissions[id] == acl.permissions[UnresolvedKey]
            && (id != UnresolvedKey ==> UnresolvedKey !in r.permissions)
            && r.permissions - {id, UnresolvedKey} == acl.permissions - {id, UnresolvedKey})
      && (UnresolvedKey !in acl.permissions ==> r.permissions == acl.permissions)
    ensures r.shared == acl.shared && r.listeners == acl.listeners
    ensures Pruned(acl.permissions) ==> Pruned(r.permissions)
  {
    if !IsTracked(acl, u) || u.objectId.None? then acl
    else
      var id := u.objectId.value;
      var moved :=
        if UnresolvedKey in acl.permissions
        then (acl.permissions - {UnresolvedKey})[id := acl.permissions[UnresolvedKey]]
        else acl.permissions;
      acl.(permissions := moved, unresolved := None)
  }

  /** The ACL's save listener firing for user `u` after a save; `failed`
      is the save's error. The listener unregisters itself and, when the
      save succeeded, resolves the user. An ACL with no listener on `u`
      is not called at all. */
  function OnUserSaved(acl: Acl, u: User, failed: bool): (r: Acl)
    ensures !Listening(acl.listeners, u.ref) ==> r == acl
    ensures Listening(acl.listeners, u.ref) ==>
      && r.listeners == acl.listeners + [Unregistered(u.ref)]
      && Active(r.listeners, u.ref) == Active(acl.listeners, u.ref) - 1
      && r.shared == acl.shared
    ensures Listening(acl.listeners, u.ref) && failed ==>
      r.permissions == acl.permissions && r.unresolved == acl.unresolved
    ensures Listening(acl.listeners, u.ref) && !failed ==>
      r.permissions == ResolveUser(acl, u).permissions && r.unresolved == ResolveUser(acl, u).unresolved
  {
    if !Listening(acl.listeners, u.ref) then acl
    else
      ActiveAppend(acl.listeners, Unregistered(u.ref), u.ref);
      var done := acl.(listeners := acl.listeners + [Unregistered(u.ref)]);
      if failed then done else ResolveUser(done, u)
  }

  // ---------------------------------------------------------------------
  // Copy and the shared flag.

  /** `copy()`: the same rows, the same tracked user object and the same
      `shared` flag; the copy registers a listener of its own on the
      tracked user. */
  function Copy(acl: Acl): (r: Acl)
    ensures r.permissions == acl.permissions
    ensures r.unresolved == acl.unresolved && r.shared == acl.shared
    ensures acl.unresolved.Some? ==>
      var ref := acl.unresolved.value.ref;
      r.listeners == [Registered(ref)] && Listening(r.listeners, ref)
    ensures acl.unresolved.None? ==> r.listeners == []
  {
    var listeners := if acl.unresolved.Some? then [Registered(acl.unresolved.value.ref)] else [];
    Acl(acl.permissions, acl.unresolved, acl.shared, listeners)
  }

  function SetShared(acl: Acl, shared: bool): (r: Acl)
    ensures r.shared == shared
    ensures r.permissions == acl.permissions && r.unresolved == acl.unresolved
    ensures r.listeners == acl.listeners
  {
    acl.(shared := shared)
  }
}
