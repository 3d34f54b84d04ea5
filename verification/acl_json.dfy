/** Serialisation of an ACL to its JSON permission document and back.

    The document maps each table key to `{"read": true, "write": true}`
    (a false flag is omitted) and, when a user is tracked, holds that user
    under `"unresolvedUser"` as the external encoder writes it. The encoder
    and decoder are parameters: their internals are not part of the model. */
module AclJson {
  import opened Wrappers
  import opened Json
  import opened ParseAcl

  const ReadField := "read"
  const WriteField := "write"
  const UnresolvedUserField := "unresolvedUser"

  /** A field other than `"unresolvedUser"` does not hold an object. */
  datatype DecodeError = MalformedPermissions

  function PermToJson(p: Perm): (j: Json)
    ensures j.JObject?
    ensures OptBoolean(j.fields, ReadField) == p.read
    ensures OptBoolean(j.fields, WriteField) == p.write
  {
    JObject((if p.read then map[ReadField := JBool(true)] else map[])
          + (if p.write then map[WriteField := JBool(true)] else map[]))
  }

  /** A permission row read from a JSON value; only an object is a row. */
  function PermFromJson(j: Json): (r: Option<Perm>)
    ensures r.Some? <==> j.JObject?
    ensures r.Some? ==>
      r.value.read == OptBoolean(j.fields, ReadField) && r.value.write == OptBoolean(j.fields, WriteField)
  {
    if j.JObject? then Some(Perm(OptBoolean(j.fields, ReadField), OptBoolean(j.fields, WriteField)))
    else None
  }

  /** The shape `PermToJson` produces: an object whose only fields are
      `read` and `write`, each `true`. */
  predicate CanonicalPerm(j: Json)
  {
    && j.JObject?
    && j.fields.Keys <= {ReadField, WriteField}
    && (ReadField in j.fields ==> j.fields[ReadField] == JBool(true))
    && (WriteField in j.fields ==> j.fields[WriteField] == JBool(true))
  }

  lemma PermRoundTrip(p: Perm)
    ensures PermFromJson(PermToJson(p)) == Some(p)
    ensures CanonicalPerm(PermToJson(p))
  {
  }

  lemma PermCanonicalRoundTrip(j: Json)
    requires CanonicalPerm(j)
    ensures PermFromJson(j).Some? && PermToJson(PermFromJson(j).value) == j
  {
  }

  /** `toJSONObject(encoder)`. */
  function ToJson(acl: Acl, encode: User -> Json): (o: JsonObject)
    ensures o.Keys == acl.permissions.Keys + (if acl.unresolved.Some? then {UnresolvedUserField} else {})
    ensures acl.unresolved.Some? ==> o[UnresolvedUserField] == encode(acl.unresolved.value)
    ensures forall k :: k in acl.permissions && (k != UnresolvedUserField || acl.unresolved.None?) ==>
      o[k] == PermToJson(acl.permissions[k])
  {
    var rows := map k | k in acl.permissions :: PermToJson(acl.permissions[k]);
    if acl.unresolved.Some? then rows[UnresolvedUserField := encode(acl.unresolved.value)] else rows
  }

  /** Every field except `"unresolvedUser"` holds a permission row. */
  predicate WellFormed(o: JsonObject)
  {
    forall k :: k in o && k != UnresolvedUserField ==> o[k].JObject?
  }

  /** `createACLFromJSONObject(object, decoder)`. Every field except
      `"unresolvedUser"` becomes a row as stored (rows granting nothing
      included); `"unresolvedUser"` is decoded into the tracked user, with
      no save listener registered for it. */
  function FromJson(o: JsonObject, decode: Json -> User): (r: Result<Acl, DecodeError>)
    ensures r.Success? <==> WellFormed(o)
    ensures r.Success? ==>
      && r.value.permissions.Keys == o.Keys - {UnresolvedUserField}
      && (forall k :: k in r.value.permissions ==> Some(r.value.permissions[k]) == PermFromJson(o[k]))
      && r.value.unresolved == (if UnresolvedUserField in o then Some(decode(o[UnresolvedUserField])) else None)
      && !r.value.shared
      && r.value.listeners == []
  {
    if !WellFormed(o) then Failure(MalformedPermissions)
    else
      var rows := map k | k in o && k != UnresolvedUserField :: PermFromJson(o[k]).value;
      var user := if UnresolvedUserField in o then Some(decode(o[UnresolvedUserField])) else None;
      Success(Acl(rows, user, false, []))
  }

  /** Decoding an encoded ACL gives back its rows and its tracked user. The
      `shared` flag and the listeners are not part of the document. */
  lemma AclRoundTrip(acl: Acl, encode: User -> Json, decode: Json -> User)
    requires UnresolvedUserField !in acl.permissions
    requires acl.unresolved.Some? ==> decode(encode(acl.unresolved.value)) == acl.unresolved.value
    ensures FromJson(ToJson(acl, encode), decode) == Success(Acl(acl.permissions, acl.unresolved, false, []))
  {
    var o := ToJson(acl, encode);
    forall k | k in acl.permissions
      ensures PermFromJson(o[k]) == Some(acl.permissions[k])
    {
      PermRoundTrip(acl.permissions[k]);
    }
    var r := FromJson(o, decode);
    assert r.value.permissions == acl.permissions;
  }

  /** Why `AclRoundTrip` excludes a row keyed `"unresolvedUser"` even when no
      user is tracked: the row is written out as a row, read back as the
      tracked user, and lost from the table. */
  lemma UnresolvedUserRowIsMisread(p: Perm, encode: User -> Json, decode: Json -> User)
    ensures
      var acl := Acl(map[UnresolvedUserField := p], None, false, []);
      var back := FromJson(ToJson(acl, encode), decode);
      && back.Success?
      && back.value.permissions == map[]
      && back.value.unresolved == Some(decode(PermToJson(p)))
  {
    var acl := Acl(map[UnresolvedUserField := p], None, false, []);
    var back := FromJson(ToJson(acl, encode), decode).value;
    assert back.permissions.Keys == {};
  }

  /** Encoding a decoded document gives back the document, when its rows
      are in the encoder's canonical shape and the user codec round-trips. */
  lemma DocumentRoundTrip(o: JsonObject, encode: User -> Json, decode: Json -> User)
    requires forall k :: k in o && k != UnresolvedUserField ==> CanonicalPerm(o[k])
    requires UnresolvedUserField in o ==> encode(decode(o[UnresolvedUserField])) == o[UnresolvedUserField]
    ensures FromJson(o, decode).Success?
    ensures ToJson(FromJson(o, decode).value, encode) == o
  {
    var acl := FromJson(o, decode).value;
    forall k | k in acl.permissions
      ensures PermToJson(acl.permissions[k]) == o[k]
    {
      PermCanonicalRoundTrip(o[k]);
    }
    assert ToJson(acl, encode).Keys == o.Keys;
  }
}
