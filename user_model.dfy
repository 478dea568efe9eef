/** The User collection's schema: the email setters and unique index, the length limits, the role enum. */
module UserModel {
  import opened Common
  import opened Text

  /** `role`: enum ["user", "admin"], default "user". */
  datatype Role = UserRole | AdminRole

  /** A stored account. `passwordHash` is what the controller stored as `password`. */
  datatype User = User(id: nat, username: Option<string>, email: string, passwordHash: string, role: Role)

  /** A document handed to `User.create`; `None` marks an omitted field. */
  datatype UserInput = UserInput(email: string, username: Option<string>, password: string, role: Option<string>)

  function ParseRole(s: string): (r: Option<Role>)
    ensures r == Some(UserRole) <==> s == "user"
    ensures r == Some(AdminRole) <==> s == "admin"
  {
    if s == "user" then Some(UserRole) else if s == "admin" then Some(AdminRole) else None
  }

  /** The `trim` and `lowercase` setters on `email`. They run on documents and on query filters alike. */
  function NormalizeEmail(e: string): (r: string)
    ensures |r| == |Trim(e)| && forall k :: 0 <= k < |r| ==> r[k] == LowerChar(Trim(e)[k])
    ensures |r| <= |e|
    ensures r != [] ==> !IsSpace(r[0]) && !IsSpace(r[|r| - 1])
    ensures forall k :: 0 <= k < |r| ==> !('A' <= r[k] <= 'Z')
  {
    var t := Trim(e);
    LowerFacts(t);
    Lower(t)
  }

  /** The validators, checked on the values the setters produced: a non-empty email, a trimmed username
      of 3 to 50 characters when one is given, a password of at least 6 characters, a role from the enum. */
  predicate Validates(doc: UserInput)
  {
    && NormalizeEmail(doc.email) != ""
    && (doc.username.Some? ==> 3 <= |Trim(doc.username.value)| <= 50)
    && |doc.password| >= 6
    && (doc.role.Some? ==> ParseRole(doc.role.value).Some?)
  }

  /** `User.create(doc)`: the setters, the validators, then the role default. */
  function Create(doc: UserInput, id: nat): (r: Option<User>)
    ensures r.Some? <==> Validates(doc)
    ensures r.Some? ==> r.value.id == id && r.value.email == NormalizeEmail(doc.email) && r.value.email != ""
    ensures r.Some? ==> r.value.passwordHash == doc.password
    ensures r.Some? && doc.username.Some? ==> r.value.username == Some(Trim(doc.username.value))
    ensures r.Some? && doc.username.None? ==> r.value.username == None
    ensures r.Some? && doc.role.None? ==> r.value.role == UserRole
    ensures r.Some? && doc.role.Some? ==> ParseRole(doc.role.value) == Some(r.value.role)
  {
    if !Validates(doc) then None
    else Some(User(
      id,
      if doc.username.Some? then Some(Trim(doc.username.value)) else None,
      NormalizeEmail(doc.email),
      doc.password,
      if doc.role.Some? then ParseRole(doc.role.value).value else UserRole))
  }
}
