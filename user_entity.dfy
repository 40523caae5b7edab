/**
 * The `User` record: its stored columns, the defaults a new record receives,
 * the fields exposed to API clients, and the overlay an update applies.
 */
module UserEntity {
  import opened Wrappers
  import Roles
  import Access

  /** The generated primary key (a uuid). */
  type UserId = string

  /**
   * A stored user. `roles` is the text-array column, so it holds strings;
   * `lastUpdateBy` is the nullable self-reference, kept as the other user's id.
   */
  datatype User = User(
    id: UserId,
    fullName: string,
    email: string,
    password: string,
    roles: seq<string>,
    isActive: bool,
    lastUpdateBy: Option<UserId>)

  /** The fields of a signup request. */
  datatype SignupInput = SignupInput(email: string, fullName: string, password: string)

  /** The column default for `roles`. */
  const DefaultRoles: seq<string> := [Roles.ToString(Roles.User)]

  /**
   * The record a signup produces: the input's fields, the password replaced by
   * its hash, and the column defaults for everything else.
   */
  function NewUser(id: UserId, input: SignupInput, hash: string -> string): (u: User)
    ensures u.id == id && u.fullName == input.fullName && u.email == input.email
    ensures u.password == hash(input.password)
    ensures u.roles == ["user"] && u.isActive
    ensures u.lastUpdateBy == None
  {
    User(id, input.fullName, input.email, hash(input.password), DefaultRoles, true, None)
  }

  /** A user as API clients see it: every field but the password. */
  datatype UserView = UserView(
    id: UserId,
    fullName: string,
    email: string,
    roles: seq<string>,
    isActive: bool,
    lastUpdateBy: Option<UserId>)

  function Expose(u: User): UserView {
    UserView(u.id, u.fullName, u.email, u.roles, u.isActive, u.lastUpdateBy)
  }

  /** Two records look alike to clients exactly when they differ at most in their password. */
  lemma ExposeHidesOnlyPassword(u: User, w: User)
    ensures Expose(u) == Expose(w) <==> u.(password := w.password) == w
  {
  }

  /**
   * The fields an update request may carry: the target id and, optionally,
   * each editable field.
   */
  datatype UpdateUserInput = UpdateUserInput(
    id: UserId,
    fullName: Option<string>,
    email: Option<string>,
    password: Option<string>,
    roles: Option<seq<Roles.Role>>,
    isActive: Option<bool>)

  /** The string values of a list of roles, in order. */
  function RoleNames(rs: seq<Roles.Role>): seq<string> {
    seq(|rs|, i requires 0 <= i < |rs| => Roles.ToString(rs[i]))
  }

  /** The stored record with every field the input supplies written over it (a preload). */
  function Overlay(stored: User, input: UpdateUserInput): User {
    stored.(
      fullName := if input.fullName.Some? then input.fullName.value else stored.fullName,
      email := if input.email.Some? then input.email.value else stored.email,
      password := if input.password.Some? then input.password.value else stored.password,
      roles := if input.roles.Some? then RoleNames(input.roles.value) else stored.roles,
      isActive := if input.isActive.Some? then input.isActive.value else stored.isActive)
  }

  /**
   * The record an update saves: the overlay, stamped with the acting user,
   * with the password hashed when the input carries a non-empty one.
   */
  function Updated(stored: User, input: UpdateUserInput, actor: UserId, hash: string -> string): (u: User)
    ensures u.id == stored.id
    ensures u.lastUpdateBy == Some(actor)
    ensures input.fullName.None? ==> u.fullName == stored.fullName
    ensures input.fullName.Some? ==> u.fullName == input.fullName.value
    ensures input.email.None? ==> u.email == stored.email
    ensures input.email.Some? ==> u.email == input.email.value
    ensures input.isActive.None? ==> u.isActive == stored.isActive
    ensures input.isActive.Some? ==> u.isActive == input.isActive.value
    ensures input.roles.None? ==> u.roles == stored.roles
    ensures input.roles.Some? ==> u.roles == RoleNames(input.roles.value)
    ensures input.password.None? ==> u.password == stored.password
    ensures input.password.Some? && input.password.value != "" ==> u.password == hash(input.password.value)
    ensures input.password == Some("") ==> u.password == ""
  {
    var merged := Overlay(stored, input).(lastUpdateBy := Some(actor));
    if input.password.Some? && input.password.value != "" then merged.(password := hash(input.password.value))
    else merged
  }

  /** A user whose roles are set to `rs` passes a requirement exactly when `rs` meets it. */
  lemma RoleNamesPass(rs: seq<Roles.Role>, required: seq<Roles.Role>)
    ensures Access.Passes(RoleNames(rs), required) <==> required == [] || exists r :: r in required && r in rs
  {
    var names := RoleNames(rs);
    if Access.SharesRole(names, required) {
      var r :| r in required && Roles.ToString(r) in names;
      var i :| 0 <= i < |names| && names[i] == Roles.ToString(r);
      Roles.ToStringInjective(r, rs[i]);
      assert r in rs;
    }
    if exists r :: r in required && r in rs {
      var r :| r in required && r in rs;
      var i :| 0 <= i < |rs| && rs[i] == r;
      assert names[i] == Roles.ToString(r);
    }
  }
}
