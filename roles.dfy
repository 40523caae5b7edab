/** The `ValidRoles` enumeration: three access levels and their wire strings. */
module Roles {
  import opened Wrappers

  datatype Role = Admin | User | SuperUser

  /** Every role, once each. */
  const AllRoles: set<Role> := {Admin, User, SuperUser}

  /** The strings the enumeration members stand for. */
  const WireValues: set<string> := {"admin", "user", "super-user"}

  /** The string value of an enumeration member. */
  function ToString(r: Role): (s: string)
    ensures s in WireValues
  {
    match r
    case Admin => "admin"
    case User => "user"
    case SuperUser => "super-user"
  }

  /** Reads a wire string back as a role; anything but the three values is refused. */
  function Parse(s: string): (r: Option<Role>)
    ensures r.Some? <==> s in WireValues
    ensures r.Some? ==> ToString(r.value) == s
  {
    if s == "admin" then Some(Admin)
    else if s == "user" then Some(User)
    else if s == "super-user" then Some(SuperUser)
    else None
  }

  /** Parsing a role's string gives back that role. */
  lemma ParseToString(r: Role)
    ensures Parse(ToString(r)) == Some(r)
  {
  }

  /** The three string values are distinct. */
  lemma ToStringInjective(a: Role, b: Role)
    ensures ToString(a) == ToString(b) <==> a == b
  {
  }

  /** There are exactly three roles, and `superUser` travels as "super-user", not "superUser". */
  lemma ExactlyThreeRoles(r: Role)
    ensures r in AllRoles && |AllRoles| == 3 && |WireValues| == 3
    ensures ToString(Admin) == "admin" && ToString(User) == "user"
    ensures ToString(SuperUser) == "super-user" && Parse("superUser") == None
  {
  }
}
