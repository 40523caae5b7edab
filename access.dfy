/**
 * The role test shared by the per-operation access policy and the role filter
 * of the user listing: a required list of roles is met by a list of held role
 * strings when the required list is empty or the two have a role in common.
 */
module Access {
  import Roles

  /** Some role of `wanted` appears, by its string value, among `held`. */
  predicate SharesRole(held: seq<string>, wanted: seq<Roles.Role>) {
    exists r :: r in wanted && Roles.ToString(r) in held
  }

  /** The gate: no required role, or at least one of them held. */
  predicate Passes(held: seq<string>, required: seq<Roles.Role>) {
    |required| == 0 || SharesRole(held, required)
  }

  /** The string values of a list of roles. */
  function Names(rs: seq<Roles.Role>): set<string> {
    set r | r in rs :: Roles.ToString(r)
  }

  /** The gate is the set-intersection test: empty requirement, or a non-empty intersection. */
  lemma PassesIffIntersects(held: seq<string>, required: seq<Roles.Role>)
    ensures Passes(held, required) <==> required == [] || Names(required) * (set s | s in held) != {}
  {
    var common := Names(required) * (set s | s in held);
    if SharesRole(held, required) {
      var r :| r in required && Roles.ToString(r) in held;
      assert Roles.ToString(r) in common;
    }
    if common != {} {
      var s :| s in common;
      var r :| r in required && Roles.ToString(r) == s;
      assert SharesRole(held, required);
    }
  }

  /** Requiring `a + b` is requiring `a` or requiring `b`. */
  lemma SharesRoleConcat(held: seq<string>, a: seq<Roles.Role>, b: seq<Roles.Role>)
    ensures SharesRole(held, a + b) <==> SharesRole(held, a) || SharesRole(held, b)
  {
  }

  /** Only which roles are listed matters, not their order or repetition. */
  lemma PassesDependsOnRoleSet(held: seq<string>, a: seq<Roles.Role>, b: seq<Roles.Role>)
    requires forall r :: r in a <==> r in b
    ensures Passes(held, a) <==> Passes(held, b)
  {
    if a != [] { assert a[0] in b; }
    if b != [] { assert b[0] in a; }
  }

  /** Holding more roles never turns a pass into a denial. */
  lemma PassesMonotone(held: seq<string>, more: seq<string>, required: seq<Roles.Role>)
    requires forall s :: s in held ==> s in more
    ensures Passes(held, required) ==> Passes(more, required)
  {
  }
}
