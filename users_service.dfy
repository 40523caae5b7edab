/**
 * The user service: a store of user records keyed by id, with its lookups,
 * the role-filtered listing, and the create, update and block operations that
 * write records back.
 */
module UsersService {
  import opened Wrappers
  import Roles
  import Access
  import opened Errors
  import opened UserEntity

  /** Some user other than `id` already has `email`. */
  ghost predicate EmailTakenByOther(users: map<UserId, User>, id: UserId, email: string) {
    exists j :: j in users && j != id && users[j].email == email
  }

  /** The exception a save that duplicates `email` ends in. */
  function DuplicateEmail(email: string): (x: Exception)
    ensures x == BadRequest(ConflictText("email", email))
  {
    UniqueViolationIsBadRequest("email", email);
    HandleDbErrors(DbError(UniqueViolationCode, UniqueViolationDetail("email", email)))
  }

  /** The exception a lookup of a missing id ends in. */
  function MissingId(id: UserId): Exception {
    HandleDbErrors(DbError(NotFoundCode, "User with id " + id + " not found"))
  }

  class UserStore {
    /** The users table, by primary key. */
    var users: map<UserId, User>
    /** The password hash. */
    const hash: string -> string

    /** Every record sits under its own id, and no two records share an email. */
    ghost predicate Valid()
      reads this
    {
      && (forall id | id in users :: users[id].id == id)
      && (forall i, j | i in users && j in users && users[i].email == users[j].email :: i == j)
    }

    constructor (hash: string -> string)
      ensures Valid() && users == map[] && this.hash == hash
    {
      users := map[];
      this.hash := hash;
    }

    /**
     * findAll: with no role filter every user; otherwise the users holding at
     * least one of the filter's roles.
     */
    function FindAll(roles: seq<Roles.Role>): (r: set<User>)
      reads this
      ensures r <= users.Values
      ensures roles == [] ==> r == users.Values
      ensures roles != [] ==> forall u | u in users.Values ::
        u in r <==> exists role :: role in roles && Roles.ToString(role) in u.roles
    {
      set u | u in users.Values && Access.Passes(u.roles, roles)
    }

    /** findOneById: the record stored under `id`, or NotFound. */
    function FindOneById(id: UserId): (r: Result<User, Exception>)
      reads this
      requires Valid()
      ensures r.Success? <==> id in users
      ensures r.Success? ==> r.value.id == id && r.value in users.Values
      ensures r.Failure? ==> r.error == NotFound("User with id " + id + " not found")
    {
      if id in users then Success(users[id]) else Failure(MissingId(id))
    }

    /** findOneByEmail: the one record with exactly this email, or NotFound. */
    function FindOneByEmail(email: string): (r: Result<User, Exception>)
      reads this
      requires Valid()
      ensures r.Success? <==> exists u :: u in users.Values && u.email == email
      ensures r.Success? ==> r.value in users.Values && r.value.email == email
      ensures r.Failure? ==> r.error == NotFound(email + " not found")
    {
      if exists u :: u in users.Values && u.email == email then
        var u :| u in users.Values && u.email == email;
        Success(u)
      else
        Failure(HandleDbErrors(DbError(NotFoundCode, email + " not found")))
    }

    /** findOne: not implemented, so it always fails. */
    function FindOne(id: UserId): (r: Result<User, Exception>)
      ensures r.Failure? && r.error.Unimplemented?
    {
      Failure(Unimplemented("findOne method not implemented"))
    }

    /** save: write `user` under its id unless another user already has its email. */
    method Save(user: User) returns (r: Result<User, Exception>)
      requires Valid()
      modifies this
      ensures Valid()
      ensures EmailTakenByOther(old(users), user.id, user.email) ==>
        r == Failure(DuplicateEmail(user.email)) && users == old(users)
      ensures !EmailTakenByOther(old(users), user.id, user.email) ==>
        r == Success(user) && users == old(users)[user.id := user]
    {
      if exists j :: j in users && j != user.id && users[j].email == user.email {
        r := Failure(DuplicateEmail(user.email));
      } else {
        ghost var before := users;
        users := users[user.id := user];
        forall i, j | i in users && j in users && users[i].email == users[j].email
          ensures i == j
        {
          if i != user.id && j != user.id {
            assert before[i].email == before[j].email;
          }
        }
        r := Success(user);
      }
    }

    /**
     * create: a new record from the signup input, with the defaults applied and
     * only the password's hash kept; a duplicate email is a bad request.
     * `newId` is the key the database generates, which is never in use.
     */
    method Create(input: SignupInput, newId: UserId) returns (r: Result<User, Exception>)
      requires Valid()
      requires newId !in users
      modifies this
      ensures Valid()
      ensures EmailTakenByOther(old(users), newId, input.email) ==>
        r == Failure(DuplicateEmail(input.email)) && users == old(users)
      ensures !EmailTakenByOther(old(users), newId, input.email) ==>
        r == Success(NewUser(newId, input, hash)) && users == old(users)[newId := r.value]
    {
      var newUser := NewUser(newId, input, hash);
      r := Save(newUser);
    }

    /**
     * update: preload the record, stamp the acting user, hash a supplied
     * password, and save; a missing id is NotFound and a duplicate email a bad
     * request, and neither changes the store.
     */
    method Update(id: UserId, input: UpdateUserInput, updateBy: User) returns (r: Result<User, Exception>)
      requires Valid()
      modifies this
      ensures Valid()
      ensures id !in old(users) ==>
        r == Failure(NotFound("User with id " + id + " not found")) && users == old(users)
      ensures id in old(users) ==>
        var u := Updated(old(users)[id], input, updateBy.id, hash);
        if EmailTakenByOther(old(users), id, u.email)
        then r == Failure(DuplicateEmail(u.email)) && users == old(users)
        else r == Success(u) && users == old(users)[id := u]
    {
      if id !in users {
        r := Failure(MissingId(id));
        return;
      }
      var user := Overlay(users[id], input);
      user := user.(lastUpdateBy := Some(updateBy.id));
      if input.password.Some? && input.password.value != "" {
        user := user.(password := hash(input.password.value));
      }
      r := Save(user);
    }

    /**
     * block: look the user up, mark it inactive, stamp the blocking admin, and
     * save; every other field stays as it was.
     */
    method Block(id: UserId, adminUser: User) returns (r: Result<User, Exception>)
      requires Valid()
      modifies this
      ensures Valid()
      ensures id !in old(users) ==>
        r == Failure(NotFound("User with id " + id + " not found")) && users == old(users)
      ensures id in old(users) ==>
        r == Success(old(users)[id].(isActive := false, lastUpdateBy := Some(adminUser.id)))
        && users == old(users)[id := r.value]
    {
      var found := FindOneById(id);
      if found.Failure? {
        r := found;
        return;
      }
      var userToBlock := found.value;
      userToBlock := userToBlock.(isActive := false);
      userToBlock := userToBlock.(lastUpdateBy := Some(adminUser.id));
      r := Save(userToBlock);
    }
  }

  /** Filtering by `a + b` lists the users filtering by `a` or by `b` lists. */
  lemma FindAllUnion(store: UserStore, a: seq<Roles.Role>, b: seq<Roles.Role>)
    requires a != [] && b != []
    ensures store.FindAll(a + b) == store.FindAll(a) + store.FindAll(b)
  {
  }

  /** The listing depends only on which roles the filter names, not their order or repetition. */
  lemma FindAllDependsOnRoleSet(store: UserStore, a: seq<Roles.Role>, b: seq<Roles.Role>)
    requires forall r :: r in a <==> r in b
    ensures store.FindAll(a) == store.FindAll(b)
  {
    forall u | u in store.users.Values
      ensures Access.Passes(u.roles, a) <==> Access.Passes(u.roles, b)
    {
      Access.PassesDependsOnRoleSet(u.roles, a, b);
    }
  }
}
