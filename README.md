# User store and access policy of a GraphQL users/items API

This project models, in Dafny, the user-record store of a NestJS GraphQL API
and the access policy its resolvers declare.

- **Roles** (`roles.dfy`): the `ValidRoles` enumeration `admin`, `user`,
  `superUser`, whose wire strings are `"admin"`, `"user"` and `"super-user"`.
- **Access** (`access.dfy`): one role test used in two places. The user
  listing's role filter uses it, and so does every guarded operation. A
  requirement is met when it names no role, or when the holder has at least
  one of the named roles.
- **UserEntity** (`user_entity.dfy`): the `User` record and the column
  defaults a new user gets. A new user has roles `['user']`, is active, and
  has no `lastUpdateBy`. The module also gives the fields visible to clients
  (every field but the password) and the overlay merge an update applies.
- **UsersService** (`users_service.dfy`): the class `UserStore`. It holds
  the users table as a map from id to record. Its invariant is that each
  record sits under its own id and that no two records share an email. The
  class has these members:
  - the lookups `FindAll`, `FindOneById`, `FindOneByEmail` and the stub `FindOne`;
  - the state-changing `Create`, `Update` and `Block`;
  - `Save`, the write to the table that enforces the unique email column.
- **Errors** and **Text** (`errors.dfy`, `text.dfy`): the classifier of
  database errors. It turns a unique violation into a bad request and
  removes the first `"Key "` from the detail, as JavaScript's
  `String.prototype.replace` does for a string pattern. The service's own
  not-found code becomes NotFound. Any other error becomes an internal
  error with a fixed message.
- **Resolvers** (`resolvers.dfy`): every operation and field of the users,
  items and auth resolvers. Each has its declared requirement: public, any
  authenticated caller, or a role list. Each also says which principal it
  hands to its service: none, the caller, or the parent entity. `Dispatch`
  applies the requirement and then builds the service call.
- `scenario.dfy` is a client of these contracts. Two users sign up and one
  becomes an admin. The plain user is refused the users listing. The admin
  updates the plain user, which stamps `lastUpdateBy`. A repeated email is
  refused at signup.

Modelling choices:
- The password hash (bcrypt) is the store's uninterpreted `hash` function.
- The database-generated uuid is the `newId` argument of `Create`. It is
  required to be unused, as the generator guarantees.
- A caller is the `Option<User>` that the JWT guard established. `None`
  means no authenticated user.
- The stored `roles` column is a text array, so records hold role strings.
  Filters and requirements hold `Role` values and are compared through
  their string values.
- On a unique violation the database reports
  `Key (email)=(<email>) already exists.`. This is PostgreSQL's wording,
  not part of the source. So a duplicate email reaches the caller as
  BadRequest `(email)=(<email>) already exists.`.
- The signup input DTO is not modelled field by field. It is taken as
  `email`, `fullName` and `password`, the fields `create` spreads into the
  new record.
- The `UpdateUserInput` DTO is not modelled field by field. It is taken as
  the target id plus optional `fullName`, `email`, `password`, `roles` and
  `isActive`.
- Points where the model follows the code as written:
  - A duplicate email surfaces as a bad request, not as a separate
    "conflict" kind.
  - The code does not keep `roles` non-empty: an update may set it
    to the empty list.
  - The rejection of inactive users happens in the JWT strategy, which is
    not part of this model.
- As written, `update` first overlays the supplied password and then hashes
  it only when it is truthy. A supplied empty password is therefore stored
  as `""`, unhashed. `UserEntity.Updated` states this case. The input
  validation that may exclude it is not part of this model.

## Model

| member | source | states |
|---|---|---|
| Roles.ToString | src/auth/enums/valid-roles.enum.ts:3-7 | every role's string is one of the three wire values |
| Roles.Parse | src/auth/enums/valid-roles.enum.ts:4-6 | a string parses iff it is one of `"admin"`, `"user"`, `"super-user"`, and the parsed role's string is that string |
| Roles.ParseToString | src/auth/enums/valid-roles.enum.ts:4-6 | parsing a role's string gives back that role |
| Roles.ToStringInjective | src/auth/enums/valid-roles.enum.ts:4-6 | two roles have the same string iff they are the same role |
| Roles.ExactlyThreeRoles | src/auth/enums/valid-roles.enum.ts:3-7 | there are exactly three roles and three wire values; `superUser` is `"super-user"` and `"superUser"` does not parse |
| Text.FirstOccurrence | src/users/users.service.ts:108 | the result is an occurrence of the pattern and no earlier index is one; None means no index is one |
| Text.RemoveFirst | src/users/users.service.ts:108 | with no occurrence the string is unchanged; otherwise exactly the first occurrence is cut out |
| Text.RemoveFirstOfPrefixed | src/users/users.service.ts:108 | removing `pat` from `pat + t` gives `t` |
| Text.RemoveFirstLength | src/users/users.service.ts:108 | removal shortens by the pattern's length iff the pattern occurs |
| Errors.HandleDbErrors | src/users/users.service.ts:106-115 | code `23505` iff BadRequest, with the detail minus its first `"Key "`; `error-001` iff NotFound, with the detail unchanged; any other code iff InternalServerError `Please check server logs` |
| Errors.UniqueViolationIsBadRequest | src/users/users.service.ts:107-109 | a unique violation's detail `Key (c)=(v) already exists.` becomes BadRequest `(c)=(v) already exists.` |
| Errors.InternalErrorHidesDetail | src/users/users.service.ts:113-114 | an unexpected error's message does not depend on its detail |
| Access.PassesIffIntersects | src/users/users.service.ts:42 | the role test passes iff the requirement is empty or the string sets of required and held roles intersect |
| Access.SharesRoleConcat | src/users/users.service.ts:41-44 | sharing a role with `a + b` is sharing one with `a` or with `b` |
| Access.PassesDependsOnRoleSet | src/users/users.resolver.ts:24 | the test depends only on which roles are required, not their order or repetition |
| Access.PassesMonotone | src/users/users.resolver.ts:24-67 | holding more roles never turns a pass into a denial |
| UserEntity.NewUser | src/users/users.service.ts:20-27 | a new record keeps the input's name, email and id, stores `hash(password)`, has roles `['user']`, is active, and has no `lastUpdateBy` |
| UserEntity.ExposeHidesOnlyPassword | src/users/entities/user.entity.ts:9-46 | two records look alike to clients iff they differ at most in the password |
| UserEntity.Updated | src/users/users.service.ts:78-92 | the id is kept; `lastUpdateBy` is the actor; each supplied field replaces the stored one and each absent field is kept; the password is hashed only when a non-empty one is supplied |
| UserEntity.RoleNamesPass | src/users/entities/user.entity.ts:24-30 | roles stored from a role list pass a requirement iff the list meets it |
| UsersService.DuplicateEmail | src/users/entities/user.entity.ts:17-19 | a duplicate email ends in BadRequest `(email)=(<email>) already exists.` |
| UsersService.UserStore.constructor | src/users/users.service.ts:15-18 | the store starts empty and valid, with the given hash |
| UsersService.UserStore.FindAll | src/users/users.service.ts:33-44 | the result is a subset of the stored users; an empty filter gives every stored user; otherwise exactly the users holding one of the filter's roles |
| UsersService.UserStore.FindOneById | src/users/users.service.ts:62-71 | succeeds iff the id is stored, with the record whose id it is; otherwise NotFound `User with id <id> not found` |
| UsersService.UserStore.FindOneByEmail | src/users/users.service.ts:51-60 | succeeds iff some stored user has exactly that email, and returns a stored user with it; otherwise NotFound `<email> not found` |
| UsersService.UserStore.FindOne | src/users/users.service.ts:47-49 | always fails, as not implemented |
| UsersService.UserStore.Save | src/users/users.service.ts:93-95 | writes the record under its id unless another user has its email; then BadRequest and the store is unchanged |
| UsersService.UserStore.Create | src/users/users.service.ts:20-31 | with a fresh email stores exactly `NewUser(newId, input, hash)` and nothing else; with a taken email BadRequest and the store is unchanged |
| UsersService.UserStore.Update | src/users/users.service.ts:73-97 | a missing id is NotFound and saves nothing; otherwise stores `Updated(old record, input, actor)` under the id, or fails with BadRequest and saves nothing when the new email belongs to another user |
| UsersService.UserStore.Block | src/users/users.service.ts:99-104 | a missing id is NotFound and changes nothing; otherwise the stored record becomes inactive, stamped with the admin, and is otherwise unchanged |
| UsersService.FindAllUnion | src/users/users.service.ts:41-44 | filtering by `a + b` lists the union of filtering by `a` and by `b` |
| UsersService.FindAllDependsOnRoleSet | src/users/users.service.ts:41-44 | two filters naming the same roles list the same users |
| Resolvers.RequirementOf | src/users/users.resolver.ts:15-67 | every users-resolver operation is guarded and needs admin (and super-user is also accepted exactly for `users` and `user`); every item operation and `revalidate` is guarded with no roles; exactly `signup` and `login` are public; no operation lists `user` |
| Resolvers.PrincipalOf | src/users/users.resolver.ts:22-72 | exactly the `itemCount` and `items` fields receive the parent entity; exactly `users`, `user`, `signup` and `login` receive no principal; exactly `updateUser`, `blockUser`, `revalidate` and every item operation receive the caller; only guarded operations receive the caller |
| Resolvers.Dispatch | src/users/users.resolver.ts:22-72 | refused iff the operation is guarded and the caller is missing or fails the role test; Unauthenticated iff the caller is missing; on success each request becomes its own service call with its input, id and payload forwarded, the principal `PrincipalOf` names, and the request's own id argument; `users` forwards only its role filter |
| Resolvers.PlainUserCannotReadAdminFields | src/users/users.resolver.ts:57-72 | a caller with roles `['user']` is Forbidden from `itemCount` and `items` on any user |
| Resolvers.FieldAccessIgnoresParent | src/users/users.resolver.ts:57-72 | whether a field resolves does not depend on the parent user |
| Resolvers.AuthenticatedSuffices | src/items/items.resolver.ts:12-52 | any authenticated caller may use every item operation and `revalidate` |
| Resolvers.UsersListingNeedsAdminOrSuperUser | src/users/users.resolver.ts:22-31 | the users listing succeeds iff the caller holds `"admin"` or `"super-user"` |
| Resolvers.AuthResolverAccess | src/auth/auth.resolver.ts:10-36 | `signup` and `login` go through with no caller; `revalidate` without a caller is Unauthenticated, and with one hands that caller to the service |

## Left out

- Token handling is not part of this model: JWT signing and verification,
  `JwtAuthGuard`, the `CurrentUser` decorator and the JWT strategy that
  rejects inactive users. The caller is the guard's outcome, `Option<User>`.
  The role test those pieces apply is stated once, as `Access.Passes`.
- Whether field resolvers run the class-level guard depends on the GraphQL
  module's configuration, which is not part of this model. The model
  guards them as the resolver declares.
- Resolvers.Dispatch: does not model the `ParseUUIDPipe` on the id
  arguments of `user`, `blockUser`, `item` and `removeItem`, which refuses
  a non-uuid id with a bad request before the service is called. The uuid
  format is the validator library's, and the order between that refusal and
  the role check depends on framework parameter resolution; neither is part
  of this model.
- The items service and the auth service are not part of this model.
  Their calls are recorded as `ServiceCall` values and not executed.
- bcrypt: the cost factor and salt are not modelled. Hashing is an
  uninterpreted function.
- TypeORM: the repository is a map, and the `&&` array query is the role
  test. Result order is not modelled: listings are sets. The lazy `items`
  relation and lazy loading of `lastUpdateBy` are not modelled;
  `lastUpdateBy` is the other user's id.
- Storage failures other than a duplicate email are not modelled, for
  example a lost connection or a foreign-key failure. Only the email's
  unique constraint is enforced by `Save`.
- Logging in `handleDBErrors` and all async/Promise behaviour are left out.
  Every operation is synchronous.
- Pagination and search arguments are dropped. `findAll` takes only
  the role filter.
- Seeding, module wiring, bootstrap, the global validation pipe and the
  GraphQL enum registration are left out.
