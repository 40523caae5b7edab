/**
 * The GraphQL operations and fields of the users, items and auth resolvers,
 * each with its statically declared access requirement and the principal it
 * hands to its service, and the dispatch that applies the requirement before
 * the service is called.
 */
module Resolvers {
  import opened Wrappers
  import Roles
  import Access
  import opened UserEntity

  type ItemId = string

  datatype Resolver = UsersResolver | ItemsResolver | AuthResolver

  /** Every query, mutation and resolved field of the three resolvers. */
  datatype Operation =
    | UsersQuery | UserQuery | UpdateUserMutation | BlockUserMutation | ItemCountField | ItemsField
    | CreateItemMutation | ItemsQuery | ItemQuery | UpdateItemMutation | RemoveItemMutation
    | SignupMutation | LoginMutation | RevalidateQuery

  function ResolverOf(op: Operation): Resolver {
    match op
    case UsersQuery | UserQuery | UpdateUserMutation | BlockUserMutation | ItemCountField | ItemsField =>
      UsersResolver
    case CreateItemMutation | ItemsQuery | ItemQuery | UpdateItemMutation | RemoveItemMutation =>
      ItemsResolver
    case SignupMutation | LoginMutation | RevalidateQuery =>
      AuthResolver
  }

  /**
   * What an operation declares: no guard at all, or the JWT guard together
   * with the roles the current-user parameter asks for (none: any
   * authenticated caller).
   */
  datatype Requirement = Public | Guarded(roles: seq<Roles.Role>)

  /** The declared requirement of each operation. */
  function RequirementOf(op: Operation): (r: Requirement)
    ensures ResolverOf(op) == UsersResolver ==> r.Guarded? && Roles.Admin in r.roles
    ensures ResolverOf(op) == ItemsResolver ==> r == Guarded([])
    ensures r.Public? <==> op == SignupMutation || op == LoginMutation
    ensures op == RevalidateQuery ==> r == Guarded([])
    ensures r.Guarded? && Roles.SuperUser in r.roles <==> op == UsersQuery || op == UserQuery
    ensures r.Guarded? ==> Roles.User !in r.roles
  {
    match op
    case UsersQuery | UserQuery => Guarded([Roles.Admin, Roles.SuperUser])
    case UpdateUserMutation | BlockUserMutation | ItemCountField | ItemsField => Guarded([Roles.Admin])
    case CreateItemMutation | ItemsQuery | ItemQuery | UpdateItemMutation | RemoveItemMutation => Guarded([])
    case SignupMutation | LoginMutation => Public
    case RevalidateQuery => Guarded([])
  }

  /** Which principal an operation hands to its service. */
  datatype PrincipalSource = NoPrincipal | Caller | ParentEntity

  function PrincipalOf(op: Operation): (p: PrincipalSource)
    ensures p == ParentEntity <==> op == ItemCountField || op == ItemsField
    ensures p == NoPrincipal <==> op in {UsersQuery, UserQuery, SignupMutation, LoginMutation}
    ensures p == Caller <==> op in {UpdateUserMutation, BlockUserMutation, RevalidateQuery}
                             || ResolverOf(op) == ItemsResolver
    ensures ResolverOf(op) == ItemsResolver ==> p == Caller
    ensures p == Caller ==> RequirementOf(op).Guarded?
    ensures RequirementOf(op).Public? ==> p == NoPrincipal
  {
    match op
    case UsersQuery | UserQuery => NoPrincipal
    case UpdateUserMutation | BlockUserMutation => Caller
    case ItemCountField | ItemsField => ParentEntity
    case CreateItemMutation | ItemsQuery | ItemQuery | UpdateItemMutation | RemoveItemMutation => Caller
    case SignupMutation | LoginMutation => NoPrincipal
    case RevalidateQuery => Caller
  }

  datatype LoginInput = LoginInput(email: string, password: string)

  /**
   * An incoming operation with its arguments. Item inputs are carried as an
   * uninterpreted payload; pagination and search arguments are not kept.
   */
  datatype Request =
    | Users(roles: seq<Roles.Role>)
    | UserById(id: UserId)
    | UpdateUser(input: UpdateUserInput)
    | BlockUser(id: UserId)
    | ItemCount(parent: User)
    | UserItems(parent: User)
    | CreateItem(payload: string)
    | Items
    | ItemById(itemId: ItemId)
    | UpdateItem(itemId: ItemId, payload: string)
    | RemoveItem(itemId: ItemId)
    | Signup(signup: SignupInput)
    | Login(login: LoginInput)
    | Revalidate

  function OperationOf(req: Request): Operation {
    match req
    case Users(_) => UsersQuery
    case UserById(_) => UserQuery
    case UpdateUser(_) => UpdateUserMutation
    case BlockUser(_) => BlockUserMutation
    case ItemCount(_) => ItemCountField
    case UserItems(_) => ItemsField
    case CreateItem(_) => CreateItemMutation
    case Items => ItemsQuery
    case ItemById(_) => ItemQuery
    case UpdateItem(_, _) => UpdateItemMutation
    case RemoveItem(_) => RemoveItemMutation
    case Signup(_) => SignupMutation
    case Login(_) => LoginMutation
    case Revalidate => RevalidateQuery
  }

  /** The service call a handler makes, with the principal it passes. */
  datatype ServiceCall =
    | FindAllUsers(roles: seq<Roles.Role>)
    | FindUserById(id: UserId)
    | UpdateUserCall(id: UserId, input: UpdateUserInput, updateBy: User)
    | BlockUserCall(id: UserId, adminUser: User)
    | CountItemsByUser(owner: User)
    | FindItemsByUser(owner: User)
    | CreateItemCall(payload: string, owner: User)
    | FindItem(itemId: ItemId, owner: User)
    | UpdateItemCall(itemId: ItemId, payload: string, owner: User)
    | RemoveItemCall(itemId: ItemId, owner: User)
    | SignupCall(signup: SignupInput)
    | LoginCall(login: LoginInput)
    | RevalidateCall(user: User)

  /** The user a service call receives, if any. */
  function Principal(call: ServiceCall): Option<User> {
    match call
    case FindAllUsers(_) | FindUserById(_) | SignupCall(_) | LoginCall(_) => None
    case UpdateUserCall(_, _, u) => Some(u)
    case BlockUserCall(_, u) => Some(u)
    case CountItemsByUser(u) => Some(u)
    case FindItemsByUser(u) => Some(u)
    case CreateItemCall(_, u) => Some(u)
    case FindItem(_, u) => Some(u)
    case UpdateItemCall(_, _, u) => Some(u)
    case RemoveItemCall(_, u) => Some(u)
    case RevalidateCall(u) => Some(u)
  }

  /** The id a service call acts on, if any. */
  function Target(call: ServiceCall): Option<string> {
    match call
    case FindUserById(id) => Some(id)
    case UpdateUserCall(id, _, _) => Some(id)
    case BlockUserCall(id, _) => Some(id)
    case FindItem(id, _) => Some(id)
    case UpdateItemCall(id, _, _) => Some(id)
    case RemoveItemCall(id, _) => Some(id)
    case _ => None
  }

  /** The id argument of a request, if it has one. */
  function TargetArgument(req: Request): Option<string> {
    match req
    case UserById(id) => Some(id)
    case UpdateUser(input) => Some(input.id)
    case BlockUser(id) => Some(id)
    case ItemById(id) => Some(id)
    case UpdateItem(id, _) => Some(id)
    case RemoveItem(id) => Some(id)
    case _ => None
  }

  /** The parent entity of a resolved field. */
  function ParentArgument(req: Request): Option<User> {
    match req
    case ItemCount(parent) => Some(parent)
    case UserItems(parent) => Some(parent)
    case _ => None
  }

  /** The user a principal source designates for a request. */
  function Handed(source: PrincipalSource, req: Request, caller: Option<User>): Option<User> {
    match source
    case NoPrincipal => None
    case Caller => caller
    case ParentEntity => ParentArgument(req)
  }

  /** The call each handler makes, given the authenticated caller where it needs one. */
  function Handle(req: Request, caller: Option<User>): ServiceCall
    requires PrincipalOf(OperationOf(req)) == Caller ==> caller.Some?
  {
    match req
    case Users(roles) => FindAllUsers(roles)
    case UserById(id) => FindUserById(id)
    case UpdateUser(input) => UpdateUserCall(input.id, input, caller.value)
    case BlockUser(id) => BlockUserCall(id, caller.value)
    case ItemCount(parent) => CountItemsByUser(parent)
    case UserItems(parent) => FindItemsByUser(parent)
    case CreateItem(payload) => CreateItemCall(payload, caller.value)
    case Items => FindItemsByUser(caller.value)
    case ItemById(id) => FindItem(id, caller.value)
    case UpdateItem(id, payload) => UpdateItemCall(id, payload, caller.value)
    case RemoveItem(id) => RemoveItemCall(id, caller.value)
    case Signup(input) => SignupCall(input)
    case Login(input) => LoginCall(input)
    case Revalidate => RevalidateCall(caller.value)
  }

  /** Why an operation was refused: no authenticated caller, or a caller without a required role. */
  datatype Denial = Unauthenticated | Forbidden

  /**
   * An operation as served: a public one goes straight to its handler; a
   * guarded one needs an authenticated caller (`caller`, the user the JWT
   * guard established, or None) who passes the declared role requirement.
   */
  function Dispatch(req: Request, caller: Option<User>): (r: Result<ServiceCall, Denial>)
    ensures var need := RequirementOf(OperationOf(req));
      r.Failure? <==> need.Guarded? && (caller.None? || !Access.Passes(caller.value.roles, need.roles))
    ensures r.Failure? ==> (r.error == Unauthenticated <==> caller.None?)
    ensures r.Success? ==> Principal(r.value) == Handed(PrincipalOf(OperationOf(req)), req, caller)
    ensures r.Success? ==> Target(r.value) == TargetArgument(req)
    ensures r.Success? && req.Users? ==> r.value == FindAllUsers(req.roles)
    ensures r.Success? && req.UserById? ==> r.value == FindUserById(req.id)
    ensures r.Success? && req.UpdateUser? ==> r.value == UpdateUserCall(req.input.id, req.input, caller.value)
    ensures r.Success? && req.BlockUser? ==> r.value == BlockUserCall(req.id, caller.value)
    ensures r.Success? && req.ItemCount? ==> r.value == CountItemsByUser(req.parent)
    ensures r.Success? && req.UserItems? ==> r.value == FindItemsByUser(req.parent)
    ensures r.Success? && req.CreateItem? ==> r.value == CreateItemCall(req.payload, caller.value)
    ensures r.Success? && req.Items? ==> r.value == FindItemsByUser(caller.value)
    ensures r.Success? && req.ItemById? ==> r.value == FindItem(req.itemId, caller.value)
    ensures r.Success? && req.UpdateItem? ==> r.value == UpdateItemCall(req.itemId, req.payload, caller.value)
    ensures r.Success? && req.RemoveItem? ==> r.value == RemoveItemCall(req.itemId, caller.value)
    ensures r.Success? && req.Signup? ==> r.value == SignupCall(req.signup)
    ensures r.Success? && req.Login? ==> r.value == LoginCall(req.login)
    ensures r.Success? && req.Revalidate? ==> r.value == RevalidateCall(caller.value)
  {
    match RequirementOf(OperationOf(req))
    case Public => Success(Handle(req, None))
    case Guarded(roles) =>
      if caller.None? then Failure(Unauthenticated)
      else if !Access.Passes(caller.value.roles, roles) then Failure(Forbidden)
      else Success(Handle(req, caller))
  }

  /**
   * A caller holding only the "user" role is refused the admin-only fields,
   * whichever user they are read on.
   */
  lemma PlainUserCannotReadAdminFields(parent: User, caller: User)
    requires caller.roles == ["user"]
    ensures Dispatch(ItemCount(parent), Some(caller)) == Failure(Forbidden)
    ensures Dispatch(UserItems(parent), Some(caller)) == Failure(Forbidden)
  {
  }

  /** Field access is decided by the caller's roles alone, never by the parent entity read. */
  lemma FieldAccessIgnoresParent(p1: User, p2: User, caller: Option<User>)
    ensures Dispatch(ItemCount(p1), caller).Success? == Dispatch(ItemCount(p2), caller).Success?
    ensures Dispatch(UserItems(p1), caller).Success? == Dispatch(UserItems(p2), caller).Success?
  {
  }

  /** Any authenticated caller may use every item operation and revalidate, whatever their roles. */
  lemma AuthenticatedSuffices(req: Request, caller: User)
    requires ResolverOf(OperationOf(req)) == ItemsResolver || req == Revalidate
    ensures Dispatch(req, Some(caller)).Success?
  {
  }

  /** The users listing needs admin or super-user: exactly the callers holding one of those. */
  lemma UsersListingNeedsAdminOrSuperUser(roles: seq<Roles.Role>, caller: User)
    ensures Dispatch(Users(roles), Some(caller)).Success? <==>
      "admin" in caller.roles || "super-user" in caller.roles
  {
  }

  /** `signup` and `login` need no caller; `revalidate` needs one and receives it. */
  lemma AuthResolverAccess(signup: SignupInput, login: LoginInput, caller: User)
    ensures Dispatch(Signup(signup), None) == Success(SignupCall(signup))
    ensures Dispatch(Login(login), None) == Success(LoginCall(login))
    ensures Dispatch(Revalidate, None) == Failure(Unauthenticated)
    ensures Dispatch(Revalidate, Some(caller)) == Success(RevalidateCall(caller))
  {
  }
}
