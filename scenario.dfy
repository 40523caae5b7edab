/**
 * A client of the store and the dispatch: two users sign up, one is made an
 * admin, the plain user is refused the users listing, the admin lists
 * everyone and updates the plain user, and a second signup with a taken
 * email is refused.
 */
module Scenario {
  import opened Wrappers
  import Roles
  import opened Errors
  import opened UserEntity
  import opened UsersService
  import opened Resolvers

  method SignupAndPromote(hash: string -> string)
  {
    var store := new UserStore(hash);
    var a := store.Create(SignupInput("a@example.com", "Ann", "secret-a"), "id-a");
    assert a.Success? && a.value.roles == ["user"] && a.value.lastUpdateBy == None;
    assert store.users == map["id-a" := a.value];
    assert "a@example.com" != "b@example.com";
    var b := store.Create(SignupInput("b@example.com", "Bob", "secret-b"), "id-b");
    assert b.Success?;
    assert store.users == map["id-a" := a.value, "id-b" := b.value];

    // Bob is granted the admin role through the store directly, bypassing the resolvers.
    var promote := UpdateUserInput("id-b", None, None, None, Some([Roles.Admin]), None);
    var admin := store.Update("id-b", promote, b.value);
    assert admin.Success? && admin.value.roles == ["admin"];
    assert store.users == map["id-a" := a.value, "id-b" := admin.value];

    assert Dispatch(Users([]), Some(a.value)) == Failure(Forbidden);
    assert Dispatch(Users([]), Some(admin.value)) == Success(FindAllUsers([]));
    AdminUpdatesAndDuplicateFails(store, a.value, admin.value);
  }

  method AdminUpdatesAndDuplicateFails(store: UserStore, ann: User, admin: User)
    requires store.Valid() && store.users == map["id-a" := ann, "id-b" := admin]
    requires ann.id == "id-a" && ann.email == "a@example.com" && ann.password == store.hash("secret-a")
    requires admin.id == "id-b" && admin.roles == ["admin"] && admin.email == "b@example.com"
    modifies store
  {
    assert store.users["id-a"] == ann && ann in store.users.Values;
    assert ann in store.FindAll([]);

    var rename := UpdateUserInput("id-a", Some("Ann Smith"), None, None, None, None);
    var call := Dispatch(UpdateUser(rename), Some(admin));
    assert call == Success(UpdateUserCall("id-a", rename, admin));
    var updated := store.Update("id-a", rename, admin);
    assert updated.Success? && updated.value.lastUpdateBy == Some("id-b");
    assert updated.value.fullName == "Ann Smith" && updated.value.password == store.hash("secret-a");
    assert store.users["id-a"].email == "a@example.com" && "id-a" != "id-c";

    var again := store.Create(SignupInput("a@example.com", "Another Ann", "secret-c"), "id-c");
    assert again == Failure(BadRequest(ConflictText("email", "a@example.com")));
  }
}
