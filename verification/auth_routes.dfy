/** `POST /api/register` and `POST /api/login`. */
module AuthRoutes {
  import opened Collections
  import opened Store

  const MissingFields := "Missing required fields: username, password, and gmail"
  const UsernameExists := "Username already exists"
  const GmailExists := "Gmail already exists"
  const InvalidCredentials := "Invalid credentials"

  /** All three keys are present; their values may be anything, the empty string included. */
  predicate HasRegistrationFields(data: Fields) {
    "username" in data && "password" in data && "gmail" in data
  }

  ghost predicate UsernameTaken(s: Store, name: string) {
    exists u :: u in s.users && u.username == name
  }

  ghost predicate GmailTaken(s: Store, gmail: string) {
    exists u :: u in s.users && u.gmail == gmail
  }

  /** Registration: 400 for a missing key, then 400 for a taken username, then
      400 for a taken gmail address, each leaving the store as it was. Hashing
      comes next, and bcrypt refuses an empty password by raising, which is an
      uncaught error (500) with nothing inserted. Otherwise exactly one user is
      appended, holding the hash of the password, and the answer is 201 with
      the new id. */
  function Register(s: Store, data: Fields): (r: Reply)
    ensures !HasRegistrationFields(data) ==> r == Fail(s, BadRequest, MissingFields)
    ensures HasRegistrationFields(data) && UsernameTaken(s, data["username"]) ==>
              r == Fail(s, BadRequest, UsernameExists)
    ensures HasRegistrationFields(data) && !UsernameTaken(s, data["username"]) && GmailTaken(s, data["gmail"]) ==>
              r == Fail(s, BadRequest, GmailExists)
    ensures HasRegistrationFields(data) && !UsernameTaken(s, data["username"]) && !GmailTaken(s, data["gmail"]) ==>
              (data["password"] == "" ==> r == Crash(s))
    ensures r.response.status == Created <==>
              && HasRegistrationFields(data) && !UsernameTaken(s, data["username"]) && !GmailTaken(s, data["gmail"])
              && data["password"] != ""
    ensures r.response.status != Created ==> r.store == s && r.response.status in {BadRequest, ServerError}
    ensures r.response.status == Created ==>
              && |r.store.users| == |s.users| + 1
              && r.store.users[..|s.users|] == s.users
              && var u := r.store.users[|s.users|];
              && u.username == data["username"] && u.gmail == data["gmail"]
              && (forall p :: CheckPassword(u.password, p) <==> p == data["password"])
              && r.response.body == UserCreated(u.id)
              && r.store.topics == s.topics && r.store.subtopics == s.subtopics
              && r.store.resources == s.resources
  {
    if !HasRegistrationFields(data) then Fail(s, BadRequest, MissingFields)
    else if Find(s.users, (u: User) => u.username == data["username"]).Some? then
      Fail(s, BadRequest, UsernameExists)
    else if Find(s.users, (u: User) => u.gmail == data["gmail"]).Some? then
      Fail(s, BadRequest, GmailExists)
    else if data["password"] == "" then Crash(s)
    else
      var user := User(s.next, data["username"], HashPassword(data["password"]), data["gmail"]);
      assert (s.users + [user])[..|s.users|] == s.users;
      Reply(Response(Created, UserCreated(user.id)), s.(users := s.users + [user], next := s.next + 1))
  }

  /** Login: a missing `username` key is an uncaught error (500); then 401
      "Invalid credentials" when no user has that name; then a missing `password`
      key is an uncaught error; then 401 when the password does not check; else
      200 with a token whose identity is that user's id. The store never changes. */
  function Login(s: Store, data: Fields): (r: Reply)
    ensures r.store == s
    ensures "username" !in data ==> r == Crash(s)
    ensures "username" in data && !UsernameTaken(s, data["username"]) ==>
              r == Fail(s, Unauthorized, InvalidCredentials)
    ensures r.response.status == Ok ==>
              "password" in data &&
              exists u :: u in s.users && u.username == data["username"] && CheckPassword(u.password, data["password"])
                          && r.response.body == AccessToken(u.id)
    ensures Valid(s) && "username" in data && "password" in data ==>
              (r.response.status == Unauthorized <==>
                 !exists u :: u in s.users && u.username == data["username"] && CheckPassword(u.password, data["password"]))
    ensures "username" in data && "password" in data ==> r.response.status != ServerError
    ensures Valid(s) && "username" in data && "password" in data ==>
              forall u :: u in s.users && u.username == data["username"] && CheckPassword(u.password, data["password"]) ==>
                r.response == Response(Ok, AccessToken(u.id))
    ensures r.response.status in {Ok, Unauthorized, ServerError}
  {
    if "username" !in data then Crash(s)
    else
      var found := Find(s.users, (u: User) => u.username == data["username"]);
      if found.None? then Fail(s, Unauthorized, InvalidCredentials)
      else if "password" !in data then Crash(s)
      else if !CheckPassword(found.value.password, data["password"]) then
        UniqueUsernameLookup(s, found.value, data["username"]);
        Fail(s, Unauthorized, InvalidCredentials)
      else
        UniqueUsernameLookup(s, found.value, data["username"]);
        Reply(Response(Ok, AccessToken(found.value.id)), s)
  }

  /** With unique usernames the user found by name is the only one with that name. */
  lemma UniqueUsernameLookup(s: Store, found: User, name: string)
    requires found in s.users && found.username == name
    ensures Valid(s) ==> forall u :: u in s.users && u.username == name ==> u == found
  {
    if Valid(s) {
      forall u | u in s.users && u.username == name ensures u == found {
        UniqueKeyMembers(s.users, UsernameKey, u, found);
      }
    }
  }

  /** Registration keeps the store valid: the new id is fresh and the new
      username and gmail address were not taken. */
  lemma RegisterPreservesValid(s: Store, data: Fields)
    requires Valid(s)
    ensures Valid(Register(s, data).store)
  {
    var r := Register(s, data);
    if r.response.status == Created {
      var u := r.store.users[|s.users|];
      assert r.store.users == s.users + [u];
      AppendUniqueBy(s.users, u, UserKey);
      AppendUniqueBy(s.users, u, UsernameKey);
      AppendUniqueBy(s.users, u, GmailKey);
    }
  }

  /** A user who has just registered can log in with the same username and
      password, and the token names the id registration reported. */
  lemma {:induction false} RegisterThenLogin(s: Store, data: Fields)
    requires Valid(s)
    requires Register(s, data).response.status == Created
    ensures var r := Register(s, data);
            var creds := map["username" := data["username"], "password" := data["password"]];
            Login(r.store, creds).response == Response(Ok, AccessToken(r.store.users[|s.users|].id))
  {
    var r := Register(s, data);
    var creds := map["username" := data["username"], "password" := data["password"]];
    var u := r.store.users[|s.users|];
    RegisterPreservesValid(s, data);
    assert r.store.users == s.users + [u];
    var found := Find(r.store.users, (v: User) => v.username == creds["username"]);
    assert u in r.store.users;
    UniqueUsernameLookup(r.store, found.value, creds["username"]);
  }
}
