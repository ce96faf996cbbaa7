/** The older MongoDB back end (`backend/server.js`): register and login over
    one `users` collection. The collection is a sequence of documents in
    insertion order; `findOne({ email })` returns the first match. There is
    no e-mail verification. */
module LegacyServer {
  import opened Common
  import opened Crypto

  /** A document of the `users` collection. */
  datatype UserDoc = UserDoc(id: nat, email: string, username: string, password: PasswordHash, createdAt: int)

  /** What a successful login sends back. */
  datatype LoginView = LoginView(id: nat, email: string, username: string)

  const MSG_INVALID_CREDENTIALS: string := "Invalid credentials"

  function HasEmail(email: string): UserDoc -> bool {
    (d: UserDoc) => d.email == email
  }

  class Store {
    var users: seq<UserDoc>
    /** The next `insertedId` (MongoDB hands out ObjectIds). */
    var nextId: nat

    predicate Valid()
      reads this
    {
      forall i :: 0 <= i < |users| ==> users[i].id < nextId
    }

    constructor ()
      ensures Valid() && users == []
    {
      users := [];
      nextId := 0;
    }

    /** `POST /api/register`. */
    method Register(email: string, password: string, username: string, now: int, salt: nat)
      returns (status: int, msg: string, created: Option<nat>)
      requires Valid()
      modifies this
      ensures Valid()
      ensures email == "" || password == "" || username == "" ==>
        status == 400 && msg == "All fields are required" && created.None? && unchanged(this)
      ensures email != "" && password != "" && username != "" && FindFirst(old(users), HasEmail(email)).Some? ==>
        status == 400 && msg == "User already exists" && created.None? && unchanged(this)
      ensures email != "" && password != "" && username != "" && FindFirst(old(users), HasEmail(email)).None? ==>
        status == 201 && created == Some(old(nextId))
        // exactly one document is added, and it holds the hash, not the password
        && users == old(users) + [UserDoc(old(nextId), email, username, Hash(password, salt), now)]
    {
      if email == "" || password == "" || username == "" {
        return 400, "All fields are required", None;
      }
      if FindFirst(users, HasEmail(email)).Some? {
        return 400, "User already exists", None;
      }
      users := users + [UserDoc(nextId, email, username, Hash(password, salt), now)];
      created := Some(nextId);
      nextId := nextId + 1;
      return 201, "User registered successfully", created;
    }

    /** `POST /api/login`: an unknown e-mail and a wrong password get the same
        answer, and there is no verification gate. */
    method Login(email: string, password: string) returns (status: int, msg: string, view: Option<LoginView>)
      ensures email == "" || password == "" ==>
        status == 400 && msg == "Email and password are required" && view.None?
      ensures email != "" && password != "" ==>
        match FindFirst(users, HasEmail(email))
        case None => status == 401 && msg == MSG_INVALID_CREDENTIALS && view.None?
        case Some(d) =>
          if Matches(password, d.password)
          then status == 200 && msg == "Login successful" && view == Some(LoginView(d.id, d.email, d.username))
          else status == 401 && msg == MSG_INVALID_CREDENTIALS && view.None?
      ensures view.Some? ==> exists i :: 0 <= i < |users| && users[i].email == email
                                      && Matches(password, users[i].password)
                                      && view.value == LoginView(users[i].id, users[i].email, users[i].username)
    {
      if email == "" || password == "" {
        return 400, "Email and password are required", None;
      }
      var found := FindFirst(users, HasEmail(email));
      if found.None? {
        return 401, MSG_INVALID_CREDENTIALS, None;
      }
      var d := found.value;
      if !Matches(password, d.password) {
        return 401, MSG_INVALID_CREDENTIALS, None;
      }
      return 200, "Login successful", Some(LoginView(d.id, d.email, d.username));
    }
  }

  /** After a successful registration the new account can log in with its
      password straight away. */
  method RegisterThenLogin(s: Store, email: string, password: string, username: string, now: int, salt: nat)
    returns (status: int, view: Option<LoginView>)
    requires s.Valid() && email != "" && password != "" && username != ""
    requires FindFirst(s.users, HasEmail(email)).None?
    modifies s
    ensures s.Valid()
    ensures status == 200 && view == Some(LoginView(old(s.nextId), email, username))
  {
    var st, m, created := s.Register(email, password, username, now, salt);
    var msg;
    FindFirstIsEarliest(s.users, HasEmail(email), |s.users| - 1);
    status, msg, view := s.Login(email, password);
  }
}
