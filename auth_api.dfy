/** The auth route handler over a module-level user table: "login" looks a user up
    by email and password, "signup" refuses a taken email and otherwise appends a
    user with id `users.length + 1`. Both answer with the user's public fields and
    a fixed token. */
module AuthApi {
  import opened Seqs
  import opened Http

  datatype User = User(id: int, name: string, email: string, password: string)

  /** What a response carries about a user: everything but the password. */
  datatype PublicUser = PublicUser(id: int, name: string, email: string)

  datatype Session = Session(user: PublicUser, token: string)

  const Token: string := "simulated-jwt-token"

  const InitialUsers: seq<User> := [User(1, "Test User", "test@example.com", "password123")]

  /** The JSON body: `action`, `email`, `password`, `name`. */
  datatype AuthRequest = AuthRequest(action: string, email: string, password: string, name: string)

  function Public(u: User): (p: PublicUser)
    ensures p.id == u.id && p.name == u.name && p.email == u.email
  {
    PublicUser(u.id, u.name, u.email)
  }

  function HasCredentials(email: string, password: string): User -> bool
  {
    (u: User) => u.email == email && u.password == password
  }

  function HasEmail(email: string): User -> bool
  {
    (u: User) => u.email == email
  }

  /** "login": the first user with both the email and the password. */
  function Login(users: seq<User>, email: string, password: string): (r: Response<Session>)
    ensures r.success <==> exists i :: 0 <= i < |users| && users[i].email == email && users[i].password == password
    ensures !r.success ==> r == Fail(401, "Invalid credentials")
    ensures r.success ==>
              r.status == 200 && r.payload.Data? && r.payload.value.token == Token &&
              exists i :: 0 <= i < |users| && users[i].email == email && users[i].password == password &&
                          r.payload.value.user == Public(users[i])
  {
    var k := FindIndex(HasCredentials(email, password), users);
    if k == -1 then Fail(401, "Invalid credentials")
    else
      assert HasCredentials(email, password)(users[k]);
      Ok(Session(Public(users[k]), Token))
  }

  /** "signup": 409 when the email is taken, otherwise the table with one more user. */
  function Signup(users: seq<User>, name: string, email: string, password: string): (res: (Response<Session>, seq<User>))
    ensures (exists i :: 0 <= i < |users| && users[i].email == email) ==>
              res == (Fail(409, "User already exists"), users)
    ensures (forall i :: 0 <= i < |users| ==> users[i].email != email) ==>
              var u := User(|users| + 1, name, email, password);
              res.1 == users + [u] && res.0 == Ok(Session(Public(u), Token))
  {
    var k := FindIndex(HasEmail(email), users);
    if k != -1 then
      (Fail(409, "User already exists"), users)
    else
      var u := User(|users| + 1, name, email, password);
      (Ok(Session(Public(u), Token)), users + [u])
  }

  /** The whole POST handler. */
  function Handle(users: seq<User>, req: AuthRequest): (res: (Response<Session>, seq<User>))
    ensures req.action != "login" && req.action != "signup" ==> res == (Fail(400, "Invalid action"), users)
    ensures req.action != "signup" ==> res.1 == users
  {
    if req.action == "login" then (Login(users, req.email, req.password), users)
    else if req.action == "signup" then Signup(users, req.name, req.email, req.password)
    else (Fail(400, "Invalid action"), users)
  }

  /** No two stored users share an email. */
  predicate DistinctEmails(users: seq<User>)
  {
    forall i, j :: 0 <= i < j < |users| ==> users[i].email != users[j].email
  }

  /** Every request keeps the emails of the table distinct. */
  lemma HandleKeepsEmailsDistinct(users: seq<User>, req: AuthRequest)
    requires DistinctEmails(users)
    ensures DistinctEmails(Handle(users, req).1)
  {
    if req.action == "signup" && forall i :: 0 <= i < |users| ==> users[i].email != req.email {
      var after := Handle(users, req).1;
      assert after == users + [User(|users| + 1, req.name, req.email, req.password)];
      forall i, j | 0 <= i < j < |after| ensures after[i].email != after[j].email {
        if j == |users| {
          assert after[i] == users[i];
        }
      }
    }
  }

  lemma InitialEmailsDistinct()
    ensures DistinctEmails(InitialUsers)
  {
  }

  /** After a successful signup, logging in with the same email and password
      succeeds and answers with the new user. */
  lemma SignupThenLogin(users: seq<User>, name: string, email: string, password: string)
    requires Signup(users, name, email, password).0.success
    ensures var after := Signup(users, name, email, password).1;
            Login(after, email, password) == Ok(Session(PublicUser(|users| + 1, name, email), Token))
  {
    var after := Signup(users, name, email, password).1;
    var u := User(|users| + 1, name, email, password);
    assert forall i :: 0 <= i < |users| ==> users[i].email != email;
    assert after == users + [u];
    var k := FindIndex(HasCredentials(email, password), after);
    assert HasCredentials(email, password)(after[|users|]);
    assert k == |users|;
  }

  /** Once an email has signed up, signing up with it again is refused with 409 and
      changes nothing, whatever name and password come with it. */
  lemma SignupTwiceRefused(users: seq<User>, name: string, email: string, password: string, name2: string, password2: string)
    requires Signup(users, name, email, password).0.success
    ensures var after := Signup(users, name, email, password).1;
            Signup(after, name2, email, password2) == (Fail(409, "User already exists"), after)
  {
    var after := Signup(users, name, email, password).1;
    assert after[|users|].email == email;
  }

  /** The module-level `users` array that signup pushes onto. */
  class UserStore {
    var users: seq<User>

    constructor()
      ensures users == InitialUsers
    {
      users := InitialUsers;
    }

    method Post(req: AuthRequest) returns (r: Response<Session>)
      modifies this
      ensures (r, users) == Handle(old(users), req)
    {
      if req.action == "login" {
        r := Login(users, req.email, req.password);
      } else if req.action == "signup" {
        var k := FindIndex(HasEmail(req.email), users);
        if k != -1 {
          r := Fail(409, "User already exists");
        } else {
          var u := User(|users| + 1, req.name, req.email, req.password);
          users := users + [u];
          r := Ok(Session(Public(u), Token));
        }
      } else {
        r := Fail(400, "Invalid action");
      }
    }
  }
}
