/** Registration and password login. Password hashing and checking are
    parameters standing for the bcrypt wrapper. */
module Auth {
  import opened Common
  import opened Store
  import opened Security

  datatype UserCreate = UserCreate(
    firstName: string,
    lastName: string,
    email: string,
    phone: string,
    password: string,
    address: Option<string>)

  datatype LoginResponse = LoginResponse(accessToken: Claims, tokenType: string)

  /** Some stored user already has the email, so the unique index on
      `users.email` refuses the insert. */
  predicate EmailTaken(s: Store, email: string) {
    exists k :: k in s.users && s.users[k].email == email
  }

  /** Adds one user built from the payload; the first user ever registered
      is an admin, every later one a plain user. An email already in use
      fails the commit, answered 500 with nothing changed. */
  function RegisterUser(s: Store, payload: UserCreate, hash: string -> string): (r: Reply<User>)
    ensures EmailTaken(s, payload.email) ==> r == Fail(s, ServerError, InternalError)
    ensures r.result.Ok? <==> !EmailTaken(s, payload.email)
    ensures r.result.Ok? ==> r.result.value.role == (if |s.users| == 0 then AdminRole else UserRole)
    ensures r.result.Ok? ==>
      var u := r.result.value;
      && u.firstName == payload.firstName && u.lastName == payload.lastName
      && u.email == payload.email && u.phone == payload.phone
      && u.address == payload.address && u.password == hash(payload.password)
    ensures r.result.Ok? ==>
      r.store == s.(users := s.users[r.result.value.id := r.result.value], nextId := s.nextId + 1)
    ensures r.result.Ok? && s.Valid() ==> r.result.value.id !in s.users && r.store.Valid()
    ensures r.result.Ok? && s.Valid() ==> |r.store.users| == |s.users| + 1
  {
    if EmailTaken(s, payload.email) then Fail(s, ServerError, InternalError)
    else
      var isFirstUser := |s.users| == 0;
      var user := User(s.nextId, payload.firstName, payload.lastName, payload.email, payload.phone,
                       hash(payload.password), if isFirstUser then AdminRole else UserRole, payload.address);
      UserAdded(s, user);
      Reply(Ok(user), s.(users := s.users[user.id := user], nextId := s.nextId + 1))
  }

  /** The first registration on an empty database creates an admin. */
  lemma FirstUserIsAdmin(payload: UserCreate, hash: string -> string)
    ensures RegisterUser(Empty, payload, hash).result.Ok?
    ensures RegisterUser(Empty, payload, hash).result.value.role == AdminRole
    ensures |RegisterUser(Empty, payload, hash).store.users| == 1
  {
  }

  /** Registration keeps every invariant: validity, resolved references
      and, because a taken email is refused, unique emails. */
  lemma RegisterKeepsInvariants(s: Store, payload: UserCreate, hash: string -> string)
    requires s.Valid()
    ensures RegisterUser(s, payload, hash).store.Valid()
    ensures s.Linked() ==> RegisterUser(s, payload, hash).store.Linked()
    ensures s.EmailsUnique() ==> RegisterUser(s, payload, hash).store.EmailsUnique()
  {
    if RegisterUser(s, payload, hash).result.Ok? {
      UserAdded(s, RegisterUser(s, payload, hash).result.value);
    }
  }

  predicate HasEmail(email: string, u: User) {
    u.email == email
  }

  /** Looks the user up by email (the lowest id among rows with that email)
      and issues an access token whose subject is that user's id. */
  function Login(s: Store, username: string, password: string,
                 verify: (string, string) -> bool, now: int): (r: Result<LoginResponse>)
    ensures r.Err? ==> r.error.code == Unauthorized
    ensures r.Ok? <==> exists k :: k in s.users && k < s.nextId && s.users[k].email == username
                                   && verify(password, s.users[k].password)
                                   && (forall j :: j in s.users && j < k ==> s.users[j].email != username)
    ensures r.Ok? ==> exists k :: k in s.users && s.users[k].email == username
                                  && verify(password, s.users[k].password)
                                  && (forall j :: j in s.users && j < k ==> s.users[j].email != username)
                                  && r.value == LoginResponse(CreateAccessToken(map["sub" := Subject(k)], now), "bearer")
  {
    var found := FirstKey(s.users, u => HasEmail(username, u), 0, s.nextId);
    if found.None? || !verify(password, s.users[found.value].password) then
      Err(HttpError(Unauthorized, "Invalid credentials"))
    else
      Ok(LoginResponse(CreateAccessToken(map["sub" := Subject(found.value)], now), "bearer"))
  }

  /** A successful login's token authenticates its holder as the user whose
      email was given. */
  lemma LoginAuthenticates(s: Store, username: string, password: string,
                           verify: (string, string) -> bool, now: int)
    requires Login(s, username, password, verify, now).Ok?
    ensures var u := GetCurrentUser(Some(Login(s, username, password, verify, now).value.accessToken), s);
            u.Ok? && u.value.email == username
  {
    var found := FirstKey(s.users, u => HasEmail(username, u), 0, s.nextId);
    AccessTokenRoundTrip(found.value, now, s);
  }

  /** A freshly registered user can log in at once with the password they
      chose, whenever the password check accepts it against its hash, and
      the token names the new user. */
  lemma RegisteredUserCanLogIn(s: Store, payload: UserCreate, hash: string -> string,
                               verify: (string, string) -> bool, now: int)
    requires s.Valid()
    requires RegisterUser(s, payload, hash).result.Ok?
    requires verify(payload.password, hash(payload.password))
    ensures Login(RegisterUser(s, payload, hash).store, payload.email, payload.password, verify, now)
            == Ok(LoginResponse(CreateAccessToken(map["sub" := Subject(s.nextId)], now), "bearer"))
  {
    var t := RegisterUser(s, payload, hash).store;
    var found := FirstKey(t.users, u => HasEmail(payload.email, u), 0, t.nextId);
    assert t.users[s.nextId].email == payload.email;
    if found.Some? {
      assert found.value == s.nextId;
    }
  }
}
