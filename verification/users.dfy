/** The user endpoints. The caller is the user `GetCurrentUser` resolved;
    admin-only endpoints here compare the role to "admin" exactly. */
module Users {
  import opened Common
  import opened Store
  import opened Security

  datatype UserUpdate = UserUpdate(
    firstName: Option<string>,
    lastName: Option<string>,
    phone: Option<string>,
    address: Option<string>)

  function GetProfile(caller: User): (r: User)
    ensures r == caller
  {
    caller
  }

  /** Overwrites the profile fields the payload supplies; identity, email,
      password and role are never touched. */
  function UpdateProfile(s: Store, caller: User, payload: UserUpdate): (r: Reply<User>)
    ensures r.result.Ok?
    ensures var u := r.result.value;
      && u.id == caller.id && u.email == caller.email
      && u.password == caller.password && u.role == caller.role
    ensures var u := r.result.value;
      && (payload.firstName.Some? ==> u.firstName == payload.firstName.value)
      && (payload.firstName.None? ==> u.firstName == caller.firstName)
      && (payload.lastName.Some? ==> u.lastName == payload.lastName.value)
      && (payload.lastName.None? ==> u.lastName == caller.lastName)
      && (payload.phone.Some? ==> u.phone == payload.phone.value)
      && (payload.phone.None? ==> u.phone == caller.phone)
      && (payload.address.Some? ==> u.address == payload.address)
      && (payload.address.None? ==> u.address == caller.address)
    ensures r.store == s.(users := s.users[caller.id := r.result.value])
  {
    var u := caller.(
      firstName := Overwrite(payload.firstName, caller.firstName),
      lastName := Overwrite(payload.lastName, caller.lastName),
      phone := Overwrite(payload.phone, caller.phone),
      address := if payload.address.Some? then payload.address else caller.address);
    Reply(Ok(u), s.(users := s.users[caller.id := u]))
  }

  function GetAllUsers(s: Store, caller: User): (r: Result<map<Id, User>>)
    ensures r.Ok? <==> IsAdminExact(caller.role)
    ensures r.Err? ==> r.error.code == Forbidden
    ensures r.Ok? ==> r.value == s.users
  {
    if !IsAdminExact(caller.role) then Err(HttpError(Forbidden, "Admin access required"))
    else Ok(s.users)
  }

  /** The role check comes before the lookup, so a non-admin learns nothing
      about which ids exist. */
  function GetUserById(s: Store, caller: User, id: Id): (r: Result<User>)
    ensures !IsAdminExact(caller.role) ==> r.Err? && r.error.code == Forbidden
    ensures IsAdminExact(caller.role) && id !in s.users ==> r.Err? && r.error.code == NotFound
    ensures r.Ok? <==> IsAdminExact(caller.role) && id in s.users
    ensures r.Ok? ==> r.value == s.users[id]
  {
    if !IsAdminExact(caller.role) then Err(HttpError(Forbidden, "Admin access required"))
    else if id !in s.users then Err(HttpError(NotFound, "User not found"))
    else Ok(s.users[id])
  }

  /** Deletes a user. The role check comes first, then the lookup; a user
      that an order or a payment still refers to cannot be deleted, and the
      failed commit is answered 500 with nothing changed. */
  function DeleteUser(s: Store, caller: User, id: Id): (r: Reply<string>)
    ensures !IsAdminExact(caller.role) ==> r.result.Err? && r.result.error.code == Forbidden
    ensures IsAdminExact(caller.role) && id !in s.users ==> r.result.Err? && r.result.error.code == NotFound
    ensures IsAdminExact(caller.role) && id in s.users && UserReferenced(s, id) ==>
      r == Fail(s, ServerError, InternalError)
    ensures r.result.Err? ==> r.store == s
    ensures r.result.Ok? <==> IsAdminExact(caller.role) && id in s.users && !UserReferenced(s, id)
    ensures r.result.Ok? ==> r.store == s.(users := s.users - {id})
  {
    if !IsAdminExact(caller.role) then Fail(s, Forbidden, "Admin access required")
    else if id !in s.users then Fail(s, NotFound, "User not found")
    else if UserReferenced(s, id) then Fail(s, ServerError, InternalError)
    else Reply(Ok("User deleted successfully"), s.(users := s.users - {id}))
  }

  /** A caller whose role is "Admin" passes the other routers' admin check
      but is refused by this router. */
  lemma CapitalisedAdminRefused(s: Store, caller: User)
    requires caller.role == "Admin"
    ensures GetAllUsers(s, caller).Err? && GetAllUsers(s, caller).error.code == Forbidden
    ensures IsAdminIgnoringCase(caller.role)
  {
    AdminChecksCompared();
  }

  /** The profile an authenticated request sees is the stored row its
      token names. */
  lemma ProfileIsStoredUser(decoded: Option<Claims>, s: Store)
    requires GetCurrentUser(decoded, s).Ok?
    ensures GetProfile(GetCurrentUser(decoded, s).value) == s.users[decoded.value["sub"].id]
  {
  }

  /** After a profile update, the caller's next request (an access token
      naming the caller) resolves to the updated row, and so does an
      admin's lookup of that id. */
  lemma UpdatedProfileReadBack(s: Store, caller: User, payload: UserUpdate, admin: User, now: int)
    requires IsAdminExact(admin.role)
    ensures var t := UpdateProfile(s, caller, payload);
      GetCurrentUser(Some(CreateAccessToken(map["sub" := Subject(caller.id)], now)), t.store) == Ok(t.result.value)
    ensures var t := UpdateProfile(s, caller, payload);
      GetUserById(t.store, admin, caller.id) == Ok(t.result.value)
  {
    var t := UpdateProfile(s, caller, payload);
    AccessTokenRoundTrip(caller.id, now, t.store);
  }

  /** Updating the profile of a stored caller keeps the store valid, its
      references resolved and its emails unique: the email is never
      rewritten and no key is added. */
  lemma UpdateProfileKeepsInvariants(s: Store, caller: User, payload: UserUpdate)
    requires caller.id in s.users && s.users[caller.id] == caller
    ensures s.Valid() ==> UpdateProfile(s, caller, payload).store.Valid()
    ensures s.Linked() ==> UpdateProfile(s, caller, payload).store.Linked()
    ensures s.EmailsUnique() ==> UpdateProfile(s, caller, payload).store.EmailsUnique()
  {
    UserReplaced(s, caller.id, UpdateProfile(s, caller, payload).result.value);
  }

  /** A deleted user is gone for every later lookup, and every other user
      is still found as before. */
  lemma DeletedUserNotFound(s: Store, caller: User, id: Id)
    requires DeleteUser(s, caller, id).result.Ok?
    ensures GetUserById(DeleteUser(s, caller, id).store, caller, id).Err?
    ensures GetUserById(DeleteUser(s, caller, id).store, caller, id).error.code == NotFound
    ensures forall k :: k != id ==> GetUserById(DeleteUser(s, caller, id).store, caller, k) == GetUserById(s, caller, k)
  {
  }

  /** Deleting a user keeps the store valid and, because a referenced user
      is refused, leaves no order or payment pointing at a missing user. */
  lemma DeleteUserKeepsInvariants(s: Store, caller: User, id: Id)
    ensures s.Valid() ==> DeleteUser(s, caller, id).store.Valid()
    ensures s.Linked() ==> DeleteUser(s, caller, id).store.Linked()
    ensures s.EmailsUnique() ==> DeleteUser(s, caller, id).store.EmailsUnique()
  {
    UserRemoved(s, id);
  }
}
