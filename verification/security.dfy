/** Token claims and the authentication of a request. JWT signing and
    verification are outside the model: a token stands for its claim set,
    and decoding is represented by its outcome (`None` when the signature,
    the expiry or the encoding is rejected). */
module Security {
  import opened Common
  import opened Store

  /** A claim value: text, the string form of a user id, or a timestamp in
      seconds since the epoch. */
  datatype ClaimValue = Text(text: string) | Subject(id: Id) | Instant(seconds: int)

  type Claims = map<string, ClaimValue>

  /** Defaults of the settings the token lifetimes are read from. */
  const AccessTokenExpireMinutes := 1440
  const RefreshTokenExpireMinutes := 2880

  const AccessType := "access"
  const RefreshType := "refresh"

  /** A copy of `data` with "exp" and "type" set, overriding any values the
      caller put under those keys. */
  function Stamp(data: Claims, expiresAt: int, kind: string): Claims {
    data["exp" := Instant(expiresAt)]["type" := Text(kind)]
  }

  function CreateAccessToken(data: Claims, now: int): (token: Claims)
    ensures token.Keys == data.Keys + {"exp", "type"}
    ensures token["type"] == Text(AccessType)
    ensures token["exp"] == Instant(now + AccessTokenExpireMinutes * 60)
    ensures forall k :: k in data && k != "exp" && k != "type" ==> token[k] == data[k]
  {
    Stamp(data, now + AccessTokenExpireMinutes * 60, AccessType)
  }

  function CreateRefreshToken(data: Claims, now: int): (token: Claims)
    ensures token.Keys == data.Keys + {"exp", "type"}
    ensures token["type"] == Text(RefreshType)
    ensures token["exp"] == Instant(now + RefreshTokenExpireMinutes * 60)
    ensures forall k :: k in data && k != "exp" && k != "type" ==> token[k] == data[k]
  {
    Stamp(data, now + RefreshTokenExpireMinutes * 60, RefreshType)
  }

  /** The claim set authenticates as the user named by its "sub" claim. */
  predicate Authenticates(claims: Claims, s: Store) {
    && "type" in claims && claims["type"] == Text(AccessType)
    && "sub" in claims && claims["sub"].Subject?
    && claims["sub"].id in s.users
  }

  /** The request's user: 401 when the token does not decode, is not an
      access token, has no subject, or names no stored user. */
  function GetCurrentUser(decoded: Option<Claims>, s: Store): (r: Result<User>)
    ensures r.Ok? <==> decoded.Some? && Authenticates(decoded.value, s)
    ensures r.Ok? ==> r.value == s.users[decoded.value["sub"].id]
    ensures r.Err? ==> r.error.code == Unauthorized
  {
    var invalid := Err(HttpError(Unauthorized, "Invalid or expired token"));
    match decoded
    case None => invalid
    case Some(claims) =>
      if "type" !in claims || claims["type"] != Text(AccessType) then invalid
      else if "sub" !in claims then invalid
      else match claims["sub"]
        case Subject(id) => if id in s.users then Ok(s.users[id]) else invalid
        case _ => invalid
  }

  /** A refresh token never authenticates, whatever claims it carries. */
  lemma RefreshTokenRejected(data: Claims, now: int, s: Store)
    ensures GetCurrentUser(Some(CreateRefreshToken(data, now)), s).Err?
  {
    assert CreateRefreshToken(data, now)["type"] == Text(RefreshType);
  }

  /** An access token whose subject is a stored user's id authenticates as
      exactly that user: the round trip of issuing a token and reading it. */
  lemma AccessTokenRoundTrip(id: Id, now: int, s: Store)
    requires id in s.users
    ensures GetCurrentUser(Some(CreateAccessToken(map["sub" := Subject(id)], now)), s) == Ok(s.users[id])
  {
    var token := CreateAccessToken(map["sub" := Subject(id)], now);
    assert token["sub"] == Subject(id);
  }
}
