/** The authentication layer of the Mock.py service: token claims, the login
    lookup and the `get_current_user` dependency. Signing, signature checking
    and expiry checking belong to the JWT library and are an oracle here. */
module Auth {
  import opened Outcomes
  import opened Http

  /** A JSON value as it may appear in a decoded payload, as far as the
      dependency can tell them apart: `None`/`null`, a string, a number, a
      boolean, or a list or object (which Python cannot hash). */
  datatype Claim = CNull | CStr(s: string) | CNum(n: int) | CBool(b: bool) | CUnhashable

  /** A token payload. */
  type Claims = map<string, Claim>

  /** `ACCESS_TOKEN_EXPIRE_MINUTES`; time is counted in whole minutes. */
  const AccessTokenExpireMinutes: int := 30

  /** A record of the in-memory user table. */
  datatype UserRecord = UserRecord(username: string, hashedPassword: string)

  /** `users_db`. */
  const UsersDb: map<string, UserRecord> :=
    map["admin" := UserRecord("admin", "hashed_admin_password")]

  /** A signed token; the signature is the library's business, so the model
      keeps only the claims it was made from. */
  datatype Token = Token(claims: Claims)

  /** The claims `create_access_token` signs: the caller's claims (copied, so
      the caller's dictionary is left alone) with `exp` set to thirty minutes
      from `now`, replacing any `exp` the caller supplied. */
  function AccessTokenClaims(data: Claims, now: int): (c: Claims)
    ensures c.Keys == data.Keys + {"exp"}
    ensures c["exp"] == CNum(now + 30)
    ensures forall k :: k in data && k != "exp" ==> c[k] == data[k]
  {
    data["exp" := CNum(now + AccessTokenExpireMinutes)]
  }

  /** `create_access_token`. */
  function CreateAccessToken(data: Claims, now: int): Token
  {
    Token(AccessTokenClaims(data, now))
  }

  /** The body of a successful login. */
  datatype TokenBody = TokenBody(accessToken: Token, tokenType: string)

  /** The detail of a refused login. */
  const LoginFailedDetail: string := "Incorrect username or password"

  /** `login`: look the user name up and issue a token whose subject is the
      stored user name. The password is never read. */
  function Login(username: string, password: string, now: int): (r: Response<TokenBody>)
    ensures r.Ok? <==> username in UsersDb
    ensures r.Ok? ==> r.body.tokenType == "bearer"
    ensures r.Ok? ==> r.body.accessToken.claims == map["sub" := CStr(username), "exp" := CNum(now + 30)]
    ensures r.Err? ==> r.error == HttpException(400, LoginFailedDetail)
  {
    if username in UsersDb then
      var user := UsersDb[username];
      Ok(TokenBody(CreateAccessToken(map["sub" := CStr(user.username)], now), "bearer"))
    else
      Err(HttpException(400, LoginFailedDetail))
  }

  /** The login result does not depend on the password. */
  lemma LoginIgnoresPassword(username: string, p1: string, p2: string, now: int)
    ensures Login(username, p1, now) == Login(username, p2, now)
  {
  }

  /** What `jwt.decode` does with a token: return its payload, or raise one of
      the library's errors (bad signature, malformed, expired). */
  datatype DecodeResult = Decoded(payload: Claims) | DecodeFailed

  /** The library's decoder, with the secret key and algorithm fixed. */
  type Decoder = Token -> DecodeResult

  /** A decoder that accepts `t` and returns the claims it was signed with, as
      the library does for a token of ours that has not expired. */
  predicate AcceptsUnchanged(decode: Decoder, t: Token)
  {
    decode(t) == Decoded(t.claims)
  }

  /** `payload.get(key)`: a missing key reads as `None`. */
  function Get(payload: Claims, key: string): Claim
  {
    if key in payload then payload[key] else CNull
  }

  const NotAuthenticatedDetail: string := "Not authenticated"
  const InvalidCredentialsDetail: string := "Invalid authentication credentials"
  const UserNotFoundDetail: string := "User not found"

  /** How the statements inside `get_current_user`'s `try` block end: returning
      a user, raising an `HTTPException`, letting the decoder's error out, or
      raising something else (`in` on an unhashable subject). */
  datatype TryOutcome =
    | Returned(user: UserRecord)
    | RaisedHttp(status: int, detail: string)
    | RaisedDecodeError
    | RaisedOther

  /** The subject of a decoded payload names a user of the table. */
  predicate KnownSubject(payload: Claims)
  {
    Get(payload, "sub").CStr? && Get(payload, "sub").s in UsersDb
  }

  /** The `try` block of `get_current_user`: decode, read `sub`, reject a
      missing subject, reject an unknown one, return the user. */
  function TryBlock(t: Token, decode: Decoder): (o: TryOutcome)
    ensures o.Returned? <==> decode(t).Decoded? && KnownSubject(decode(t).payload)
    ensures o.Returned? ==> o.user == UsersDb[Get(decode(t).payload, "sub").s]
    ensures o.RaisedDecodeError? <==> decode(t).DecodeFailed?
    ensures o.RaisedHttp? ==> o.status == 401
  {
    match decode(t)
    case DecodeFailed => RaisedDecodeError
    case Decoded(payload) =>
      match Get(payload, "sub")
      case CNull => RaisedHttp(401, InvalidCredentialsDetail)
      case CStr(name) => if name in UsersDb then Returned(UsersDb[name]) else RaisedHttp(401, UserNotFoundDetail)
      case CNum(_) => RaisedHttp(401, UserNotFoundDetail)
      case CBool(_) => RaisedHttp(401, UserNotFoundDetail)
      case CUnhashable => RaisedOther
  }

  /** `get_current_user` as evidently intended: the bearer scheme refuses a
      request without a token, `HTTPException`s raised in the `try` block reach
      the client, and a decoding error becomes 401. */
  function CurrentUser(header: Option<Token>, decode: Decoder): (r: Response<UserRecord>)
    ensures r.Ok? <==> header.Some? && TryBlock(header.value, decode).Returned?
    ensures r.Ok? ==> r.body == TryBlock(header.value, decode).user
    ensures header.None? ==> r == Err(HttpException(401, NotAuthenticatedDetail))
    ensures header.Some? && decode(header.value).DecodeFailed? ==>
              r == Err(HttpException(401, InvalidCredentialsDetail))
  {
    match header
    case None => Err(HttpException(401, NotAuthenticatedDetail))
    case Some(t) =>
      match TryBlock(t, decode)
      case Returned(user) => Ok(user)
      case RaisedHttp(status, detail) => Err(HttpException(status, detail))
      case RaisedDecodeError => Err(HttpException(401, InvalidCredentialsDetail))
      case RaisedOther => Err(Unhandled)
  }

  /** `get_current_user` as written against PyJWT, which has no `JWTError`:
      when anything is raised in the `try` block, evaluating `jwt.JWTError`
      in the `except` clause raises `AttributeError` instead, which escapes. */
  function CurrentUserAsWritten(header: Option<Token>, decode: Decoder): (r: Response<UserRecord>)
    ensures r.Ok? <==> CurrentUser(header, decode).Ok?
    ensures r.Ok? ==> r == CurrentUser(header, decode)
    ensures header.None? ==> r == Err(HttpException(401, NotAuthenticatedDetail))
    ensures header.Some? && r.Err? ==> r.error == Unhandled
  {
    match header
    case None => Err(HttpException(401, NotAuthenticatedDetail))
    case Some(t) =>
      match TryBlock(t, decode)
      case Returned(user) => Ok(user)
      case _ => Err(Unhandled)
  }

  /** The discrepancy: a token the library refuses (say, an expired one) gets
      500 from the code as written, where 401 is intended. */
  lemma AsWrittenRejectsRefusedTokenWith500(t: Token, decode: Decoder)
    requires decode(t) == DecodeFailed
    ensures Status(CurrentUserAsWritten(Some(t), decode)) == 500
    ensures CurrentUser(Some(t), decode) == Err(HttpException(401, InvalidCredentialsDetail))
  {
  }

  /** The intended behaviour: every refusal of a token whose subject is hashable
      is a 401, and the detail says which check failed. */
  lemma CurrentUserRefusesWith401(t: Token, decode: Decoder)
    requires !(decode(t).Decoded? && Get(decode(t).payload, "sub").CUnhashable?)
    ensures var r := CurrentUser(Some(t), decode);
      r.Err? ==> r.error.HttpException? && r.error.status == 401
    ensures decode(t).Decoded? && Get(decode(t).payload, "sub").CNull? ==>
              CurrentUser(Some(t), decode) == Err(HttpException(401, InvalidCredentialsDetail))
    ensures decode(t).Decoded? && !Get(decode(t).payload, "sub").CNull? && !KnownSubject(decode(t).payload) ==>
              CurrentUser(Some(t), decode) == Err(HttpException(401, UserNotFoundDetail))
  {
  }

  /** Login then authenticate: a token issued to a known user, once the library
      accepts it unchanged, authenticates as that user's record. */
  lemma LoginThenAuthenticate(username: string, password: string, now: int, decode: Decoder)
    requires username in UsersDb
    requires AcceptsUnchanged(decode, Login(username, password, now).body.accessToken)
    ensures CurrentUser(Some(Login(username, password, now).body.accessToken), decode) == Ok(UsersDb[username])
  {
  }
}
