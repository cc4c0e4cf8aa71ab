/** The JWT variant of the service (main.py): signup stores a bcrypt hash,
    login issues a signed bearer token, and the current-user dependency turns
    a token back into the stored record. Every handler is a transition from
    the credential store before the request to the store after it and a
    reply; the JSON file behind the store is not modelled. */
module JwtService {
  import opened Basics
  import opened Hashing
  import opened Tokens

  /** Lifetime of a login token: 30 minutes, in seconds. */
  const AccessTokenExpireMinutes := 30
  const AccessTokenLifetime := AccessTokenExpireMinutes * 60

  /** Lifetime `create_access_token` falls back to without a usable delta. */
  const DefaultLifetime := 15 * 60

  const Bearer := "bearer"
  const Registered := "Successfully Registered"

  /** A stored user: the public fields and the bcrypt hash. */
  datatype UserInDB = UserInDB(username: string, email: string, hashedPassword: string)

  /** The public view `/users/me` responds with. */
  datatype User = User(username: string, email: string)

  /** The credential store, keyed by email. */
  type Store = map<string, UserInDB>

  datatype Token = Token(accessToken: string, tokenType: string)

  /** The failures, in the order the handlers check for them. The three token
      failures are distinct here; the service answers all of them alike. */
  datatype AuthError =
    | MissingField
    | AlreadyRegistered
    | IncorrectCredentials
    | TokenInvalid
    | SubjectMissing
    | SubjectUnknown

  /** The HTTP status each failure is raised with. */
  function StatusOf(e: AuthError): int
  {
    match e
    case MissingField => 400
    case AlreadyRegistered => 400
    case _ => 401
  }

  /** A handler's effect: the store afterwards and the reply. */
  datatype Step<+R> = Step(store: Store, reply: Result<R, AuthError>)

  /** What signup keeps true of every entry: a non-empty key, a record that
      carries its own key as email, and a non-empty name. */
  ghost predicate WellFormed(store: Store)
  {
    forall email :: email in store ==>
      email != "" && store[email].email == email && store[email].username != ""
  }

  /** `authenticate_user`: the stored record, provided the email is registered
      and the password verifies against its hash. */
  function AuthenticateUser(h: Hasher, store: Store, email: string, password: string): (r: Option<UserInDB>)
    ensures email !in store ==> r.None?
    ensures email in store && !h.verify(password, store[email].hashedPassword) ==> r.None?
    ensures r.Some? <==> email in store && h.verify(password, store[email].hashedPassword)
    ensures r.Some? ==> r.value == store[email]
  {
    if email !in store then None
    else if !h.verify(password, store[email].hashedPassword) then None
    else Some(store[email])
  }

  /** The claims `create_access_token` signs: the given claims with "exp"
      added. A delta of zero is falsy in Python, so it gets the default. */
  function AccessClaims(data: Claims, delta: Option<int>, now: int): (c: Claims)
    ensures c.Keys == data.Keys + {"exp"}
    ensures forall name :: name in data && name != "exp" ==> c[name] == data[name]
    ensures delta.Some? && delta.value != 0 ==> c["exp"] == Instant(now + delta.value)
    ensures delta.None? || delta.value == 0 ==> c["exp"] == Instant(now + DefaultLifetime)
  {
    var expire := if delta.Some? && delta.value != 0 then now + delta.value else now + DefaultLifetime;
    data["exp" := Instant(expire)]
  }

  /** `create_access_token`: sign the claims built above. */
  function CreateAccessToken(k: Codec, data: Claims, delta: Option<int>, now: int): string
  {
    k.encode(AccessClaims(data, delta, now))
  }

  /** A token made by `create_access_token` decodes to the claims it signed
      up to and including their expiry second, and is refused after it. With
      a zero delta that second is 15 minutes on, not `now`. */
  lemma AccessTokenDecodes(k: Codec, data: Claims, delta: Option<int>, now: int, later: int)
    requires RoundTrips(k)
    requires "sub" in data ==> data["sub"].Text?
    ensures
      var c := AccessClaims(data, delta, now);
      Decode(k, CreateAccessToken(k, data, delta, now), later) ==
        (if later <= c["exp"].seconds then Some(c) else None)
    ensures delta == Some(0) && later <= now + DefaultLifetime ==>
      Decode(k, CreateAccessToken(k, data, delta, now), later).Some?
  {
  }

  /** `get_current_user`: decode the token, require a subject, and require
      that subject to be registered still. */
  function GetCurrentUser(k: Codec, store: Store, token: string, now: int): (r: Result<UserInDB, AuthError>)
    ensures Decode(k, token, now).None? ==> r == Err(TokenInvalid)
    ensures Decode(k, token, now).Some? && "sub" !in Decode(k, token, now).value ==> r == Err(SubjectMissing)
    ensures r.Ok? <==>
      && Decode(k, token, now).Some?
      && "sub" in Decode(k, token, now).value
      && Decode(k, token, now).value["sub"].text in store
    ensures r.Ok? ==> r.value == store[Decode(k, token, now).value["sub"].text]
    ensures r.Err? ==> StatusOf(r.error) == 401
  {
    match Decode(k, token, now)
    case None => Err(TokenInvalid)
    case Some(payload) =>
      if "sub" !in payload then Err(SubjectMissing)
      else if payload["sub"].text !in store then Err(SubjectUnknown)
      else Ok(store[payload["sub"].text])
  }

  /** `/users/me`: the public fields of the current user. */
  function ReadUsersMe(k: Codec, store: Store, token: string, now: int): (r: Step<User>)
    ensures r.store == store
    ensures r.reply.Err? <==> GetCurrentUser(k, store, token, now).Err?
    ensures r.reply.Err? ==> r.reply.error == GetCurrentUser(k, store, token, now).error
    ensures r.reply.Err? ==> StatusOf(r.reply.error) == 401
    ensures r.reply.Ok? ==>
      var u := GetCurrentUser(k, store, token, now).value;
      r.reply.value == User(u.username, u.email)
  {
    match GetCurrentUser(k, store, token, now)
    case Err(e) => Step(store, Err(e))
    case Ok(u) => Step(store, Ok(User(u.username, u.email)))
  }

  /** `/token` after the body is parsed: authenticate, then issue a bearer
      token for the record's email that lives for 30 minutes. Unknown email
      and wrong password are one failure. */
  function LoginForAccessToken(k: Codec, h: Hasher, store: Store, email: string, password: string, now: int): (r: Step<Token>)
    ensures r.store == store
    ensures r.reply.Ok? <==> email in store && h.verify(password, store[email].hashedPassword)
    ensures r.reply.Err? ==> r.reply.error == IncorrectCredentials && StatusOf(r.reply.error) == 401
    ensures r.reply.Ok? ==>
      && r.reply.value.tokenType == "bearer"
      && r.reply.value.accessToken ==
           k.encode(map["sub" := Text(store[email].email), "exp" := Instant(now + 30 * 60)])
  {
    match AuthenticateUser(h, store, email, password)
    case None => Step(store, Err(IncorrectCredentials))
    case Some(user) =>
      var token := CreateAccessToken(k, map["sub" := Text(user.email)], Some(AccessTokenLifetime), now);
      Step(store, Ok(Token(token, Bearer)))
  }

  /** The record signup stores for a new user. */
  function NewUser(h: Hasher, email: string, name: string, password: string, salt: Salt): UserInDB
  {
    UserInDB(name, email, h.hash(password, salt))
  }

  /** `/api/signup`: all three fields must be truthy, the email must be new;
      then the hashed record is stored under the email. */
  function ApiSignup(h: Hasher, store: Store, email: Option<string>, name: Option<string>,
                     password: Option<string>, salt: Salt): (r: Step<string>)
    ensures !(Truthy(email) && Truthy(name) && Truthy(password)) ==> r.reply == Err(MissingField)
    ensures Truthy(email) && Truthy(name) && Truthy(password) && email.value in store ==>
      r.reply == Err(AlreadyRegistered)
    ensures r.reply.Err? ==> r.store == store && StatusOf(r.reply.error) == 400
    ensures r.reply.Ok? <==> Truthy(email) && Truthy(name) && Truthy(password) && email.value !in store
    ensures r.reply.Ok? ==>
      && r.store == store[email.value := UserInDB(name.value, email.value, h.hash(password.value, salt))]
      && r.store.Keys == store.Keys + {email.value}
      && |r.store| == |store| + 1
      && (forall other :: other in store ==> r.store[other] == store[other])
  {
    if !Truthy(email) || !Truthy(name) || !Truthy(password) then
      Step(store, Err(MissingField))
    else if email.value in store then
      Step(store, Err(AlreadyRegistered))
    else
      Step(store[email.value := NewUser(h, email.value, name.value, password.value, salt)], Ok(Registered))
  }

  /** Signup keeps the store well formed. */
  lemma SignupPreservesWellFormed(h: Hasher, store: Store, email: Option<string>, name: Option<string>,
                                  password: Option<string>, salt: Salt)
    requires WellFormed(store)
    ensures WellFormed(ApiSignup(h, store, email, name, password, salt).store)
  {
  }

  /** A second signup for a registered email is refused and the first
      record stays. */
  lemma SecondSignupRefused(h: Hasher, store: Store, email: string, name: Option<string>,
                            password: Option<string>, salt: Salt,
                            name2: Option<string>, password2: Option<string>, salt2: Salt)
    requires email != "" && Truthy(name) && Truthy(password) && email !in store
    ensures
      var first := ApiSignup(h, store, Some(email), name, password, salt);
      var second := ApiSignup(h, first.store, Some(email), name2, password2, salt2);
      && first.reply.Ok?
      && (Truthy(name2) && Truthy(password2) ==> second.reply == Err(AlreadyRegistered))
      && second.store == first.store
      && second.store[email].username == name.value
  {
  }

  /** With a sound hasher, whoever signed up can log in with the same
      password, and authentication yields the record signup stored. */
  lemma LoginAfterSignup(k: Codec, h: Hasher, store: Store, email: string, name: string,
                         password: string, salt: Salt, now: int)
    requires Sound(h)
    requires email != "" && name != "" && password != "" && email !in store
    ensures
      var after := ApiSignup(h, store, Some(email), Some(name), Some(password), salt).store;
      && AuthenticateUser(h, after, email, password) == Some(UserInDB(name, email, h.hash(password, salt)))
      && LoginForAccessToken(k, h, after, email, password, now).reply.Ok?
  {
  }

  /** With a binding hasher, a different password is refused after signup. */
  lemma WrongPasswordAfterSignup(k: Codec, h: Hasher, store: Store, email: string, name: string,
                                 password: string, guess: string, salt: Salt, now: int)
    requires Binding(h)
    requires email != "" && name != "" && password != "" && email !in store && guess != password
    ensures
      var after := ApiSignup(h, store, Some(email), Some(name), Some(password), salt).store;
      LoginForAccessToken(k, h, after, email, guess, now).reply == Err(IncorrectCredentials)
  {
  }

  /** A token from a successful login identifies the same record for the
      whole 30 minutes after issue (and at any earlier time, as the service
      issues no "nbf" claim), provided the record's email is its key. */
  lemma IdentifyAfterLogin(k: Codec, h: Hasher, store: Store, email: string, password: string,
                           now: int, later: int)
    requires RoundTrips(k)
    requires email in store && store[email].email == email
    requires LoginForAccessToken(k, h, store, email, password, now).reply.Ok?
    requires later <= now + AccessTokenLifetime
    ensures
      var token := LoginForAccessToken(k, h, store, email, password, now).reply.value.accessToken;
      && GetCurrentUser(k, store, token, later) == Ok(store[email])
      && ReadUsersMe(k, store, token, later).reply == Ok(User(store[email].username, email))
  {
  }

  /** Past its expiry second the same token is refused as invalid. */
  lemma LoginTokenExpires(k: Codec, h: Hasher, store: Store, email: string, password: string,
                          now: int, later: int)
    requires RoundTrips(k)
    requires LoginForAccessToken(k, h, store, email, password, now).reply.Ok?
    requires later > now + AccessTokenLifetime
    ensures
      var token := LoginForAccessToken(k, h, store, email, password, now).reply.value.accessToken;
      GetCurrentUser(k, store, token, later) == Err(TokenInvalid)
  {
  }

  /** The subject is checked against the store on every request: once the
      user is gone, an unexpired token is refused. */
  lemma IdentifyAfterRemoval(k: Codec, h: Hasher, store: Store, email: string, password: string,
                             now: int, later: int)
    requires RoundTrips(k)
    requires email in store && store[email].email == email
    requires LoginForAccessToken(k, h, store, email, password, now).reply.Ok?
    requires later <= now + AccessTokenLifetime
    ensures
      var token := LoginForAccessToken(k, h, store, email, password, now).reply.value.accessToken;
      GetCurrentUser(k, store - {email}, token, later) == Err(SubjectUnknown)
  {
  }

  /** Signup, login and `/users/me` in sequence: the new user's public fields
      come back for as long as the token lives. */
  lemma SignupLoginIdentify(k: Codec, h: Hasher, store: Store, email: string, name: string,
                            password: string, salt: Salt, now: int, later: int)
    requires Sound(h) && RoundTrips(k)
    requires email != "" && name != "" && password != "" && email !in store
    requires later <= now + AccessTokenLifetime
    ensures
      var after := ApiSignup(h, store, Some(email), Some(name), Some(password), salt).store;
      var login := LoginForAccessToken(k, h, after, email, password, now);
      && login.reply.Ok?
      && ReadUsersMe(k, after, login.reply.value.accessToken, later).reply == Ok(User(name, email))
  {
  }
}
