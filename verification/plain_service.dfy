/** The variant without tokens (main_without_jwt.py): a content-type gate,
    then an ordered chain of guards whose failures are HTTP status codes.
    Passwords are stored and compared as plain text. */
module PlainService {
  import opened Basics

  const Json := "application/json"
  const FormUrlEncoded := "application/x-www-form-urlencoded"

  /** Status codes the handlers answer with. */
  const StatusOk := 200
  const BadRequest := 400
  const Unauthorized := 401
  const Forbidden := 403
  const Conflict := 409
  const UnsupportedMediaType := 415

  /** A stored user; `token` is always written empty and never read. */
  datatype Record = Record(name: string, password: string, token: string)

  /** The credential store, keyed by email. */
  type Store = map<string, Record>

  /** The response: its status code and message. */
  datatype Reply = Reply(status: int, msg: string)

  /** A handler's effect: the store afterwards and the reply. */
  datatype Step = Step(store: Store, reply: Reply)

  /** The two body encodings the handlers parse; the header must equal one
      of them exactly, and a missing header matches neither. */
  predicate Supported(contentType: Option<string>)
  {
    contentType == Some(Json) || contentType == Some(FormUrlEncoded)
  }

  /** What signup keeps true of every entry. */
  ghost predicate WellFormed(store: Store)
  {
    forall email :: email in store ==>
      email != "" && store[email].name != "" && store[email].password != "" && store[email].token == ""
  }

  /** `/api/login`: gate, email present, email registered, password equal. */
  function ApiLogin(store: Store, contentType: Option<string>, email: Option<string>,
                    password: Option<string>): (r: Step)
    ensures r.store == store
    ensures r.reply.status == UnsupportedMediaType <==> !Supported(contentType)
    ensures r.reply.status == BadRequest <==> Supported(contentType) && !Truthy(email)
    ensures r.reply.status == Unauthorized <==>
      Supported(contentType) && Truthy(email) && email.value !in store
    ensures r.reply.status == Forbidden <==>
      Supported(contentType) && Truthy(email) && email.value in store
      && password != Some(store[email.value].password)
    ensures r.reply.status == StatusOk <==>
      Supported(contentType) && Truthy(email) && email.value in store
      && password == Some(store[email.value].password)
  {
    if !Supported(contentType) then
      Step(store, Reply(UnsupportedMediaType, "Unsupported Content-Type"))
    else if !Truthy(email) then
      Step(store, Reply(BadRequest, "Please Enter Email"))
    else if email.value !in store then
      Step(store, Reply(Unauthorized, "Please register First!!!"))
    else if password != Some(store[email.value].password) then
      Step(store, Reply(Forbidden, "Incorrect Password"))
    else
      Step(store, Reply(StatusOk, "Successfully logged In"))
  }

  /** `/api/signup`: gate, all fields truthy, email new; then the record is
      stored with an empty token. */
  function ApiSignup(store: Store, contentType: Option<string>, email: Option<string>,
                     name: Option<string>, password: Option<string>): (r: Step)
    ensures r.reply.status == UnsupportedMediaType <==> !Supported(contentType)
    ensures r.reply.status == BadRequest <==>
      Supported(contentType) && !(Truthy(email) && Truthy(name) && Truthy(password))
    ensures r.reply.status == Conflict <==>
      Supported(contentType) && Truthy(email) && Truthy(name) && Truthy(password) && email.value in store
    ensures r.reply.status == StatusOk <==>
      Supported(contentType) && Truthy(email) && Truthy(name) && Truthy(password) && email.value !in store
    ensures r.reply.status != StatusOk ==> r.store == store
    ensures r.reply.status == StatusOk ==>
      && r.store == store[email.value := Record(name.value, password.value, "")]
      && r.store.Keys == store.Keys + {email.value}
      && |r.store| == |store| + 1
      && (forall other :: other in store ==> r.store[other] == store[other])
  {
    if !Supported(contentType) then
      Step(store, Reply(UnsupportedMediaType, "Unsupported Content-Type"))
    else if !(Truthy(email) && Truthy(name) && Truthy(password)) then
      Step(store, Reply(BadRequest, "Please Provide Email, Username, Password"))
    else if email.value in store then
      Step(store, Reply(Conflict, "User already exists"))
    else
      Step(store[email.value := Record(name.value, password.value, "")], Reply(StatusOk, "Successfully Registered"))
  }

  /** An unsupported content type is refused before the store is read: the
      reply is the same whatever the store holds, and the store stays. */
  lemma GateBeforeStore(s1: Store, s2: Store, contentType: Option<string>,
                        email: Option<string>, name: Option<string>, password: Option<string>)
    requires !Supported(contentType)
    ensures ApiLogin(s1, contentType, email, password).reply == ApiLogin(s2, contentType, email, password).reply
    ensures ApiSignup(s1, contentType, email, name, password).reply == ApiSignup(s2, contentType, email, name, password).reply
    ensures ApiSignup(s1, contentType, email, name, password).store == s1
    ensures ApiLogin(s1, contentType, email, password).reply.status == UnsupportedMediaType
  {
  }

  /** A login without an email is refused before the store is read. */
  lemma MissingEmailBeforeStore(s1: Store, s2: Store, contentType: Option<string>,
                                email: Option<string>, password: Option<string>)
    requires Supported(contentType) && !Truthy(email)
    ensures ApiLogin(s1, contentType, email, password).reply == ApiLogin(s2, contentType, email, password).reply
    ensures ApiLogin(s1, contentType, email, password).reply.status == BadRequest
  {
  }

  /** Signup keeps the store well formed. */
  lemma SignupPreservesWellFormed(store: Store, contentType: Option<string>, email: Option<string>,
                                  name: Option<string>, password: Option<string>)
    requires WellFormed(store)
    ensures WellFormed(ApiSignup(store, contentType, email, name, password).store)
  {
  }

  /** After a signup, logging in with the same password succeeds and with any
      other password is forbidden; a second signup for the email conflicts and
      keeps the first record. */
  lemma LoginAfterSignup(store: Store, contentType: Option<string>, email: string, name: string,
                         password: string, guess: Option<string>)
    requires Supported(contentType)
    requires email != "" && name != "" && password != "" && email !in store
    ensures
      var after := ApiSignup(store, contentType, Some(email), Some(name), Some(password)).store;
      && ApiLogin(after, contentType, Some(email), Some(password)).reply.status == StatusOk
      && (guess != Some(password) ==> ApiLogin(after, contentType, Some(email), guess).reply.status == Forbidden)
      && ApiSignup(after, contentType, Some(email), Some(name), Some(password)).reply.status == Conflict
      && after[email] == Record(name, password, "")
  {
  }

  /** Unlike the JWT variant, this one tells an unknown email (401) from a
      wrong password (403). */
  lemma LoginRevealsRegistration(store: Store, contentType: Option<string>, email: string,
                                 password: Option<string>)
    requires Supported(contentType) && email != ""
    requires email in store ==> password != Some(store[email].password)
    ensures ApiLogin(store, contentType, Some(email), password).reply.status ==
      (if email in store then Forbidden else Unauthorized)
  {
  }
}
