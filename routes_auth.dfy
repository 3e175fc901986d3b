/**
 * /api/auth (routes/api/auth.js): GET returns the current user behind the
 * token gate; POST logs in. Both only read the user collection, so they are
 * functions of it.
 */
module AuthRoute {
  import opened Common
  import opened Http
  import opened Store
  import opened AuthMiddleware

  /** The login body; `password` is None when the key is missing, and any JSON value otherwise. */
  datatype LoginRequest = LoginRequest(email: string, password: Option<JsonValue>)

  const InvalidEmail := "Enter a valid email"
  const PasswordRequired := "Password is required"
  const InvalidCredentials := "Invalid Credentials"

  /** The uniform failure for an unknown email and for a wrong password. */
  const BadCredentials := Fail(400, Errors([InvalidCredentials]))

  /** GET /api/auth: the user the token names, without the password (null if it no longer exists). */
  function CurrentUser(users: map<UserId, User>, header: Option<string>, svc: Services): (res: Response)
    ensures Authenticate(header, svc.verify).Reject? ==> res == Authenticate(header, svc.verify).response
    ensures Authenticate(header, svc.verify).Accept? ==>
              var id := Authenticate(header, svc.verify).user.id;
              res == Ok(UserBody(if id in users then Some(Public(id, users[id])) else None))
    ensures res.Ok? && res.body.UserBody? && res.body.user.Some? ==>
              var p := res.body.user.value;
              p.id in users && p.name == users[p.id].name && p.email == users[p.id].email
  {
    match Authenticate(header, svc.verify)
    case Reject(r) => r
    case Accept(reqUser) =>
      var id := reqUser.id;
      if id in users then Ok(UserBody(Some(Public(id, users[id])))) else Ok(UserBody(None))
  }

  /** The validator chain of POST /api/auth: `isEmail()` then `exists()`. */
  function LoginErrors(req: LoginRequest, isEmail: string -> bool): (errs: seq<string>)
    ensures errs == [] <==> isEmail(req.email) && req.password.Some?
    ensures InvalidEmail in errs <==> !isEmail(req.email)
    ensures PasswordRequired in errs <==> req.password.None?
    // exactly one message per failing check, in declaration order
    ensures |errs| == (if isEmail(req.email) then 0 else 1) + (if req.password.Some? then 0 else 1)
    ensures !isEmail(req.email) ==> errs[0] == InvalidEmail
    ensures req.password.None? ==> errs[|errs| - 1] == PasswordRequired
  {
    (if isEmail(req.email) then [] else [InvalidEmail])
    + (if req.password.Some? then [] else [PasswordRequired])
  }

  /** The user `email` names accepts `password` under bcrypt's comparison. */
  predicate CredentialsMatch(users: map<UserId, User>, id: UserId, email: string, password: string, svc: Services) {
    id in users && users[id].email == email && svc.compare(password, users[id].password)
  }

  /** A present password that is a string, and so one bcrypt can compare. */
  predicate StringPassword(req: LoginRequest) {
    req.password.Some? && req.password.value.Str?
  }

  /** POST /api/auth. */
  function Login(users: map<UserId, User>, req: LoginRequest, svc: Services): (res: Response)
    requires UniqueEmails(users)
    // input validation comes first, and reports every failing check
    ensures LoginErrors(req, svc.isEmail) != [] ==> res == Fail(400, Errors(LoginErrors(req, svc.isEmail)))
    // a token is issued exactly when the password is a string, the email is known and the password matches it
    ensures res.Ok? <==>
              LoginErrors(req, svc.isEmail) == [] && StringPassword(req) &&
              exists id :: CredentialsMatch(users, id, req.email, req.password.value.s, svc)
    ensures res.Ok? ==>
              exists id :: CredentialsMatch(users, id, req.email, req.password.value.s, svc) && res == Ok(TokenBody(svc.sign(id)))
    // for a string password, unknown email and wrong password are indistinguishable
    ensures LoginErrors(req, svc.isEmail) == [] && StringPassword(req) && !res.Ok? ==> res == BadCredentials
    // any other password passes `exists()`; `bcrypt.compare` then rejects, but only once a user was found
    ensures LoginErrors(req, svc.isEmail) == [] && !StringPassword(req) ==>
              res == (if EmailTaken(users, req.email) then Fail(500, ServerError) else BadCredentials)
  {
    var errors := LoginErrors(req, svc.isEmail);
    if errors != [] then
      Fail(400, Errors(errors))
    else
      match FindByEmail(users, req.email)
      case None => BadCredentials
      case Some(id) =>
        match req.password.value
        case NonString(_) => Fail(500, ServerError)
        case Str(password) =>
          if !svc.compare(password, users[id].password) then BadCredentials
          else
            assert CredentialsMatch(users, id, req.email, password, svc);
            Ok(TokenBody(svc.sign(id)))
  }

  /**
   * As written, a non-string password tells a registered email from an
   * unknown one: the same request gets 500 for the first and 400 for the second.
   */
  lemma NonStringPasswordRevealsAccount(users: map<UserId, User>, id: UserId, shown: string, svc: Services)
    requires UniqueEmails(users)
    requires id in users && svc.isEmail(users[id].email)
    ensures var req := LoginRequest(users[id].email, Some(NonString(shown)));
            Login(users, req, svc) == Fail(500, ServerError)
            && Login(users - {id}, req, svc) == BadCredentials
  {
    var req := LoginRequest(users[id].email, Some(NonString(shown)));
    assert EmailTaken(users, req.email);
    var rest := users - {id};
    assert !EmailTaken(rest, req.email);
  }

  /**
   * The login the failure branch evidently means: a password bcrypt cannot
   * compare is a password that does not match, so every refused request with
   * valid input gets the same 400.
   */
  function IntendedLogin(users: map<UserId, User>, req: LoginRequest, svc: Services): (res: Response)
    requires UniqueEmails(users)
    ensures LoginErrors(req, svc.isEmail) != [] ==> res == Fail(400, Errors(LoginErrors(req, svc.isEmail)))
    ensures res.Ok? <==>
              LoginErrors(req, svc.isEmail) == [] && StringPassword(req) &&
              exists id :: CredentialsMatch(users, id, req.email, req.password.value.s, svc)
    ensures LoginErrors(req, svc.isEmail) == [] && !res.Ok? ==> res == BadCredentials
    ensures StringPassword(req) ==> res == Login(users, req, svc)
  {
    if LoginErrors(req, svc.isEmail) == [] && !StringPassword(req) then BadCredentials
    else Login(users, req, svc)
  }

  /** Under the intended login, a refused request says nothing about which emails are registered. */
  lemma IntendedLoginHidesAccounts(users: map<UserId, User>, other: map<UserId, User>, req: LoginRequest, svc: Services)
    requires UniqueEmails(users) && UniqueEmails(other)
    requires !IntendedLogin(users, req, svc).Ok? && !IntendedLogin(other, req, svc).Ok?
    ensures IntendedLogin(users, req, svc) == IntendedLogin(other, req, svc)
  {
  }

  /** A token signed for a stored user resolves, through GET /api/auth, to that user without the password. */
  lemma SignedTokenResolvesToUser(users: map<UserId, User>, id: UserId, svc: Services)
    requires id in users
    requires svc.sign(id) != "" && svc.verify(svc.sign(id)) == Some(ReqUser(id))
    ensures CurrentUser(users, Some(svc.sign(id)), svc) == Ok(UserBody(Some(Public(id, users[id]))))
  {
  }

  /** A stored user who presents a password that bcrypt matches against the stored hash gets a token for their own id. */
  lemma StoredUserCanLogIn(users: map<UserId, User>, id: UserId, password: string, svc: Services)
    requires UniqueEmails(users)
    requires id in users && svc.isEmail(users[id].email)
    requires svc.compare(password, users[id].password)
    ensures Login(users, LoginRequest(users[id].email, Some(Str(password))), svc) == Ok(TokenBody(svc.sign(id)))
  {
  }
}
