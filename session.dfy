/**
 * The client's register flow against the server's registration route: the
 * route's JSON reply becomes the axios outcome the `register` thunk sees.
 */
module Session {
  import opened Common
  import opened Http
  import opened Store
  import UsersRoute
  import AuthRoute
  import opened AuthReducer
  import opened AuthActions

  /**
   * axios resolves a 2xx reply with its data and rejects any other status
   * with `err.response.data`; a `{ token }` body is the register/login payload.
   */
  function AxiosOutcome(r: Response): (o: HttpResult<AuthPayload>)
    ensures r.Ok? <==> o.Success?
    ensures r.Ok? && r.body.TokenBody? ==> o == Success(AuthPayload(Present(r.body.token), Absent))
    ensures r.Fail? && r.error.Errors? ==> o == Failure(Some(ErrorResponse(Some(r.error.msgs))))
    ensures r.Fail? ==> o.response.Some?
    ensures r.Fail? && !r.error.Errors? ==> o == Failure(Some(ErrorResponse(None)))
  {
    match r
    case Ok(TokenBody(t)) => Success(AuthPayload(Present(t), Absent))
    case Ok(_) => Success(AuthPayload(Absent, Absent))
    case Fail(_, Errors(msgs)) => Failure(Some(ErrorResponse(Some(msgs))))
    case Fail(_, _) => Failure(Some(ErrorResponse(None)))
  }

  /** Every message of a 400 `{ errors }` reply is alerted, in order, and then REGISTER_FAIL. */
  lemma ServerErrorsAlerted(status: nat, msgs: seq<string>)
    ensures RegisterDispatches(AxiosOutcome(Fail(status, Errors(msgs)))) == Alerts(msgs) + [Act(RegisterFail)]
  {
  }

  /**
   * One registration from the client's side: the server handles the request,
   * the thunk dispatches according to its reply, the store folds that into
   * the client state.
   */
  method RegisterFromClient(db: Database, req: UsersRoute.RegisterRequest, svc: Services, salt: string,
                            c: Client, load: HttpResult<Option<PublicUser>>)
    returns (ds: seq<Dispatch>, after: Client)
    requires db.Valid() && Mirrored(c)
    modifies db
    ensures db.Valid()
    // a taken email: one "User Exists" alert, then REGISTER_FAIL; signed out with storage cleared
    ensures UsersRoute.RegistrationErrors(req, svc.isEmail) == [] && EmailTaken(old(db.users), req.email) ==>
              && ds == [SetAlertThunk(UsersRoute.UserExists, Danger), Act(RegisterFail)]
              && after.auth.token == None && after.storage == None
    // a password that cannot be hashed: the 500 carries no messages, so only REGISTER_FAIL
    ensures UsersRoute.RegistrationErrors(req, svc.isEmail) == [] && !EmailTaken(old(db.users), req.email)
            && req.password.NonString? ==>
              && ds == [Act(RegisterFail)]
              && after.auth.token == None && after.storage == None
    // success with a loaded user: the stored token is the one signed for the new user's id
    ensures UsersRoute.RegistrationErrors(req, svc.isEmail) == [] && !EmailTaken(old(db.users), req.email)
            && req.password.Str? && load.Success? ==>
              && old(db.nextId) in db.users
              && after.auth.token == Some(svc.sign(old(db.nextId)))
              && after.storage == after.auth.token
              && after.auth.isAuthenticated == Some(true)
    ensures Mirrored(after)
  {
    var reply := UsersRoute.Register(db, req, svc, salt);
    var outcome := AxiosOutcome(reply);
    var threw;
    ds, threw := AuthActions.Register(outcome);
    after := Run(c, ds, load);
    if reply.Ok? && load.Success? {
      RegisterSuccessSignsIn(c, svc.sign(old(db.nextId)), load.data);
    } else if reply.Fail? {
      assert [UsersRoute.UserExists][..0] == [];
      RegisterFailureSignsOut(c, outcome, load);
    }
    ThunksKeepMirror(c, outcome, load);
  }

  /**
   * A registration's token opens the account: presented to GET /api/auth, the
   * token the registration returned resolves to the new user, without the
   * password. `current` is None when the registration fails and there is no
   * token to present.
   */
  method RegisterThenCurrentUser(db: Database, req: UsersRoute.RegisterRequest, svc: Services, salt: string)
    returns (reply: Response, current: Option<Response>)
    requires db.Valid()
    requires svc.sign(db.nextId) != "" && svc.verify(svc.sign(db.nextId)) == Some(ReqUser(db.nextId))
    modifies db
    ensures db.Valid()
    ensures current.Some? <==> reply.Ok?
    ensures reply.Ok? ==>
              && reply.body.TokenBody?
              && current.value == AuthRoute.CurrentUser(db.users, Some(reply.body.token), svc)
              && current.value == Ok(UserBody(Some(PublicUser(old(db.nextId), req.name, req.email, svc.gravatar(req.email)))))
  {
    reply := UsersRoute.Register(db, req, svc, salt);
    if reply.Ok? {
      AuthRoute.SignedTokenResolvesToUser(db.users, old(db.nextId), svc);
      current := Some(AuthRoute.CurrentUser(db.users, Some(reply.body.token), svc));
    } else {
      current := None;
    }
  }
}
