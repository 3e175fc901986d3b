/**
 * The auth action creators (client/src/actions/auth.js). Each thunk awaits
 * one request and then calls `dispatch` a fixed number of times; here the
 * request's outcome is a parameter and the thunk returns what it dispatched,
 * in order. `dispatch(loadUser())` and `dispatch(setAlert(...))` hand a
 * further thunk to the store; `Expand` says what the auth slice then sees.
 */
module AuthActions {
  import opened Common
  import opened AuthReducer

  /** One argument of `dispatch`: a plain action, or one of the two thunks these creators dispatch. */
  datatype Dispatch = Act(action: Action) | LoadUserThunk | SetAlertThunk(msg: string, alertType: string)

  /** `err.response.data`, reduced to the messages of its `errors` array (None when it has no such key). */
  datatype ErrorResponse = ErrorResponse(errors: Option<seq<string>>)

  /** What an axios call yields: the response data, or a rejection, with `err.response` when the server answered. */
  datatype HttpResult<T> = Success(data: T) | Failure(response: Option<ErrorResponse>)

  const Danger := "danger"

  /** The one action `loadUser` dispatches after GET /api/auth. */
  function LoadUserAction(o: HttpResult<Option<PublicUser>>): (a: Action)
    ensures o.Success? <==> a.UserLogin?
    ensures o.Success? ==> a == UserLogin(o.data)
    ensures o.Failure? ==> a == AuthErr
  {
    if o.Success? then UserLogin(o.data) else AuthErr
  }

  /** One danger alert per message, in the server's order. */
  function Alerts(msgs: seq<string>): (ds: seq<Dispatch>)
    ensures |ds| == |msgs|
    ensures forall i :: 0 <= i < |msgs| ==> ds[i] == SetAlertThunk(msgs[i], Danger)
    decreases |msgs|
  {
    if msgs == [] then []
    else Alerts(msgs[..|msgs| - 1]) + [SetAlertThunk(msgs[|msgs| - 1], Danger)]
  }

  /** `register` with no `err.response` (a network error): reading `.data` throws inside the catch. */
  predicate RegisterThrows(o: HttpResult<AuthPayload>) {
    o.Failure? && o.response.None?
  }

  /** The messages `register` alerts on a failure the server answered. */
  function FailureMessages(r: ErrorResponse): seq<string> {
    if r.errors.Some? then r.errors.value else []
  }

  /** What `register` dispatches. */
  function RegisterDispatches(o: HttpResult<AuthPayload>): (ds: seq<Dispatch>)
    ensures o.Success? ==> ds == [Act(RegisterSuccess(o.data)), LoadUserThunk]
    ensures o.Failure? && o.response.Some? ==>
              var msgs := FailureMessages(o.response.value);
              && |ds| == |msgs| + 1
              && (forall i :: 0 <= i < |msgs| ==> ds[i] == SetAlertThunk(msgs[i], Danger))
              && ds[|msgs|] == Act(RegisterFail)
    ensures RegisterThrows(o) ==> ds == []
  {
    match o
    case Success(data) => [Act(RegisterSuccess(data)), LoadUserThunk]
    case Failure(None) => []
    case Failure(Some(r)) => Alerts(FailureMessages(r)) + [Act(RegisterFail)]
  }

  /** What `login` dispatches: the alert loop on failure is commented out. */
  function LoginDispatches(o: HttpResult<AuthPayload>): (ds: seq<Dispatch>)
    ensures o.Success? ==> ds == [Act(LoginSuccess(o.data)), LoadUserThunk]
    ensures o.Failure? ==> ds == [Act(LoginFail)]
  {
    if o.Success? then [Act(LoginSuccess(o.data)), LoadUserThunk] else [Act(LoginFail)]
  }

  /** What `logout` dispatches. */
  function LogoutDispatches(): (ds: seq<Dispatch>)
    ensures ds == [Act(ClearProfile), Act(AuthReducer.Logout)]
  {
    [Act(ClearProfile), Act(AuthReducer.Logout)]
  }

  /** `loadUser`: exactly one action, USER_LOGIN with the response data or AUTH_ERR. */
  method LoadUser(o: HttpResult<Option<PublicUser>>) returns (ds: seq<Dispatch>)
    ensures ds == [Act(LoadUserAction(o))]
  {
    ds := [];
    match o
    case Success(data) =>
      ds := ds + [Act(UserLogin(data))];
    case Failure(_) =>
      ds := ds + [Act(AuthErr)];
  }

  /** `register`; `threw` tells that the thunk's promise rejects after the catch itself failed. */
  method Register(o: HttpResult<AuthPayload>) returns (ds: seq<Dispatch>, threw: bool)
    ensures ds == RegisterDispatches(o)
    ensures threw == RegisterThrows(o)
  {
    ds := [];
    match o
    case Success(data) =>
      ds := ds + [Act(RegisterSuccess(data))];
      ds := ds + [LoadUserThunk];
      threw := false;
    case Failure(response) =>
      if response.None? {
        threw := true;
        return;
      }
      var errors := response.value.errors;
      if errors.Some? {
        var msgs := errors.value;
        var i := 0;
        while i < |msgs|
          invariant 0 <= i <= |msgs|
          invariant ds == Alerts(msgs[..i])
        {
          assert msgs[..i + 1][..i] == msgs[..i];
          ds := ds + [SetAlertThunk(msgs[i], Danger)];
          i := i + 1;
        }
        assert msgs[..|msgs|] == msgs;
      }
      ds := ds + [Act(RegisterFail)];
      threw := false;
  }

  /** `login`. */
  method Login(o: HttpResult<AuthPayload>) returns (ds: seq<Dispatch>)
    ensures ds == LoginDispatches(o)
  {
    ds := [];
    match o
    case Success(data) =>
      ds := ds + [Act(LoginSuccess(data))];
      ds := ds + [LoadUserThunk];
    case Failure(_) =>
      ds := ds + [Act(LoginFail)];
  }

  /** `logout`. */
  method Logout() returns (ds: seq<Dispatch>)
    ensures ds == LogoutDispatches()
  {
    ds := [];
    ds := ds + [Act(ClearProfile)];
    ds := ds + [Act(AuthReducer.Logout)];
  }

  /**
   * The action the auth slice receives for one dispatch. A `loadUser` thunk
   * yields its one action for the GET /api/auth outcome `load`; an alert
   * thunk yields a SET_ALERT for the alert slice (actions/alert.js is not
   * part of this model).
   */
  function Expanded(d: Dispatch, load: HttpResult<Option<PublicUser>>): (a: Action)
    ensures d.Act? ==> a == d.action
    ensures d.LoadUserThunk? ==> a == LoadUserAction(load)
    ensures d.SetAlertThunk? ==> !a.Handled()
  {
    match d
    case Act(a) => a
    case LoadUserThunk => LoadUserAction(load)
    case SetAlertThunk(m, t) => SetAlert(m, t)
  }

  function Expand(ds: seq<Dispatch>, load: HttpResult<Option<PublicUser>>): (acts: seq<Action>)
    ensures |acts| == |ds|
    ensures forall i :: 0 <= i < |ds| ==> acts[i] == Expanded(ds[i], load)
  {
    seq(|ds|, i requires 0 <= i < |ds| => Expanded(ds[i], load))
  }

  /** The auth state and storage after the store has processed everything a thunk dispatched. */
  function Run(c: Client, ds: seq<Dispatch>, load: HttpResult<Option<PublicUser>>): Client {
    ReduceAll(c, Expand(ds, load))
  }

  /** After `logout`, the token is null, storage is cleared and the user is signed out. */
  lemma LogoutSignsOut(c: Client, load: HttpResult<Option<PublicUser>>)
    ensures var r := Run(c, LogoutDispatches(), load);
            r.auth.token == None && r.storage == None && r.auth.isAuthenticated == Some(false)
            && r.auth.user == c.auth.user
  {
  }

  /** A failed registration the server answered ends exactly as one REGISTER_FAIL, whatever alerts come first. */
  lemma RegisterFailureSignsOut(c: Client, o: HttpResult<AuthPayload>, load: HttpResult<Option<PublicUser>>)
    requires o.Failure? && o.response.Some?
    ensures Run(c, RegisterDispatches(o), load) == Reduce(c, RegisterFail)
  {
  }

  /** A successful registration followed by a successful user load: signed in with that token and user. */
  lemma RegisterSuccessSignsIn(c: Client, t: Token, u: Option<PublicUser>)
    ensures var r := Run(c, RegisterDispatches(Success(AuthPayload(Present(t), Absent))), Success(u));
            && r.auth.token == Some(t) && r.storage == Some(t)
            && r.auth.isAuthenticated == Some(true) && !r.auth.loading && r.auth.user == u
            && Mirrored(r)
  {
    var acts := Expand(RegisterDispatches(Success(AuthPayload(Present(t), Absent))), Success(u));
    assert acts == [RegisterSuccess(AuthPayload(Present(t), Absent)), UserLogin(u)];
    assert acts[..1] == [RegisterSuccess(AuthPayload(Present(t), Absent))];
    assert acts[..1][..0] == [];
    var signedIn := Reduce(c, acts[0]);
    assert ReduceAll(c, acts[..1]) == signedIn;
    assert signedIn.auth.token == Some(t) && signedIn.storage == Some(t);
    assert ReduceAll(c, acts) == Reduce(signedIn, UserLogin(u));
  }

  /** A successful login whose user load is rejected ends signed out: AUTH_ERR clears the token just stored. */
  lemma LoginThenLoadFailureSignsOut(c: Client, p: AuthPayload, failure: Option<ErrorResponse>)
    ensures var r := Run(c, LoginDispatches(Success(p)), Failure(failure));
            r.auth.token == None && r.storage == None && r.auth.isAuthenticated == Some(false)
  {
  }

  /** Whatever these thunks dispatch keeps storage equal to the state's token, as long as success payloads carry a token. */
  lemma ThunksKeepMirror(c: Client, p: HttpResult<AuthPayload>, load: HttpResult<Option<PublicUser>>)
    requires Mirrored(c)
    requires p.Success? ==> p.data.token.Present?
    ensures Mirrored(Run(c, RegisterDispatches(p), load))
    ensures Mirrored(Run(c, LoginDispatches(p), load))
    ensures Mirrored(Run(c, LogoutDispatches(), load))
    ensures Mirrored(Run(c, [LoadUserThunk], load))
  {
  }
}
