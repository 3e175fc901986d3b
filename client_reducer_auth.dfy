/**
 * The client's auth reducer (client/src/reducer/auth.js): a closed set of
 * action types folded into `{ token, isAuthenticated, loading, user }`,
 * with the token mirrored into the browser's localStorage. The storage
 * entry is the second component of the client state, so one reduction step
 * is a pure function of both.
 */
module AuthReducer {
  import opened Common

  /** `isAuthenticated` starts as null, hence Option. */
  datatype AuthState = AuthState(
    token: Option<Token>,
    isAuthenticated: Option<bool>,
    loading: bool,
    user: Option<PublicUser>)

  /** The auth slice together with `localStorage.getItem("token")`. */
  datatype Client = Client(auth: AuthState, storage: Option<string>)

  /** The response data of a successful register or login: `{ token }`, with the keys the spread may merge. */
  datatype AuthPayload = AuthPayload(token: Field<Token>, user: Field<Option<PublicUser>>)

  /** Every action the root reducer passes to this slice. */
  datatype Action =
    | UserLogin(user: Option<PublicUser>)
    | RegisterSuccess(payload: AuthPayload)
    | LoginSuccess(payload: AuthPayload)
    | RegisterFail
    | AuthErr
    | LoginFail
    | Logout
    | ClearProfile
    | SetAlert(msg: string, alertType: string)
  {
    predicate IsSuccess() { RegisterSuccess? || LoginSuccess? }
    predicate IsFailure() { RegisterFail? || AuthErr? || LoginFail? || Logout? }
    predicate Handled() { UserLogin? || IsSuccess() || IsFailure() }
    /** A success action whose payload has a `token` key (the server always sends one). */
    predicate CarriesToken() { IsSuccess() ==> payload.token.Present? }
  }

  /** `localStorage.setItem` stores the string form of its value: a missing token becomes "undefined". */
  function StoredForm(t: Field<Token>): (s: string)
    ensures t.Present? ==> s == t.value
  {
    if t.Present? then t.value else "undefined"
  }

  /** The browser storage entry agrees with the token held in the state. */
  predicate Mirrored(c: Client) {
    c.storage == c.auth.token
  }

  /** `initialState`: the token is read from storage, nothing else is known yet. */
  function Initial(storage: Option<string>): (c: Client)
    ensures Mirrored(c) && c.storage == storage
    ensures c.auth.isAuthenticated == None && !c.auth.loading && c.auth.user == None
  {
    Client(AuthState(storage, None, false, None), storage)
  }

  /** The reducer, with its effect on storage. */
  function Reduce(c: Client, a: Action): (r: Client)
    // USER_LOGIN: signed in with the loaded user; token and storage untouched
    ensures a.UserLogin? ==>
              && r.auth.isAuthenticated == Some(true) && !r.auth.loading && r.auth.user == a.user
              && r.auth.token == c.auth.token && r.storage == c.storage
    // REGISTER_SUCCESS / LOGIN_SUCCESS: token written to storage, payload merged, signed in
    ensures a.IsSuccess() ==>
              && r.storage == Some(StoredForm(a.payload.token))
              && r.auth.isAuthenticated == Some(true) && !r.auth.loading
              && r.auth.token == (if a.payload.token.Present? then Some(a.payload.token.value) else c.auth.token)
              && r.auth.user == (if a.payload.user.Present? then a.payload.user.value else c.auth.user)
    // failures and LOGOUT: token and storage cleared, signed out; the user is kept
    ensures a.IsFailure() ==>
              && r.auth.token == None && r.storage == None
              && r.auth.isAuthenticated == Some(false) && !r.auth.loading
              && r.auth.user == c.auth.user
    // anything else: state and storage unchanged
    ensures !a.Handled() ==> r == c
    // the storage mirror is kept
    ensures Mirrored(c) && a.CarriesToken() ==> Mirrored(r)
  {
    match a
    case UserLogin(u) =>
      c.(auth := c.auth.(isAuthenticated := Some(true), loading := false, user := u))
    case RegisterSuccess(p) => SignIn(c, p)
    case LoginSuccess(p) => SignIn(c, p)
    case RegisterFail => SignOut(c)
    case AuthErr => SignOut(c)
    case LoginFail => SignOut(c)
    case Logout => SignOut(c)
    case _ => c
  }

  /** `setItem("token", payload.token)` and `{ ...state, ...payload, isAuthenticated: true, loading: false }`. */
  function SignIn(c: Client, p: AuthPayload): Client {
    var merged := c.auth.(
      token := if p.token.Present? then Some(p.token.value) else c.auth.token,
      user := if p.user.Present? then p.user.value else c.auth.user);
    Client(merged.(isAuthenticated := Some(true), loading := false), Some(StoredForm(p.token)))
  }

  /** `removeItem("token")` and `{ ...state, isAuthenticated: false, loading: false, token: null }`. */
  function SignOut(c: Client): Client {
    Client(c.auth.(isAuthenticated := Some(false), loading := false, token := None), None)
  }

  /** The store folding a sequence of dispatched actions through this slice, in order. */
  function ReduceAll(c: Client, acts: seq<Action>): (r: Client)
    ensures Mirrored(c) && (forall i :: 0 <= i < |acts| ==> acts[i].CarriesToken()) ==> Mirrored(r)
    ensures (forall i :: 0 <= i < |acts| ==> !acts[i].Handled()) ==> r == c
    ensures acts != [] && acts[|acts| - 1].IsFailure() ==>
              r.auth.token == None && r.storage == None && r.auth.isAuthenticated == Some(false)
    decreases |acts|
  {
    if acts == [] then c
    else
      var last := |acts| - 1;
      Reduce(ReduceAll(c, acts[..last]), acts[last])
  }

  /** Folding a concatenation is folding its two parts one after the other. */
  lemma {:induction false} ReduceAllAppend(c: Client, xs: seq<Action>, ys: seq<Action>)
    ensures ReduceAll(c, xs + ys) == ReduceAll(ReduceAll(c, xs), ys)
    decreases |ys|
  {
    if ys == [] {
      assert xs + ys == xs;
    } else {
      var last := |ys| - 1;
      assert (xs + ys)[..|xs + ys| - 1] == xs + ys[..last];
      ReduceAllAppend(c, xs, ys[..last]);
    }
  }

  /** A failure action is idempotent: reducing it twice gives the state and storage of reducing it once. */
  lemma FailureIdempotent(c: Client, a: Action)
    requires a.IsFailure()
    ensures Reduce(Reduce(c, a), a) == Reduce(c, a)
  {
  }

  /** Any non-empty run of failure actions ends where the first of them alone ends. */
  lemma {:induction false} FailuresCollapse(c: Client, acts: seq<Action>)
    requires acts != []
    requires forall i :: 0 <= i < |acts| ==> acts[i].IsFailure()
    ensures ReduceAll(c, acts) == Reduce(c, acts[0])
    decreases |acts|
  {
    if |acts| == 1 {
      assert acts[..0] == [];
    } else {
      var last := |acts| - 1;
      FailuresCollapse(c, acts[..last]);
      var mid := ReduceAll(c, acts[..last]);
      assert mid == Reduce(c, acts[0]);
      assert Reduce(mid, acts[last]) == SignOut(mid);
    }
  }

  /** Without a token in a success payload the mirror can break: storage then holds "undefined". */
  lemma MirrorNeedsToken()
    ensures var c := Initial(None);
            var r := Reduce(c, RegisterSuccess(AuthPayload(Absent, Absent)));
            Mirrored(c) && !Mirrored(r)
  {
  }
}
