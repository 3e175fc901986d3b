# dev-connector: authentication and posts, modelled in Dafny

dev-connector is a social/profile web application: an Express API over a
MongoDB store, plus a React/Redux client. This project models the parts of it
that make decisions:

- the token gate every protected route runs behind (`middleware/auth.js`);
- registration (`POST /api/users`), login and current user (`/api/auth`);
- creating, listing, reading and owner-only deleting of posts (`/api/posts`);
- the client's auth reducer, which mirrors the token into localStorage;
- the client's auth action creators (`loadUser`, `register`, `login`, `logout`),
  as the sequence of things each one dispatches for a given HTTP outcome.

The store is one `Database` object with a user map (unique emails) and a post
map; ids come from a counter. JWT signing and verification, bcrypt, gravatar
and express-validator's `isEmail` are function-valued fields of a `Services`
value supplied by the caller; `bcrypt.genSalt(10)` is a `salt` argument. The
server routes that change the store are methods with `modifies db`; the
read-only ones are functions (`/api/auth`) or methods without `modifies`
(`GET /api/posts`). The client reducer is a pure function over the auth state
paired with the storage entry; the thunks are methods that build the
dispatched sequence, specified by functions that the end-to-end lemmas fold
through the reducer.

Files: `common.dfy` (shared types, `Services`), `store.dfy` (documents and the
`Database`), `http.dfy` (replies), `middleware_auth.dfy`, `routes_users.dfy`,
`routes_auth.dfy`, `routes_posts.dfy`, `client_reducer_auth.dfy`,
`client_actions_auth.dfy`, `session.dfy` (client register flow against the
server route).

Some behaviour worth knowing up front, as the code has it: `GET /api/posts`
applies no sort (it returns what `Post.find()` returns); a header holding the
empty string counts as a missing token; the ownership failure on delete is
401; the register route reports every failing validation at once and checks
the email only after validation passed. A password in a request body is any
JSON value other than an array: express-validator's checks see its string form, but bcrypt only
accepts a string, so a password that is not a string and passes validation
ends in a 500 once bcrypt is reached: in registration when the email is free,
in login when a user has that email.

## Model

| member | source | states |
|---|---|---|
| `AuthMiddleware.Authenticate` | middleware/auth.js:4-20 | accepts exactly when the header holds a non-empty token that verifies, attaching the decoded user; a missing or empty header gives 401 "No token found! Not authorized"; a failed verification gives 401 "Not a valid token!" |
| `AuthMiddleware.EmptyHeaderIsMissing` | middleware/auth.js:6-11 | `HasToken` is the truthiness test of `if (!token)`: a header holding "" is refused with the same 401 "No token found! Not authorized" as a missing one |
| `AuthMiddleware.AbsentTokenNeverVerified` | middleware/auth.js:8-13 | on a missing token the outcome is a rejection whatever the verifier would say, so verification is never consulted |
| `AuthMiddleware.SignedTokenAccepted` | middleware/auth.js:13-16 | a token the verifier decodes to user `id` is accepted with `req.user = { id }` |
| `Store.PublicHidesPassword` | routes/api/auth.js:13 | `select("-password")`: the user the API sends out (`Public`) is the same whatever the stored password is, and keeps the id |
| `Store.FindByEmail` | routes/api/users.js:32 | `findOne({ email })` finds a user exactly when one has that email, and the user it finds has it |
| `Store.Database.SaveUser` | routes/api/users.js:49 | inserts one user under a fresh id; posts untouched; unique emails kept |
| `Store.Database.SavePost` | routes/api/posts.js:36-37 | inserts one post under a fresh id; users untouched |
| `Store.Database.RemovePost` | routes/api/posts.js:106 | removes exactly the post with that id and nothing else |
| `UsersRoute.RegistrationErrors` | routes/api/users.js:12-25 | empty exactly when the name is non-empty, the email is valid and the password's string form has at least 6 characters; exactly one message per failing check, in declaration order (name first, password last) |
| `UsersRoute.NewUser` | routes/api/users.js:38-47 | the inserted user keeps name and email, stores `hash(password, salt)` of the string password in place of the password, and the gravatar of the email |
| `UsersRoute.Register` | routes/api/users.js:10-68 | validation failure: 400 with all messages and no change; taken email: 400 "User Exists" and no change, whatever the password; a password that is not a string: `bcrypt.hash` rejects, 500 "Server Error" and no change; otherwise exactly one user inserted under the fresh id and a token signed for that id returned; success exactly in that last case; posts never change |
| `UsersRoute.RegisterTwice` | routes/api/users.js:32-36 | after a successful registration, a second one with the same email fails with "User Exists" and the pair adds exactly one user |
| `AuthRoute.CurrentUser` | routes/api/auth.js:10-18 | behind the gate; returns the user the token names, without the password, or null when no such user is stored |
| `AuthRoute.LoginErrors` | routes/api/auth.js:22-32 | empty exactly when the email is valid and a password key is present (any value, `null` included); exactly one message per failing check, the email's first |
| `AuthRoute.Login` | routes/api/auth.js:21-72 | validation failures give 400 with their messages before any lookup; a token is issued exactly when the password is a string, a user has the email and bcrypt matches the password, and it is signed for that user's id; for a string password, unknown email and wrong password give the identical 400 "Invalid Credentials"; any other password gives 500 "Server Error" when the email is registered (`bcrypt.compare` rejects) and 400 "Invalid Credentials" when it is not; the store is only read |
| `AuthRoute.NonStringPasswordRevealsAccount` | routes/api/auth.js:39-51 | as written, the same request with a non-string password gets 500 when its email is registered and 400 when that user is absent |
| `AuthRoute.IntendedLogin` | routes/api/auth.js:47-52 | a password bcrypt cannot compare counts as a mismatch: with valid input every refusal is the 400 "Invalid Credentials", and for string passwords it agrees with `Login` |
| `AuthRoute.IntendedLoginHidesAccounts` | routes/api/auth.js:41-52 | under the intended login, a refused request gets the same reply whatever users are stored |
| `AuthRoute.SignedTokenResolvesToUser` | routes/api/auth.js:13-14 | a token signed for a stored user's id resolves through GET /api/auth to that user without password |
| `AuthRoute.StoredUserCanLogIn` | routes/api/auth.js:39-66 | a stored user presenting a string password bcrypt matches gets the token for their own id |
| `PostsRoute.NewPost` | routes/api/posts.js:29-34 | the new post's author is the token's user id and its name and avatar are copied from that user |
| `PostsRoute.CreatePost` | routes/api/posts.js:12-44 | gate first, then empty text gives 400 and saves nothing, then a token naming no stored user gives 500 and saves nothing; otherwise exactly one post added, under a fresh id, with the author's name and avatar at creation time |
| `PostsRoute.GetAllPosts` | routes/api/posts.js:47-55 | behind the gate; returns every stored post and changes nothing |
| `PostsRoute.GetPost` | routes/api/posts.js:58-73 | behind the gate; a malformed id gives 401, an unknown id 404 "Post not found", otherwise that post; the store is only read |
| `PostsRoute.DeletePost` | routes/api/posts.js:90-116 | removes a post exactly when the token is valid, the post exists and the requester is its author; then only that id goes and every other post is unchanged; otherwise no post changes, with 401 (malformed id or not the owner) or 404 (no such post) |
| `PostsRoute.OthersCannotDelete` | routes/api/posts.js:102-104 | a user who is not the author gets 401 and the post map is unchanged |
| `PostsRoute.AsWrittenDelivery` | routes/api/posts.js:20 | as written, every error reply of the posts handlers is lost (only successes and the gate's 401s reach the client) |
| `PostsRoute.EmptyPostGetsNoReply` | routes/api/posts.js:14-21 | an empty post from a signed-in user is meant to get 400 and saves nothing, but as written gets no reply |
| `AuthReducer.Initial` | client/src/reducer/auth.js:11-16 | the initial state reads its token from storage, so storage mirrors the token; not authenticated yet (null), not loading, no user |
| `AuthReducer.StoredForm` | client/src/reducer/auth.js:32 | storage receives the payload's token when it has one |
| `AuthReducer.Reduce` | client/src/reducer/auth.js:18-55 | USER_LOGIN signs in with the payload user and leaves token and storage; REGISTER_SUCCESS/LOGIN_SUCCESS store the payload token, merge the payload and sign in; REGISTER_FAIL/AUTH_ERR/LOGIN_FAIL/LOGOUT clear token and storage and sign out but keep the user; any other action changes nothing; storage keeps mirroring the token when success payloads carry one |
| `AuthReducer.ReduceAll` | client/src/reducer/auth.js:18-55 | folding actions keeps the storage mirror when every success payload carries a token; unhandled actions leave everything unchanged; a run ending in a failure ends signed out with no token and empty storage |
| `AuthReducer.ReduceAllAppend` | client/src/reducer/auth.js:18-21 | folding a concatenation is folding its parts in turn |
| `AuthReducer.FailureIdempotent` | client/src/reducer/auth.js:40-50 | a failure action or LOGOUT applied twice gives the same state and storage as once |
| `AuthReducer.FailuresCollapse` | client/src/reducer/auth.js:40-50 | any non-empty run of failure actions ends where its first action alone ends |
| `AuthReducer.MirrorNeedsToken` | client/src/reducer/auth.js:30-38 | a success payload without a token breaks the mirror (storage holds "undefined") |
| `AuthActions.LoadUserAction` | client/src/actions/auth.js:19-31 | USER_LOGIN with the response data on success, AUTH_ERR on failure |
| `AuthActions.Alerts` | client/src/actions/auth.js:59-63 | one danger alert per server message, in the server's order |
| `AuthActions.RegisterDispatches` | client/src/actions/auth.js:44-68 | success: REGISTER_SUCCESS with the response data, then the loadUser thunk; an answered failure: one alert per error message in order, then REGISTER_FAIL last; no response: nothing |
| `AuthActions.LoginDispatches` | client/src/actions/auth.js:81-105 | success: LOGIN_SUCCESS then the loadUser thunk; failure: only LOGIN_FAIL, no alerts |
| `AuthActions.LogoutDispatches` | client/src/actions/auth.js:109-116 | exactly CLEAR_PROFILE then LOGOUT |
| `AuthActions.LoadUser` | client/src/actions/auth.js:16-32 | dispatches exactly one action, the one `LoadUserAction` gives |
| `AuthActions.Register` | client/src/actions/auth.js:35-69 | the forEach loop and the dispatches produce `RegisterDispatches`; the thunk throws exactly when the failure has no response |
| `AuthActions.Login` | client/src/actions/auth.js:72-106 | dispatches `LoginDispatches` |
| `AuthActions.Logout` | client/src/actions/auth.js:109-116 | dispatches `LogoutDispatches` |
| `AuthActions.Expanded` | client/src/actions/auth.js:56 | a plain action reaches the reducer as itself, the loadUser thunk as its one action, an alert as an action the auth slice ignores |
| `AuthActions.Expand` | client/src/actions/auth.js:93 | one reducer action per dispatch, in order |
| `AuthActions.LogoutSignsOut` | client/src/actions/auth.js:109-116 | after logout the token is null, storage is cleared and the user is not authenticated |
| `AuthActions.RegisterFailureSignsOut` | client/src/actions/auth.js:57-68 | an answered registration failure has exactly the effect of one REGISTER_FAIL, however many alerts precede it |
| `AuthActions.RegisterSuccessSignsIn` | client/src/actions/auth.js:51-56 | registration success followed by a successful user load leaves the new token in state and storage, authenticated, with the loaded user |
| `AuthActions.LoginThenLoadFailureSignsOut` | client/src/actions/auth.js:88-93 | a login whose user load fails ends signed out: AUTH_ERR discards the token just stored |
| `AuthActions.ThunksKeepMirror` | client/src/actions/auth.js:16-116 | every thunk's dispatches keep storage equal to the state's token when success payloads carry a token |
| `Session.AxiosOutcome` | client/src/actions/auth.js:45-58 | a 2xx reply resolves with its data; any other reply rejects with the server's body, so its `errors` messages reach the catch |
| `Session.ServerErrorsAlerted` | client/src/actions/auth.js:57-68 | the messages of a `{ errors }` reply are alerted in order, then REGISTER_FAIL |
| `Session.RegisterFromClient` | routes/api/users.js:32-62 | a taken email yields exactly one "User Exists" alert and REGISTER_FAIL with storage cleared; a non-string password yields REGISTER_FAIL alone; a successful registration with a loaded user leaves the token signed for the new id in state and storage |
| `Session.RegisterThenCurrentUser` | routes/api/users.js:44-62 | the token a successful registration returns, presented to GET /api/auth (routes/api/auth.js:10-14), yields the new user: its id, name, email and gravatar, without the password |

## Findings

| source | as written | input that shows it | evidently intended | confidence | as-written member | corrected member |
|---|---|---|---|---|---|---|
| routes/api/posts.js:20 | error replies call `res.server(...)` (also lines 41, 53, 62, 69, 71, 97, 103, 112, 114), which Express responses do not have, so each call throws and no reply is sent (each of these calls throws out of the handler, and under Node 15 or later each of these unhandled rejections may also end the process) | `POST /api/posts` with a valid token and body `{ "text": "" }` | `res.status(400).json(...)` and the other statuses passed to `res.server` | high, not executed | `PostsRoute.AsWrittenDelivery` (shown by `PostsRoute.EmptyPostGetsNoReply`) | `PostsRoute.CreatePost` |
| routes/api/auth.js:47 | `check("password").exists()` lets any non-`undefined` value through, and `bcrypt.compare` rejects a non-string, which the catch answers with 500; this is reached only after a user with that email was found | `POST /api/auth` with `{ "email": "a@x.com", "password": 123 }`: 500 when a@x.com is registered, 400 "Invalid Credentials" when it is not, which tells registered emails apart | the uniform "Invalid Credentials" reply for every refused login with valid input | medium, not executed | `AuthRoute.Login` (shown by `AuthRoute.NonStringPasswordRevealsAccount`) | `AuthRoute.IntendedLogin` (proved by `AuthRoute.IntendedLoginHidesAccounts`) |

## Left out

- Persistence, MongoDB and `server.js`: the store is one in-memory object; store failures (the 500 branches for database errors) and concurrent requests are not modelled.
- Cryptography and libraries: `jwt.sign`/`jwt.verify`, bcrypt, gravatar and `isEmail` are uninterpreted functions; an error passed to the `jwt.sign` callback is not modelled.
- Store.FindByEmail: requires the store's unique-email invariant, where `findOne` would return the first match on duplicates.
- PostsRoute.GetAllPosts: returns the post map, not the order `Post.find()` lists the posts in.
- AuthRoute.CurrentUser: ids are always well formed here, so the cast error that the route only logs (leaving the request unanswered) is not modelled.
- AuthMiddleware.Authenticate: a verified token whose payload has no `user` key (never issued by these routes) is not modelled.
- UsersRoute.RegistrationErrors: `isLength({ min: 6 })` is the length of the password's string form as a sequence of Unicode scalar values, which is validator.js's count; newer validator.js versions that do not count the variation selectors U+FE0E/U+FE0F are not modelled. An array password is not modelled either: express-validator 6 applies `isLength` to each element, so `["a", "b"]` gets the length message twice, which one string form cannot express.
- Dates, likes and comments of posts: they get their defaults when a post is saved and `GET /api/posts` returns them, but no modelled route sets or inspects them, so the `Post` value leaves them out.
- UsersRoute.Register: `name` and `email` are taken to be strings; a non-string name or email (which `gravatar.url` and the email lookup would then see) is not modelled, only a non-string password.
- AuthRoute.Login: `email` is taken to be a string; only the password is any JSON value.
- PostsRoute.CreatePost: `text` is taken to be a string (a number or boolean behaves as its string form); an object or array text passes the emptiness check as its string form but fails Mongoose's cast at `post.save()`, which the route answers with 500 and saves nothing; that branch is not modelled.
- The `setAuthToken` header set by `loadUser` and the alert slice (`actions/alert.js`, `utils/setAuthToken`) are not part of this model; an alert reaches the auth slice as actions it ignores (SET_ALERT, and REMOVE_ALERT later from a timer); the model gives it one such action.
- Profiles, experience and education: `routes/api/profile.js` is a stub.
- React components, the Redux store wiring (`store.js`) and console logging.
