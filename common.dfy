/** Types shared by the server routes, the middleware and the client model. */
module Common {

  datatype Option<+T> = None | Some(value: T)

  /** Whether a key is present in a JSON object, and its value when it is. */
  datatype Field<+T> = Absent | Present(value: T)

  /** Document identifiers (Mongo ObjectIds), allocated by the store. */
  type UserId = nat
  type PostId = nat

  /**
   * A value taken from the JSON request body where the routes expect a string:
   * a string, or anything else that is not an array (a number, null, an
   * object), with the string form express-validator's checks see for it.
   * Arrays, whose elements the validators check one by one, are not modelled.
   */
  datatype JsonValue = Str(s: string) | NonString(shown: string)

  /** The string express-validator's checks are applied to. */
  function ValidatorString(v: JsonValue): string {
    if v.Str? then v.s else v.shown
  }

  /** A signed token, as carried in the `x-auth-token` header. */
  type Token = string

  /** The `user` object inside a token's payload: `{ id }`. */
  datatype ReqUser = ReqUser(id: UserId)

  /** A user document without its password, as the API sends it to the client. */
  datatype PublicUser = PublicUser(id: UserId, name: string, email: string, avatar: string)

  /**
   * The libraries the routes call, left uninterpreted:
   *  - sign(id): `jwt.sign({ user: { id } }, secret)`
   *  - verify(t): `jwt.verify(t, secret).user`, None when verification throws
   *  - hash(p, salt): `bcrypt.hash(p, salt)`;  compare(p, h): `bcrypt.compare(p, h)`
   *  - gravatar(email): `gravatar.url(email, { s: "200", r: "pg", d: "mm" })`
   *  - isEmail(s): express-validator's `isEmail()`
   */
  datatype Services = Services(
    sign: UserId -> Token,
    verify: Token -> Option<ReqUser>,
    hash: (string, string) -> string,
    compare: (string, string) -> bool,
    gravatar: string -> string,
    isEmail: string -> bool)
}
