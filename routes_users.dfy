/**
 * POST /api/users (routes/api/users.js): registration. The request body is
 * validated first (all failing checks reported together), then the email is
 * looked up, and only then is a user with a hashed password inserted and a
 * token for its new id returned.
 */
module UsersRoute {
  import opened Common
  import opened Http
  import opened Store

  /**
   * The request body; a missing field reaches the validators as "". The
   * password is whatever JSON value the client sent: only a string can be
   * hashed.
   */
  datatype RegisterRequest = RegisterRequest(name: string, email: string, password: JsonValue)

  const NameRequired := "Name is required"
  const InvalidEmail := "Enter a valid email"
  const PasswordTooShort := "Password needs to be atleast 6 characters long"
  const UserExists := "User Exists"
  const MinPasswordLength := 6

  /** The express-validator chain: one message per failing check, in declaration order. */
  function RegistrationErrors(req: RegisterRequest, isEmail: string -> bool): (errs: seq<string>)
    ensures errs == [] <==> req.name != "" && isEmail(req.email) && |ValidatorString(req.password)| >= MinPasswordLength
    ensures NameRequired in errs <==> req.name == ""
    ensures InvalidEmail in errs <==> !isEmail(req.email)
    ensures PasswordTooShort in errs <==> |ValidatorString(req.password)| < MinPasswordLength
    // exactly one message per failing check: name first, password last
    ensures |errs| == (if req.name == "" then 1 else 0) + (if isEmail(req.email) then 0 else 1)
                      + (if |ValidatorString(req.password)| < MinPasswordLength then 1 else 0)
    ensures req.name == "" ==> errs[0] == NameRequired
    ensures PasswordTooShort in errs ==> errs[|errs| - 1] == PasswordTooShort
  {
    (if req.name == "" then [NameRequired] else [])
    + (if isEmail(req.email) then [] else [InvalidEmail])
    + (if |ValidatorString(req.password)| >= MinPasswordLength then [] else [PasswordTooShort])
  }

  /** The user document the route builds: the password field is overwritten with its hash. */
  function NewUser(req: RegisterRequest, password: string, svc: Services, salt: string): (u: User)
    ensures u.name == req.name && u.email == req.email
    ensures u.password == svc.hash(password, salt) && u.avatar == svc.gravatar(req.email)
  {
    User(req.name, req.email, svc.hash(password, salt), svc.gravatar(req.email))
  }

  /**
   * The route handler. `salt` is what `bcrypt.genSalt(10)` produced for this
   * request.
   */
  method Register(db: Database, req: RegisterRequest, svc: Services, salt: string) returns (res: Response)
    requires db.Valid()
    modifies db
    ensures db.Valid()
    ensures db.posts == old(db.posts)
    // validation failure: 400 with every message, before any lookup
    ensures RegistrationErrors(req, svc.isEmail) != [] ==>
              res == Fail(400, Errors(RegistrationErrors(req, svc.isEmail)))
              && db.users == old(db.users) && db.nextId == old(db.nextId)
    // email already registered: 400 "User Exists", whatever the password
    ensures RegistrationErrors(req, svc.isEmail) == [] && EmailTaken(old(db.users), req.email) ==>
              res == Fail(400, Errors([UserExists]))
              && db.users == old(db.users) && db.nextId == old(db.nextId)
    // a password that is not a string: `bcrypt.hash` rejects, caught as a 500; nothing inserted
    ensures RegistrationErrors(req, svc.isEmail) == [] && !EmailTaken(old(db.users), req.email) && req.password.NonString? ==>
              res == Fail(500, ServerError)
              && db.users == old(db.users) && db.nextId == old(db.nextId)
    // success: exactly one user inserted, under a fresh id that the token names
    ensures RegistrationErrors(req, svc.isEmail) == [] && !EmailTaken(old(db.users), req.email) && req.password.Str? ==>
              var id := old(db.nextId);
              && id !in old(db.users)
              && db.users == old(db.users)[id := NewUser(req, req.password.s, svc, salt)]
              && res == Ok(TokenBody(svc.sign(id)))
    ensures res.Ok? <==>
              RegistrationErrors(req, svc.isEmail) == [] && !EmailTaken(old(db.users), req.email) && req.password.Str?
    ensures res.Ok? ==> EmailTaken(db.users, req.email)
  {
    var errors := RegistrationErrors(req, svc.isEmail);
    if errors != [] {
      return Fail(400, Errors(errors));
    }
    var existing := FindByEmail(db.users, req.email);
    if existing.Some? {
      return Fail(400, Errors([UserExists]));
    }
    match req.password
    case NonString(_) =>
      // bcryptjs refuses a non-string with "Illegal arguments"
      return Fail(500, ServerError);
    case Str(password) =>
      var user := User(req.name, req.email, password, svc.gravatar(req.email));
      user := user.(password := svc.hash(password, salt));
      var id := db.SaveUser(user);
      assert db.users[id] == user;
      res := Ok(TokenBody(svc.sign(id)));
  }

  /** Registering the same email twice: the second request is refused and adds no user. */
  method RegisterTwice(db: Database, first: RegisterRequest, second: RegisterRequest, svc: Services, salt1: string, salt2: string)
    returns (res1: Response, res2: Response)
    requires db.Valid()
    requires first.email == second.email
    requires RegistrationErrors(second, svc.isEmail) == []
    modifies db
    ensures db.Valid()
    ensures res1.Ok? ==> res2 == Fail(400, Errors([UserExists]))
    ensures res1.Ok? ==> |db.users.Keys| == |old(db.users.Keys)| + 1
  {
    res1 := Register(db, first, svc, salt1);
    ghost var middle := db.users;
    res2 := Register(db, second, svc, salt2);
    if res1.Ok? {
      assert db.users == middle;
      assert db.users.Keys == old(db.users.Keys) + {old(db.nextId)};
    }
  }
}
