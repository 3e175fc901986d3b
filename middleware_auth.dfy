/**
 * The token gate (middleware/auth.js): reads the `x-auth-token` header,
 * rejects a missing or unverifiable token with 401, and otherwise attaches
 * the decoded `user` to the request and passes it on to the route handler.
 */
module AuthMiddleware {
  import opened Common
  import opened Http

  const NoTokenMessage := "No token found! Not authorized"
  const InvalidTokenMessage := "Not a valid token!"

  /** Reject: the 401 sent, `next` not called. Accept: `req.user`, with `next` called once. */
  datatype GateResult = Reject(response: Response) | Accept(user: ReqUser)

  /** JavaScript truthiness of the header value: absent and "" are both falsy. */
  predicate HasToken(header: Option<string>) {
    header.Some? && header.value != ""
  }

  function Authenticate(header: Option<string>, verify: Token -> Option<ReqUser>): (g: GateResult)
    ensures g.Accept? <==> HasToken(header) && verify(header.value).Some?
    ensures g.Accept? ==> g.user == verify(header.value).value
    ensures !HasToken(header) ==> g == Reject(Fail(401, GateError(NoTokenMessage)))
    ensures HasToken(header) && verify(header.value).None? ==>
              g == Reject(Fail(401, GateError(InvalidTokenMessage)))
  {
    if !HasToken(header) then
      Reject(Fail(401, GateError(NoTokenMessage)))
    else
      match verify(header.value)
      case None => Reject(Fail(401, GateError(InvalidTokenMessage)))
      case Some(user) => Accept(user)
  }

  /** A header holding the empty string is refused exactly like a missing one. */
  lemma EmptyHeaderIsMissing(verify: Token -> Option<ReqUser>)
    ensures Authenticate(Some(""), verify) == Authenticate(None, verify)
    ensures Authenticate(Some(""), verify) == Reject(Fail(401, GateError(NoTokenMessage)))
  {
  }

  /**
   * The presence check comes first: on a missing token the outcome is the same
   * whatever `verify` would answer, so `verify` is never consulted.
   */
  lemma AbsentTokenNeverVerified(header: Option<string>, v1: Token -> Option<ReqUser>, v2: Token -> Option<ReqUser>)
    requires !HasToken(header)
    ensures Authenticate(header, v1) == Authenticate(header, v2)
    ensures Authenticate(header, v1).Reject?
  {
  }

  /** A token the verifier accepts is accepted for exactly the user it decodes to. */
  lemma SignedTokenAccepted(t: Token, verify: Token -> Option<ReqUser>, id: UserId)
    requires t != "" && verify(t) == Some(ReqUser(id))
    ensures Authenticate(Some(t), verify) == Accept(ReqUser(id))
  {
  }
}
