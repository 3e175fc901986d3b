/** The JSON responses the API routes send. */
module Http {
  import opened Common
  import opened Store

  datatype Body =
    | TokenBody(token: Token)                 // { token }
    | UserBody(user: Option<PublicUser>)      // the user document, or null
    | PostBody(id: PostId, post: Post)        // one post document
    | PostsBody(posts: map<PostId, Post>)     // every post document
    | MsgBody(msg: string)                    // { msg }

  datatype ErrorBody =
    | Errors(msgs: seq<string>)               // { errors: [{ msg }, ...] }
    | ValidationError(msgs: seq<string>)      // { Error: [{ msg }, ...] }
    | GateError(text: string)                 // { ERROR: text }
    | Msg(text: string)                       // { msg: text }
    | ServerError                             // "Server Error"

  datatype Response = Ok(body: Body) | Fail(status: nat, error: ErrorBody)
}
