/**
 * /api/posts (routes/api/posts.js): create, list, get by id and delete.
 * Every route runs behind the token gate, so each handler below starts from
 * `Authenticate` and does nothing to the store when it rejects.
 *
 * The handlers send their error replies through `res.server(...)`, which
 * Express responses do not have: as written, each of those calls throws and
 * no reply is sent. The methods return the reply the code evidently means to
 * send (the status it passes to `res.server`); `AsWrittenDelivery` says what
 * actually reaches the client. The store-level outcome is the same either way,
 * because every such call comes before any save or remove.
 */
module PostsRoute {
  import opened Common
  import opened Http
  import opened Store
  import opened AuthMiddleware

  /** The `:id` route parameter: a well-formed ObjectId, or a string that is not one (a CastError). */
  datatype IdParam = ObjectId(id: PostId) | Malformed(raw: string)

  const EmptyText := "Cannot empty comment"
  const NotFoundOnGet := "Post not found"
  const NotFoundOnDelete := "Post not found!"
  const NotAuthorized := "Not authorized!"
  const Deleted := "Deleted"

  /** The post the create route builds: author id from the token, name and avatar copied from the user document. */
  function NewPost(uid: UserId, text: string, author: User): (p: Post)
    ensures p.user == uid && p.text == text && p.name == author.name && p.avatar == author.avatar
  {
    Post(uid, text, author.name, author.avatar)
  }

  /** POST /api/posts. */
  method CreatePost(db: Database, header: Option<string>, text: string, svc: Services) returns (res: Response)
    requires db.Valid()
    modifies db
    ensures db.Valid() && db.users == old(db.users)
    ensures Authenticate(header, svc.verify).Reject? ==>
              res == Authenticate(header, svc.verify).response
              && db.posts == old(db.posts) && db.nextId == old(db.nextId)
    ensures Authenticate(header, svc.verify).Accept? ==>
              var uid := Authenticate(header, svc.verify).user.id;
              // the check on the text runs before the user is looked up
              && (text == "" ==>
                    res == Fail(400, ValidationError([EmptyText]))
                    && db.posts == old(db.posts) && db.nextId == old(db.nextId))
              // the token names no stored user: `user.name` throws, caught as a 500
              && (text != "" && uid !in old(db.users) ==>
                    res == Fail(500, ServerError)
                    && db.posts == old(db.posts) && db.nextId == old(db.nextId))
              // success: exactly one post added, under a fresh id
              && (text != "" && uid in old(db.users) ==>
                    var id := old(db.nextId);
                    && id !in old(db.posts)
                    && db.posts == old(db.posts)[id := NewPost(uid, text, old(db.users)[uid])]
                    && res == Ok(PostBody(id, db.posts[id])))
  {
    match Authenticate(header, svc.verify)
    case Reject(r) =>
      return r;
    case Accept(reqUser) =>
      if text == "" {
        return Fail(400, ValidationError([EmptyText]));
      }
      if reqUser.id !in db.users {
        return Fail(500, ServerError);
      }
      var user := db.users[reqUser.id];
      var newPost := Post(reqUser.id, text, user.name, user.avatar);
      var id := db.SavePost(newPost);
      res := Ok(PostBody(id, newPost));
  }

  /** GET /api/posts: every post; the store is only read. */
  method GetAllPosts(db: Database, header: Option<string>, svc: Services) returns (res: Response)
    requires db.Valid()
    ensures Authenticate(header, svc.verify).Reject? ==> res == Authenticate(header, svc.verify).response
    ensures Authenticate(header, svc.verify).Accept? ==> res == Ok(PostsBody(db.posts))
  {
    match Authenticate(header, svc.verify)
    case Reject(r) =>
      res := r;
    case Accept(_) =>
      var posts := db.posts;
      res := Ok(PostsBody(posts));
  }

  /** GET /api/posts/:id; the store is only read. */
  method GetPost(db: Database, header: Option<string>, param: IdParam, svc: Services) returns (res: Response)
    requires db.Valid()
    ensures Authenticate(header, svc.verify).Reject? ==> res == Authenticate(header, svc.verify).response
    ensures Authenticate(header, svc.verify).Accept? ==>
              && (param.Malformed? ==> res == Fail(401, Msg(NotAuthorized)))
              && (param.ObjectId? && param.id !in db.posts ==> res == Fail(404, Msg(NotFoundOnGet)))
              && (param.ObjectId? && param.id in db.posts ==> res == Ok(PostBody(param.id, db.posts[param.id])))
    ensures res.Ok? ==> param.ObjectId? && param.id in db.posts && res.body.post == db.posts[param.id]
  {
    match Authenticate(header, svc.verify)
    case Reject(r) =>
      return r;
    case Accept(_) =>
      match param
      case Malformed(_) =>
        return Fail(401, Msg(NotAuthorized));
      case ObjectId(id) =>
        if id !in db.posts {
          return Fail(404, Msg(NotFoundOnGet));
        }
        res := Ok(PostBody(id, db.posts[id]));
  }

  /** The delete goes ahead: a valid token, a post with that id, and the requester owns it. */
  predicate MayDelete(posts: map<PostId, Post>, header: Option<string>, param: IdParam, svc: Services) {
    && Authenticate(header, svc.verify).Accept?
    && param.ObjectId? && param.id in posts
    && posts[param.id].user == Authenticate(header, svc.verify).user.id
  }

  /** DELETE /api/posts/:id: only the post's author may delete it. */
  method DeletePost(db: Database, header: Option<string>, param: IdParam, svc: Services) returns (res: Response)
    requires db.Valid()
    modifies db
    ensures db.Valid() && db.users == old(db.users) && db.nextId == old(db.nextId)
    ensures Authenticate(header, svc.verify).Reject? ==> res == Authenticate(header, svc.verify).response
    ensures Authenticate(header, svc.verify).Accept? ==>
              var uid := Authenticate(header, svc.verify).user.id;
              && (param.Malformed? ==> res == Fail(401, Msg(NotAuthorized)))
              && (param.ObjectId? && param.id !in old(db.posts) ==> res == Fail(404, Msg(NotFoundOnDelete)))
              && (param.ObjectId? && param.id in old(db.posts) && old(db.posts)[param.id].user != uid ==>
                    res == Fail(401, Msg(NotAuthorized)))
    // outside the owner's delete, no post changes
    ensures !MayDelete(old(db.posts), header, param, svc) ==> db.posts == old(db.posts)
    // the owner's delete removes that one post and keeps every other one as it was
    ensures MayDelete(old(db.posts), header, param, svc) ==>
              && res == Ok(MsgBody(Deleted))
              && db.posts.Keys == old(db.posts).Keys - {param.id}
              && forall k :: k in db.posts ==> db.posts[k] == old(db.posts)[k]
    ensures res.Ok? <==> MayDelete(old(db.posts), header, param, svc)
  {
    match Authenticate(header, svc.verify)
    case Reject(r) =>
      return r;
    case Accept(reqUser) =>
      match param
      case Malformed(_) =>
        return Fail(401, Msg(NotAuthorized));
      case ObjectId(id) =>
        if id !in db.posts {
          return Fail(404, Msg(NotFoundOnDelete));
        }
        var post := db.posts[id];
        if post.user != reqUser.id {
          return Fail(401, Msg(NotAuthorized));
        }
        db.RemovePost(id);
        res := Ok(MsgBody(Deleted));
  }

  /** What reaches the client. */
  datatype Delivery = Sent(response: Response) | NoResponse

  /**
   * The routes as written: successes (`res.json`) and the gate's 401s
   * (`res.status`) are sent; every error reply of a handler goes through
   * `res.server`, which throws, so nothing is sent.
   */
  function AsWrittenDelivery(res: Response): (d: Delivery)
    ensures d.NoResponse? <==> res.Fail? && !res.error.GateError?
    ensures d.Sent? ==> d.response == res
  {
    if res.Fail? && !res.error.GateError? then NoResponse else Sent(res)
  }

  /**
   * An empty post from a signed-in user: the handler means to answer 400 and
   * saves nothing, but as written the client gets no reply at all.
   */
  method EmptyPostGetsNoReply(db: Database, header: Option<string>, svc: Services) returns (res: Response)
    requires db.Valid()
    requires Authenticate(header, svc.verify).Accept?
    modifies db
    ensures res.Fail? && res.status == 400 && db.posts == old(db.posts)
    ensures AsWrittenDelivery(res) == NoResponse
  {
    res := CreatePost(db, header, "", svc);
  }

  /** A post is deleted only by its author: a second user's token never removes it. */
  method OthersCannotDelete(db: Database, header: Option<string>, id: PostId, svc: Services) returns (res: Response)
    requires db.Valid() && id in db.posts
    requires Authenticate(header, svc.verify).Accept?
    requires Authenticate(header, svc.verify).user.id != db.posts[id].user
    modifies db
    ensures res == Fail(401, Msg(NotAuthorized))
    ensures db.posts == old(db.posts)
  {
    res := DeletePost(db, header, ObjectId(id), svc);
  }
}
