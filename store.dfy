/**
 * The document store behind the API, reduced to two collections held in
 * memory by one object: users keyed by id, with unique emails, and posts
 * keyed by id. `save()` and `remove()` of Mongoose documents become the
 * methods below; new ids come from a counter shared by both collections.
 */
module Store {
  import opened Common

  /** A user document; `password` holds the bcrypt hash. */
  datatype User = User(name: string, email: string, password: string, avatar: string)

  /**
   * A post document (models/Post.js). Only the fields the routes set are
   * kept: `likes`, `comments` and `date` are never touched by them.
   */
  datatype Post = Post(user: UserId, text: string, name: string, avatar: string)

  /** The user as `select("-password")` returns it. */
  function Public(id: UserId, u: User): PublicUser {
    PublicUser(id, u.name, u.email, u.avatar)
  }

  /** What the client receives of a user does not depend on the stored password at all. */
  lemma PublicHidesPassword(id: UserId, u: User, other: string)
    ensures Public(id, u.(password := other)) == Public(id, u)
    ensures Public(id, u).id == id
  {
  }

  predicate EmailTaken(users: map<UserId, User>, email: string) {
    exists id :: id in users && users[id].email == email
  }

  ghost predicate UniqueEmails(users: map<UserId, User>) {
    forall a, b :: a in users && b in users && users[a].email == users[b].email ==> a == b
  }

  /** `User.findOne({ email })`: the one user with that email, if any. */
  function FindByEmail(users: map<UserId, User>, email: string): (r: Option<UserId>)
    requires UniqueEmails(users)
    ensures r.Some? <==> EmailTaken(users, email)
    ensures r.Some? ==> r.value in users && users[r.value].email == email
  {
    if EmailTaken(users, email) then
      var id :| id in users && users[id].email == email; Some(id)
    else
      None
  }

  class Database {
    var users: map<UserId, User>
    var posts: map<PostId, Post>
    var nextId: nat

    ghost predicate Valid()
      reads this
    {
      && (forall id :: id in users ==> id < nextId)
      && (forall id :: id in posts ==> id < nextId)
      && UniqueEmails(users)
    }

    constructor ()
      ensures Valid() && users == map[] && posts == map[] && nextId == 0
    {
      users, posts, nextId := map[], map[], 0;
    }

    /** `new User(...).save()`: inserts the user under a fresh id. */
    method SaveUser(u: User) returns (id: UserId)
      requires Valid()
      requires !EmailTaken(users, u.email)
      modifies this
      ensures Valid()
      ensures id == old(nextId) && id !in old(users)
      ensures users == old(users)[id := u] && posts == old(posts) && nextId == old(nextId) + 1
    {
      id := nextId;
      users := users[id := u];
      nextId := nextId + 1;
    }

    /** `new Post(...).save()`: inserts the post under a fresh id. */
    method SavePost(p: Post) returns (id: PostId)
      requires Valid()
      modifies this
      ensures Valid()
      ensures id == old(nextId) && id !in old(posts)
      ensures posts == old(posts)[id := p] && users == old(users) && nextId == old(nextId) + 1
    {
      id := nextId;
      posts := posts[id := p];
      nextId := nextId + 1;
    }

    /** `post.remove()`: removes exactly the post with that id. */
    method RemovePost(id: PostId)
      requires Valid()
      modifies this
      ensures Valid()
      ensures posts == old(posts) - {id} && users == old(users) && nextId == old(nextId)
    {
      posts := posts - {id};
    }
  }
}
