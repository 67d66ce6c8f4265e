/** The two collections the handlers work on, `users` and `posts`, as maps
    from `_id` to document, and the driver calls the handlers make on them. */
module Documents {
  import opened Wrappers
  import opened Foreign

  /** A document of the `users` collection. `password` holds the argon2 hash;
      `refreshToken` is the single slot of the current session. */
  datatype User = User(
    firstName: Option<string>,
    lastName: Option<string>,
    email: string,
    password: string,
    phoneNumber: Option<string>,
    createdAt: Option<Timestamp>,
    updatedAt: Option<Timestamp>,
    refreshToken: Option<Token>)

  /** A document of the `posts` collection. */
  datatype Post = Post(
    title: string,
    body: string,
    author: ObjectId,
    createdAt: Timestamp,
    updatedAt: Timestamp,
    tags: Option<seq<string>>,
    coverImageUrl: Option<string>)

  /** The `$set` document of an update: the fields it names, and `updatedAt`. */
  datatype UpdateFields = UpdateFields(
    title: Option<string>,
    body: Option<string>,
    tags: Option<seq<string>>,
    coverImageUrl: Option<string>,
    updatedAt: Timestamp)

  /** `Object.keys(updateFields).length`. */
  function FieldCount(f: UpdateFields): (n: nat)
    ensures n >= 1
    ensures n == 1 <==> f.title.None? && f.body.None? && f.tags.None? && f.coverImageUrl.None?
  {
    (if f.title.Some? then 1 else 0) + (if f.body.Some? then 1 else 0)
    + (if f.tags.Some? then 1 else 0) + (if f.coverImageUrl.Some? then 1 else 0) + 1
  }

  /** The document `{ $set: f }` makes of `p`. */
  function ApplySet(p: Post, f: UpdateFields): (q: Post)
    ensures q.author == p.author && q.createdAt == p.createdAt && q.updatedAt == f.updatedAt
    ensures q.title == (if f.title.Some? then f.title.value else p.title)
    ensures q.body == (if f.body.Some? then f.body.value else p.body)
    ensures q.tags == (if f.tags.Some? then f.tags else p.tags)
    ensures q.coverImageUrl == (if f.coverImageUrl.Some? then f.coverImageUrl else p.coverImageUrl)
  {
    var p1 := if f.title.Some? then p.(title := f.title.value) else p;
    var p2 := if f.body.Some? then p1.(body := f.body.value) else p1;
    var p3 := if f.tags.Some? then p2.(tags := f.tags) else p2;
    var p4 := if f.coverImageUrl.Some? then p3.(coverImageUrl := f.coverImageUrl) else p3;
    p4.(updatedAt := f.updatedAt)
  }

  /** Some user document has this email (`findOne({ email })` finds one). */
  predicate EmailTaken(users: map<ObjectId, User>, email: string) {
    exists id :: id in users && users[id].email == email
  }

  /** No two user documents share an email. Sign-up checks for the email
      before inserting, so the handlers keep this. */
  predicate UniqueEmails(users: map<ObjectId, User>) {
    forall a, b :: a in users && b in users && users[a].email == users[b].email ==> a == b
  }

  /** The `_id` of the document `findOne({ email })` returns. */
  function FindByEmail(users: map<ObjectId, User>, email: string): (r: Option<ObjectId>)
    requires UniqueEmails(users)
    ensures r.Some? <==> EmailTaken(users, email)
    ensures r.Some? ==> r.value in users && users[r.value].email == email
    ensures forall id :: id in users && users[id].email == email ==> r == Some(id)
  {
    if EmailTaken(users, email) then
      var id :| id in users && users[id].email == email;
      Some(id)
    else
      None
  }

  /** What a write came back with: acknowledged, not acknowledged, or an
      exception thrown by the driver. */
  datatype WriteReply = Acknowledged | Unacknowledged | Raised

  /** The database the controllers reach through the shared client. */
  class Db {
    var users: map<ObjectId, User>
    var posts: map<ObjectId, Post>

    ghost predicate Valid()
      reads this
    {
      UniqueEmails(users)
    }

    constructor ()
      ensures Valid() && users == map[] && posts == map[]
    {
      users := map[];
      posts := map[];
    }

    /** `usersCollection.findOne({ email })`. */
    method FindUserByEmail(email: string) returns (found: Option<ObjectId>)
      requires Valid()
      ensures found == FindByEmail(users, email)
    {
      if exists id :: id in users && users[id].email == email {
        var id :| id in users && users[id].email == email;
        found := Some(id);
      } else {
        found := None;
      }
    }

    /** `usersCollection.findOne({ _id: id, refreshToken: token })`. */
    method FindUserWithRefreshToken(id: ObjectId, token: Token) returns (found: bool)
      ensures found <==> id in users && users[id].refreshToken == Some(token)
    {
      found := id in users && users[id].refreshToken == Some(token);
    }

    /** `usersCollection.insertOne(user)` under the driver-generated `_id`;
        it throws when the driver fails or the `_id` is already used. */
    method InsertUser(id: ObjectId, user: User, fails: bool) returns (ok: bool)
      modifies this`users
      ensures ok <==> !fails && id !in old(users)
      ensures users == if ok then old(users)[id := user] else old(users)
    {
      ok := !fails && id !in users;
      if ok {
        users := users[id := user];
      }
    }

    /** `usersCollection.updateOne({ _id: id }, { $set: { refreshToken: token } })`. */
    method SetRefreshToken(id: ObjectId, token: Token)
      modifies this`users
      ensures users == if id in old(users) then old(users)[id := old(users)[id].(refreshToken := Some(token))] else old(users)
    {
      if id in users {
        users := users[id := users[id].(refreshToken := Some(token))];
      }
    }

    /** `postsCollection.insertOne(post)`; an unacknowledged write is taken as
        not applied, and an `_id` already used makes the driver throw. */
    method InsertPost(id: ObjectId, post: Post, reply: WriteReply) returns (outcome: WriteReply)
      modifies this`posts
      ensures outcome == if id in old(posts) then Raised else reply
      ensures posts == if outcome.Acknowledged? then old(posts)[id := post] else old(posts)
    {
      outcome := if id in posts then Raised else reply;
      if outcome.Acknowledged? {
        posts := posts[id := post];
      }
    }

    /** `postsCollection.updateOne({ _id: id, author: author }, { $set: fields })`. */
    method UpdatePost(id: ObjectId, author: ObjectId, fields: UpdateFields) returns (matched: nat, modified: nat)
      modifies this`posts
      ensures matched == (if id in old(posts) && old(posts)[id].author == author then 1 else 0)
      ensures modified == (if matched == 1 && ApplySet(old(posts)[id], fields) != old(posts)[id] then 1 else 0)
      ensures posts == if modified == 1 then old(posts)[id := ApplySet(old(posts)[id], fields)] else old(posts)
    {
      matched, modified := 0, 0;
      if id in posts && posts[id].author == author {
        matched := 1;
        var updated := ApplySet(posts[id], fields);
        if updated != posts[id] {
          modified := 1;
          posts := posts[id := updated];
        }
      }
    }

    /** `postsCollection.deleteOne({ _id: id, author: author })`; only an
        acknowledged deletion is applied. */
    method DeletePost(id: ObjectId, author: ObjectId, reply: WriteReply) returns (outcome: WriteReply, deleted: nat)
      modifies this`posts
      ensures outcome == reply
      ensures deleted == (if reply.Acknowledged? && id in old(posts) && old(posts)[id].author == author then 1 else 0)
      ensures posts == if deleted == 1 then old(posts) - {id} else old(posts)
    {
      outcome, deleted := reply, 0;
      if reply.Acknowledged? && id in posts && posts[id].author == author {
        deleted := 1;
        posts := posts - {id};
      }
    }
  }
}
