/** `PostsController`: the arithmetic of the listing, reading one post, and
    the ownership-scoped creation, update and deletion of posts. */
module Posts {
  import opened Wrappers
  import opened Foreign
  import opened Documents
  import opened Http

  // Listing

  /** The query string of `GET /posts`, its numbers already parsed. */
  datatype ListQuery = ListQuery(page: Option<int>, limit: Option<int>, sort: Option<string>, order: Option<string>)

  /** The defaults of `{ page = 1, limit = 10, sort = 'createdAt', order = 'desc' }`. */
  function PageOf(q: ListQuery): (page: int)
    ensures q.page.None? ==> page == 1
    ensures q.page.Some? ==> page == q.page.value
  {
    if q.page.Some? then q.page.value else 1
  }

  function LimitOf(q: ListQuery): (limit: int)
    ensures q.limit.None? ==> limit == 10
    ensures q.limit.Some? ==> limit == q.limit.value
  {
    if q.limit.Some? then q.limit.value else 10
  }

  function SortOf(q: ListQuery): (sort: string)
    ensures q.sort.None? ==> sort == "createdAt"
    ensures q.sort.Some? ==> sort == q.sort.value
  {
    if q.sort.Some? then q.sort.value else "createdAt"
  }

  function OrderOf(q: ListQuery): (order: string)
    ensures q.order.None? ==> order == "desc"
    ensures q.order.Some? ==> order == q.order.value
  {
    if q.order.Some? then q.order.value else "desc"
  }

  /** The direction handed to `.sort({ [sort]: direction })`. */
  function SortDirection(order: string): (d: int)
    ensures d == -1 || d == 1
    ensures d == -1 <==> order == "desc"
  {
    if order == "desc" then -1 else 1
  }

  /** `(page - 1) * limit`: the posts of the pages before `page`. */
  function Skip(page: int, limit: int): (s: int)
    requires limit > 0
    ensures s >= 0 <==> page >= 1
    ensures page == 1 ==> s == 0
  {
    (page - 1) * limit
  }

  lemma CeilingDivision(total: nat, limit: int)
    requires limit > 0
    ensures var p := (total + limit - 1) / limit; p >= 0 && p * limit >= total && (p > 0 ==> (p - 1) * limit < total)
  {
    var n := total + limit - 1;
    var p, r := n / limit, n % limit;
    assert n == p * limit + r && 0 <= r < limit;
    assert (p - 1) * limit == p * limit - limit;
  }

  /** `Math.ceil(total / limit)`: enough pages for every post, and no empty last page. */
  function Pages(total: nat, limit: int): (p: nat)
    requires limit > 0
    ensures p * limit >= total
    ensures p > 0 ==> (p - 1) * limit < total
  {
    CeilingDivision(total, limit);
    (total + limit - 1) / limit
  }

  /** `Pages` is the least page count that holds every post. */
  lemma PagesIsLeast(total: nat, limit: int, count: nat)
    requires limit > 0 && count * limit >= total
    ensures Pages(total, limit) <= count
  {
  }

  /** What `getAllPostsFromDB` asks of the store. */
  datatype ListPlan = ListPlan(sortField: string, direction: int, skip: int, limit: int)

  datatype Listed = Listed(plan: ListPlan, response: Response)

  /** `getAllPostsFromDB`, leaving out which posts the store returns; a
      negative skip is refused by the store and reported like any failure. */
  function GetAllPosts(posts: map<ObjectId, Post>, q: ListQuery, storeFails: bool): (r: Listed)
    requires LimitOf(q) > 0
    ensures r.plan.limit == LimitOf(q) && r.plan.sortField == SortOf(q)
    ensures r.plan.direction == SortDirection(OrderOf(q))
    ensures r.plan.skip == (PageOf(q) - 1) * LimitOf(q)
    ensures r.response.status == 500 <==> storeFails || PageOf(q) < 1
    ensures r.response.status == 500 ==> r.response == Fail(500, "Internal server error")
    ensures r.response.status != 500 ==>
              && r.response.status == 200
              && r.response.body == Listing(Pagination(PageOf(q), LimitOf(q), |posts|, Pages(|posts|, LimitOf(q))))
  {
    var limit := LimitOf(q);
    var skip := Skip(PageOf(q), limit);
    var plan := ListPlan(SortOf(q), SortDirection(OrderOf(q)), skip, limit);
    if storeFails || skip < 0 then Listed(plan, Fail(500, "Internal server error"))
    else Listed(plan, Response(200, Listing(Pagination(PageOf(q), limit, |posts|, Pages(|posts|, limit)))))
  }

  /** An empty query lists the newest posts first, ten to a page, from the first. */
  lemma DefaultListing(posts: map<ObjectId, Post>)
    ensures var r := GetAllPosts(posts, ListQuery(None, None, None, None), false);
            && r.plan == ListPlan("createdAt", -1, 0, 10)
            && r.response == Response(200, Listing(Pagination(1, 10, |posts|, Pages(|posts|, 10))))
  {
  }

  /** Two pages of one post each hold a collection of two posts. */
  lemma TwoPostsTwoPages(posts: map<ObjectId, Post>)
    requires |posts| == 2
    ensures var r := GetAllPosts(posts, ListQuery(Some(2), Some(1), None, None), false);
            r.plan.skip == 1 && r.response.body.pagination.pages == 2
  {
    PagesIsLeast(2, 1, 2);
  }

  // Reading one post

  /** `getPost`: both checks on the id come before the store is touched. */
  function GetPost(posts: map<ObjectId, Post>, ids: IdCodec, id: Option<string>, storeFails: bool): (r: Response)
    ensures !Truthy(id) ==> r == Fail(400, "Post ID is required")
    ensures Truthy(id) && !ids.isValid(id.value) ==> r == Fail(400, "Invalid ID")
    ensures Truthy(id) && ids.isValid(id.value) && storeFails ==> r == Fail(500, "Internal server error")
    ensures r.status == 200 <==> Truthy(id) && ids.isValid(id.value) && !storeFails && ids.parse(id.value) in posts
    ensures r.status == 200 ==> r.body == Found(posts[ids.parse(id.value)])
    ensures Truthy(id) && ids.isValid(id.value) && !storeFails && ids.parse(id.value) !in posts ==>
              r == Fail(404, "Post ID not found")
  {
    if !Truthy(id) then Fail(400, "Post ID is required")
    else if !ids.isValid(id.value) then Fail(400, "Invalid ID")
    else if storeFails then Fail(500, "Internal server error")
    else if ids.parse(id.value) !in posts then Fail(404, "Post ID not found")
    else Response(200, Found(posts[ids.parse(id.value)]))
  }

  // Creating, updating and deleting

  /** `tags` as the body gives it: an array, or a single string. */
  datatype TagsInput = TagArray(items: seq<string>) | OneTag(tag: string)

  /** `if (tags)`: an array is always truthy, a string when non-empty. */
  predicate TagsGiven(tags: Option<TagsInput>) {
    tags.Some? && (tags.value.TagArray? || tags.value.tag != "")
  }

  /** Which `tags` values pass `if (tags)`: every array, even an empty one,
      and every non-empty string. */
  lemma TagsTruthiness(items: seq<string>, tag: string)
    ensures TagsGiven(Some(TagArray(items)))
    ensures TagsGiven(Some(OneTag(tag))) <==> tag != ""
    ensures !TagsGiven(None)
  {
  }

  /** `Array.isArray(tags) ? tags : [tags]`. */
  function TagList(tags: TagsInput): (r: seq<string>)
    ensures tags.TagArray? ==> r == tags.items
    ensures tags.OneTag? ==> r == [tags.tag]
  {
    match tags
    case TagArray(items) => items
    case OneTag(tag) => [tag]
  }

  /** The body of `POST /posts` and `PUT /posts/:id`. */
  datatype PostForm = PostForm(title: Option<string>, body: Option<string>, tags: Option<TagsInput>, coverImageUrl: Option<string>)

  /** A handler's response together with the `posts` collection it leaves. */
  datatype Outcome = Outcome(response: Response, posts: map<ObjectId, Post>)

  /** `createPost` on behalf of the authenticated `caller`. */
  function Create(posts: map<ObjectId, Post>, caller: Claims, form: PostForm,
                      newId: ObjectId, now: Timestamp, reply: WriteReply): (o: Outcome)
    ensures !Truthy(form.title) || !Truthy(form.body) ==> o == Outcome(Fail(400, "title and body needed"), posts)
    ensures o.response.status == 201 <==>
              Truthy(form.title) && Truthy(form.body) && reply.Acknowledged? && newId !in posts
    ensures Truthy(form.title) && Truthy(form.body) && (reply.Raised? || newId in posts) ==>
              o == Outcome(Fail(500, "Internal server error"), posts)
    ensures Truthy(form.title) && Truthy(form.body) && reply.Unacknowledged? && newId !in posts ==>
              o == Outcome(Fail(500, "Post wasn't created"), posts)
    ensures o.response.status != 201 ==> o.posts == posts
    ensures o.response.status == 201 ==>
              && o.response.body == PostCreated("Post created successfully", newId)
              && o.posts.Keys == posts.Keys + {newId}
              && (forall id :: id in posts ==> o.posts[id] == posts[id])
              && var post := o.posts[newId];
                 && post.author == caller.userId
                 && post.title == form.title.value && post.body == form.body.value
                 && post.createdAt == now && post.updatedAt == now
                 && (post.tags.Some? <==> TagsGiven(form.tags))
                 && (TagsGiven(form.tags) ==> post.tags.value == TagList(form.tags.value))
                 && post.coverImageUrl == (if Truthy(form.coverImageUrl) then form.coverImageUrl else None)
  {
    if !Truthy(form.title) || !Truthy(form.body) then Outcome(Fail(400, "title and body needed"), posts)
    else
      var post := Post(form.title.value, form.body.value, caller.userId, now, now,
                       if TagsGiven(form.tags) then Some(TagList(form.tags.value)) else None,
                       if Truthy(form.coverImageUrl) then form.coverImageUrl else None);
      if reply.Raised? || newId in posts then Outcome(Fail(500, "Internal server error"), posts)
      else if reply.Unacknowledged? then Outcome(Fail(500, "Post wasn't created"), posts)
      else Outcome(Response(201, PostCreated("Post created successfully", newId)), posts[newId := post])
  }

  /** `updateFields`: the truthy fields of the body, and `updatedAt`. */
  function BuildUpdate(form: PostForm, now: Timestamp): (f: UpdateFields)
    ensures f.updatedAt == now
    ensures FieldCount(f) == 1 <==>
              !Truthy(form.title) && !Truthy(form.body) && !TagsGiven(form.tags) && !Truthy(form.coverImageUrl)
    ensures f.title == (if Truthy(form.title) then form.title else None)
    ensures f.body == (if Truthy(form.body) then form.body else None)
    ensures f.tags == (if TagsGiven(form.tags) then Some(TagList(form.tags.value)) else None)
    ensures f.coverImageUrl == (if Truthy(form.coverImageUrl) then form.coverImageUrl else None)
  {
    UpdateFields(
      if Truthy(form.title) then form.title else None,
      if Truthy(form.body) then form.body else None,
      if TagsGiven(form.tags) then Some(TagList(form.tags.value)) else None,
      if Truthy(form.coverImageUrl) then form.coverImageUrl else None,
      now)
  }

  /** The post `caller` may change through `id`: it exists and `caller` wrote it. */
  predicate Owns(posts: map<ObjectId, Post>, key: ObjectId, caller: Claims) {
    key in posts && posts[key].author == caller.userId
  }

  /** The id is present and well formed. */
  predicate WellFormed(ids: IdCodec, id: Option<string>) {
    Truthy(id) && ids.isValid(id.value)
  }

  /** `updatePost`: `$set` the built fields on the post matching both the id
      and the caller as author. */
  function Update(posts: map<ObjectId, Post>, ids: IdCodec, caller: Claims, id: Option<string>,
                      form: PostForm, now: Timestamp, storeFails: bool): (o: Outcome)
    ensures !Truthy(id) ==> o == Outcome(Fail(400, "Post ID is required"), posts)
    ensures Truthy(id) && !ids.isValid(id.value) ==> o == Outcome(Fail(400, "Invalid Post ID"), posts)
    ensures WellFormed(ids, id) && FieldCount(BuildUpdate(form, now)) == 1 ==>
              o == Outcome(Fail(400, "No fields to update"), posts)
    ensures WellFormed(ids, id) && FieldCount(BuildUpdate(form, now)) > 1 && !storeFails
            && !Owns(posts, ids.parse(id.value), caller) ==>
              o == Outcome(Fail(404, "Post not found or you are not the author"), posts)
    ensures o.posts.Keys == posts.Keys
    ensures forall k :: k in posts ==> o.posts[k].author == posts[k].author && o.posts[k].createdAt == posts[k].createdAt
    ensures forall k :: k in posts && o.posts[k] != posts[k] ==>
              && WellFormed(ids, id) && k == ids.parse(id.value) && Owns(posts, k, caller)
              && o.posts[k] == ApplySet(posts[k], BuildUpdate(form, now))
              && o.response == Response(200, Message("Post updated successfully"))
    ensures WellFormed(ids, id) && FieldCount(BuildUpdate(form, now)) > 1 && storeFails ==>
              o == Outcome(Fail(500, "Internal server error"), posts)
    ensures WellFormed(ids, id) && FieldCount(BuildUpdate(form, now)) > 1 && !storeFails
            && Owns(posts, ids.parse(id.value), caller)
            && ApplySet(posts[ids.parse(id.value)], BuildUpdate(form, now)) != posts[ids.parse(id.value)] ==>
              o == Outcome(Response(200, Message("Post updated successfully")),
                           posts[ids.parse(id.value) := ApplySet(posts[ids.parse(id.value)], BuildUpdate(form, now))])
    ensures o.response == Response(200, Message("No changes made to the post")) <==>
              && WellFormed(ids, id) && FieldCount(BuildUpdate(form, now)) > 1 && !storeFails
              && Owns(posts, ids.parse(id.value), caller)
              && ApplySet(posts[ids.parse(id.value)], BuildUpdate(form, now)) == posts[ids.parse(id.value)]
  {
    if !Truthy(id) then Outcome(Fail(400, "Post ID is required"), posts)
    else if !ids.isValid(id.value) then Outcome(Fail(400, "Invalid Post ID"), posts)
    else
      var fields := BuildUpdate(form, now);
      if FieldCount(fields) == 1 && fields.updatedAt != "" then Outcome(Fail(400, "No fields to update"), posts)
      else if storeFails then Outcome(Fail(500, "Internal server error"), posts)
      else
        var key := ids.parse(id.value);
        if !Owns(posts, key, caller) then Outcome(Fail(404, "Post not found or you are not the author"), posts)
        else if ApplySet(posts[key], fields) == posts[key] then Outcome(Response(200, Message("No changes made to the post")), posts)
        else Outcome(Response(200, Message("Post updated successfully")), posts[key := ApplySet(posts[key], fields)])
  }

  /** `deletePost`: remove the post matching both the id and the caller as author. */
  function Delete(posts: map<ObjectId, Post>, ids: IdCodec, caller: Claims, id: Option<string>,
                      reply: WriteReply): (o: Outcome)
    ensures !Truthy(id) ==> o == Outcome(Fail(400, "post ID is required"), posts)
    ensures Truthy(id) && !ids.isValid(id.value) ==> o == Outcome(Fail(400, "Invalid Post ID"), posts)
    ensures o.posts != posts ==>
              && WellFormed(ids, id) && reply.Acknowledged? && Owns(posts, ids.parse(id.value), caller)
              && o.posts == posts - {ids.parse(id.value)}
              && o.response == Response(200, Text("Post deleted successfully"))
    ensures WellFormed(ids, id) && reply.Acknowledged? ==>
              if Owns(posts, ids.parse(id.value), caller)
              then o == Outcome(Response(200, Text("Post deleted successfully")), posts - {ids.parse(id.value)})
              else o == Outcome(Fail(404, "Post not found or you are not the author"), posts)
    ensures WellFormed(ids, id) && reply.Raised? ==> o == Outcome(Fail(500, "Internal server error"), posts)
    ensures WellFormed(ids, id) && reply.Unacknowledged? ==> o == Outcome(Fail(500, "Failed to delete post"), posts)
  {
    if !Truthy(id) then Outcome(Fail(400, "post ID is required"), posts)
    else if !ids.isValid(id.value) then Outcome(Fail(400, "Invalid Post ID"), posts)
    else if reply.Raised? then Outcome(Fail(500, "Internal server error"), posts)
    else if reply.Unacknowledged? then Outcome(Fail(500, "Failed to delete post"), posts)
    else
      var key := ids.parse(id.value);
      if Owns(posts, key, caller) then Outcome(Response(200, Text("Post deleted successfully")), posts - {key})
      else Outcome(Fail(404, "Post not found or you are not the author"), posts)
  }

  // Properties relating several calls

  /** A created post can be read back through any id string naming it. */
  lemma ReadAfterCreate(posts: map<ObjectId, Post>, caller: Claims, form: PostForm, newId: ObjectId,
                        now: Timestamp, ids: IdCodec, id: string)
    requires Create(posts, caller, form, newId, now, Acknowledged).response.status == 201
    requires ids.isValid(id) && ids.parse(id) == newId && id != ""
    ensures var after := Create(posts, caller, form, newId, now, Acknowledged).posts;
            var r := GetPost(after, ids, Some(id), false);
            r.status == 200 && r.body.post == after[newId] && r.body.post.author == caller.userId
  {
  }

  /** Updating a post the caller did not write looks exactly like updating a
      post that does not exist. */
  lemma ForeignUpdateLooksMissing(posts: map<ObjectId, Post>, ids: IdCodec, caller: Claims, id: Option<string>,
                                  form: PostForm, now: Timestamp, storeFails: bool)
    requires WellFormed(ids, id)
    requires ids.parse(id.value) in posts && posts[ids.parse(id.value)].author != caller.userId
    ensures var missing := posts - {ids.parse(id.value)};
            && Update(posts, ids, caller, id, form, now, storeFails).response
               == Update(missing, ids, caller, id, form, now, storeFails).response
            && Update(posts, ids, caller, id, form, now, storeFails).posts == posts
  {
  }

  /** Deleting a post the caller did not write looks exactly like deleting a
      post that does not exist. */
  lemma ForeignDeleteLooksMissing(posts: map<ObjectId, Post>, ids: IdCodec, caller: Claims, id: Option<string>,
                                  reply: WriteReply)
    requires WellFormed(ids, id)
    requires ids.parse(id.value) in posts && posts[ids.parse(id.value)].author != caller.userId
    ensures var missing := posts - {ids.parse(id.value)};
            && Delete(posts, ids, caller, id, reply).response == Delete(missing, ids, caller, id, reply).response
            && Delete(posts, ids, caller, id, reply).posts == posts
  {
  }

  /** Setting the same fields twice changes nothing the second time. */
  lemma ApplySetIdempotent(p: Post, f: UpdateFields)
    ensures ApplySet(ApplySet(p, f), f) == ApplySet(p, f)
  {
  }

  /** The same update repeated with the same timestamp reports "No changes made". */
  lemma RepeatedUpdateMakesNoChange(posts: map<ObjectId, Post>, ids: IdCodec, caller: Claims, id: Option<string>,
                                    form: PostForm, now: Timestamp)
    requires Update(posts, ids, caller, id, form, now, false).response.status == 200
    ensures var after := Update(posts, ids, caller, id, form, now, false).posts;
            Update(after, ids, caller, id, form, now, false).response == Response(200, Message("No changes made to the post"))
  {
    var key := ids.parse(id.value);
    ApplySetIdempotent(posts[key], BuildUpdate(form, now));
  }

  /** Once its author deletes a post, reading it gives 404. */
  lemma ReadAfterDelete(posts: map<ObjectId, Post>, ids: IdCodec, caller: Claims, id: Option<string>)
    requires Delete(posts, ids, caller, id, Acknowledged).response.status == 200
    ensures GetPost(Delete(posts, ids, caller, id, Acknowledged).posts, ids, id, false) == Fail(404, "Post ID not found")
  {
  }

  // The handlers over the database

  /** `POST /posts`: build the post field by field, then insert it. */
  method CreatePost(db: Db, caller: Claims, form: PostForm, newId: ObjectId, now: Timestamp, reply: WriteReply)
    returns (res: Response)
    modifies db`posts
    ensures res == Create(old(db.posts), caller, form, newId, now, reply).response
    ensures db.posts == Create(old(db.posts), caller, form, newId, now, reply).posts
  {
    if !Truthy(form.title) || !Truthy(form.body) { return Fail(400, "title and body needed"); }
    var post := Post(form.title.value, form.body.value, caller.userId, now, now, None, None);
    if TagsGiven(form.tags) { post := post.(tags := Some(TagList(form.tags.value))); }
    if Truthy(form.coverImageUrl) { post := post.(coverImageUrl := form.coverImageUrl); }
    var result := db.InsertPost(newId, post, reply);
    if result.Raised? { return Fail(500, "Internal server error"); }
    if !result.Acknowledged? { return Fail(500, "Post wasn't created"); }
    res := Response(201, PostCreated("Post created successfully", newId));
  }

  /** `PUT /posts/:id`: build `updateFields` field by field, then update the
      post matching both the id and the caller as author. */
  method UpdatePost(db: Db, ids: IdCodec, caller: Claims, id: Option<string>, form: PostForm,
                    now: Timestamp, storeFails: bool) returns (res: Response)
    modifies db`posts
    ensures res == Update(old(db.posts), ids, caller, id, form, now, storeFails).response
    ensures db.posts == Update(old(db.posts), ids, caller, id, form, now, storeFails).posts
  {
    if !Truthy(id) { return Fail(400, "Post ID is required"); }
    if !ids.isValid(id.value) { return Fail(400, "Invalid Post ID"); }
    var fields := UpdateFields(None, None, None, None, now);
    if Truthy(form.title) { fields := fields.(title := form.title); }
    if Truthy(form.body) { fields := fields.(body := form.body); }
    if TagsGiven(form.tags) { fields := fields.(tags := Some(TagList(form.tags.value))); }
    if Truthy(form.coverImageUrl) { fields := fields.(coverImageUrl := form.coverImageUrl); }
    assert fields == BuildUpdate(form, now);
    if FieldCount(fields) == 1 && fields.updatedAt != "" { return Fail(400, "No fields to update"); }
    if storeFails { return Fail(500, "Internal server error"); }
    var matched, modified := db.UpdatePost(ids.parse(id.value), caller.userId, fields);
    if matched == 0 { return Fail(404, "Post not found or you are not the author"); }
    if modified == 0 { return Response(200, Message("No changes made to the post")); }
    res := Response(200, Message("Post updated successfully"));
  }

  /** `DELETE /posts/:id`: delete the post matching both the id and the caller as author. */
  method DeletePost(db: Db, ids: IdCodec, caller: Claims, id: Option<string>, reply: WriteReply)
    returns (res: Response)
    modifies db`posts
    ensures res == Delete(old(db.posts), ids, caller, id, reply).response
    ensures db.posts == Delete(old(db.posts), ids, caller, id, reply).posts
  {
    if !Truthy(id) { return Fail(400, "post ID is required"); }
    if !ids.isValid(id.value) { return Fail(400, "Invalid Post ID"); }
    var result, deletedCount := db.DeletePost(ids.parse(id.value), caller.userId, reply);
    if result.Raised? { return Fail(500, "Internal server error"); }
    if !result.Acknowledged? { return Fail(500, "Failed to delete post"); }
    if deletedCount == 0 { return Fail(404, "Post not found or you are not the author"); }
    res := Response(200, Text("Post deleted successfully"));
  }
}
