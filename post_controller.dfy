/**
 * The REST controller for posts: how each endpoint derives the caller from the security
 * context, the feed's query parameters, and the mapping of service results to HTTP responses.
 */
module PostController {
  import opened Wrappers
  import opened JavaStrings
  import opened Dates
  import opened Model
  import opened Profile
  import opened UserService
  import opened PostService
  import opened CommentService
  import opened Cloudinary
  import CommentController

  /** The response bodies: a post, a page of posts, a list of comments, or a MessageResponse. */
  datatype Body =
    | PostBody(post: PostDoc)
    | PostsBody(posts: seq<PostDoc>)
    | CommentsBody(comments: seq<Comment>)
    | MessageBody(message: string)

  /**
   * The @Transient isAdult of a user read back from the repository: the field is never
   * persisted and nothing sets it after loading, so it keeps its Java default.
   */
  function LoadedIsAdult(u: User): bool {
    false
  }

  /**
   * getPosts' caller test as written: authenticated for a user principal, adult as read from
   * the loaded document's transient flag (false for an unknown id).
   */
  function CallerFlagsAsWritten(auth: Option<Authentication>, users: map<UserId, User>): (r: (bool, bool))
    ensures r.0 <==> IsUserCaller(auth)
    ensures !r.1
  {
    if IsUserCaller(auth) then
      var id := auth.value.Principal().id;
      (true, if id in users then LoadedIsAdult(users[id]) else false)
    else (false, false)
  }

  /** The caller test as intended: adult by the stored date of birth, as isUserAdult decides it. */
  function CallerFlags(auth: Option<Authentication>, users: map<UserId, User>, today: LocalDate): (r: (bool, bool))
    ensures r.0 <==> IsUserCaller(auth)
    ensures r.1 <==> IsUserCaller(auth) && IsUserAdult(users, auth.value.Principal().id, today) == Ok(true)
  {
    if IsUserCaller(auth) then
      (true, IsUserAdult(users, auth.value.Principal().id, today) == Ok(true))
    else (false, false)
  }

  /** A user principal whose stored date of birth is at least eighteen years back counts as adult. */
  lemma AdultByBirthDate(auth: Option<Authentication>, users: map<UserId, User>, today: LocalDate)
    requires IsUserCaller(auth) && auth.value.Principal().id in users
    requires var u := users[auth.value.Principal().id];
      u.dateOfBirth.Some? && !Before(today, u.dateOfBirth.value) && WholeYears(u.dateOfBirth.value, today) >= AdultAge
    ensures CallerFlags(auth, users, today) == (true, true)
  {
  }

  /** The `tag` parameter: split on commas as String.split does, or no tags when absent. */
  function TagList(tag: Option<string>): (r: seq<string>)
    ensures tag.None? ==> r == []
    ensures forall k :: 0 <= k < |r| ==> ',' !in r[k]
    ensures tag.Some? && ',' !in tag.value ==> r == [tag.value]
    ensures tag.Some? && (tag.value == [] || tag.value[|tag.value| - 1] != ',') ==>
      |r| >= 1 && Join(r, ',') == tag.value
  {
    match tag
    case None => []
    case Some(t) =>
      if t == [] || t[|t| - 1] != ',' then (JoinJavaSplit(t, ','); JavaSplit(t, ',')) else JavaSplit(t, ',')
  }

  /**
   * GET /api/posts as written. PageRequest.of rejects a negative page or a size below one with
   * an IllegalArgumentException that nothing catches (500); otherwise 200 with the page.
   */
  function GetPostsAsWritten(docs: seq<PostDoc>, users: map<UserId, User>, auth: Option<Authentication>,
                             page: int, size: int, tag: Option<string>): (resp: HttpResponse<Body>)
    ensures page < 0 || size < 1 ==> resp == HttpResponse(500, None)
    ensures page >= 0 && size >= 1 ==> resp.status == 200 && resp.body.Some? && resp.body.value.PostsBody?
    ensures resp.status == 200 ==> forall p :: p in resp.body.value.posts ==> p in docs && !p.isNsfw
  {
    if page < 0 || size < 1 then HttpResponse(500, None)
    else
      var flags := CallerFlagsAsWritten(auth, users);
      HttpResponse(200, Some(PostsBody(GetPosts(docs, page, size, flags.0, flags.1, TagList(tag)))))
  }

  /** GET /api/posts with the intended adult flag: an adult caller's feed is not NSFW-filtered. */
  function GetPostsEndpoint(docs: seq<PostDoc>, users: map<UserId, User>, auth: Option<Authentication>,
                            today: LocalDate, page: int, size: int, tag: Option<string>): (resp: HttpResponse<Body>)
    ensures page < 0 || size < 1 ==> resp == HttpResponse(500, None)
    ensures page >= 0 && size >= 1 ==> resp.status == 200 && resp.body.Some? && resp.body.value.PostsBody?
    ensures resp.status == 200 ==>
      var nsfwAllowed := CallerFlags(auth, users, today).0 && CallerFlags(auth, users, today).1;
      forall p :: p in resp.body.value.posts ==> p in docs && InFeed(p, nsfwAllowed, LowerAll(TagList(tag)))
  {
    if page < 0 || size < 1 then HttpResponse(500, None)
    else
      var flags := CallerFlags(auth, users, today);
      HttpResponse(200, Some(PostsBody(GetPosts(docs, page, size, flags.0, flags.1, TagList(tag)))))
  }

  /**
   * An adult caller and a collection holding one NSFW post: the feed as written is empty,
   * while the intended feed shows the post.
   */
  lemma AdultNeverSeesNsfwAsWritten(p: PostDoc, users: map<UserId, User>, auth: Option<Authentication>, today: LocalDate)
    requires p.isNsfw
    requires IsUserCaller(auth) && IsUserAdult(users, auth.value.Principal().id, today) == Ok(true)
    ensures GetPostsAsWritten([p], users, auth, 0, 10, None).body == Some(PostsBody([]))
    ensures GetPostsEndpoint([p], users, auth, today, 0, 10, None).body == Some(PostsBody([p]))
  {
    var feed := Feed([p], true, LowerAll(TagList(None)));
    assert Selected([p], true, []) == [p];
    assert feed[0] in feed;
    assert feed == [p];
  }

  /** getPostById: 200 with the post, or 404 with an empty body. */
  function GetPostById(posts: map<PostId, PostDoc>, id: PostId): (resp: HttpResponse<Body>)
    ensures resp.status == 200 <==> id in posts
    ensures id in posts ==> resp.body == Some(PostBody(posts[id]))
    ensures id !in posts ==> resp == HttpResponse(404, None)
  {
    if id in posts then HttpResponse(200, Some(PostBody(posts[id]))) else HttpResponse(404, None)
  }

  /**
   * GET /api/posts/{postId}/comments: the same service call as GET /api/comments/post/{postId},
   * so the response is that endpoint's, carried in this controller's body type.
   */
  function GetCommentsForPost(scan: seq<Comment>, postId: PostId, auth: Option<Authentication>): (resp: HttpResponse<Body>)
    ensures resp.status == 200 && resp.body.Some? && resp.body.value.CommentsBody?
    ensures forall c :: c in resp.body.value.comments <==> c in scan && c.postId == postId
  {
    var r := CommentController.GetCommentsForPost(scan, postId, auth);
    HttpResponse(r.status, Some(CommentsBody(r.body.value.comments)))
  }

  /**
   * createPost's mapping: 201 with the post; an IOException is a 500 with a prefixed message;
   * every other exception a 400 with its own message.
   */
  function CreateResponse(r: Result<PostDoc, Exn>): (resp: HttpResponse<Body>)
    ensures resp.status == 201 <==> r.Ok?
    ensures r.Ok? ==> resp.body == Some(PostBody(r.value))
    ensures r.Err? && r.error.IOError? ==>
      resp == HttpResponse(500, Some(MessageBody("Failed to upload media or create post: " + r.error.msg)))
    ensures r.Err? && !r.error.IOError? ==> resp == HttpResponse(400, Some(MessageBody(r.error.msg)))
  {
    match r
    case Ok(p) => HttpResponse(201, Some(PostBody(p)))
    case Err(IOError(m)) => HttpResponse(500, Some(MessageBody("Failed to upload media or create post: " + m)))
    case Err(e) => HttpResponse(400, Some(MessageBody(e.msg)))
  }

  /** POST /api/posts: the principal cast, then createPost. */
  method CreatePostEndpoint(st: Store, auth: Authentication, title: Option<string>, content: Option<string>,
                            tags: Option<seq<string>>, isNsfw: bool, files: seq<File>, now: Instant,
                            upload: File -> Result<string, Exn>, newId: PostId) returns (resp: HttpResponse<Body>)
    requires st.Valid() && newId !in st.posts
    modifies st`posts
    ensures st.Valid()
    ensures CallerId(auth).Err? ==> resp == HttpResponse(400, Some(MessageBody(CastFailure)))
    ensures resp.status == 201 <==>
      CallerId(auth).Ok? && CallerId(auth).value in st.users && UploadAll(files, upload).Ok?
    ensures resp.status == 500 <==>
      (CallerId(auth).Ok? && CallerId(auth).value in st.users
       && UploadAll(files, upload).Err? && UploadAll(files, upload).error.IOError?)
    ensures resp.status == 201 ==>
      st.posts == old(st.posts)[newId := PostDoc(newId, title, content, UploadAll(files, upload).value,
                                                 CallerId(auth).value, StoredTags(tags), isNsfw, [], 0, now, now)]
    ensures resp.status != 201 ==> st.posts == old(st.posts)
  {
    var id := CallerId(auth);
    if id.Err? {
      return CreateResponse(Err(id.error));
    }
    var r := PostService.CreatePost(st, title, content, tags, isNsfw, files, id.value, now, upload, newId);
    resp := CreateResponse(r);
  }

  /** toggleLike's mapping: 200 with the post, 400 for a RuntimeException. */
  function ToggleResponse(r: Result<PostDoc, Exn>): (resp: HttpResponse<Body>)
    requires r.Err? ==> IsRuntime(r.error)
    ensures resp.status == 200 <==> r.Ok?
    ensures r.Ok? ==> resp.body == Some(PostBody(r.value))
    ensures r.Err? ==> resp == HttpResponse(400, Some(MessageBody(r.error.msg)))
  {
    match r
    case Ok(p) => HttpResponse(200, Some(PostBody(p)))
    case Err(e) => HttpResponse(400, Some(MessageBody(e.msg)))
  }

  /** PUT /api/posts/{id}/like: the principal cast, then toggleLike. */
  method ToggleLikeEndpoint(st: Store, auth: Authentication, postId: PostId, now: Instant)
    returns (resp: HttpResponse<Body>)
    requires st.Valid()
    modifies st`posts
    ensures st.Valid()
    ensures resp.status == 200 <==> CallerId(auth).Ok? && postId in old(st.posts)
    ensures resp.status != 200 ==> resp.status == 400 && st.posts == old(st.posts)
    ensures resp.status == 200 ==>
      var before := old(st.posts)[postId];
      var likes := Toggled(before.likedBy, CallerId(auth).value);
      st.posts == old(st.posts)[postId := before.(likedBy := likes, likeCount := |likes|, updatedAt := now)]
  {
    var id := CallerId(auth);
    if id.Err? {
      return ToggleResponse(Err(id.error));
    }
    var r := PostService.ToggleLike(st, postId, id.value, now);
    resp := ToggleResponse(r);
  }

  /** updatePost's mapping: a message mentioning "Unauthorized" is a 403, any other RuntimeException a 400. */
  function UpdateResponse(r: Result<PostDoc, Exn>): (resp: HttpResponse<Body>)
    requires r.Err? ==> IsRuntime(r.error)
    ensures resp.status == 200 <==> r.Ok?
    ensures r.Ok? ==> resp.body == Some(PostBody(r.value))
    ensures r.Err? ==> resp.body == Some(MessageBody(r.error.msg))
    ensures r.Err? ==> (resp.status == 403 <==> Contains(r.error.msg, "Unauthorized"))
    ensures r.Err? ==> resp.status in {400, 403}
  {
    match r
    case Ok(p) => HttpResponse(200, Some(PostBody(p)))
    case Err(e) =>
      if Contains(e.msg, "Unauthorized") then HttpResponse(403, Some(MessageBody(e.msg)))
      else HttpResponse(400, Some(MessageBody(e.msg)))
  }

  /** The service's refusal for a non-author does mention "Unauthorized". */
  lemma NonAuthorMessageMentionsUnauthorized()
    ensures Contains("Unauthorized to update this post.", "Unauthorized")
  {
    assert OccursAt("Unauthorized to update this post.", "Unauthorized", 0);
  }

  /** The null-author message does not mention "Unauthorized": the handler answers it with 400. */
  lemma NullAuthorMessageLacksUnauthorized()
    ensures !Contains(PostAuthorIsNull, "Unauthorized")
  {
    assert 'z' !in PostAuthorIsNull;
    NotContainsIfLacks(PostAuthorIsNull, "Unauthorized", 9);
  }

  /**
   * PUT /api/posts/{id}: a body breaking its constraints is a 400 before the handler runs;
   * then the principal cast and updatePost, where a non-author gets a 403 and a post whose
   * author has been deleted a 400.
   */
  method UpdatePostEndpoint(st: Store, auth: Authentication, postId: PostId, req: PostUpdateRequest, now: Instant)
    returns (resp: HttpResponse<Body>)
    requires st.Valid()
    modifies st`posts
    ensures st.Valid()
    ensures !ValidPostUpdate(req) ==> resp == HttpResponse(400, None)
    ensures resp.status == 200 <==>
      (ValidPostUpdate(req) && CallerId(auth).Ok? && postId in old(st.posts)
       && old(st.posts)[postId].author in st.users && old(st.posts)[postId].author == CallerId(auth).value)
    ensures ValidPostUpdate(req) && CallerId(auth).Ok? && postId in old(st.posts)
            && old(st.posts)[postId].author !in st.users ==>
      resp == HttpResponse(400, Some(MessageBody(PostAuthorIsNull)))
    ensures ValidPostUpdate(req) && CallerId(auth).Ok? && postId in old(st.posts)
            && old(st.posts)[postId].author in st.users && old(st.posts)[postId].author != CallerId(auth).value ==>
      resp == HttpResponse(403, Some(MessageBody("Unauthorized to update this post.")))
    ensures resp.status != 200 ==> st.posts == old(st.posts)
    ensures resp.status == 200 ==>
      st.posts == old(st.posts)[postId := old(st.posts)[postId].(title := req.title, content := req.content,
                                            tags := StoredTags(req.tags), isNsfw := req.isNsfw, updatedAt := now)]
  {
    if !ValidPostUpdate(req) {
      return HttpResponse(400, None);
    }
    var id := CallerId(auth);
    if id.Err? {
      return UpdateResponse(Err(id.error));
    }
    var r := PostService.UpdatePost(st, postId, req, id.value, now);
    NonAuthorMessageMentionsUnauthorized();
    NullAuthorMessageLacksUnauthorized();
    resp := UpdateResponse(r);
  }

  /**
   * Whether the installed authorities include ROLE_ADMIN: the roles of the user document the
   * filter reloaded for the token's subject, not roles carried in the token.
   */
  predicate IsAdmin(auth: Authentication) {
    "ROLE_ADMIN" in auth.Authorities()
  }

  /** deletePost's mapping: 200 with a fixed message, 403 for any RuntimeException, a missing post included. */
  function DeleteResponse(r: Result<seq<Effect>, Exn>): (resp: HttpResponse<Body>)
    requires r.Err? ==> IsRuntime(r.error)
    ensures r.Ok? ==> resp == HttpResponse(200, Some(MessageBody("Post deleted successfully.")))
    ensures r.Err? ==> resp == HttpResponse(403, Some(MessageBody(r.error.msg)))
  {
    match r
    case Ok(_) => HttpResponse(200, Some(MessageBody("Post deleted successfully.")))
    case Err(e) => HttpResponse(403, Some(MessageBody(e.msg)))
  }

  /**
   * DELETE /api/posts/{id}: the principal cast and the admin test, then deletePost and its
   * effects; a post whose author has been deleted is refused with 403 even to an admin.
   */
  method DeletePostEndpoint(st: Store, auth: Authentication, postId: PostId)
    returns (resp: HttpResponse<Body>, effects: seq<Effect>)
    requires st.Valid()
    modifies st`posts
    ensures st.Valid()
    ensures resp.status == 200 <==>
      (CallerId(auth).Ok? && postId in old(st.posts) && old(st.posts)[postId].author in st.users
       && (old(st.posts)[postId].author == CallerId(auth).value || IsAdmin(auth)))
    ensures resp.status != 200 ==> resp.status == 403 && effects == [] && st.posts == old(st.posts)
    ensures CallerId(auth).Ok? && postId !in old(st.posts) ==>
      resp == HttpResponse(403, Some(MessageBody("Post not found with id: " + postId)))
    ensures CallerId(auth).Ok? && postId in old(st.posts) && old(st.posts)[postId].author !in st.users ==>
      resp == HttpResponse(403, Some(MessageBody(PostAuthorIsNull)))
    ensures resp.status == 200 ==>
      effects == DestroyCalls(old(st.posts)[postId].mediaUrls) + [DeleteDocument(postId)]
      && st.posts == old(st.posts) - {postId}
  {
    var id := CallerId(auth);
    if id.Err? {
      return DeleteResponse(Err(id.error)), [];
    }
    var r := PostService.DeletePost(st, postId, id.value, IsAdmin(auth));
    resp := DeleteResponse(r);
    effects := if r.Ok? then r.value else [];
  }
}
