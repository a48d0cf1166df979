/**
 * The comment service: listing a post's comments, creating a comment for an existing post and
 * author, and deleting one when the requester is its author or an administrator.
 */
module CommentService {
  import opened Wrappers
  import opened Model

  /** findByPostId over the collection in scan order: the comments of one post, in that order. */
  function CommentsOf(scan: seq<Comment>, postId: PostId): (r: seq<Comment>)
    ensures forall c :: c in r <==> c in scan && c.postId == postId
    ensures multiset(r) <= multiset(scan)
  {
    if scan == [] then []
    else
      var init := CommentsOf(scan[..|scan| - 1], postId);
      var last := scan[|scan| - 1];
      assert scan == scan[..|scan| - 1] + [last];
      if last.postId == postId then init + [last] else init
  }

  /** The filter keeps the scan order: it distributes over concatenation. */
  lemma {:induction false} CommentsOfAppend(s: seq<Comment>, t: seq<Comment>, postId: PostId)
    ensures CommentsOf(s + t, postId) == CommentsOf(s, postId) + CommentsOf(t, postId)
  {
    if t == [] {
      assert s + t == s;
    } else {
      var init := t[..|t| - 1];
      assert (s + t)[..|s + t| - 1] == s + init;
      CommentsOfAppend(s, init, postId);
    }
  }

  /** getCommentsByPostId: the comments of the post; the current user's id plays no part. */
  function GetCommentsByPostId(scan: seq<Comment>, postId: PostId, currentUserId: Option<UserId>): (r: seq<Comment>)
    ensures forall c :: c in r <==> c in scan && c.postId == postId
  {
    CommentsOf(scan, postId)
  }

  /** The body of POST /api/comments (not validated: the controller has no @Valid). */
  datatype CommentRequest = CommentRequest(content: string, postId: PostId)

  /** createComment: the post is looked up before the author; the comment is saved with both stamps. */
  method CreateComment(st: Store, req: CommentRequest, authorId: UserId, now: Instant, newId: CommentId)
    returns (r: Result<Comment, Exn>)
    requires st.Valid() && newId !in st.comments
    modifies st`comments
    ensures st.Valid()
    ensures req.postId !in st.posts ==> r == Err(RuntimeError("Post not found with ID: " + req.postId))
    ensures req.postId in st.posts && authorId !in st.users ==>
      r == Err(RuntimeError("Author (User) not found with ID: " + authorId))
    ensures r.Ok? <==> req.postId in st.posts && authorId in st.users
    ensures r.Ok? ==> r.value == Comment(newId, req.postId, authorId, req.content, now, now)
                      && st.comments == old(st.comments)[newId := r.value]
    ensures r.Err? ==> st.comments == old(st.comments)
  {
    if req.postId !in st.posts {
      return Err(RuntimeError("Post not found with ID: " + req.postId));
    }
    if authorId !in st.users {
      return Err(RuntimeError("Author (User) not found with ID: " + authorId));
    }
    var c := Comment(newId, req.postId, authorId, req.content, now, now);
    st.comments := st.comments[newId := c];
    r := Ok(c);
  }

  /** Who may delete a comment: its author, or a user whose stored roles include ROLE_ADMIN. */
  predicate MayDelete(c: Comment, requestingUserId: UserId, requester: User) {
    c.authorId == requestingUserId || "ROLE_ADMIN" in requester.roles
  }

  /**
   * deleteComment's outcome as written: a missing comment and a missing requester are plain
   * RuntimeExceptions; a comment whose author has been deleted fails on the author's null
   * reference, even for an admin; a requester who may not delete gets an AccessDeniedException.
   */
  function DeleteOutcome(comments: map<CommentId, Comment>, users: map<UserId, User>,
                         commentId: CommentId, requestingUserId: UserId): (r: Result<(), Exn>)
    ensures r.Ok? <==> commentId in comments && requestingUserId in users && comments[commentId].authorId in users
                       && MayDelete(comments[commentId], requestingUserId, users[requestingUserId])
    ensures commentId !in comments ==> r == Err(RuntimeError("Comment not found with id: " + commentId))
    ensures commentId in comments && requestingUserId !in users ==>
      r == Err(RuntimeError("Requesting user not found with ID: " + requestingUserId))
    ensures commentId in comments && requestingUserId in users && comments[commentId].authorId !in users ==>
      r == Err(NullPointer(CommentAuthorIsNull))
    ensures commentId in comments && requestingUserId in users && comments[commentId].authorId in users
            && !MayDelete(comments[commentId], requestingUserId, users[requestingUserId]) ==>
      r == Err(AccessDenied("You are not authorized to delete this comment."))
  {
    if commentId !in comments then Err(RuntimeError("Comment not found with id: " + commentId))
    else if requestingUserId !in users then Err(RuntimeError("Requesting user not found with ID: " + requestingUserId))
    else if comments[commentId].authorId !in users then Err(NullPointer(CommentAuthorIsNull))
    else if !MayDelete(comments[commentId], requestingUserId, users[requestingUserId]) then
      Err(AccessDenied("You are not authorized to delete this comment."))
    else Ok(())
  }

  /**
   * deleteComment's outcome as its documentation describes it: a missing comment raises
   * ResourceNotFoundException and a refused requester UnauthorizedException.
   */
  function DeleteOutcomeCorrected(comments: map<CommentId, Comment>, users: map<UserId, User>,
                                  commentId: CommentId, requestingUserId: UserId): (r: Result<(), Exn>)
    ensures r.Ok? <==> DeleteOutcome(comments, users, commentId, requestingUserId).Ok?
    ensures r.Err? && r.error.ResourceNotFound? <==> commentId !in comments
    ensures r.Err? && r.error.Unauthorized? <==>
      (commentId in comments && requestingUserId in users && comments[commentId].authorId in users
       && !MayDelete(comments[commentId], requestingUserId, users[requestingUserId]))
  {
    if commentId !in comments then Err(ResourceNotFound("Comment not found with id: " + commentId))
    else if requestingUserId !in users then Err(RuntimeError("Requesting user not found with ID: " + requestingUserId))
    else if comments[commentId].authorId !in users then Err(NullPointer(CommentAuthorIsNull))
    else if !MayDelete(comments[commentId], requestingUserId, users[requestingUserId]) then
      Err(Unauthorized("You are not authorized to delete this comment."))
    else Ok(())
  }

  /** deleteComment: the comment is removed exactly when the requester may delete it. */
  method DeleteComment(st: Store, commentId: CommentId, requestingUserId: UserId) returns (r: Result<(), Exn>)
    requires st.Valid()
    modifies st`comments
    ensures st.Valid()
    ensures r == DeleteOutcome(old(st.comments), st.users, commentId, requestingUserId)
    ensures st.comments == if r.Ok? then old(st.comments) - {commentId} else old(st.comments)
  {
    if commentId !in st.comments {
      return Err(RuntimeError("Comment not found with id: " + commentId));
    }
    var comment := st.comments[commentId];
    if requestingUserId !in st.users {
      return Err(RuntimeError("Requesting user not found with ID: " + requestingUserId));
    }
    var isAdmin := "ROLE_ADMIN" in st.users[requestingUserId].roles;
    if comment.authorId !in st.users {
      return Err(NullPointer(CommentAuthorIsNull));
    }
    if comment.authorId != requestingUserId && !isAdmin {
      return Err(AccessDenied("You are not authorized to delete this comment."));
    }
    st.comments := st.comments - {commentId};
    r := Ok(());
  }
}

/**
 * The REST controller for comments: the listing endpoint, creation (201 or 400) and deletion
 * with its mapping of exception classes to status codes.
 */
module CommentController {
  import opened Wrappers
  import opened Model
  import opened CommentService

  /** The response bodies: a comment, a list of comments, or a MessageResponse. */
  datatype Body = CommentBody(comment: Comment) | CommentsBody(comments: seq<Comment>) | MessageBody(message: string)

  /** GET /api/comments/post/{postId}: always 200 with the post's comments. */
  function GetCommentsForPost(scan: seq<Comment>, postId: PostId, auth: Option<Authentication>): (resp: HttpResponse<Body>)
    ensures resp.status == 200 && resp.body.Some? && resp.body.value.CommentsBody?
    ensures forall c :: c in resp.body.value.comments <==> c in scan && c.postId == postId
  {
    HttpResponse(200, Some(CommentsBody(GetCommentsByPostId(scan, postId, CallerUserId(auth)))))
  }

  /** createComment's mapping: 201 with the comment, 400 with the message of any exception. */
  function CreateResponse(r: Result<Comment, Exn>): (resp: HttpResponse<Body>)
    ensures resp.status == 201 <==> r.Ok?
    ensures r.Ok? ==> resp.body == Some(CommentBody(r.value))
    ensures r.Err? ==> resp == HttpResponse(400, Some(MessageBody(r.error.msg)))
  {
    match r
    case Ok(c) => HttpResponse(201, Some(CommentBody(c)))
    case Err(e) => HttpResponse(400, Some(MessageBody(e.msg)))
  }

  /**
   * POST /api/comments: the principal cast, then the service; a String principal ends in a
   * 400 carrying the cast's message.
   */
  method CreateCommentEndpoint(st: Store, auth: Authentication, req: CommentRequest, now: Instant, newId: CommentId)
    returns (resp: HttpResponse<Body>)
    requires st.Valid() && newId !in st.comments
    modifies st`comments
    ensures st.Valid()
    ensures CallerId(auth).Err? ==> resp == HttpResponse(400, Some(MessageBody(CastFailure))) && st.comments == old(st.comments)
    ensures resp.status == 201 <==> CallerId(auth).Ok? && req.postId in st.posts && CallerId(auth).value in st.users
    ensures resp.status == 201 ==>
      st.comments == old(st.comments)[newId := Comment(newId, req.postId, CallerId(auth).value, req.content, now, now)]
    ensures resp.status != 201 ==> st.comments == old(st.comments)
  {
    var id := CallerId(auth);
    if id.Err? {
      return CreateResponse(Err(id.error));
    }
    var r := CreateComment(st, req, id.value, now, newId);
    resp := CreateResponse(r);
  }

  /** deleteComment's mapping of the service outcome, after the 401 for a caller without a user principal. */
  function DeleteResponse(auth: Option<Authentication>, outcome: Result<(), Exn>): (resp: HttpResponse<Body>)
    ensures !IsUserCaller(auth) ==> resp == HttpResponse(401, Some(MessageBody("User not authenticated.")))
    ensures IsUserCaller(auth) && outcome.Ok? ==> resp == HttpResponse(200, Some(MessageBody("Comment deleted successfully!")))
    ensures IsUserCaller(auth) && outcome.Err? ==>
      resp == (if outcome.error.ResourceNotFound? then HttpResponse(404, Some(MessageBody(outcome.error.msg)))
               else if outcome.error.Unauthorized? then HttpResponse(403, Some(MessageBody(outcome.error.msg)))
               else HttpResponse(500, Some(MessageBody("Error deleting comment: " + outcome.error.msg))))
  {
    if !IsUserCaller(auth) then HttpResponse(401, Some(MessageBody("User not authenticated.")))
    else match outcome
      case Ok(_) => HttpResponse(200, Some(MessageBody("Comment deleted successfully!")))
      case Err(ResourceNotFound(m)) => HttpResponse(404, Some(MessageBody(m)))
      case Err(Unauthorized(m)) => HttpResponse(403, Some(MessageBody(m)))
      case Err(e) => HttpResponse(500, Some(MessageBody("Error deleting comment: " + e.msg)))
  }

  /** DELETE /api/comments/{id} as written: the service's own outcome. */
  function DeleteCommentAsWritten(comments: map<CommentId, Comment>, users: map<UserId, User>,
                                  auth: Option<Authentication>, commentId: CommentId): (resp: HttpResponse<Body>)
    ensures resp.status in {200, 401, 500}
    ensures resp.status == 200 <==> IsUserCaller(auth) && DeleteOutcome(comments, users, commentId, auth.value.Principal().id).Ok?
  {
    if !IsUserCaller(auth) then DeleteResponse(auth, Err(RuntimeError("")))
    else DeleteResponse(auth, DeleteOutcome(comments, users, commentId, auth.value.Principal().id))
  }

  /** DELETE /api/comments/{id} over the documented service outcome: 404 and 403 become reachable. */
  function DeleteCommentCorrected(comments: map<CommentId, Comment>, users: map<UserId, User>,
                                  auth: Option<Authentication>, commentId: CommentId): (resp: HttpResponse<Body>)
    ensures resp.status in {200, 401, 403, 404, 500}
    ensures resp.status == 404 <==> IsUserCaller(auth) && commentId !in comments
    ensures resp.status == 403 <==> IsUserCaller(auth) && commentId in comments && auth.value.Principal().id in users
                                    && comments[commentId].authorId in users
                                    && !MayDelete(comments[commentId], auth.value.Principal().id, users[auth.value.Principal().id])
    ensures resp.status == 200 <==> DeleteCommentAsWritten(comments, users, auth, commentId).status == 200
  {
    if !IsUserCaller(auth) then DeleteResponse(auth, Err(RuntimeError("")))
    else DeleteResponse(auth, DeleteOutcomeCorrected(comments, users, commentId, auth.value.Principal().id))
  }

  /** As written, a missing comment is answered with 500, not the 404 the handler is there for. */
  lemma MissingCommentIs500AsWritten(comments: map<CommentId, Comment>, users: map<UserId, User>,
                                     auth: Option<Authentication>, commentId: CommentId)
    requires IsUserCaller(auth) && commentId !in comments
    ensures DeleteCommentAsWritten(comments, users, auth, commentId) ==
      HttpResponse(500, Some(MessageBody("Error deleting comment: Comment not found with id: " + commentId)))
    ensures DeleteCommentCorrected(comments, users, auth, commentId).status == 404
  {
    assert "Error deleting comment: " + ("Comment not found with id: " + commentId)
        == "Error deleting comment: Comment not found with id: " + commentId;
  }

  /**
   * A comment whose author has been deleted cannot be deleted by anyone, an admin included:
   * the author's null reference is dereferenced before the admin flag is looked at.
   */
  lemma OrphanCommentIs500(comments: map<CommentId, Comment>, users: map<UserId, User>,
                           auth: Option<Authentication>, commentId: CommentId)
    requires IsUserCaller(auth) && commentId in comments && auth.value.Principal().id in users
    requires comments[commentId].authorId !in users
    ensures DeleteCommentAsWritten(comments, users, auth, commentId) ==
      HttpResponse(500, Some(MessageBody("Error deleting comment: " + CommentAuthorIsNull)))
    ensures DeleteCommentCorrected(comments, users, auth, commentId) == DeleteCommentAsWritten(comments, users, auth, commentId)
  {
  }

  /** As written, a refused requester is answered with 500, not the 403 the handler is there for. */
  lemma RefusedRequesterIs500AsWritten(comments: map<CommentId, Comment>, users: map<UserId, User>,
                                       auth: Option<Authentication>, commentId: CommentId)
    requires IsUserCaller(auth) && commentId in comments && auth.value.Principal().id in users
    requires comments[commentId].authorId in users
    requires !MayDelete(comments[commentId], auth.value.Principal().id, users[auth.value.Principal().id])
    ensures DeleteCommentAsWritten(comments, users, auth, commentId) ==
      HttpResponse(500, Some(MessageBody("Error deleting comment: " + "You are not authorized to delete this comment.")))
    ensures DeleteCommentCorrected(comments, users, auth, commentId).status == 403
  {
  }
}
