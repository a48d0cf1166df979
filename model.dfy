/**
 * The persisted entities (users, posts, comments, direct messages), the exceptions the services
 * throw, the security principal, and the in-memory stand-in for the MongoDB repositories.
 */
module Model {
  import opened Wrappers
  import opened Dates

  type UserId = string
  type PostId = string
  type CommentId = string
  type MessageId = string

  /** A LocalDateTime / Instant stamp; always supplied by the caller, never read from a clock. */
  type Instant = int

  /** A stored user. The @Transient age and isAdult fields are not persisted and are absent here. */
  datatype User = User(
    id: UserId,
    username: string,
    email: string,
    password: string,            // the encoded password, never the raw one
    dateOfBirth: Option<LocalDate>,
    roles: set<string>,
    createdAt: Instant,
    updatedAt: Instant)

  /**
   * A stored post document; the author DBRef is represented by the author's id. The reference
   * loads as null when no stored user has that id.
   */
  datatype PostDoc = PostDoc(
    id: PostId,
    title: Option<string>,
    content: Option<string>,
    mediaUrls: seq<string>,
    author: UserId,
    tags: seq<string>,
    isNsfw: bool,
    likedBy: seq<UserId>,
    likeCount: int,
    createdAt: Instant,
    updatedAt: Instant)

  /** A stored comment; the post and author DBRefs are represented by their ids. */
  datatype Comment = Comment(
    id: CommentId,
    postId: PostId,
    authorId: UserId,
    content: string,
    createdAt: Instant,
    updatedAt: Instant)

  /** A stored direct message; sender and receiver DBRefs are represented by their ids. */
  datatype Message = Message(
    id: MessageId,
    senderId: UserId,
    receiverId: UserId,
    content: string,
    timestamp: Instant,
    read: bool)

  /** The exception classes thrown on the paths modelled, each with its message. */
  datatype Exn =
    | RuntimeError(msg: string)            // java.lang.RuntimeException
    | IllegalArgument(msg: string)         // IllegalArgumentException
    | AccessDenied(msg: string)            // org.springframework.security.access.AccessDeniedException
    | IOError(msg: string)                 // java.io.IOException
    | ResourceNotFound(msg: string)        // com.redditclone.backend.exception.ResourceNotFoundException
    | Unauthorized(msg: string)            // com.redditclone.backend.exception.UnauthorizedException
    | ClassCast(msg: string)               // casting a String principal to UserDetailsImpl
    | NullPointer(msg: string)             // NullPointerException

  /** The package of the document classes. */
  const ModelPackage := "com.redditclone.backend.model."

  /**
   * The JDK's detail message for the NullPointerException of `getX().getId()` when the DBRef
   * getter `getter` (of a class in ModelPackage) returns null, as it does once the referenced
   * user has been deleted.
   */
  function NullRefMessage(getter: string): string {
    "Cannot invoke \"" + ModelPackage + "User.getId()\" because " + "the return value of \""
      + ModelPackage + getter + "\" is null"
  }

  const PostAuthorIsNull := NullRefMessage("Post.getAuthor()")
  const CommentAuthorIsNull := NullRefMessage("Comment.getAuthor()")
  const ReceiverIsNull := NullRefMessage("Message.getReceiver()")

  /** Whether the exception is a RuntimeException (every class above except IOException). */
  predicate IsRuntime(e: Exn) {
    !e.IOError?
  }

  /**
   * A ResponseEntity: the status code and the body. `None` stands for a body the framework
   * writes (a bean-validation error) or an empty one.
   */
  datatype HttpResponse<B> = HttpResponse(status: int, body: Option<B>)

  /** UserDetailsImpl (a stored user's id and username) or the String principal "anonymousUser". */
  datatype Principal = UserPrincipal(id: UserId, username: string) | Named(name: string)

  /**
   * What the request-scoped security context can hold: a UsernamePasswordAuthenticationToken
   * or the AnonymousAuthenticationToken that Spring installs when nothing else was.
   */
  datatype Authentication =
    | Token(principal: Principal, authorities: set<string>, authenticated: bool)
    | Anonymous
  {
    function Principal(): Principal {
      match this
      case Token(p, _, _) => p
      case Anonymous => Named("anonymousUser")
    }
    function Authorities(): set<string> {
      match this
      case Token(_, a, _) => a
      case Anonymous => {"ROLE_ANONYMOUS"}
    }
    predicate IsAuthenticated() {
      match this
      case Token(_, _, b) => b
      case Anonymous => true
    }
  }

  /**
   * The controllers' test `authentication != null && authentication.isAuthenticated()
   * && !(authentication.getPrincipal() instanceof String)`.
   */
  predicate IsUserCaller(auth: Option<Authentication>) {
    auth.Some? && auth.value.IsAuthenticated() && auth.value.Principal().UserPrincipal?
  }

  /** The current user's id when the context holds a user principal, otherwise null. */
  function CallerUserId(auth: Option<Authentication>): (r: Option<UserId>)
    ensures r.Some? <==> IsUserCaller(auth)
    ensures r.Some? ==> r.value == auth.value.Principal().id
  {
    if IsUserCaller(auth) then Some(auth.value.Principal().id) else None
  }

  /**
   * The leading part of the ClassCastException message a String principal raises when cast to
   * UserDetailsImpl; the JDK appends module and class-loader details that depend on how the
   * application is launched, and those are not modelled.
   */
  const CastFailure := "class java.lang.String cannot be cast to class com.redditclone.backend.security.services.UserDetailsImpl"

  /**
   * `((UserDetailsImpl) authentication.getPrincipal()).getId()`, as the protected endpoints
   * write it, without the isAuthenticated test: the anonymous token's String principal fails the cast.
   */
  function CallerId(auth: Authentication): (r: Result<UserId, Exn>)
    ensures r.Ok? <==> auth.Principal().UserPrincipal?
    ensures r.Ok? ==> r.value == auth.Principal().id
    ensures r.Err? ==> r.error == ClassCast(CastFailure)
  {
    match auth.Principal()
    case UserPrincipal(id, _) => Ok(id)
    case Named(_) => Err(ClassCast(CastFailure))
  }

  predicate UsernameTaken(users: map<UserId, User>, name: string) {
    exists id | id in users :: users[id].username == name
  }

  predicate EmailTaken(users: map<UserId, User>, email: string) {
    exists id | id in users :: users[id].email == email
  }

  /** existsByEmailAndIdNot */
  predicate EmailTakenByOther(users: map<UserId, User>, email: string, self: UserId) {
    exists id | id in users :: users[id].email == email && id != self
  }

  predicate UsernamesUnique(users: map<UserId, User>) {
    forall a, b :: a in users && b in users && users[a].username == users[b].username ==> a == b
  }

  predicate EmailsUnique(users: map<UserId, User>) {
    forall a, b :: a in users && b in users && users[a].email == users[b].email ==> a == b
  }

  /** findByUsername, for a store whose usernames are unique. */
  function FindByUsername(users: map<UserId, User>, name: string): (r: Option<User>)
    requires UsersKeyed(users) && UsernamesUnique(users)
    ensures r.Some? <==> UsernameTaken(users, name)
    ensures r.Some? ==> r.value.username == name && r.value.id in users && users[r.value.id] == r.value
  {
    if UsernameTaken(users, name) then
      var id :| id in users && users[id].username == name;
      Some(users[id])
    else None
  }

  /** A user document with no duplicate in the like list and a like count equal to its length. */
  predicate NoDuplicates<T(==)>(s: seq<T>) {
    forall i, j :: 0 <= i < j < |s| ==> s[i] != s[j]
  }

  predicate LikesConsistent(p: PostDoc) {
    NoDuplicates(p.likedBy) && p.likeCount == |p.likedBy|
  }

  predicate UsersKeyed(users: map<UserId, User>) {
    forall id :: id in users ==> users[id].id == id
  }

  predicate PostsKeyed(posts: map<PostId, PostDoc>) {
    forall id :: id in posts ==> posts[id].id == id && LikesConsistent(posts[id])
  }

  predicate CommentsKeyed(comments: map<CommentId, Comment>) {
    forall id :: id in comments ==> comments[id].id == id
  }

  predicate MessagesKeyed(messages: map<MessageId, Message>) {
    forall id :: id in messages ==> messages[id].id == id
  }

  /** The four MongoDB collections, each keyed by document id. */
  class Store {
    var users: map<UserId, User>
    var posts: map<PostId, PostDoc>
    var comments: map<CommentId, Comment>
    var messages: map<MessageId, Message>

    /**
     * What every sequential run of the services keeps: documents sit under their own id,
     * usernames and e-mails are unique, and every post's like list agrees with its count.
     */
    ghost predicate Valid()
      reads this
    {
      && UsersKeyed(users) && UsernamesUnique(users) && EmailsUnique(users)
      && PostsKeyed(posts) && CommentsKeyed(comments) && MessagesKeyed(messages)
    }

    constructor ()
      ensures Valid()
      ensures users == map[] && posts == map[] && comments == map[] && messages == map[]
    {
      users, posts, comments, messages := map[], map[], map[], map[];
    }
  }
}
