/**
 * The post service: creation with tag lower-casing and media upload, the feed query, like
 * toggling, author-only update and author-or-admin delete, over the post collection of the store.
 */
module PostService {
  import opened Wrappers
  import opened JavaStrings
  import opened Sorting
  import opened Model
  import opened Posts
  import opened Cloudinary

  /** The stored tag list: lower-cased in order, an absent list becoming empty. */
  function StoredTags(tags: Option<seq<string>>): (r: seq<string>)
    ensures tags.None? ==> r == []
    ensures tags.Some? ==> |r| == |tags.value| && forall i :: 0 <= i < |r| ==> r[i] == ToLower(tags.value[i])
  {
    match tags
    case None => []
    case Some(ts) => LowerAll(ts)
  }

  /** The files createPost uploads: the non-empty ones, in order. */
  function NonEmptyFiles(files: seq<File>): (r: seq<File>)
    ensures forall f :: f in r <==> f in files && !IsEmptyFile(f)
  {
    if files == [] then []
    else
      var init := NonEmptyFiles(files[..|files| - 1]);
      assert files == files[..|files| - 1] + [files[|files| - 1]];
      if IsEmptyFile(files[|files| - 1]) then init else init + [files[|files| - 1]]
  }

  /**
   * The media loop of createPost as a function of the files seen so far: the URLs collected,
   * or the exception of the first upload that failed.
   */
  function UploadAll(files: seq<File>, upload: File -> Result<string, Exn>): Result<seq<string>, Exn>
  {
    if files == [] then Ok([])
    else match UploadAll(files[..|files| - 1], upload)
      case Err(e) => Err(e)
      case Ok(urls) =>
        var f := files[|files| - 1];
        if IsEmptyFile(f) then Ok(urls)
        else match UploadFile(f, upload)
          case Err(e) => Err(e)
          case Ok(url) => Ok(urls + [url])
  }

  /** A successful media loop yields one URL per non-empty file, in file order. */
  lemma {:induction false} UploadAllOneUrlPerFile(files: seq<File>, upload: File -> Result<string, Exn>)
    requires UploadAll(files, upload).Ok?
    ensures var urls := UploadAll(files, upload).value;
      |urls| == |NonEmptyFiles(files)|
      && forall k :: 0 <= k < |urls| ==> upload(NonEmptyFiles(files)[k]) == Ok(urls[k])
  {
    if files != [] {
      UploadAllOneUrlPerFile(files[..|files| - 1], upload);
    }
  }

  /** createPost: the author must exist; tags are lower-cased; media is uploaded file by file. */
  method CreatePost(st: Store, title: Option<string>, content: Option<string>, tags: Option<seq<string>>,
                    isNsfw: bool, files: seq<File>, authorId: UserId, now: Instant,
                    upload: File -> Result<string, Exn>, newId: PostId) returns (r: Result<PostDoc, Exn>)
    requires st.Valid() && newId !in st.posts
    modifies st`posts
    ensures st.Valid()
    ensures authorId !in st.users ==> r == Err(RuntimeError("Author not found with id: " + authorId))
    ensures authorId in st.users && UploadAll(files, upload).Err? ==> r == Err(UploadAll(files, upload).error)
    ensures r.Err? ==> st.posts == old(st.posts)
    ensures r.Ok? <==> authorId in st.users && UploadAll(files, upload).Ok?
    ensures r.Ok? ==> r.value == PostDoc(newId, title, content, UploadAll(files, upload).value, authorId,
                                         StoredTags(tags), isNsfw, [], 0, now, now)
    ensures r.Ok? ==> st.posts == old(st.posts)[newId := r.value]
  {
    if authorId !in st.users {
      return Err(RuntimeError("Author not found with id: " + authorId));
    }
    var post := new Post.Create(newId, title, content, authorId, StoredTags(tags), isNsfw, now);
    var i := 0;
    while i < |files|
      invariant 0 <= i <= |files|
      invariant post.Valid() && st.posts == old(st.posts)
      invariant UploadAll(files[..i], upload).Ok?
      invariant post.Doc() == PostDoc(newId, title, content, UploadAll(files[..i], upload).value, authorId,
                                      StoredTags(tags), isNsfw, [], 0, now, now)
    {
      assert files[..i + 1][..i] == files[..i];
      if !IsEmptyFile(files[i]) {
        var url := UploadFile(files[i], upload);
        if url.Err? {
          assert UploadAll(files[..i + 1], upload).Err?;
          UploadAllErrSticks(files, i + 1, upload);
          return Err(url.error);
        }
        post.AddMediaUrl(url.value);
      }
      i := i + 1;
    }
    assert files[..i] == files;
    st.posts := st.posts[newId := post.Doc()];
    r := Ok(post.Doc());
  }

  /** Once a prefix of the files fails, the whole loop fails with the same exception. */
  lemma {:induction false} UploadAllErrSticks(files: seq<File>, n: nat, upload: File -> Result<string, Exn>)
    requires n <= |files| && UploadAll(files[..n], upload).Err?
    ensures UploadAll(files, upload) == UploadAll(files[..n], upload)
    decreases |files| - n
  {
    if n < |files| {
      assert files[..n + 1][..n] == files[..n];
      UploadAllErrSticks(files, n + 1, upload);
    } else {
      assert files[..n] == files;
    }
  }

  /** Whether a post may appear in the feed: the NSFW rule and, when tags are given, a shared tag. */
  predicate InFeed(p: PostDoc, nsfwAllowed: bool, lowered: seq<string>) {
    (nsfwAllowed || !p.isNsfw) && (lowered == [] || exists t :: t in lowered && t in p.tags)
  }

  function Selected(docs: seq<PostDoc>, nsfwAllowed: bool, lowered: seq<string>): (r: seq<PostDoc>)
    ensures forall p :: p in r <==> p in docs && InFeed(p, nsfwAllowed, lowered)
    ensures multiset(r) <= multiset(docs)
  {
    if docs == [] then []
    else
      var rest := Selected(docs[1..], nsfwAllowed, lowered);
      assert docs == [docs[0]] + docs[1..];
      if InFeed(docs[0], nsfwAllowed, lowered) then [docs[0]] + rest else rest
  }

  /** Newest first: sorting on the negated creation time. */
  function NewestFirstKey(p: PostDoc): int {
    -p.createdAt
  }

  /** The whole feed before paging: the posts the filter keeps, newest first. */
  function Feed(docs: seq<PostDoc>, nsfwAllowed: bool, lowered: seq<string>): (r: seq<PostDoc>)
    ensures forall p :: p in r <==> p in docs && InFeed(p, nsfwAllowed, lowered)
    ensures |r| == |Selected(docs, nsfwAllowed, lowered)|
    ensures SortedBy(r, NewestFirstKey)
    ensures multiset(r) == multiset(Selected(docs, nsfwAllowed, lowered))
  {
    var selected := Selected(docs, nsfwAllowed, lowered);
    var r := SortBy(selected, NewestFirstKey);
    SortByMembers(selected, NewestFirstKey);
    assert |r| == |multiset(r)| == |multiset(selected)| == |selected|;
    r
  }

  /**
   * getPosts over the collection `docs`: NSFW posts only for an authenticated adult, a tag
   * filter (logical OR over the lower-cased tags) when tags are given, newest first, and the
   * `page`-th slice of `size` posts.
   */
  function GetPosts(docs: seq<PostDoc>, page: nat, size: nat, isAuthenticated: bool, isAdult: bool,
                    tags: seq<string>): (r: seq<PostDoc>)
    requires size >= 1
    ensures |r| <= size
    ensures forall p :: p in r ==> p in docs && InFeed(p, isAuthenticated && isAdult, LowerAll(tags))
    ensures !(isAuthenticated && isAdult) ==> forall p :: p in r ==> !p.isNsfw
    ensures forall i, j :: 0 <= i < j < |r| ==> r[i].createdAt >= r[j].createdAt
    ensures var n := |Selected(docs, isAuthenticated && isAdult, LowerAll(tags))|;
      |r| == (if page * size < n then (if page * size + size <= n then size else n - page * size) else 0)
  {
    var feed := Feed(docs, isAuthenticated && isAdult, LowerAll(tags));
    assert |feed| == |Selected(docs, isAuthenticated && isAdult, LowerAll(tags))|;
    PageOfSorted(feed, page, size, NewestFirstKey);
    Page(feed, page, size)
  }

  /** The post of rank page*size + offset in the feed is the offset-th post of that page. */
  lemma FeedIsPaged(docs: seq<PostDoc>, isAuthenticated: bool, isAdult: bool, tags: seq<string>,
                    page: nat, offset: nat, size: nat)
    requires offset < size && page * size >= 0
    requires page * size + offset < |Selected(docs, isAuthenticated && isAdult, LowerAll(tags))|
    ensures var feed := Feed(docs, isAuthenticated && isAdult, LowerAll(tags));
      && page * size + offset < |feed|
      && offset < |GetPosts(docs, page, size, isAuthenticated, isAdult, tags)|
      && GetPosts(docs, page, size, isAuthenticated, isAdult, tags)[offset] == feed[page * size + offset]
  {
    var feed := Feed(docs, isAuthenticated && isAdult, LowerAll(tags));
    assert GetPosts(docs, page, size, isAuthenticated, isAdult, tags) == Page(feed, page, size);
  }

  /** The new like list after a toggle. */
  function Toggled(s: seq<UserId>, u: UserId): (r: seq<UserId>)
    requires NoDuplicates(s)
    ensures NoDuplicates(r)
    ensures u in r <==> u !in s
    ensures forall v :: v != u ==> (v in r <==> v in s)
  {
    RemoveFirstNoDuplicates(s, u);
    if u in s then RemoveFirst(s, u) else WithLike(s, u)
  }

  /** Toggling twice restores who has liked the post, and restores the list itself when it started without the user. */
  lemma ToggleTwice(s: seq<UserId>, u: UserId)
    requires NoDuplicates(s)
    ensures forall v :: v in Toggled(Toggled(s, u), u) <==> v in s
    ensures u !in s ==> Toggled(Toggled(s, u), u) == s
  {
    if u !in s {
      RemoveFirstOfAppended(s, u);
    }
  }

  /** toggleLike: an unknown post is an error; otherwise the user's like flips and the post is saved. */
  method ToggleLike(st: Store, postId: PostId, userId: UserId, now: Instant) returns (r: Result<PostDoc, Exn>)
    requires st.Valid()
    modifies st`posts
    ensures st.Valid()
    ensures postId !in old(st.posts) ==> r == Err(RuntimeError("Post not found with id: " + postId)) && st.posts == old(st.posts)
    ensures postId in old(st.posts) ==>
      var before := old(st.posts)[postId];
      && r == Ok(before.(likedBy := Toggled(before.likedBy, userId), likeCount := |Toggled(before.likedBy, userId)|, updatedAt := now))
      && st.posts == old(st.posts)[postId := r.value]
  {
    if postId !in st.posts {
      return Err(RuntimeError("Post not found with id: " + postId));
    }
    var post := new Post.Load(st.posts[postId]);
    if userId in post.likedBy {
      post.RemoveLike(userId);
    } else {
      post.AddLike(userId);
    }
    post.SetUpdatedAt(now);
    st.posts := st.posts[postId := post.Doc()];
    r := Ok(post.Doc());
  }

  /** The body of PUT /api/posts/{id}; `isNsfw` is a primitive that defaults to false. */
  datatype PostUpdateRequest = PostUpdateRequest(
    title: Option<string>,
    content: Option<string>,
    tags: Option<seq<string>>,
    isNsfw: bool)

  /**
   * The request's constraints: title non-blank and at most 255 UTF-16 code units, content
   * non-blank and at most 5000.
   */
  predicate ValidPostUpdate(req: PostUpdateRequest) {
    && req.title.Some? && !IsBlank(req.title.value) && Utf16Length(req.title.value) <= 255
    && req.content.Some? && !IsBlank(req.content.value) && Utf16Length(req.content.value) <= 5000
  }

  /**
   * updatePost: only the author may edit; exactly title, content, tags, isNsfw and updatedAt
   * change. A post whose author has been deleted fails on the author's null reference.
   */
  method UpdatePost(st: Store, postId: PostId, req: PostUpdateRequest, userId: UserId, now: Instant)
    returns (r: Result<PostDoc, Exn>)
    requires st.Valid()
    modifies st`posts
    ensures st.Valid()
    ensures r.Err? ==> st.posts == old(st.posts)
    ensures postId !in old(st.posts) ==> r == Err(RuntimeError("Post not found with id: " + postId))
    ensures postId in old(st.posts) && old(st.posts)[postId].author !in st.users ==>
      r == Err(NullPointer(PostAuthorIsNull))
    ensures postId in old(st.posts) && old(st.posts)[postId].author in st.users
            && old(st.posts)[postId].author != userId ==>
      r == Err(RuntimeError("Unauthorized to update this post."))
    ensures r.Ok? <==> postId in old(st.posts) && old(st.posts)[postId].author in st.users
                       && old(st.posts)[postId].author == userId
    ensures r.Ok? ==>
      && r.value == old(st.posts)[postId].(title := req.title, content := req.content,
                                             tags := StoredTags(req.tags), isNsfw := req.isNsfw, updatedAt := now)
      && st.posts == old(st.posts)[postId := r.value]
  {
    if postId !in st.posts {
      return Err(RuntimeError("Post not found with id: " + postId));
    }
    var existing := st.posts[postId];
    if existing.author !in st.users {
      return Err(NullPointer(PostAuthorIsNull));
    }
    if existing.author != userId {
      return Err(RuntimeError("Unauthorized to update this post."));
    }
    var updated := existing.(title := req.title, content := req.content, tags := StoredTags(req.tags),
                             isNsfw := req.isNsfw, updatedAt := now);
    st.posts := st.posts[postId := updated];
    r := Ok(updated);
  }

  /** The calls deletePost makes, in order: destroys on the media service, then the repository delete. */
  datatype Effect = Destroy(publicId: string) | DeleteDocument(postId: PostId)

  /** The destroy calls for a list of media URLs, one per URL that yields a non-empty public id. */
  function DestroyCalls(urls: seq<string>): (r: seq<Effect>)
    ensures |r| <= |urls|
    ensures forall e :: e in r ==> e.Destroy?
    ensures forall u :: u in urls && DestroyedId(u).Some? ==> Destroy(DestroyedId(u).value) in r
  {
    if urls == [] then []
    else
      var init := DestroyCalls(urls[..|urls| - 1]);
      var last := urls[|urls| - 1];
      assert urls == urls[..|urls| - 1] + [last];
      match DestroyedId(last)
      case Some(id) => init + [Destroy(id)]
      case None => init
  }

  /** Every destroy call is for the public id of one of the listed URLs. */
  lemma {:induction false} DestroyCallsFromUrls(urls: seq<string>)
    ensures forall e :: e in DestroyCalls(urls) ==> exists u :: u in urls && DestroyedId(u) == Some(e.publicId)
  {
    if urls != [] {
      var init := urls[..|urls| - 1];
      DestroyCallsFromUrls(init);
      assert urls == init + [urls[|urls| - 1]];
      forall e | e in DestroyCalls(urls) ensures exists u :: u in urls && DestroyedId(u) == Some(e.publicId) {
        if e in DestroyCalls(init) {
          var u :| u in init && DestroyedId(u) == Some(e.publicId);
          assert u in urls;
        } else {
          assert DestroyedId(urls[|urls| - 1]) == Some(e.publicId);
        }
      }
    }
  }

  /** The calls keep the order of the URLs: one list of URLs after another gives their calls one after the other. */
  lemma {:induction false} DestroyCallsAppend(urls: seq<string>, more: seq<string>)
    ensures DestroyCalls(urls + more) == DestroyCalls(urls) + DestroyCalls(more)
  {
    if more == [] {
      assert urls + more == urls;
    } else {
      var init := more[..|more| - 1];
      assert (urls + more)[..|urls + more| - 1] == urls + init;
      assert (urls + more)[|urls + more| - 1] == more[|more| - 1];
      DestroyCallsAppend(urls, init);
    }
  }

  /** A single URL gives one destroy call when it yields a public id, and none otherwise. */
  lemma DestroyCallsOne(url: string)
    ensures DestroyCalls([url]) == if DestroyedId(url).Some? then [Destroy(DestroyedId(url).value)] else []
  {
    assert [url][..0] == [];
  }

  /**
   * deletePost: the author or an admin may delete; each media URL goes to deleteFileByUrl
   * before the document is removed. The author is read before the admin flag, so a post whose
   * author has been deleted fails on the null reference even for an admin. Nothing happens on
   * any error.
   */
  method DeletePost(st: Store, postId: PostId, userId: UserId, isAdmin: bool) returns (r: Result<seq<Effect>, Exn>)
    requires st.Valid()
    modifies st`posts
    ensures st.Valid()
    ensures postId !in old(st.posts) ==> r == Err(RuntimeError("Post not found with id: " + postId))
    ensures postId in old(st.posts) && old(st.posts)[postId].author !in st.users ==>
      r == Err(NullPointer(PostAuthorIsNull))
    ensures postId in old(st.posts) && old(st.posts)[postId].author in st.users
            && old(st.posts)[postId].author != userId && !isAdmin ==>
      r == Err(RuntimeError("Unauthorized to delete this post."))
    ensures r.Err? ==> st.posts == old(st.posts)
    ensures r.Ok? <==> postId in old(st.posts) && old(st.posts)[postId].author in st.users
                       && (old(st.posts)[postId].author == userId || isAdmin)
    ensures r.Ok? ==> (r.value == DestroyCalls(old(st.posts)[postId].mediaUrls) + [DeleteDocument(postId)]
      && st.posts == old(st.posts) - {postId})
  {
    if postId !in st.posts {
      return Err(RuntimeError("Post not found with id: " + postId));
    }
    var post := st.posts[postId];
    if post.author !in st.users {
      return Err(NullPointer(PostAuthorIsNull));
    }
    if post.author != userId && !isAdmin {
      return Err(RuntimeError("Unauthorized to delete this post."));
    }
    var effects: seq<Effect> := [];
    var i := 0;
    while i < |post.mediaUrls|
      invariant 0 <= i <= |post.mediaUrls|
      invariant effects == DestroyCalls(post.mediaUrls[..i])
    {
      assert post.mediaUrls[..i + 1][..i] == post.mediaUrls[..i];
      var id := DestroyedId(post.mediaUrls[i]);
      if id.Some? {
        effects := effects + [Destroy(id.value)];
      }
      i := i + 1;
    }
    assert post.mediaUrls[..i] == post.mediaUrls;
    st.posts := st.posts - {postId};
    r := Ok(effects + [DeleteDocument(postId)]);
  }
}
