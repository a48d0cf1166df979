/**
 * A post and its likes. The like list and the denormalised count are changed only through
 * addLike and removeLike, which keep the list free of duplicates and the count equal to its
 * length (Lombok's generated setters for those two fields are not part of this model).
 */
module Posts {
  import opened Wrappers
  import opened Model

  /** List.add after the contains check of addLike. */
  function WithLike(s: seq<UserId>, u: UserId): (r: seq<UserId>)
    ensures u in r
    ensures forall v :: v in r <==> v in s || v == u
    ensures u in s ==> r == s
    ensures NoDuplicates(s) ==> NoDuplicates(r)
  {
    if u in s then s else s + [u]
  }

  /** List.remove(Object): drops the first occurrence, if any. */
  function RemoveFirst(s: seq<UserId>, u: UserId): (r: seq<UserId>)
    ensures u !in s ==> r == s
    ensures u in s ==> |r| == |s| - 1
    ensures forall v :: v in r ==> v in s
    ensures forall v :: v != u && v in s ==> v in r
  {
    if s == [] then []
    else if s[0] == u then s[1..]
    else [s[0]] + RemoveFirst(s[1..], u)
  }

  /** Without duplicates, removing the first occurrence removes the user altogether. */
  lemma {:induction false} RemoveFirstNoDuplicates(s: seq<UserId>, u: UserId)
    requires NoDuplicates(s)
    ensures u !in RemoveFirst(s, u)
    ensures NoDuplicates(RemoveFirst(s, u))
  {
    if s != [] && s[0] != u {
      RemoveFirstNoDuplicates(s[1..], u);
      var rest := RemoveFirst(s[1..], u);
      assert s[0] !in s[1..];
      assert s[0] !in rest;
    }
  }

  /** Removing what was just appended gives the original list back. */
  lemma {:induction false} RemoveFirstOfAppended(s: seq<UserId>, u: UserId)
    requires u !in s
    ensures RemoveFirst(s + [u], u) == s
  {
    if s != [] {
      assert (s + [u])[1..] == s[1..] + [u];
      RemoveFirstOfAppended(s[1..], u);
    }
  }

  /** The stored Post object, with the fields its service methods read and write. */
  class Post {
    var id: PostId
    var title: Option<string>
    var content: Option<string>
    var mediaUrls: seq<string>
    var author: UserId
    var tags: seq<string>
    var isNsfw: bool
    var likedBy: seq<UserId>
    var likeCount: int
    var createdAt: Instant
    var updatedAt: Instant

    /** Post's like invariant. */
    ghost predicate Valid()
      reads this
    {
      NoDuplicates(likedBy) && likeCount == |likedBy|
    }

    /** The document saved for this object. */
    function Doc(): (d: PostDoc)
      reads this
      ensures Valid() ==> LikesConsistent(d)
    {
      PostDoc(id, title, content, mediaUrls, author, tags, isNsfw, likedBy, likeCount, createdAt, updatedAt)
    }

    /** new Post() followed by the setters of createPost: no media, no likes, stamped `now`. */
    constructor Create(id: PostId, title: Option<string>, content: Option<string>, author: UserId,
                       tags: seq<string>, isNsfw: bool, now: Instant)
      ensures Valid()
      ensures Doc() == PostDoc(id, title, content, [], author, tags, isNsfw, [], 0, now, now)
    {
      this.id, this.title, this.content, this.author := id, title, content, author;
      this.tags, this.isNsfw := tags, isNsfw;
      mediaUrls, likedBy, likeCount := [], [], 0;
      createdAt, updatedAt := now, now;
    }

    /** The object the repository materialises from a stored document. */
    constructor Load(d: PostDoc)
      ensures Doc() == d
      ensures LikesConsistent(d) ==> Valid()
    {
      id, title, content, mediaUrls, author := d.id, d.title, d.content, d.mediaUrls, d.author;
      tags, isNsfw, likedBy, likeCount := d.tags, d.isNsfw, d.likedBy, d.likeCount;
      createdAt, updatedAt := d.createdAt, d.updatedAt;
    }

    /** getMediaUrls().add(url) */
    method AddMediaUrl(url: string)
      modifies this`mediaUrls
      ensures mediaUrls == old(mediaUrls) + [url]
    {
      mediaUrls := mediaUrls + [url];
    }

    method SetUpdatedAt(now: Instant)
      modifies this`updatedAt
      ensures updatedAt == now
    {
      updatedAt := now;
    }

    /** addLike: an absent user is appended and the count follows; a present one changes nothing. */
    method AddLike(u: UserId)
      requires Valid()
      modifies this`likedBy, this`likeCount
      ensures Valid()
      ensures likedBy == WithLike(old(likedBy), u)
      ensures u in old(likedBy) ==> likedBy == old(likedBy) && likeCount == old(likeCount)
      ensures u !in old(likedBy) ==> likedBy == old(likedBy) + [u] && likeCount == old(likeCount) + 1
    {
      if u !in likedBy {
        likedBy := likedBy + [u];
        likeCount := |likedBy|;
      }
    }

    /** removeLike: a present user is removed and the count follows; an absent one changes nothing. */
    method RemoveLike(u: UserId)
      requires Valid()
      modifies this`likedBy, this`likeCount
      ensures Valid()
      ensures likedBy == RemoveFirst(old(likedBy), u)
      ensures u !in likedBy
      ensures u !in old(likedBy) ==> likedBy == old(likedBy) && likeCount == old(likeCount)
      ensures u in old(likedBy) ==> likeCount == old(likeCount) - 1
    {
      var removed := u in likedBy;
      RemoveFirstNoDuplicates(likedBy, u);
      likedBy := RemoveFirst(likedBy, u);
      if removed {
        likeCount := |likedBy|;
      }
    }
  }

  /** addLike then removeLike of a user who had not liked the post restores the list exactly. */
  method LikeThenUnlike(p: Post, u: UserId)
    requires p.Valid() && u !in p.likedBy
    modifies p`likedBy, p`likeCount
    ensures p.Valid()
    ensures p.likedBy == old(p.likedBy) && p.likeCount == old(p.likeCount)
  {
    p.AddLike(u);
    RemoveFirstOfAppended(old(p.likedBy), u);
    p.RemoveLike(u);
  }
}
