/**
 * Requests as the security layer sees them, and the path patterns it matches them against.
 * A servlet path is given as its '/'-separated segments: "/api/posts/42" is ["api", "posts", "42"].
 */
module Http {
  import opened Wrappers
  import opened JavaStrings

  datatype HttpMethod = GET | HEAD | POST | PUT | PATCH | DELETE | OPTIONS

  datatype Request = Request(verb: HttpMethod, path: seq<string>, authorization: Option<string>)

  /** One pattern segment: a literal, or a `{variable}` that matches any single segment. */
  datatype Segment = Lit(text: string) | Var

  /** A path pattern: its segments, optionally followed by a trailing double-star segment
   * (zero or more further segments). */
  datatype Pattern = Pattern(segments: seq<Segment>, rest: bool)

  predicate SegmentMatches(p: Segment, s: string) {
    match p
    case Lit(t) => s == t
    case Var => true
  }

  /** Whether the pattern matches the whole path. */
  predicate Matches(pat: Pattern, path: seq<string>) {
    var n := |pat.segments|;
    && (if pat.rest then n <= |path| else n == |path|)
    && forall i :: 0 <= i < n ==> SegmentMatches(pat.segments[i], path[i])
  }
}
