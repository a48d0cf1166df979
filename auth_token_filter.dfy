/**
 * The JWT request filter: which requests it skips, how it reads the bearer token of an
 * Authorization header (section 2.1 of RFC 6750), and what it puts in the security context.
 * Token checking is left to two oracles: `valid(token)` for signature and expiry, and
 * `subject(token)` for the subject claim (None when parsing throws or there is no subject).
 */
module AuthTokenFilter {
  import opened Wrappers
  import opened JavaStrings
  import opened Model
  import opened Http

  /** The paths the filter never processes, in their declared order. */
  const StrictlyExcludedPaths: seq<Pattern> := [
    Pattern([Lit("api"), Lit("auth")], true),
    Pattern([Lit("api"), Lit("test")], true),
    Pattern([Lit("ws")], true)]

  /** The exemption the filter implements: on or below /api/auth, /api/test or /ws, or any OPTIONS. */
  predicate Exempt(req: Request) {
    || (|req.path| >= 2 && req.path[..2] == ["api", "auth"])
    || (|req.path| >= 2 && req.path[..2] == ["api", "test"])
    || (|req.path| >= 1 && req.path[..1] == ["ws"])
    || req.verb == OPTIONS
  }

  /** The first loop result: whether some excluded pattern among the first `n` matches. */
  predicate ExcludedAmong(path: seq<string>, n: nat)
    requires n <= |StrictlyExcludedPaths|
  {
    exists k :: 0 <= k < n && Matches(StrictlyExcludedPaths[k], path)
  }

  /** The three excluded patterns match exactly the paths on or below their literal prefix. */
  lemma ExcludedIsUnderPrefix(path: seq<string>)
    ensures ExcludedAmong(path, |StrictlyExcludedPaths|) <==>
      || (|path| >= 2 && path[..2] == ["api", "auth"])
      || (|path| >= 2 && path[..2] == ["api", "test"])
      || (|path| >= 1 && path[..1] == ["ws"])
  {
    if |path| >= 2 {
      assert path[..2] == [path[0], path[1]];
    }
    if |path| >= 1 {
      assert path[..1] == [path[0]];
    }
    if |path| >= 2 && path[..2] == ["api", "auth"] {
      assert Matches(StrictlyExcludedPaths[0], path);
    }
    if |path| >= 2 && path[..2] == ["api", "test"] {
      assert Matches(StrictlyExcludedPaths[1], path);
    }
    if |path| >= 1 && path[..1] == ["ws"] {
      assert Matches(StrictlyExcludedPaths[2], path);
    }
  }

  /** shouldNotFilter: the loop over the excluded patterns with early return, then the OPTIONS test. */
  method ShouldNotFilter(req: Request) returns (skip: bool)
    ensures skip <==> Exempt(req)
  {
    var i := 0;
    while i < |StrictlyExcludedPaths|
      invariant 0 <= i <= |StrictlyExcludedPaths|
      invariant !ExcludedAmong(req.path, i)
    {
      if Matches(StrictlyExcludedPaths[i], req.path) {
        assert ExcludedAmong(req.path, |StrictlyExcludedPaths|);
        ExcludedIsUnderPrefix(req.path);
        return true;
      }
      i := i + 1;
    }
    ExcludedIsUnderPrefix(req.path);
    if req.verb == OPTIONS {
      return true;
    }
    return false;
  }

  /** Character.isWhitespace, for the characters it accepts below U+0080. */
  predicate IsWhitespace(c: char) {
    c == ' ' || ('\t' <= c <= '\r') || ('\U{1C}' <= c <= '\U{1F}')
  }

  /** StringUtils.hasText: non-null, and some character is not whitespace. */
  predicate HasText(s: Option<string>) {
    s.Some? && exists i :: 0 <= i < |s.value| && !IsWhitespace(s.value[i])
  }

  const BearerPrefix := "Bearer "

  /** parseJwt: the text after "Bearer " (case-sensitive) when the header has text and that prefix. */
  function ParseJwt(header: Option<string>): (r: Option<string>)
    ensures r.Some? <==> header.Some? && StartsWith(header.value, BearerPrefix)
    ensures r.Some? ==> header.value == BearerPrefix + r.value
  {
    if HasText(header) && StartsWith(header.value, BearerPrefix) then
      assert header.value == BearerPrefix + header.value[7..];
      Some(header.value[7..])
    else
      assert header.Some? && StartsWith(header.value, BearerPrefix) ==> !IsWhitespace(header.value[0]);
      None
  }

  /** The header that carries a token round-trips through parseJwt, the bare prefix giving "". */
  lemma ParseJwtOfBearer(token: string)
    ensures ParseJwt(Some(BearerPrefix + token)) == Some(token)
    ensures ParseJwt(Some(BearerPrefix)) == Some("")
  {
    assert StartsWith(BearerPrefix + token, BearerPrefix);
    assert BearerPrefix + "" == BearerPrefix;
  }

  /** The lower-case scheme is not recognised. */
  lemma ParseJwtIsCaseSensitive(token: string)
    ensures ParseJwt(Some("bearer " + token)) == None
  {
    assert ("bearer " + token)[0] != BearerPrefix[0];
  }

  /**
   * The authentication doFilterInternal installs, if any: a token must be present and valid,
   * and its subject must name a stored user; the authorities are that user's stored roles.
   * JwtException and UsernameNotFoundException are swallowed, which is the None result.
   */
  function TokenAuthentication(header: Option<string>, users: map<UserId, User>,
                               valid: string -> bool, subject: string -> Option<string>): (r: Option<Authentication>)
    requires UsersKeyed(users) && UsernamesUnique(users)
    ensures r.Some? <==> (ParseJwt(header).Some? && valid(ParseJwt(header).value)
      && subject(ParseJwt(header).value).Some? && UsernameTaken(users, subject(ParseJwt(header).value).value))
    ensures r.Some? ==> && r.value.Token? && r.value.authenticated && r.value.principal.UserPrincipal?
                        && r.value.principal.id in users
                        && users[r.value.principal.id].username == subject(ParseJwt(header).value).value
                        && r.value.principal.username == users[r.value.principal.id].username
                        && r.value.authorities == users[r.value.principal.id].roles
  {
    match ParseJwt(header)
    case None => None
    case Some(jwt) =>
      if !valid(jwt) then None
      else match subject(jwt)
        case None => None
        case Some(name) =>
          match FindByUsername(users, name)
          case None => None
          case Some(u) => Some(Token(UserPrincipal(u.id, u.username), u.roles, true))
  }

  /** The request-scoped SecurityContext. */
  class SecurityContext {
    var authentication: Option<Authentication>

    constructor ()
      ensures authentication == None
    {
      authentication := None;
    }
  }

  /**
   * doFilterInternal: installs the token's authentication when there is one, leaves the context
   * alone otherwise, and hands the request down the chain exactly once in every case.
   */
  method DoFilterInternal(ctx: SecurityContext, req: Request, users: map<UserId, User>,
                          valid: string -> bool, subject: string -> Option<string>) returns (chainCalls: nat)
    requires UsersKeyed(users) && UsernamesUnique(users)
    modifies ctx
    ensures chainCalls == 1
    ensures ctx.authentication ==
      if TokenAuthentication(req.authorization, users, valid, subject).Some?
      then TokenAuthentication(req.authorization, users, valid, subject)
      else old(ctx.authentication)
  {
    var jwt := ParseJwt(req.authorization);
    if jwt.Some? && valid(jwt.value) {
      var name := subject(jwt.value);
      if name.Some? {
        var user := FindByUsername(users, name.value);
        if user.Some? {
          ctx.authentication := Some(Token(UserPrincipal(user.value.id, user.value.username), user.value.roles, true));
        }
      }
    }
    chainCalls := 1;
  }

  /**
   * OncePerRequestFilter.doFilter around it: an exempt request goes down the chain untouched,
   * any other one through doFilterInternal. Either way the chain runs once.
   */
  method DoFilter(ctx: SecurityContext, req: Request, users: map<UserId, User>,
                  valid: string -> bool, subject: string -> Option<string>) returns (chainCalls: nat)
    requires UsersKeyed(users) && UsernamesUnique(users)
    modifies ctx
    ensures chainCalls == 1
    ensures ctx.authentication ==
      if !Exempt(req) && TokenAuthentication(req.authorization, users, valid, subject).Some?
      then TokenAuthentication(req.authorization, users, valid, subject)
      else old(ctx.authentication)
  {
    var skip := ShouldNotFilter(req);
    if skip {
      chainCalls := 1;
    } else {
      chainCalls := DoFilterInternal(ctx, req, users, valid, subject);
    }
  }
}
