/**
 * The URL access policy of the HTTP security chain: an ordered table of request matchers, the
 * first match deciding between permit-all and authenticated, evaluated after the token filter.
 */
module WebSecurity {
  import opened Wrappers
  import opened Model
  import opened Http
  import opened AuthTokenFilter

  datatype Access = PermitAll | Authenticated

  /** A request matcher: an optional HTTP method (None = any method), a pattern, and its access. */
  datatype Rule = Rule(verb: Option<HttpMethod>, pattern: Pattern, access: Access)

  predicate RuleMatches(rule: Rule, req: Request) {
    (rule.verb.None? || rule.verb.value == req.verb) && Matches(rule.pattern, req.path)
  }

  /** The requestMatchers(...).permitAll() entries, in declaration order. */
  const PermitRules: seq<Rule> := [
    Rule(None, Pattern([Lit("api"), Lit("auth")], true), PermitAll),
    Rule(None, Pattern([Lit("api"), Lit("test")], true), PermitAll),
    Rule(None, Pattern([Lit("ws")], true), PermitAll),
    Rule(Some(OPTIONS), Pattern([], true), PermitAll),
    Rule(None, Pattern([Lit("error")], false), PermitAll),
    Rule(Some(GET), Pattern([Lit("api"), Lit("posts")], false), PermitAll),
    Rule(Some(GET), Pattern([Lit("api"), Lit("posts"), Var], false), PermitAll),
    Rule(Some(GET), Pattern([Lit("api"), Lit("posts"), Var, Lit("comments")], false), PermitAll),
    Rule(Some(GET), Pattern([Lit("api"), Lit("posts"), Lit("search")], false), PermitAll)]

  /** anyRequest().authenticated(), the last entry. */
  const AnyRequest: Rule := Rule(None, Pattern([], true), Authenticated)

  const Rules: seq<Rule> := PermitRules + [AnyRequest]

  /** The access of the first rule that matches, if any does. */
  function FirstMatch(rules: seq<Rule>, req: Request): (r: Option<Access>)
    ensures r.Some? <==> exists k :: 0 <= k < |rules| && RuleMatches(rules[k], req)
  {
    if rules == [] then None
    else if RuleMatches(rules[0], req) then Some(rules[0].access)
    else
      var r := FirstMatch(rules[1..], req);
      assert forall k :: 1 <= k < |rules| ==> rules[k] == rules[1..][k - 1];
      r
  }

  /** First match over a concatenation looks at the second table only when the first has no match. */
  lemma {:induction false} FirstMatchAppend(a: seq<Rule>, b: seq<Rule>, req: Request)
    ensures FirstMatch(a + b, req) == if FirstMatch(a, req).Some? then FirstMatch(a, req) else FirstMatch(b, req)
  {
    if a != [] {
      assert (a + b)[0] == a[0];
      assert (a + b)[1..] == a[1..] + b;
      FirstMatchAppend(a[1..], b, req);
    } else {
      assert a + b == b;
    }
  }

  /** In a table where every rule permits, the first match permits exactly when some rule matches. */
  lemma {:induction false} AllPermitting(rules: seq<Rule>, req: Request)
    requires forall k :: 0 <= k < |rules| ==> rules[k].access == PermitAll
    ensures FirstMatch(rules, req) == if exists k :: 0 <= k < |rules| && RuleMatches(rules[k], req) then Some(PermitAll) else None
  {
    if rules != [] && !RuleMatches(rules[0], req) {
      AllPermitting(rules[1..], req);
    }
  }

  /** What the table demands of a request (the last rule matches everything, so there is always one). */
  function Required(req: Request): (r: Access)
    ensures r == PermitAll <==> exists k :: 0 <= k < |PermitRules| && RuleMatches(PermitRules[k], req)
  {
    FirstMatchAppend(PermitRules, [AnyRequest], req);
    AllPermitting(PermitRules, req);
    assert RuleMatches(AnyRequest, req);
    FirstMatch(Rules, req).value
  }

  /** The public requests, written out: what the table permits without an identity. */
  predicate Public(req: Request) {
    var p := req.path;
    || (|p| >= 2 && p[..2] == ["api", "auth"])
    || (|p| >= 2 && p[..2] == ["api", "test"])
    || (|p| >= 1 && p[..1] == ["ws"])
    || req.verb == OPTIONS
    || p == ["error"]
    || (req.verb == GET && (p == ["api", "posts"]
                            || (|p| == 3 && p[..2] == ["api", "posts"])
                            || (|p| == 4 && p[..2] == ["api", "posts"] && p[3] == "comments")))
  }

  /** The table permits a request iff it is one of the public requests listed above. */
  lemma RequiredIsPublic(req: Request)
    ensures Required(req) == PermitAll <==> Public(req)
  {
    var p := req.path;
    if |p| >= 2 { assert p[..2] == [p[0], p[1]]; }
    if |p| >= 1 { assert p[..1] == [p[0]]; }
    if |p| == 1 { assert p == [p[0]]; }
    if |p| == 2 { assert p == [p[0], p[1]]; }
    if Public(req) {
      if |p| >= 2 && p[..2] == ["api", "auth"] { assert RuleMatches(PermitRules[0], req); }
      else if |p| >= 2 && p[..2] == ["api", "test"] { assert RuleMatches(PermitRules[1], req); }
      else if |p| >= 1 && p[..1] == ["ws"] { assert RuleMatches(PermitRules[2], req); }
      else if req.verb == OPTIONS { assert RuleMatches(PermitRules[3], req); }
      else if p == ["error"] { assert RuleMatches(PermitRules[4], req); }
      else if p == ["api", "posts"] { assert RuleMatches(PermitRules[5], req); }
      else if |p| == 3 { assert RuleMatches(PermitRules[6], req); }
      else { assert RuleMatches(PermitRules[7], req); }
    }
  }

  /** Every request the token filter skips is public, so skipping it never costs an identity. */
  lemma ExemptIsPublic(req: Request)
    requires Exempt(req)
    ensures Required(req) == PermitAll
  {
    RequiredIsPublic(req);
  }

  /** Only GET is public on the post paths: any other method (OPTIONS aside) needs an identity. */
  lemma PostWritesNeedIdentity(req: Request)
    requires req.verb != GET && req.verb != OPTIONS
    requires |req.path| >= 2 && req.path[..2] == ["api", "posts"]
    ensures Required(req) == Authenticated
  {
    RequiredIsPublic(req);
    assert req.path[0] == req.path[..2][0] == "api" && req.path[1] == req.path[..2][1] == "posts";
  }

  /** Paths below /api other than auth, test and posts need an identity for every method but OPTIONS. */
  lemma OtherApisNeedIdentity(req: Request)
    requires req.verb != OPTIONS
    requires |req.path| >= 2 && req.path[0] == "api" && req.path[1] != "auth" && req.path[1] != "test" && req.path[1] != "posts"
    ensures Required(req) == Authenticated
  {
    RequiredIsPublic(req);
    assert req.path[..2] == ["api", req.path[1]];
  }

  datatype Decision = Allowed | Denied401

  /**
   * The authorization step: permit-all lets anything through; authenticated() needs a
   * non-anonymous, authenticated token. No role is consulted at this layer.
   */
  function Authorize(access: Access, auth: Option<Authentication>): (d: Decision)
    ensures access == PermitAll ==> d == Allowed
    ensures auth.None? || auth == Some(Anonymous) ==> (d == Allowed <==> access == PermitAll)
  {
    match access
    case PermitAll => Allowed
    case Authenticated =>
      if auth.Some? && auth.value.Token? && auth.value.authenticated then Allowed else Denied401
  }

  /**
   * A fresh request through the chain: the token filter (placed before authorization), the
   * anonymous fallback, then the rule table.
   */
  method HandleRequest(ctx: SecurityContext, req: Request, users: map<UserId, User>,
                       valid: string -> bool, subject: string -> Option<string>) returns (d: Decision)
    requires UsersKeyed(users) && UsernamesUnique(users)
    requires ctx.authentication == None
    modifies ctx
    ensures Public(req) ==> d == Allowed
    ensures !Public(req) ==> (d == Allowed <==> TokenAuthentication(req.authorization, users, valid, subject).Some?)
    ensures ctx.authentication ==
      if !Exempt(req) && TokenAuthentication(req.authorization, users, valid, subject).Some?
      then TokenAuthentication(req.authorization, users, valid, subject)
      else Some(Anonymous)
  {
    var calls := DoFilter(ctx, req, users, valid, subject);
    if ctx.authentication.None? {
      ctx.authentication := Some(Anonymous);
    }
    RequiredIsPublic(req);
    if !Public(req) {
      if Exempt(req) { ExemptIsPublic(req); }
    }
    d := Authorize(Required(req), ctx.authentication);
  }
}
