/** The URL access rules of the resource server in the scope-based authorisation example:
    an ordered list of (request matcher, access requirement) pairs, tried in order, the first
    match deciding, closed by an anyRequest() rule that matches everything. */
module AccessTable {
  import opened Wrappers

  /** An authenticated caller and the OAuth2 scopes its token was granted. */
  datatype Principal = Principal(scopes: set<string>)

  datatype Matcher =
    /** A single path, matched exactly. */
    | Exact(path: string)
    /** An Ant pattern ending in a double star: the path base itself and everything below it. */
    | Below(base: string)

  datatype Access = PermitAll | Authenticated | HasScope(scope: string)

  datatype Rule = Rule(matcher: Matcher, access: Access)

  /** The listed rules and the requirement of the closing anyRequest() rule. */
  datatype Table = Table(rules: seq<Rule>, anyRequest: Access)

  datatype Decision = Granted | Denied

  const ReadMessages: string := "read:messages"

  /** The configured rules: /api/public open, /api/private-scoped needing the read:messages
      scope, the rest of /api and below needing authentication, everything else open. */
  const ResourceServerTable: Table := Table(
    [ Rule(Exact("/api/public"), PermitAll),
      Rule(Exact("/api/private-scoped"), HasScope(ReadMessages)),
      Rule(Below("/api"), Authenticated) ],
    PermitAll)

  predicate Matches(m: Matcher, path: string)
  {
    match m
    case Exact(p) => path == p
    case Below(base) => path == base || base + "/" <= path
  }

  /** The position of the first rule matching path, or |rules| when none does. */
  function FirstMatch(rules: seq<Rule>, path: string): (i: nat)
    ensures i <= |rules|
    ensures i < |rules| ==> Matches(rules[i].matcher, path)
    ensures forall j :: 0 <= j < i ==> !Matches(rules[j].matcher, path)
  {
    if rules == [] then 0
    else if Matches(rules[0].matcher, path) then 0
    else 1 + FirstMatch(rules[1..], path)
  }

  predicate Satisfies(a: Access, principal: Option<Principal>)
  {
    match a
    case PermitAll => true
    case Authenticated => principal.Some?
    case HasScope(s) => principal.Some? && s in principal.value.scopes
  }

  /** The decision for a request to path by principal (None: an anonymous request). */
  function Decide(t: Table, path: string, principal: Option<Principal>): Decision
  {
    var i := FirstMatch(t.rules, path);
    var access := if i < |t.rules| then t.rules[i].access else t.anyRequest;
    if Satisfies(access, principal) then Granted else Denied
  }

  /** The first matching rule decides, whatever the rules after it say. */
  lemma FirstMatchDecides(t: Table, path: string, principal: Option<Principal>, i: nat)
    requires i < |t.rules| && Matches(t.rules[i].matcher, path)
    requires forall j :: 0 <= j < i ==> !Matches(t.rules[j].matcher, path)
    ensures Decide(t, path, principal) == (if Satisfies(t.rules[i].access, principal) then Granted else Denied)
  {
  }

  /** A request no listed rule matches is decided by anyRequest(). */
  lemma UnmatchedUsesAnyRequest(t: Table, path: string, principal: Option<Principal>)
    requires forall j :: 0 <= j < |t.rules| ==> !Matches(t.rules[j].matcher, path)
    ensures Decide(t, path, principal) == (if Satisfies(t.anyRequest, principal) then Granted else Denied)
  {
  }

  /** /api/public is open to everyone, with or without a principal. */
  lemma PublicAlwaysGranted(principal: Option<Principal>)
    ensures Decide(ResourceServerTable, "/api/public", principal) == Granted
  {
  }

  /** /api/private-scoped needs the read:messages scope; authentication alone is not enough. */
  lemma ScopedNeedsScope(principal: Option<Principal>)
    ensures Decide(ResourceServerTable, "/api/private-scoped", principal) == Granted
            <==> principal.Some? && ReadMessages in principal.value.scopes
  {
    var rules := ResourceServerTable.rules;
    assert !Matches(rules[0].matcher, "/api/private-scoped") by {
      assert |"/api/private-scoped"| != |"/api/public"|;
    }
    FirstMatchDecides(ResourceServerTable, "/api/private-scoped", principal, 1);
  }

  /** The scoped rule comes before the rule for everything under /api: an authenticated caller
      without the scope is denied there even though that broader rule alone would let it through. */
  lemma ScopedRuleTakesPrecedence(scopes: set<string>)
    requires ReadMessages !in scopes
    ensures Matches(Below("/api"), "/api/private-scoped") && Satisfies(Authenticated, Some(Principal(scopes)))
    ensures Decide(ResourceServerTable, "/api/private-scoped", Some(Principal(scopes))) == Denied
  {
    assert "/api/" <= "/api/private-scoped";
    ScopedNeedsScope(Some(Principal(scopes)));
  }

  /** Any other path under /api (such as /api/private) needs a principal and nothing more. */
  lemma ApiNeedsAuthentication(path: string, principal: Option<Principal>)
    requires Matches(Below("/api"), path)
    requires path != "/api/public" && path != "/api/private-scoped"
    ensures Decide(ResourceServerTable, path, principal) == Granted <==> principal.Some?
  {
    FirstMatchDecides(ResourceServerTable, path, principal, 2);
  }

  /** A path outside /api is open to everyone, so the table decides every request. */
  lemma OutsideApiGranted(path: string, principal: Option<Principal>)
    requires !Matches(Below("/api"), path)
    ensures Decide(ResourceServerTable, path, principal) == Granted
  {
  }

  /** For instance, /api/private is open to any principal and closed to anonymous requests. */
  lemma PrivateNeedsAuthentication(principal: Option<Principal>)
    ensures Decide(ResourceServerTable, "/api/private", principal) == Granted <==> principal.Some?
  {
    assert "/api/" <= "/api/private";
    assert "/api/private" != "/api/public" by { assert |"/api/private"| != |"/api/public"|; }
    assert "/api/private" != "/api/private-scoped" by { assert |"/api/private"| != |"/api/private-scoped"|; }
    ApiNeedsAuthentication("/api/private", principal);
  }
}
