/** src/middleware.ts: the access rule run before the pages and API routes
    it matches. Login is required on a fixed set of path prefixes; admin
    paths additionally require the admin role. The token is the signed-in
    user's session token, or None when there is none. */
module Middleware {
  import opened Common
  import opened Text

  /** The user roles of src/models/User.ts. */
  datatype Role = User | Admin

  datatype Token = Token(role: Role)

  datatype Decision =
    | RedirectToLogin(callbackUrl: string)  // to /login, returning to callbackUrl
    | RedirectHome                          // to /
    | Pass                                  // NextResponse.next()

  /** The prefixes tested for needLogin, as written: the cart page's prefix
      lacks its leading slash. */
  const LoginPrefixes: seq<string> :=
    ["/account", "/admin", "/api/admin", "cart", "/api/cart", "/checkout", "/orders", "/api/orders"]

  predicate NeedLogin(pathname: string) {
    || StartsWith(pathname, "/account")
    || StartsWith(pathname, "/admin")
    || StartsWith(pathname, "/api/admin")
    || StartsWith(pathname, "cart")
    || StartsWith(pathname, "/api/cart")
    || StartsWith(pathname, "/checkout")
    || StartsWith(pathname, "/orders")
    || StartsWith(pathname, "/api/orders")
  }

  predicate AdminPath(pathname: string) {
    StartsWith(pathname, "/admin") || StartsWith(pathname, "/api/admin")
  }

  /** The middleware's decision: without a token, a path needing login goes
      to the login page with the full path and query as callback; an admin
      path without the admin role goes home; everything else passes. */
  function Decide(pathname: string, search: string, token: Option<Token>): (d: Decision)
    ensures d.RedirectToLogin? <==> NeedLogin(pathname) && token.None?
    ensures d.RedirectToLogin? ==> d.callbackUrl == pathname + search
    ensures d == RedirectHome <==> AdminPath(pathname) && token.Some? && token.value.role != Admin
    ensures d == Pass <==>
      !(NeedLogin(pathname) && token.None?) &&
      !(AdminPath(pathname) && token != Some(Token(Admin)))
  {
    if NeedLogin(pathname) && token.None? then RedirectToLogin(pathname + search)
    else if AdminPath(pathname) && (token.None? || token.value.role != Admin) then RedirectHome
    else Pass
  }

  /** needLogin is exactly "starts with one of the listed prefixes". */
  lemma NeedLoginIff(pathname: string)
    ensures NeedLogin(pathname) <==>
      exists k :: 0 <= k < |LoginPrefixes| && StartsWith(pathname, LoginPrefixes[k])
  {
    if NeedLogin(pathname) {
      var k :=
        if StartsWith(pathname, "/account") then 0
        else if StartsWith(pathname, "/admin") then 1
        else if StartsWith(pathname, "/api/admin") then 2
        else if StartsWith(pathname, "cart") then 3
        else if StartsWith(pathname, "/api/cart") then 4
        else if StartsWith(pathname, "/checkout") then 5
        else if StartsWith(pathname, "/orders") then 6
        else 7;
      assert StartsWith(pathname, LoginPrefixes[k]);
    }
  }

  /** The cart page is not protected: a path under /cart needs no login and
      passes with or without a token. */
  lemma CartPageOpen(pathname: string, search: string, token: Option<Token>)
    requires StartsWith(pathname, "/cart")
    ensures !NeedLogin(pathname) && Decide(pathname, search, token) == Pass
  {
    assert pathname[1] == 'c' && pathname[2] == 'a';
  }

  /** The "cart" test never fires on a request path, which starts with "/". */
  lemma CartPrefixDead(pathname: string)
    requires pathname != [] && pathname[0] == '/'
    ensures !StartsWith(pathname, "cart")
  {
    assert "cart"[0] == 'c';
  }

  /** An admin path passes only with the admin role; without a token it goes
      to the login page first. */
  lemma AdminGate(pathname: string, search: string, token: Option<Token>)
    requires AdminPath(pathname)
    ensures Decide(pathname, search, token) == Pass <==> token == Some(Token(Admin))
    ensures token.None? ==> Decide(pathname, search, token) == RedirectToLogin(pathname + search)
  {
  }

  /** The paths the middleware runs on (`config.matcher`): each pattern
      `/x/:path*` matches `/x` itself and every path below it. */
  const MatchedRoots: seq<string> :=
    ["/account", "/admin", "/api/admin", "/cart", "/api/cart", "/checkout", "/orders", "/api/orders"]

  predicate UnderRoot(pathname: string, root: string) {
    pathname == root || StartsWith(pathname, root + "/")
  }

  predicate Matched(pathname: string) {
    exists k :: 0 <= k < |MatchedRoots| && UnderRoot(pathname, MatchedRoots[k])
  }

  /** A request as a whole: unmatched paths never reach the middleware. */
  function Route(pathname: string, search: string, token: Option<Token>): (d: Decision)
    ensures !Matched(pathname) ==> d == Pass
    ensures Matched(pathname) ==> d == Decide(pathname, search, token)
  {
    if Matched(pathname) then Decide(pathname, search, token) else Pass
  }

  /** A path under a root starts with it. */
  lemma UnderRootStartsWith(pathname: string, root: string)
    requires UnderRoot(pathname, root)
    ensures StartsWith(pathname, root)
  {
    if pathname != root {
      assert (root + "/")[..|root|] == root;
      assert pathname[..|root|] == (root + "/")[..|root|];
    }
  }

  /** Of the matched paths, every one but the cart page's needs login. */
  lemma MatchedNeedLogin(pathname: string)
    requires Matched(pathname)
    ensures NeedLogin(pathname) <==> !UnderRoot(pathname, "/cart")
  {
    if UnderRoot(pathname, "/cart") {
      UnderRootStartsWith(pathname, "/cart");
      CartPageOpen(pathname, "", None);
    } else {
      var k :| 0 <= k < |MatchedRoots| && UnderRoot(pathname, MatchedRoots[k]);
      UnderRootStartsWith(pathname, MatchedRoots[k]);
      assert k != 3;
      assert MatchedRoots[k] == LoginPrefixes[k];
    }
  }
}
