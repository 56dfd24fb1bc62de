/** `src/middleware.js`: the Next.js middleware that lets public pages through and sends
 *  unauthenticated visitors of protected pages to the login page.
 *  `getToken` (a cookie lookup) becomes the `hasToken` field; the internationalisation
 *  middleware's own response is `Pass`. */
module Middleware {
  import opened Wrappers
  import opened Strings

  datatype Request = Request(
    pathname: string,
    hasToken: bool,
    userEmail: Option<string>,   // header X-User-Email
    userId: Option<string>,      // header X-User-ID
    referer: Option<string>)

  datatype Decision = Pass | Redirect(url: string)

  /** Pages reachable without signing in. */
  predicate IsPublicRoute(pathname: string)
  {
    pathname == "/" ||
    StartsWith(pathname, "/auth") || StartsWith(pathname, "/api") ||
    StartsWith(pathname, "/_next") || StartsWith(pathname, "/static") ||
    Contains(pathname, ".") || Contains(pathname, "/auth/login") ||
    pathname == "/favicon.ico" ||
    Contains(pathname, "/price") || Contains(pathname, "/customer") ||
    Contains(pathname, "/free") || Contains(pathname, "/success") ||
    Contains(pathname, "/fortune-entry") || Contains(pathname, "/couple-entry") ||
    Contains(pathname, "/report") || Contains(pathname, "/feng-shui-report") ||
    Contains(pathname, "/couple-report")
  }

  /** A header counts when it is present and non-empty. */
  predicate Truthy(h: Option<string>)
  {
    h.Some? && h.value != ""
  }

  predicate HasMobileSession(req: Request)
  {
    Truthy(req.userEmail) || Truthy(req.userId)
  }

  function RefererText(req: Request): string
  {
    if req.referer.Some? then req.referer.value else ""
  }

  function LoginLocale(referer: string): (r: string)
    ensures r == "zh-CN" <==> Contains(referer, "zh-CN")
    ensures r == "zh-CN" || r == "zh-TW"
  {
    if Contains(referer, "zh-CN") then "zh-CN" else "zh-TW"
  }

  function LoginPath(locale: string): string
  {
    "/" + locale + "/auth/login"
  }

  /** The middleware's decision for one request. A visitor is redirected exactly when the
   *  page is protected, there is neither a web token nor a mobile session header, the
   *  visitor did not come from the login page, and the page is a design page: the
   *  `/report` test of the guard can never fire, because every path containing `/report`
   *  is already public. */
  function Decide(req: Request): (d: Decision)
    ensures d.Redirect? <==>
      !IsPublicRoute(req.pathname) && !req.hasToken && !HasMobileSession(req) &&
      !Contains(RefererText(req), "/auth/login") && Contains(req.pathname, "/design")
    ensures IsPublicRoute(req.pathname) || req.hasToken || HasMobileSession(req) ==> d == Pass
  {
    if IsPublicRoute(req.pathname) then Pass
    else if !req.hasToken && !HasMobileSession(req) then
      var referer := RefererText(req);
      if Contains(referer, "/auth/login") then Pass
      else if !Contains(req.pathname, "/design") && !Contains(req.pathname, "/report") then Pass
      else Redirect(LoginPath(LoginLocale(referer)) + "?callbackUrl=" + req.pathname)
    else Pass
  }

  /** The redirect goes to the login page of the referer's locale and carries the
   *  requested path back as the callback. */
  lemma RedirectTarget(req: Request)
    requires Decide(req).Redirect?
    ensures var locale := if Contains(RefererText(req), "zh-CN") then "zh-CN" else "zh-TW";
      Decide(req).url == "/" + locale + "/auth/login?callbackUrl=" + req.pathname
  {
  }

  /** The login page itself is public, so following the redirect cannot loop. */
  lemma LoginPageIsPublic(locale: string, other: Request)
    requires other.pathname == LoginPath(locale)
    ensures IsPublicRoute(LoginPath(locale))
    ensures Decide(other) == Pass
  {
    ContainsInfix("/" + locale, "/auth/login", "", "/auth/login");
    assert "/" + locale + "/auth/login" + "" == LoginPath(locale);
    assert StartsWith("/auth/login", "/auth/login");
  }
}
