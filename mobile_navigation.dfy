/** `src/utils/mobileNavigation.ts`: where `navigateMobile` sends the web view.
 *  Whether the app runs natively and the current `window.location.pathname` are
 *  parameters; the assignment to `window.location.href` is the returned URL. */
module MobileNavigation {
  import opened Strings

  const LiveServer: string := "https://www.harmoniqfengshui.com"
  const ServerRoutes: seq<string> := ["/auth/login", "/auth/signup", "/auth/callback", "/payment", "/api/"]
  const DefaultLocale: string := "zh-TW"
  const IndexHtml: string := "/index.html"

  /** Some live-server route is a prefix of the path. */
  predicate NeedsServer(path: string)
  {
    exists i :: 0 <= i < |ServerRoutes| && StartsWith(path, ServerRoutes[i])
  }

  /** `pathname.split('/')[1] || 'zh-TW'`. */
  function CurrentLocale(pathname: string): (r: string)
    ensures r != ""
    ensures '/' !in r
  {
    var parts := Split(pathname, '/');
    if |parts| > 1 && parts[1] != "" then parts[1] else DefaultLocale
  }

  /** The locale is the first segment of the current path, when there is one. */
  lemma CurrentLocaleSegment(seg: string, rest: string)
    requires seg != "" && '/' !in seg
    ensures CurrentLocale("/" + seg) == seg
    ensures CurrentLocale("/" + seg + "/" + rest) == seg
  {
    SplitCons("", '/', seg);
    SplitSingle(seg, '/');
    assert "" + ['/'] + seg == "/" + seg;
    SplitCons("", '/', seg + "/" + rest);
    SplitCons(seg, '/', rest);
    assert "" + ['/'] + (seg + ['/'] + rest) == "/" + seg + "/" + rest;
  }

  /** Without a first segment the locale falls back to Traditional Chinese. */
  lemma CurrentLocaleDefault(rest: string)
    ensures CurrentLocale("") == DefaultLocale
    ensures CurrentLocale("//" + rest) == DefaultLocale
  {
    SplitCons("", '/', "/" + rest);
    SplitCons("", '/', rest);
    assert "" + ['/'] + ("" + ['/'] + rest) == "//" + rest;
  }

  /** The local page for a path: the locale prefix unless the path already has it, then `/index.html`. */
  function LocalTarget(path: string, locale: string): (r: string)
    ensures StartsWith(r, "/" + locale)
    ensures EndsWith(r, IndexHtml)
  {
    if StartsWith(path, "/" + locale) then path + IndexHtml
    else "/" + locale + path + IndexHtml
  }

  /** `navigateMobile(path)`: the URL it assigns to `window.location.href`. */
  function NavigationTarget(path: string, isMobile: bool, pathname: string): (r: string)
  {
    if isMobile && NeedsServer(path) then LiveServer + path
    else LocalTarget(path, CurrentLocale(pathname))
  }

  /** The app leaves for the live server exactly for a server route on a native platform;
   *  otherwise it stays in the bundle under the current locale. */
  lemma NavigationRemote(path: string, isMobile: bool, pathname: string)
    ensures var r := NavigationTarget(path, isMobile, pathname);
      StartsWith(r, LiveServer) <==> isMobile && NeedsServer(path)
    ensures var r := NavigationTarget(path, isMobile, pathname);
      isMobile && NeedsServer(path) ==> r[|LiveServer|..] == path
    ensures var r := NavigationTarget(path, isMobile, pathname);
      !(isMobile && NeedsServer(path)) ==>
        StartsWith(r, "/" + CurrentLocale(pathname)) && EndsWith(r, IndexHtml)
  {
    var r := NavigationTarget(path, isMobile, pathname);
    if !(isMobile && NeedsServer(path)) {
      assert r[0] == '/' && LiveServer[0] == 'h';
    }
  }

  /** Navigating again to a local page (without its `/index.html`) lands on the same page. */
  lemma LocalTargetIdempotent(path: string, locale: string)
    ensures var r := LocalTarget(path, locale);
      LocalTarget(r[..|r| - |IndexHtml|], locale) == r
  {
    var r := LocalTarget(path, locale);
    var p := r[..|r| - |IndexHtml|];
    assert r == p + IndexHtml;
    assert p[..|"/" + locale|] == r[..|"/" + locale|];
  }

  /** A path already under one of the two locales never needs the live server, so it
   *  stays in the bundle even on a native platform. */
  lemma LocalisedPathStaysLocal(rest: string)
    ensures !NeedsServer("/zh-TW" + rest)
    ensures !NeedsServer("/zh-CN" + rest)
  {
    forall i | 0 <= i < |ServerRoutes|
      ensures !StartsWith("/zh-TW" + rest, ServerRoutes[i]) && !StartsWith("/zh-CN" + rest, ServerRoutes[i])
    {
      assert ServerRoutes[i][1] == 'a' || ServerRoutes[i][1] == 'p';
    }
  }
}
